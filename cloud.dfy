/**
 An abstract model of the remote cloud both scripts drive through boto3: the backup
 catalog, the RDS control plane and Route 53.

 The remote state has three parts: whether the DR cluster exists, whether its instance
 exists, and the log of every call issued so far together with its reply. What the
 scripts cannot control is an environment `Env`: the recovery points and manual
 snapshots that listing calls return, the endpoint a restored cluster gets, and the
 faults the cloud injects, keyed by the position of the call in the log (a waiter that
 times out, a throttled request, a permission error, ...). A fault leaves the state
 unchanged. Without a fault, deleting or describing a missing resource fails with
 `NotFound` and a call that conflicts with the state fails with `Other`.
 */
module Cloud {
  import opened Settings

  /** The two failure kinds the scripts tell apart: a *NotFoundFault, and any other error. */
  datatype ErrorKind = NotFound | Other

  datatype Tag = Tag(key: string, value: string)

  /** An AWS Backup recovery point; `creationDate` is a timestamp. */
  datatype RecoveryPoint = RecoveryPoint(arn: string, creationDate: int)

  /** A manual RDS cluster snapshot; `tagList` is `None` when the listing has no `TagList`. */
  datatype ClusterSnapshot = ClusterSnapshot(identifier: string, createTime: int, tagList: Option<seq<Tag>>)

  datatype ClusterDescription = ClusterDescription(endpoint: string)

  /** The arguments of `restore_db_cluster_from_snapshot`; `zones` is `AvailabilityZones`
      (empty when the argument is not passed), the options are `None` when not passed. */
  datatype RestoreRequest = RestoreRequest(
    clusterId: string,
    snapshotId: string,
    engine: string,
    engineVersion: string,
    subnetGroup: string,
    securityGroups: seq<string>,
    zones: seq<string>,
    deletionProtection: Option<bool>,
    copyTagsToSnapshot: Option<bool>,
    tags: seq<Tag>)

  /** The arguments of `create_db_instance`; `zone` is `AvailabilityZone`. */
  datatype InstanceRequest = InstanceRequest(
    instanceId: string,
    instanceClass: string,
    engine: string,
    clusterId: string,
    publiclyAccessible: Option<bool>,
    zone: Option<string>)

  datatype Waiter = ClusterAvailable | InstanceAvailable | InstanceDeleted | ClusterDeleted

  datatype RecordSet = RecordSet(name: string, recordType: string, ttl: int, values: seq<string>)
  datatype Change = Change(action: string, recordSet: RecordSet)
  datatype ChangeBatch = ChangeBatch(changes: seq<Change>)

  datatype Call =
    | ListRecoveryPoints(clusterId: string)
    | DescribeClusterSnapshots(snapshotType: string)
    | DescribeClusters(clusterId: string)
    | RestoreCluster(restore: RestoreRequest)
    | CreateInstance(create: InstanceRequest)
    | DeleteInstance(instanceId: string, skipFinalSnapshot: bool)
    | DeleteCluster(clusterId: string, skipFinalSnapshot: bool)
    | Wait(waiter: Waiter, id: string)
    | ChangeRecordSets(hostedZoneId: string, batch: ChangeBatch)

  datatype Reply =
    | Accepted
    | Clusters(clusters: seq<ClusterDescription>)
    | Points(points: seq<RecoveryPoint>)
    | Snapshots(snapshots: seq<ClusterSnapshot>)
    | Failed(kind: ErrorKind)

  datatype Event = Event(call: Call, reply: Reply)

  datatype World = World(cluster: bool, instance: bool, log: seq<Event>)

  datatype Env = Env(
    points: seq<RecoveryPoint>,
    snapshots: seq<ClusterSnapshot>,
    endpoint: string,
    faults: map<nat, ErrorKind>)

  /** Why a run raised instead of exiting: a remote error, or a lookup in a reply that
      lacks the element looked up (a `KeyError` or `IndexError`, as `["DBClusters"][0]` of an empty list). */
  datatype Cause = Remote(kind: ErrorKind) | MissingField

  /** How a run ends: it reaches the end of the script, it calls `sys.exit(code)`, or an
      exception escapes the script. */
  datatype Outcome = Completed | Exited(code: int) | Raised(cause: Cause)

  /** Either the value a script function returns, or the end of the whole run. */
  datatype Flow<T> = Continue(value: T) | Halt(outcome: Outcome)

  /** The process exit status of an outcome: an escaping exception exits with status 1. */
  function ExitStatus(o: Outcome): (code: int)
    ensures code == 0 <==> o == Completed || o == Exited(0)
    ensures code == 1 <==> o.Raised? || o == Exited(1)
    ensures o.Exited? ==> code == o.code
  {
    match o
    case Completed => 0
    case Exited(c) => c
    case Raised(_) => 1
  }

  /** What a call does to a healthy cloud: the new cluster and instance presence, and the reply. */
  function Respond(env: Env, w: World, call: Call): (bool, bool, Reply) {
    match call
    case ListRecoveryPoints(_) => (w.cluster, w.instance, Points(env.points))
    case DescribeClusterSnapshots(_) => (w.cluster, w.instance, Snapshots(env.snapshots))
    case DescribeClusters(_) =>
      if w.cluster then (w.cluster, w.instance, Clusters([ClusterDescription(env.endpoint)]))
      else (w.cluster, w.instance, Failed(NotFound))
    case RestoreCluster(_) =>
      if w.cluster then (w.cluster, w.instance, Failed(Other)) else (true, w.instance, Accepted)
    case CreateInstance(_) =>
      if !w.cluster then (w.cluster, w.instance, Failed(NotFound))
      else if w.instance then (w.cluster, w.instance, Failed(Other))
      else (w.cluster, true, Accepted)
    case DeleteInstance(_, _) =>
      if w.instance then (w.cluster, false, Accepted) else (w.cluster, w.instance, Failed(NotFound))
    case DeleteCluster(_, _) =>
      if !w.cluster then (w.cluster, w.instance, Failed(NotFound))
      else if w.instance then (w.cluster, w.instance, Failed(Other))
      else (false, w.instance, Accepted)
    case Wait(waiter, _) =>
      var reached := match waiter
        case ClusterAvailable => w.cluster
        case InstanceAvailable => w.instance
        case InstanceDeleted => !w.instance
        case ClusterDeleted => !w.cluster;
      (w.cluster, w.instance, if reached then Accepted else Failed(Other))
    case ChangeRecordSets(_, _) => (w.cluster, w.instance, Accepted)
  }

  /** Issuing one call: it is appended to the log with its reply; a failed call changes nothing else. */
  function Apply(env: Env, w: World, call: Call): (r: (World, Reply))
    ensures r.0.log == w.log + [Event(call, r.1)]
    ensures r.1.Failed? ==> r.0.cluster == w.cluster && r.0.instance == w.instance
    ensures |w.log| in env.faults ==> r.1 == Failed(env.faults[|w.log|])
  {
    var (cluster, instance, reply) :=
      if |w.log| in env.faults then (w.cluster, w.instance, Failed(env.faults[|w.log|]))
      else Respond(env, w, call);
    (World(cluster, instance, w.log + [Event(call, reply)]), reply)
  }

  /** No fault is injected at log positions `from` up to (not including) `from + n`. */
  ghost predicate Healthy(env: Env, from: nat, n: nat) {
    forall i: nat :: from <= i < from + n ==> i !in env.faults
  }

  /** The calls of a stretch of the log, in order. */
  function CallsOf(events: seq<Event>): (cs: seq<Call>)
    ensures |cs| == |events|
    ensures forall i :: 0 <= i < |events| ==> cs[i] == events[i].call
  {
    seq(|events|, i requires 0 <= i < |events| => events[i].call)
  }

  /** The calls issued between two states of the same run. */
  ghost function Issued(w: World, w': World): seq<Call>
    requires w.log <= w'.log
  {
    CallsOf(w'.log[|w.log|..])
  }

  lemma IssuedConcat(w1: World, w2: World, w3: World)
    requires w1.log <= w2.log && w2.log <= w3.log
    ensures w1.log <= w3.log
    ensures Issued(w1, w3) == Issued(w1, w2) + Issued(w2, w3)
  {
    assert w3.log[|w1.log|..] == w2.log[|w1.log|..] + w3.log[|w2.log|..];
  }

  /** Two calls issued one after the other in front of a trace, as one prefix. */
  lemma PrependTwo<T>(a: T, b: T, s: seq<T>)
    ensures [a] + ([b] + s) == [a, b] + s
  {
  }

  /** Some call in `calls` changes a Route 53 record set. */
  ghost predicate TouchesDns(calls: seq<Call>) {
    exists i :: 0 <= i < |calls| && calls[i].ChangeRecordSets?
  }

  lemma TouchesDnsConcat(a: seq<Call>, b: seq<Call>)
    ensures TouchesDns(a + b) <==> TouchesDns(a) || TouchesDns(b)
  {
    if TouchesDns(a) {
      var i :| 0 <= i < |a| && a[i].ChangeRecordSets?;
      assert (a + b)[i] == a[i];
    }
    if TouchesDns(b) {
      var i :| 0 <= i < |b| && b[i].ChangeRecordSets?;
      assert (a + b)[|a| + i] == b[i];
    }
    if TouchesDns(a + b) {
      var i :| 0 <= i < |a + b| && (a + b)[i].ChangeRecordSets?;
      if i < |a| {
        assert a[i] == (a + b)[i];
      } else {
        assert b[i - |a|] == (a + b)[i];
      }
    }
  }

  /** Issues `calls` in order and stops at the first one that fails, with its kind: the
      shape of a `try` block around a sequence of remote calls. */
  function RunAll(env: Env, w: World, calls: seq<Call>): (World, Option<ErrorKind>)
    decreases |calls|
  {
    if calls == [] then (w, None)
    else
      var (w1, reply) := Apply(env, w, calls[0]);
      if reply.Failed? then (w1, Some(reply.kind)) else RunAll(env, w1, calls[1..])
  }

  /** The events `ev` of a stretch of the log are a prefix of `calls`, issued in order, in
      which only the last may have failed, and it has exactly when `e` is an error. */
  ghost predicate StoppedAt(ev: seq<Event>, calls: seq<Call>, e: Option<ErrorKind>) {
    && |ev| <= |calls|
    && CallsOf(ev) == calls[..|ev|]
    && (e.None? ==> |ev| == |calls|)
    && (e.Some? ==> |ev| > 0 && ev[|ev| - 1].reply == Failed(e.value))
    && (forall i :: 0 <= i < |ev| ==> (ev[i].reply.Failed? <==> e.Some? && i == |ev| - 1))
  }

  /** What `RunAll` leaves in the log between `w` and `w'`. */
  ghost predicate StoppedAtFirstFailure(w: World, w': World, calls: seq<Call>, e: Option<ErrorKind>) {
    w.log <= w'.log && StoppedAt(w'.log[|w.log|..], calls, e)
  }

  lemma {:induction false} RunAllTrace(env: Env, w: World, calls: seq<Call>)
    ensures StoppedAtFirstFailure(w, RunAll(env, w, calls).0, calls, RunAll(env, w, calls).1)
    decreases |calls|
  {
    if calls != [] {
      var (w1, reply) := Apply(env, w, calls[0]);
      if !reply.Failed? {
        RunAllTrace(env, w1, calls[1..]);
        var w' := RunAll(env, w1, calls[1..]).0;
        assert w'.log[|w.log|..] == [w1.log[|w.log|]] + w'.log[|w1.log|..];
        StoppedCons(w1.log[|w.log|], w'.log[|w1.log|..], calls, RunAll(env, w1, calls[1..]).1);
      }
    }
  }

  /** A call that succeeded, followed by a stretch that stopped at its first failure, is a
      stretch that stopped at its first failure. */
  lemma StoppedCons(head: Event, tail: seq<Event>, calls: seq<Call>, e: Option<ErrorKind>)
    requires calls != [] && head.call == calls[0] && !head.reply.Failed?
    requires StoppedAt(tail, calls[1..], e)
    ensures StoppedAt([head] + tail, calls, e)
  {
    assert calls[..|tail| + 1] == [calls[0]] + calls[1..][..|tail|];
    assert CallsOf([head] + tail) == [head.call] + CallsOf(tail);
  }

  /** One step of `RunAll`, for proofs that follow a script call by call. */
  lemma RunAllCons(env: Env, w: World, c: Call, rest: seq<Call>)
    ensures RunAll(env, w, [c] + rest) ==
      var (w1, reply) := Apply(env, w, c);
      if reply.Failed? then (w1, Some(reply.kind)) else RunAll(env, w1, rest)
  {
    assert ([c] + rest)[1..] == rest;
  }

  /** The single-change batch both scripts send to Route 53: UPSERT a CNAME record named
      `name`, TTL 60 seconds, whose one value is `endpoint`. */
  function UpsertCname(name: string, endpoint: string): ChangeBatch {
    ChangeBatch([Change("UPSERT", RecordSet(name, "CNAME", 60, [endpoint]))])
  }

  /** A hosted zone's record sets, keyed by name and type. */
  datatype RecordKey = RecordKey(name: string, recordType: string)

  /** `zone` holds no record set of another type at `name`: a CNAME upsert there is one that
      Route 53 accepts rather than rejecting the batch as conflicting. */
  ghost predicate CnameAllowed(zone: map<RecordKey, RecordSet>, name: string) {
    forall k :: k in zone && k.name == name ==> k.recordType == "CNAME"
  }

  /** How Route 53 applies a change batch: an UPSERT creates or replaces the record set of
      that name and type. No other action is sent by these scripts; they leave the zone as is. */
  function ApplyChanges(zone: map<RecordKey, RecordSet>, changes: seq<Change>): map<RecordKey, RecordSet>
    decreases |changes|
  {
    if changes == [] then zone
    else
      var c := changes[0];
      var zone' := if c.action == "UPSERT"
        then zone[RecordKey(c.recordSet.name, c.recordSet.recordType) := c.recordSet]
        else zone;
      ApplyChanges(zone', changes[1..])
  }

  /** After the batch, `name` is a CNAME with TTL 60 resolving to `endpoint` alone, and every
      other record set is untouched. */
  lemma UpsertCnamePointsAtEndpoint(zone: map<RecordKey, RecordSet>, name: string, endpoint: string)
    ensures var zone' := ApplyChanges(zone, UpsertCname(name, endpoint).changes);
      && RecordKey(name, "CNAME") in zone'
      && zone'[RecordKey(name, "CNAME")] == RecordSet(name, "CNAME", 60, [endpoint])
      && zone'.Keys == zone.Keys + {RecordKey(name, "CNAME")}
      && forall k :: k in zone && k != RecordKey(name, "CNAME") ==> zone'[k] == zone[k]
  {
    var changes := UpsertCname(name, endpoint).changes;
    assert changes[1..] == [];
  }

  /** The record sets of hosted zone `hostedZoneId`, starting from `zone`, after the changes
      to that hosted zone which Route 53 accepted among `events`. */
  function RecordsAfter(zone: map<RecordKey, RecordSet>, hostedZoneId: string, events: seq<Event>): map<RecordKey, RecordSet>
    decreases |events|
  {
    if events == [] then zone
    else
      var e := events[0];
      var zone' := if e.call.ChangeRecordSets? && e.call.hostedZoneId == hostedZoneId && e.reply == Accepted
        then ApplyChanges(zone, e.call.batch.changes)
        else zone;
      RecordsAfter(zone', hostedZoneId, events[1..])
  }

  lemma {:induction false} RecordsAfterConcat(zone: map<RecordKey, RecordSet>, hostedZoneId: string, a: seq<Event>, b: seq<Event>)
    ensures RecordsAfter(zone, hostedZoneId, a + b) ==
            RecordsAfter(RecordsAfter(zone, hostedZoneId, a), hostedZoneId, b)
    decreases |a|
  {
    if a == [] {
      assert a + b == b;
    } else {
      var e := a[0];
      var zone' := if e.call.ChangeRecordSets? && e.call.hostedZoneId == hostedZoneId && e.reply == Accepted
        then ApplyChanges(zone, e.call.batch.changes)
        else zone;
      RecordsAfterConcat(zone', hostedZoneId, a[1..], b);
      assert (a + b)[1..] == a[1..] + b;
    }
  }

  /** A stretch of the log without any record change leaves every hosted zone as it was. */
  lemma {:induction false} RecordsUntouched(zone: map<RecordKey, RecordSet>, hostedZoneId: string, events: seq<Event>)
    requires !TouchesDns(CallsOf(events))
    ensures RecordsAfter(zone, hostedZoneId, events) == zone
    decreases |events|
  {
    if events != [] {
      assert !CallsOf(events)[0].ChangeRecordSets?;
      forall i | 0 <= i < |events| - 1
        ensures !CallsOf(events[1..])[i].ChangeRecordSets?
      {
        assert CallsOf(events[1..])[i] == CallsOf(events)[i + 1];
      }
      RecordsUntouched(zone, hostedZoneId, events[1..]);
    }
  }

  /** An accepted CNAME upsert as the only record change of a stretch of the log, into a zone
      that holds no other type at that name, leaves the record pointing at its endpoint, adds
      no other record set and leaves every other one as it was; the name still holds only
      the CNAME. */
  lemma UpsertLast(zone: map<RecordKey, RecordSet>, hostedZoneId: string, before: seq<Event>, name: string, endpoint: string)
    requires !TouchesDns(CallsOf(before)) && CnameAllowed(zone, name)
    ensures var zone' := RecordsAfter(zone, hostedZoneId,
                           before + [Event(ChangeRecordSets(hostedZoneId, UpsertCname(name, endpoint)), Accepted)]);
      && RecordKey(name, "CNAME") in zone'
      && zone'[RecordKey(name, "CNAME")] == RecordSet(name, "CNAME", 60, [endpoint])
      && zone'.Keys == zone.Keys + {RecordKey(name, "CNAME")}
      && CnameAllowed(zone', name)
      && forall k :: k in zone && k != RecordKey(name, "CNAME") ==> k in zone' && zone'[k] == zone[k]
  {
    var last := [Event(ChangeRecordSets(hostedZoneId, UpsertCname(name, endpoint)), Accepted)];
    RecordsAfterConcat(zone, hostedZoneId, before, last);
    RecordsUntouched(zone, hostedZoneId, before);
    assert last[1..] == [];
    UpsertCnamePointsAtEndpoint(zone, name, endpoint);
  }

  /** Between two states of a run whose only record change is an accepted CNAME upsert as
      the last call, the record ends pointing at its endpoint and nothing else changes. */
  lemma UpsertEndsRun(zone: map<RecordKey, RecordSet>, hostedZoneId: string, w: World, w': World, name: string, endpoint: string)
    requires w.log <= w'.log && |w.log| < |w'.log|
    requires w'.log[|w'.log| - 1] == Event(ChangeRecordSets(hostedZoneId, UpsertCname(name, endpoint)), Accepted)
    requires forall i :: 0 <= i < |Issued(w, w')| - 1 ==> !Issued(w, w')[i].ChangeRecordSets?
    requires CnameAllowed(zone, name)
    ensures var zone' := RecordsAfter(zone, hostedZoneId, w'.log[|w.log|..]);
      && RecordKey(name, "CNAME") in zone'
      && zone'[RecordKey(name, "CNAME")] == RecordSet(name, "CNAME", 60, [endpoint])
      && zone'.Keys == zone.Keys + {RecordKey(name, "CNAME")}
      && CnameAllowed(zone', name)
      && forall k :: k in zone && k != RecordKey(name, "CNAME") ==> k in zone' && zone'[k] == zone[k]
  {
    var events := w'.log[|w.log|..];
    var before := events[..|events| - 1];
    assert events == before + [events[|events| - 1]];
    forall i | 0 <= i < |before|
      ensures !CallsOf(before)[i].ChangeRecordSets?
    {
      assert CallsOf(before)[i] == Issued(w, w')[i];
    }
    UpsertLast(zone, hostedZoneId, before, name, endpoint);
  }

  /** The remote cloud as the scripts see it: mutable presence flags and a call log that
      each remote call extends. */
  class CloudState {
    const env: Env
    var cluster: bool
    var instance: bool
    var log: seq<Event>

    constructor (env: Env, cluster: bool, instance: bool)
      ensures this.env == env
      ensures State() == World(cluster, instance, [])
    {
      this.env := env;
      this.cluster := cluster;
      this.instance := instance;
      this.log := [];
    }

    function State(): World
      reads this
    {
      World(cluster, instance, log)
    }

    /** Issues one remote call and returns its reply. */
    method Issue(call: Call) returns (reply: Reply)
      modifies this
      ensures (State(), reply) == Apply(env, old(State()), call)
    {
      var (w, r) := Apply(env, State(), call);
      cluster, instance, log := w.cluster, w.instance, w.log;
      reply := r;
    }
  }
}
