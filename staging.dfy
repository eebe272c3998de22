/**
 The staging DR script, which restores from an AWS Backup recovery point.

 Each script function is given twice. A function over `World` says what the function
 does to the cloud and what it returns. A method of the same shape issues the calls
 one by one on a `CloudState` and is proved to agree with that function. The lemmas
 then state the script's guarantees over the call log: order, early exit and the
 DNS guard.
 */
module Staging {
  import opened Settings
  import opened Cloud
  import opened Latest

  function CreationDate(p: RecoveryPoint): int { p.creationDate }

  /** `sorted(recovery_points, key=CreationDate, reverse=True)[0]["RecoveryPointArn"]`, or
      `None` when there are no recovery points. */
  function NewestRecoveryPoint(points: seq<RecoveryPoint>): (r: Option<string>)
    ensures r.None? <==> points == []
    ensures r.Some? ==> exists k :: IsLatest(points, CreationDate, k) && r.value == points[k].arn
    ensures r.Some? ==> r.value == points[LatestIndex(points, CreationDate)].arn
  {
    if points == [] then None
    else
      SortDescHead(points, CreationDate);
      Some(SortDesc(points, CreationDate)[0].arn)
  }

  /** The newer of two points wins; of two points with the same date, the one listed first. */
  lemma NewestRecoveryPointExamples()
    ensures NewestRecoveryPoint([RecoveryPoint("rp-1", 20240101), RecoveryPoint("rp-2", 20240201)]) == Some("rp-2")
    ensures NewestRecoveryPoint([RecoveryPoint("rp-3", 20240301), RecoveryPoint("rp-4", 20240301)]) == Some("rp-3")
  {
  }

  /** `get_latest_backup_snapshot`: one listing call; a failed call or an empty listing
      exits with status 1, otherwise the newest point's ARN is returned. */
  function LocateLatest(env: Env, w: World, cfg: Config): (r: (World, Flow<string>))
    ensures w.log <= r.0.log && Issued(w, r.0) == [ListRecoveryPoints(cfg.clusterId)]
    ensures r.0.cluster == w.cluster && r.0.instance == w.instance
    ensures r.1.Halt? ==> r.1.outcome == Exited(1)
    ensures r.1.Continue? <==> |w.log| !in env.faults && env.points != []
    ensures r.1.Continue? ==> Some(r.1.value) == NewestRecoveryPoint(env.points)
  {
    var (w1, reply) := Apply(env, w, ListRecoveryPoints(cfg.clusterId));
    (w1, match reply
      case Points(points) =>
        (match NewestRecoveryPoint(points)
         case Some(arn) => Continue(arn)
         case None => Halt(Exited(1)))
      case _ => Halt(Exited(1)))
  }

  /** The calls of the `try` block of `restore_cluster_from_snapshot`, up to the post-restore
      report: restore pinned to `az`, wait, create the instance, wait. */
  function RestoreCalls(cfg: Config, arn: string, az: string): seq<Call> {
    [ RestoreCluster(RestoreRequest(cfg.clusterId, arn, cfg.engine, cfg.engineVersion, cfg.subnetGroup,
                                    [cfg.securityGroup], [az], Some(false), Some(true), [])),
      Wait(ClusterAvailable, cfg.clusterId),
      CreateInstance(InstanceRequest(cfg.instanceId, cfg.instanceClass, cfg.engine, cfg.clusterId, Some(false), None)),
      Wait(InstanceAvailable, cfg.instanceId) ]
  }

  /** The calls of a restore that succeeds and is followed by the DNS update: the restore
      sequence, the describe of `print_post_restore_info`, the describe of
      `update_dns_record` and the CNAME upsert. */
  function CutoverCalls(cfg: Config, arn: string, az: string, endpoint: string): seq<Call> {
    RestoreCalls(cfg, arn, az)
    + [DescribeClusters(cfg.clusterId), DescribeClusters(cfg.clusterId),
       ChangeRecordSets(cfg.hostedZoneId, UpsertCname(cfg.recordName, endpoint))]
  }

  /** `print_post_restore_info`: one describe call whose failure is swallowed. */
  function PostRestoreInfo(env: Env, w: World, cfg: Config): (w': World)
    ensures w'.cluster == w.cluster && w'.instance == w.instance
    ensures w.log <= w'.log && Issued(w, w') == [DescribeClusters(cfg.clusterId)]
  {
    Apply(env, w, DescribeClusters(cfg.clusterId)).0
  }

  /** `restore_cluster_from_snapshot`: an unusable zone choice exits before any call; any
      failure inside the `try` block exits with status 1. */
  function Restore(env: Env, w: World, cfg: Config, arn: string, choice: string): (r: (World, Flow<()>))
    ensures ZoneFor(cfg, choice).None? ==> r == (w, Halt(Exited(1)))
    ensures r.1.Halt? ==> r.1.outcome == Exited(1)
    ensures w.log <= r.0.log
  {
    match ZoneFor(cfg, choice)
    case None => (w, Halt(Exited(1)))
    case Some(az) =>
      RunAllTrace(env, w, RestoreCalls(cfg, arn, az));
      var (w1, e) := RunAll(env, w, RestoreCalls(cfg, arn, az));
      if e.Some? then (w1, Halt(Exited(1))) else (PostRestoreInfo(env, w1, cfg), Continue(()))
  }

  /** The calls of `destroy_dr_cluster`. */
  function DestroyCalls(cfg: Config): seq<Call> {
    [ DeleteInstance(cfg.instanceId, true),
      Wait(InstanceDeleted, cfg.instanceId),
      DeleteCluster(cfg.clusterId, true),
      Wait(ClusterDeleted, cfg.clusterId) ]
  }

  /** `destroy_dr_cluster`: every failure, a missing resource included, exits with status 1. */
  function Teardown(env: Env, w: World, cfg: Config): (r: (World, Flow<()>))
    ensures r.1.Halt? ==> r.1.outcome == Exited(1)
    ensures w.log <= r.0.log
  {
    RunAllTrace(env, w, DestroyCalls(cfg));
    var (w1, e) := RunAll(env, w, DestroyCalls(cfg));
    (w1, if e.Some? then Halt(Exited(1)) else Continue(()))
  }

  /** `update_dns_record`: describe the cluster, then UPSERT the record to its first endpoint;
      any failure, an empty cluster list included, exits with status 1. */
  function DnsCutover(env: Env, w: World, cfg: Config): (r: (World, Flow<()>))
    ensures r.1.Halt? ==> r.1.outcome == Exited(1)
    ensures r.0.cluster == w.cluster && r.0.instance == w.instance
    ensures w.log <= r.0.log
    ensures Issued(w, r.0) == [DescribeClusters(cfg.clusterId)] ||
            Issued(w, r.0) == [DescribeClusters(cfg.clusterId),
                               ChangeRecordSets(cfg.hostedZoneId, UpsertCname(cfg.recordName, env.endpoint))]
    ensures r.1.Continue? ==>
      r.0.log == w.log + [ Event(DescribeClusters(cfg.clusterId), Clusters([ClusterDescription(env.endpoint)])),
                           Event(ChangeRecordSets(cfg.hostedZoneId, UpsertCname(cfg.recordName, env.endpoint)), Accepted) ]
    ensures w.cluster && Healthy(env, |w.log|, 2) ==> r.1.Continue?
  {
    var (w1, reply) := Apply(env, w, DescribeClusters(cfg.clusterId));
    match reply
    case Clusters(clusters) =>
      if clusters == [] then (w1, Halt(Exited(1)))
      else
        var (w2, reply2) :=
          Apply(env, w1, ChangeRecordSets(cfg.hostedZoneId, UpsertCname(cfg.recordName, clusters[0].endpoint)));
        (w2, if reply2.Failed? then Halt(Exited(1)) else Continue(()))
    case _ => (w1, Halt(Exited(1)))
  }

  /** The decision `check_existing_cluster` takes on the reply of its describe call. */
  function ExistsFromReply(reply: Reply): (r: Flow<bool>)
    ensures r == Continue(true) <==> reply.Clusters? && reply.clusters != []
    ensures r == Continue(false) <==> reply == Failed(NotFound) || reply == Clusters([])
    ensures r.Halt? <==> reply == Failed(Other) || reply.Accepted? || reply.Points? || reply.Snapshots?
    ensures r.Halt? ==> r.outcome == Exited(1)
  {
    match reply
    case Clusters(clusters) => Continue(clusters != [])
    case Failed(NotFound) => Continue(false)
    case _ => Halt(Exited(1))
  }

  /** `check_existing_cluster` against the cloud: it reports the cluster's presence unless a
      fault hits the describe call; an injected not-found reads as absent, any other fault
      exits with status 1. */
  function ExistenceCheck(env: Env, w: World, cfg: Config): (r: (World, Flow<bool>))
    ensures r.0.cluster == w.cluster && r.0.instance == w.instance
    ensures w.log <= r.0.log && Issued(w, r.0) == [DescribeClusters(cfg.clusterId)]
    ensures |w.log| !in env.faults ==> r.1 == Continue(w.cluster)
    ensures |w.log| in env.faults ==>
      r.1 == if env.faults[|w.log|] == NotFound then Continue(false) else Halt(Exited(1))
  {
    var (w1, reply) := Apply(env, w, DescribeClusters(cfg.clusterId));
    (w1, ExistsFromReply(reply))
  }

  /** The create path of the `__main__` block once the snapshot is known: restore, then
      update DNS when the flag is set. */
  function RestoreThenCutover(env: Env, w: World, cfg: Config, arn: string, choice: string, updateDns: bool): (r: (World, Outcome))
    ensures w.log <= r.0.log
    ensures r.1 == Completed || r.1 == Exited(1)
  {
    var (w1, restored) := Restore(env, w, cfg, arn, choice);
    if restored.Halt? then (w1, restored.outcome)
    else if !updateDns then (w1, Completed)
    else
      var (w2, cut) := DnsCutover(env, w1, cfg);
      (w2, if cut.Halt? then cut.outcome else Completed)
  }

  /** The create path of the `__main__` block once the existence check found no cluster:
      locate the newest recovery point, then restore and update DNS. */
  function RestoreLatest(env: Env, w: World, cfg: Config, choice: string, updateDns: bool): (r: (World, Outcome))
    ensures w.log <= r.0.log
    ensures r.1 == Completed || r.1 == Exited(1)
  {
    var (w1, located) := LocateLatest(env, w, cfg);
    if located.Halt? then (w1, located.outcome)
    else RestoreThenCutover(env, w1, cfg, located.value, choice, updateDns)
  }

  /** The `__main__` block. */
  function Workflow(env: Env, w: World, cfg: Config, action: Action, choice: string, updateDns: bool): (r: (World, Outcome))
    ensures w.log <= r.0.log
    ensures r.1 == Completed || r.1 == Exited(0) || r.1 == Exited(1)
    ensures action == Create && w.cluster && |w.log| !in env.faults ==>
      && r.1 == Exited(0) && r.0.cluster && r.0.instance == w.instance
      && r.0.log == w.log + [Event(DescribeClusters(cfg.clusterId), Clusters([ClusterDescription(env.endpoint)]))]
  {
    match action
    case Create =>
      var (w1, exists_) := ExistenceCheck(env, w, cfg);
      if exists_.Halt? then (w1, exists_.outcome)
      else if exists_.value then (w1, Exited(0))
      else RestoreLatest(env, w1, cfg, choice, updateDns)
    case Destroy =>
      var (w1, destroyed) := Teardown(env, w, cfg);
      (w1, if destroyed.Halt? then destroyed.outcome else Completed)
  }

  // ---------------------------------------------------------------------------
  // Properties of the run
  // ---------------------------------------------------------------------------

  /** The restore either issues its whole sequence in order (ending with the post-restore
      describe), or stops with status 1 at the first failing step and issues nothing after it;
      an unusable zone choice issues nothing at all. */
  lemma RestoreTrace(env: Env, w: World, cfg: Config, arn: string, choice: string)
    ensures var (w', f) := Restore(env, w, cfg, arn, choice);
      && w.log <= w'.log
      && (ZoneFor(cfg, choice).None? ==> Issued(w, w') == [])
      && (ZoneFor(cfg, choice).Some? ==>
            var issued := Issued(w, w');
            && (f.Continue? ==>
                  && issued == RestoreCalls(cfg, arn, ZoneFor(cfg, choice).value) + [DescribeClusters(cfg.clusterId)]
                  && forall i :: |w.log| <= i < |w.log| + 4 ==> !w'.log[i].reply.Failed?)
            && (f.Halt? ==>
                  && f.outcome == Exited(1)
                  && 0 < |issued| <= 4
                  && issued == RestoreCalls(cfg, arn, ZoneFor(cfg, choice).value)[..|issued|]
                  && w'.log[|w'.log| - 1].reply.Failed?
                  && forall i :: |w.log| <= i < |w'.log| - 1 ==> !w'.log[i].reply.Failed?))
  {
    if ZoneFor(cfg, choice).Some? {
      var az := ZoneFor(cfg, choice).value;
      var calls := RestoreCalls(cfg, arn, az);
      RunAllTrace(env, w, calls);
      var (w1, e) := RunAll(env, w, calls);
      if e.None? {
        IssuedConcat(w, w1, PostRestoreInfo(env, w1, cfg));
      }
    }
  }

  /** In the calls a restore issues, the cluster restore names the cluster and the chosen
      recovery point and is pinned to the chosen zone; the instance request names the cluster
      and is not zone-pinned. */
  lemma RestoreRequestArguments(env: Env, w: World, cfg: Config, arn: string, choice: string)
    ensures var (w', f) := Restore(env, w, cfg, arn, choice);
      var issued := Issued(w, w');
      && (|issued| >= 1 ==>
            && ZoneFor(cfg, choice).Some?
            && issued[0].RestoreCluster?
            && issued[0].restore.clusterId == cfg.clusterId
            && issued[0].restore.snapshotId == arn
            && issued[0].restore.zones == [ZoneFor(cfg, choice).value])
      && (|issued| >= 3 ==>
            && issued[2].CreateInstance?
            && issued[2].create.clusterId == cfg.clusterId
            && issued[2].create.zone == None)
  {
    RestoreTrace(env, w, cfg, arn, choice);
  }

  /** A cluster waiter that fails (a timeout, say) ends the run with status 1 and the
      instance is never requested. */
  lemma ClusterWaitFailureSkipsInstance(env: Env, w: World, cfg: Config, arn: string, choice: string)
    requires ZoneFor(cfg, choice).Some?
    requires !w.cluster && |w.log| !in env.faults && |w.log| + 1 in env.faults
    ensures var (w', f) := Restore(env, w, cfg, arn, choice);
      && f == Halt(Exited(1))
      && w.log <= w'.log
      && Issued(w, w') == [RestoreCalls(cfg, arn, ZoneFor(cfg, choice).value)[0], Wait(ClusterAvailable, cfg.clusterId)]
      && forall c :: c in Issued(w, w') ==> !c.CreateInstance?
  {
    var calls := RestoreCalls(cfg, arn, ZoneFor(cfg, choice).value);
    var (w1, r1) := Apply(env, w, calls[0]);
    RunAllCons(env, w, calls[0], calls[1..]);
    RunAllCons(env, w1, calls[1], calls[2..]);
    RestoreTrace(env, w, cfg, arn, choice);
  }

  /** On a healthy cloud without the cluster, the restore leaves both resources present. */
  lemma RestoreOnHealthyCloud(env: Env, w: World, cfg: Config, arn: string, choice: string)
    requires ZoneFor(cfg, choice).Some?
    requires !w.cluster && !w.instance && Healthy(env, |w.log|, 5)
    ensures var (w', f) := Restore(env, w, cfg, arn, choice);
      f == Continue(()) && w'.cluster && w'.instance
  {
    var calls := RestoreCalls(cfg, arn, ZoneFor(cfg, choice).value);
    var w1 := Apply(env, w, calls[0]).0;
    var w2 := Apply(env, w1, calls[1]).0;
    var w3 := Apply(env, w2, calls[2]).0;
    var w4 := Apply(env, w3, calls[3]).0;
    RunAllCons(env, w, calls[0], calls[1..]);
    RunAllCons(env, w1, calls[1], calls[2..]);
    RunAllCons(env, w2, calls[2], calls[3..]);
    RunAllCons(env, w3, calls[3], []);
  }

  /** The teardown issues delete instance, wait, delete cluster, wait, in that order, and
      stops with status 1 at the first failure, a missing resource included. */
  lemma TeardownTrace(env: Env, w: World, cfg: Config)
    ensures var (w', f) := Teardown(env, w, cfg);
      var issued := Issued(w, w');
      && 0 < |issued| <= 4
      && issued == DestroyCalls(cfg)[..|issued|]
      && (f.Continue? <==> issued == DestroyCalls(cfg) && !w'.log[|w'.log| - 1].reply.Failed?)
      && (f.Halt? ==> f.outcome == Exited(1) && w'.log[|w'.log| - 1].reply.Failed?)
      && forall i :: |w.log| <= i < |w'.log| - 1 ==> !w'.log[i].reply.Failed?
  {
    RunAllTrace(env, w, DestroyCalls(cfg));
  }

  /** Unlike the other script, a missing instance is not tolerated: the run exits with
      status 1 after the one delete call, and the cluster is left in place. */
  lemma TeardownMissingInstanceExits(env: Env, w: World, cfg: Config)
    requires !w.instance && |w.log| !in env.faults
    ensures var (w', f) := Teardown(env, w, cfg);
      && f == Halt(Exited(1))
      && Issued(w, w') == [DeleteInstance(cfg.instanceId, true)]
      && w'.cluster == w.cluster
  {
    RunAllCons(env, w, DestroyCalls(cfg)[0], DestroyCalls(cfg)[1..]);
  }

  /** On a healthy cloud holding both resources, the teardown removes both. */
  lemma TeardownOnHealthyCloud(env: Env, w: World, cfg: Config)
    requires w.cluster && w.instance && Healthy(env, |w.log|, 4)
    ensures var (w', f) := Teardown(env, w, cfg);
      f == Continue(()) && !w'.cluster && !w'.instance
  {
    var calls := DestroyCalls(cfg);
    var w1 := Apply(env, w, calls[0]).0;
    var w2 := Apply(env, w1, calls[1]).0;
    var w3 := Apply(env, w2, calls[2]).0;
    RunAllCons(env, w, calls[0], calls[1..]);
    RunAllCons(env, w1, calls[1], calls[2..]);
    RunAllCons(env, w2, calls[2], calls[3..]);
    RunAllCons(env, w3, calls[3], []);
  }

  /** The destroy path issues nothing but the teardown sequence: no snapshot lookup, no
      restore and no DNS change, whatever the DNS flag says. */
  lemma DestroyNeverTouchesDns(env: Env, w: World, cfg: Config, choice: string, updateDns: bool)
    ensures var (w', o) := Workflow(env, w, cfg, Destroy, choice, updateDns);
      var issued := Issued(w, w');
      && |issued| <= 4
      && issued == DestroyCalls(cfg)[..|issued|]
      && !TouchesDns(issued)
      && (o == Completed || o == Exited(1))
  {
    TeardownTrace(env, w, cfg);
  }

  /** After the restore, the DNS record is changed only with the flag set and only once the
      whole restore sequence has succeeded; the change is the CNAME upsert to the endpoint. */
  lemma CutoverOnlyAfterRestore(env: Env, w: World, cfg: Config, arn: string, choice: string, updateDns: bool)
    ensures var (w', o) := RestoreThenCutover(env, w, cfg, arn, choice, updateDns);
      && w.log <= w'.log
      && (TouchesDns(Issued(w, w')) ==>
            && updateDns && ZoneFor(cfg, choice).Some?
            && Issued(w, w') == CutoverCalls(cfg, arn, ZoneFor(cfg, choice).value, env.endpoint)
            && forall i :: |w.log| <= i < |w.log| + 4 ==> !w'.log[i].reply.Failed?)
  {
    var (w1, restored) := Restore(env, w, cfg, arn, choice);
    if restored.Halt? || !updateDns {
      RestoreIssuesNoDns(env, w, cfg, arn, choice);
    } else {
      RestoreTrace(env, w, cfg, arn, choice);
      CutoverAfterRestore(env, w, w1, cfg, RestoreCalls(cfg, arn, ZoneFor(cfg, choice).value));
    }
  }

  /** The DNS update after a restore that issued `calls` and the post-restore describe, none
      of `calls` failing: if it changes a record, that is the only change, as the last call. */
  lemma CutoverAfterRestore(env: Env, w: World, w1: World, cfg: Config, calls: seq<Call>)
    requires w.log <= w1.log && Issued(w, w1) == calls + [DescribeClusters(cfg.clusterId)]
    requires !TouchesDns(calls)
    requires forall i :: |w.log| <= i < |w.log| + |calls| ==> !w1.log[i].reply.Failed?
    ensures var (w2, cut) := DnsCutover(env, w1, cfg);
      && w.log <= w2.log
      && (TouchesDns(Issued(w, w2)) ==>
            && Issued(w, w2) ==
                 calls + [DescribeClusters(cfg.clusterId), DescribeClusters(cfg.clusterId),
                          ChangeRecordSets(cfg.hostedZoneId, UpsertCname(cfg.recordName, env.endpoint))]
            && forall i :: |w.log| <= i < |w.log| + |calls| ==> !w2.log[i].reply.Failed?)
  {
    var w2 := DnsCutover(env, w1, cfg).0;
    DescribeThenChange(w, w1, w2, calls, DescribeClusters(cfg.clusterId),
                       ChangeRecordSets(cfg.hostedZoneId, UpsertCname(cfg.recordName, env.endpoint)));
  }

  /** Calls that change no record and did not fail, then a describe `d`, then either `d` alone
      or `d` and a record change `c`: a record change makes the trace end with `d, d, c`. */
  lemma DescribeThenChange(w: World, w1: World, w2: World, calls: seq<Call>, d: Call, c: Call)
    requires w.log <= w1.log && w1.log <= w2.log
    requires Issued(w, w1) == calls + [d] && !TouchesDns(calls) && !d.ChangeRecordSets?
    requires Issued(w1, w2) == [d] || Issued(w1, w2) == [d, c]
    requires forall i :: |w.log| <= i < |w.log| + |calls| ==> !w1.log[i].reply.Failed?
    ensures w.log <= w2.log
    ensures TouchesDns(Issued(w, w2)) ==>
      && Issued(w, w2) == calls + [d, d, c]
      && forall i :: |w.log| <= i < |w.log| + |calls| ==> !w2.log[i].reply.Failed?
  {
    IssuedConcat(w, w1, w2);
    TouchesDnsConcat(calls, [d]);
    TouchesDnsConcat(Issued(w, w1), Issued(w1, w2));
    assert !TouchesDns([d]) by { assert [d][0] == d; }
    if Issued(w1, w2) == [d, c] {
      assert (calls + [d]) + [d, c] == calls + [d, d, c];
      forall i | |w.log| <= i < |w.log| + |calls|
        ensures !w2.log[i].reply.Failed?
      {
        assert w2.log[i] == w1.log[i];
      }
    }
  }

  lemma RestoreIssuesNoDns(env: Env, w: World, cfg: Config, arn: string, choice: string)
    ensures var (w', f) := Restore(env, w, cfg, arn, choice);
      w.log <= w'.log && !TouchesDns(Issued(w, w'))
  {
    RestoreTrace(env, w, cfg, arn, choice);
    var issued := Issued(w, Restore(env, w, cfg, arn, choice).0);
    forall i | 0 <= i < |issued|
      ensures !issued[i].ChangeRecordSets?
    {
    }
  }

  /** The DNS record is changed only on the create path with the flag set, after the
      existence check found no cluster, the newest recovery point was located and the
      whole restore sequence succeeded. */
  lemma DnsOnlyAfterRestore(env: Env, w: World, cfg: Config, action: Action, choice: string, updateDns: bool)
    ensures var (w', o) := Workflow(env, w, cfg, action, choice, updateDns);
      && w.log <= w'.log
      && (TouchesDns(Issued(w, w')) ==>
            && action == Create && updateDns
            && ZoneFor(cfg, choice).Some? && NewestRecoveryPoint(env.points).Some?
            && Issued(w, w') ==
                 [DescribeClusters(cfg.clusterId), ListRecoveryPoints(cfg.clusterId)]
                 + CutoverCalls(cfg, NewestRecoveryPoint(env.points).value, ZoneFor(cfg, choice).value, env.endpoint)
            && forall i :: |w.log| + 2 <= i < |w.log| + 6 ==> !w'.log[i].reply.Failed?)
  {
    match action
    case Destroy =>
      DestroyNeverTouchesDns(env, w, cfg, choice, updateDns);
    case Create =>
      CreateDnsTrace(env, w, cfg, choice, updateDns);
  }

  /** The create half of `DnsOnlyAfterRestore`. */
  lemma CreateDnsTrace(env: Env, w: World, cfg: Config, choice: string, updateDns: bool)
    ensures var (w', o) := Workflow(env, w, cfg, Create, choice, updateDns);
      && w.log <= w'.log
      && (TouchesDns(Issued(w, w')) ==>
            && updateDns
            && ZoneFor(cfg, choice).Some? && NewestRecoveryPoint(env.points).Some?
            && Issued(w, w') ==
                 [DescribeClusters(cfg.clusterId), ListRecoveryPoints(cfg.clusterId)]
                 + CutoverCalls(cfg, NewestRecoveryPoint(env.points).value, ZoneFor(cfg, choice).value, env.endpoint)
            && forall i :: |w.log| + 2 <= i < |w.log| + 6 ==> !w'.log[i].reply.Failed?)
  {
    var (w1, exists_) := ExistenceCheck(env, w, cfg);
    var w' := Workflow(env, w, cfg, Create, choice, updateDns).0;
    if exists_.Halt? || exists_.value {
      assert w' == w1;
    } else {
      assert w' == RestoreLatest(env, w1, cfg, choice, updateDns).0;
      LatestDnsTrace(env, w1, cfg, choice, updateDns);
      if ZoneFor(cfg, choice).None? || NewestRecoveryPoint(env.points).None? {
        assert !TouchesDns(Issued(w1, w'));
        NoDnsAfterCheck(w, w1, w', cfg);
      } else {
        CheckThenTrace(w, w1, w', cfg, updateDns,
                       CutoverCalls(cfg, NewestRecoveryPoint(env.points).value, ZoneFor(cfg, choice).value, env.endpoint));
      }
    }
  }

  /** The existence check followed by a stretch that changes no record changes no record. */
  lemma NoDnsAfterCheck(w: World, w1: World, w': World, cfg: Config)
    requires w.log <= w1.log && w1.log <= w'.log
    requires Issued(w, w1) == [DescribeClusters(cfg.clusterId)] && !TouchesDns(Issued(w1, w'))
    ensures w.log <= w'.log && !TouchesDns(Issued(w, w'))
  {
    var check := [DescribeClusters(cfg.clusterId)];
    assert !TouchesDns(check) by { assert !check[0].ChangeRecordSets?; }
    IssuedConcat(w, w1, w');
    TouchesDnsConcat(check, Issued(w1, w'));
  }

  /** The existence check followed by a stretch whose only way to change a record is the
      trace `[ListRecoveryPoints] + calls`, its steps 1 to 4 succeeding. */
  lemma CheckThenTrace(w: World, w1: World, w': World, cfg: Config, cond: bool, calls: seq<Call>)
    requires w.log <= w1.log && w1.log <= w'.log && |calls| >= 4
    requires Issued(w, w1) == [DescribeClusters(cfg.clusterId)]
    requires TouchesDns(Issued(w1, w')) ==>
      && cond
      && Issued(w1, w') == [ListRecoveryPoints(cfg.clusterId)] + calls
      && forall i :: |w1.log| + 1 <= i < |w1.log| + 5 ==> !w'.log[i].reply.Failed?
    ensures w.log <= w'.log
    ensures TouchesDns(Issued(w, w')) ==>
      && cond
      && Issued(w, w') == [DescribeClusters(cfg.clusterId), ListRecoveryPoints(cfg.clusterId)] + calls
      && forall i :: |w.log| + 2 <= i < |w.log| + 6 ==> !w'.log[i].reply.Failed?
  {
    var check := [DescribeClusters(cfg.clusterId)];
    assert !TouchesDns(check) by { assert !check[0].ChangeRecordSets?; }
    PrecededByChecks(w, w1, w', check, [ListRecoveryPoints(cfg.clusterId)] + calls, 1, 4);
    PrependTwo(DescribeClusters(cfg.clusterId), ListRecoveryPoints(cfg.clusterId), calls);
  }

  /** After the existence check, the DNS record is changed only with the flag set, after the
      listing found the newest recovery point and the whole restore sequence succeeded. */
  lemma LatestDnsTrace(env: Env, w: World, cfg: Config, choice: string, updateDns: bool)
    ensures var (w', o) := RestoreLatest(env, w, cfg, choice, updateDns);
      && w.log <= w'.log
      && (TouchesDns(Issued(w, w')) ==>
            && updateDns
            && ZoneFor(cfg, choice).Some? && NewestRecoveryPoint(env.points).Some?
            && Issued(w, w') ==
                 [ListRecoveryPoints(cfg.clusterId)]
                 + CutoverCalls(cfg, NewestRecoveryPoint(env.points).value, ZoneFor(cfg, choice).value, env.endpoint)
            && forall i :: |w.log| + 1 <= i < |w.log| + 5 ==> !w'.log[i].reply.Failed?)
  {
    var (w1, located) := LocateLatest(env, w, cfg);
    var list := [ListRecoveryPoints(cfg.clusterId)];
    assert !TouchesDns(list) by { assert !list[0].ChangeRecordSets?; }
    if located.Continue? {
      var w' := RestoreThenCutover(env, w1, cfg, located.value, choice, updateDns).0;
      CutoverOnlyAfterRestore(env, w1, cfg, located.value, choice, updateDns);
      if ZoneFor(cfg, choice).None? {
        PrecededByChecks(w, w1, w', list, [], 0, 0);
      } else {
        var calls := CutoverCalls(cfg, located.value, ZoneFor(cfg, choice).value, env.endpoint);
        PrecededByChecks(w, w1, w', list, calls, 0, 4);
      }
    }
  }

  /** Calls without a record change, issued before a stretch whose record change comes only
      in the trace `tail`, leave that the only way a record changes. */
  lemma PrecededByChecks(w: World, w2: World, w3: World, prefix: seq<Call>, tail: seq<Call>, from: nat, ok: nat)
    requires w.log <= w2.log && w2.log <= w3.log
    requires Issued(w, w2) == prefix && !TouchesDns(prefix) && from + ok <= |tail|
    requires TouchesDns(Issued(w2, w3)) ==>
      && Issued(w2, w3) == tail
      && forall i :: |w2.log| + from <= i < |w2.log| + from + ok ==> !w3.log[i].reply.Failed?
    ensures w.log <= w3.log
    ensures TouchesDns(Issued(w, w3)) ==>
      && Issued(w, w3) == prefix + tail
      && forall i :: |w.log| + |prefix| + from <= i < |w.log| + |prefix| + from + ok ==> !w3.log[i].reply.Failed?
  {
    IssuedConcat(w, w2, w3);
    TouchesDnsConcat(prefix, Issued(w2, w3));
  }

  /** Without the DNS flag no run changes a DNS record. */
  lemma NoDnsWithoutFlag(env: Env, w: World, cfg: Config, action: Action, choice: string)
    ensures var (w', o) := Workflow(env, w, cfg, action, choice, false);
      w.log <= w'.log && !TouchesDns(Issued(w, w'))
  {
    DnsOnlyAfterRestore(env, w, cfg, action, choice, false);
  }

  /** A create run on a healthy cloud without the cluster restores it, creates the instance
      and, with the flag set, points the record at the new endpoint; the run completes. */
  lemma CreateOnHealthyCloud(env: Env, w: World, cfg: Config, choice: string)
    requires ZoneFor(cfg, choice).Some? && env.points != []
    requires !w.cluster && !w.instance && Healthy(env, |w.log|, 9)
    ensures var (w', o) := Workflow(env, w, cfg, Create, choice, true);
      && o == Completed && ExitStatus(o) == 0
      && w'.cluster && w'.instance
      && w'.log[|w'.log| - 1] ==
           Event(ChangeRecordSets(cfg.hostedZoneId, UpsertCname(cfg.recordName, env.endpoint)), Accepted)
  {
    var (w1, exists_) := ExistenceCheck(env, w, cfg);
    var (w2, located) := LocateLatest(env, w1, cfg);
    assert |w1.log| == |w.log| + 1 && |w2.log| == |w.log| + 2;
    var (w3, restored) := Restore(env, w2, cfg, located.value, choice);
    RestoreOnHealthyCloud(env, w2, cfg, located.value, choice);
    RestoreTrace(env, w2, cfg, located.value, choice);
    assert |w3.log| == |w.log| + 7;
  }

  /** Without the DNS flag, and on every destroy, the hosted zones end as they began. */
  lemma RecordsUnchangedWithoutCutover(env: Env, w: World, cfg: Config, action: Action, choice: string, updateDns: bool,
                                       zone: map<RecordKey, RecordSet>, hostedZoneId: string)
    requires action == Destroy || !updateDns
    ensures var (w', o) := Workflow(env, w, cfg, action, choice, updateDns);
      w.log <= w'.log && RecordsAfter(zone, hostedZoneId, w'.log[|w.log|..]) == zone
  {
    DnsOnlyAfterRestore(env, w, cfg, action, choice, updateDns);
    var w' := Workflow(env, w, cfg, action, choice, updateDns).0;
    RecordsUntouched(zone, hostedZoneId, w'.log[|w.log|..]);
  }

  /** After a create with the flag on a healthy cloud, the configured record of the hosted
      zone is a CNAME with TTL 60 to the new cluster's endpoint, and no other record set of
      that zone has changed. */
  lemma CreatePointsRecordAtEndpoint(env: Env, w: World, cfg: Config, choice: string, zone: map<RecordKey, RecordSet>)
    requires ZoneFor(cfg, choice).Some? && env.points != []
    requires !w.cluster && !w.instance && Healthy(env, |w.log|, 9)
    requires CnameAllowed(zone, cfg.recordName)
    ensures var (w', o) := Workflow(env, w, cfg, Create, choice, true);
      var key := RecordKey(cfg.recordName, "CNAME");
      var zone' := RecordsAfter(zone, cfg.hostedZoneId, w'.log[|w.log|..]);
      && w.log <= w'.log
      && key in zone' && zone'[key] == RecordSet(cfg.recordName, "CNAME", 60, [env.endpoint])
      && CnameAllowed(zone', cfg.recordName)
      && forall k :: k in zone && k != key ==> k in zone' && zone'[k] == zone[k]
  {
    var w' := Workflow(env, w, cfg, Create, choice, true).0;
    CreateOnHealthyCloud(env, w, cfg, choice);
    CreateDnsTrace(env, w, cfg, choice, true);
    var issued := Issued(w, w');
    assert issued[|issued| - 1] == w'.log[|w'.log| - 1].call;
    assert TouchesDns(issued);
    CutoverTraceChangesRecordLast(cfg, NewestRecoveryPoint(env.points).value, ZoneFor(cfg, choice).value, env.endpoint);
    UpsertEndsRun(zone, cfg.hostedZoneId, w, w', cfg.recordName, env.endpoint);
  }

  /** In the calls of a create with the DNS update, only the last one changes a record. */
  lemma CutoverTraceChangesRecordLast(cfg: Config, arn: string, az: string, endpoint: string)
    ensures var calls := [DescribeClusters(cfg.clusterId), ListRecoveryPoints(cfg.clusterId)]
                         + CutoverCalls(cfg, arn, az, endpoint);
      forall i :: 0 <= i < |calls| - 1 ==> !calls[i].ChangeRecordSets?
  {
  }

  // ---------------------------------------------------------------------------
  // The script's functions as methods on the cloud
  // ---------------------------------------------------------------------------

  method GetLatestBackupSnapshot(cloud: CloudState, cfg: Config) returns (r: Flow<string>)
    modifies cloud
    ensures (cloud.State(), r) == LocateLatest(cloud.env, old(cloud.State()), cfg)
  {
    var response := cloud.Issue(ListRecoveryPoints(cfg.clusterId));
    if !response.Points? {
      return Halt(Exited(1));
    }
    var recoveryPoints := response.points;
    if recoveryPoints == [] {
      return Halt(Exited(1));
    }
    var latest := NewestRecoveryPoint(recoveryPoints);
    return Continue(latest.value);
  }

  method PrintPostRestoreInfo(cloud: CloudState, cfg: Config)
    modifies cloud
    ensures cloud.State() == PostRestoreInfo(cloud.env, old(cloud.State()), cfg)
  {
    var _ := cloud.Issue(DescribeClusters(cfg.clusterId));
  }

  method RestoreClusterFromSnapshot(cloud: CloudState, cfg: Config, arn: string, choice: string) returns (r: Flow<()>)
    modifies cloud
    ensures (cloud.State(), r) == Restore(cloud.env, old(cloud.State()), cfg, arn, choice)
  {
    var targetAz := ZoneFor(cfg, choice);
    if targetAz.None? {
      return Halt(Exited(1));
    }
    var az := targetAz.value;
    ghost var calls := RestoreCalls(cfg, arn, az);
    ghost var w0 := cloud.State();
    RunAllCons(cloud.env, w0, calls[0], calls[1..]);
    var reply := cloud.Issue(RestoreCluster(RestoreRequest(cfg.clusterId, arn, cfg.engine, cfg.engineVersion,
      cfg.subnetGroup, [cfg.securityGroup], [az], Some(false), Some(true), [])));
    if reply.Failed? {
      return Halt(Exited(1));
    }
    ghost var w1 := cloud.State();
    RunAllCons(cloud.env, w1, calls[1], calls[2..]);
    reply := cloud.Issue(Wait(ClusterAvailable, cfg.clusterId));
    if reply.Failed? {
      return Halt(Exited(1));
    }
    ghost var w2 := cloud.State();
    RunAllCons(cloud.env, w2, calls[2], calls[3..]);
    reply := cloud.Issue(CreateInstance(InstanceRequest(cfg.instanceId, cfg.instanceClass, cfg.engine,
      cfg.clusterId, Some(false), None)));
    if reply.Failed? {
      return Halt(Exited(1));
    }
    ghost var w3 := cloud.State();
    RunAllCons(cloud.env, w3, calls[3], []);
    reply := cloud.Issue(Wait(InstanceAvailable, cfg.instanceId));
    if reply.Failed? {
      return Halt(Exited(1));
    }
    PrintPostRestoreInfo(cloud, cfg);
    return Continue(());
  }

  method DestroyDrCluster(cloud: CloudState, cfg: Config) returns (r: Flow<()>)
    modifies cloud
    ensures (cloud.State(), r) == Teardown(cloud.env, old(cloud.State()), cfg)
  {
    ghost var calls := DestroyCalls(cfg);
    ghost var w0 := cloud.State();
    RunAllCons(cloud.env, w0, calls[0], calls[1..]);
    var reply := cloud.Issue(DeleteInstance(cfg.instanceId, true));
    if reply.Failed? {
      return Halt(Exited(1));
    }
    ghost var w1 := cloud.State();
    RunAllCons(cloud.env, w1, calls[1], calls[2..]);
    reply := cloud.Issue(Wait(InstanceDeleted, cfg.instanceId));
    if reply.Failed? {
      return Halt(Exited(1));
    }
    ghost var w2 := cloud.State();
    RunAllCons(cloud.env, w2, calls[2], calls[3..]);
    reply := cloud.Issue(DeleteCluster(cfg.clusterId, true));
    if reply.Failed? {
      return Halt(Exited(1));
    }
    ghost var w3 := cloud.State();
    RunAllCons(cloud.env, w3, calls[3], []);
    reply := cloud.Issue(Wait(ClusterDeleted, cfg.clusterId));
    if reply.Failed? {
      return Halt(Exited(1));
    }
    return Continue(());
  }

  method UpdateDnsRecord(cloud: CloudState, cfg: Config) returns (r: Flow<()>)
    modifies cloud
    ensures (cloud.State(), r) == DnsCutover(cloud.env, old(cloud.State()), cfg)
  {
    var clusterInfo := cloud.Issue(DescribeClusters(cfg.clusterId));
    if !clusterInfo.Clusters? || clusterInfo.clusters == [] {
      return Halt(Exited(1));
    }
    var endpoint := clusterInfo.clusters[0].endpoint;
    var reply := cloud.Issue(ChangeRecordSets(cfg.hostedZoneId, UpsertCname(cfg.recordName, endpoint)));
    if reply.Failed? {
      return Halt(Exited(1));
    }
    return Continue(());
  }

  method CheckExistingCluster(cloud: CloudState, cfg: Config) returns (r: Flow<bool>)
    modifies cloud
    ensures (cloud.State(), r) == ExistenceCheck(cloud.env, old(cloud.State()), cfg)
  {
    var clusters := cloud.Issue(DescribeClusters(cfg.clusterId));
    match clusters {
      case Clusters(list) =>
        if list != [] {
          return Continue(true);
        }
      case Failed(NotFound) =>
        return Continue(false);
      case _ =>
        return Halt(Exited(1));
    }
    return Continue(false);
  }

  method RunWorkflow(cloud: CloudState, cfg: Config, action: Action, choice: string, updateDns: bool)
    returns (outcome: Outcome)
    modifies cloud
    ensures (cloud.State(), outcome) == Workflow(cloud.env, old(cloud.State()), cfg, action, choice, updateDns)
  {
    match action {
      case Create =>
        var exists_ := CheckExistingCluster(cloud, cfg);
        if exists_.Halt? {
          return exists_.outcome;
        }
        if exists_.value {
          return Exited(0);
        }
        var snapshotArn := GetLatestBackupSnapshot(cloud, cfg);
        if snapshotArn.Halt? {
          return snapshotArn.outcome;
        }
        var restored := RestoreClusterFromSnapshot(cloud, cfg, snapshotArn.value, choice);
        if restored.Halt? {
          return restored.outcome;
        }
        if updateDns {
          var cut := UpdateDnsRecord(cloud, cfg);
          if cut.Halt? {
            return cut.outcome;
          }
        }
      case Destroy =>
        var destroyed := DestroyDrCluster(cloud, cfg);
        if destroyed.Halt? {
          return destroyed.outcome;
        }
    }
    return Completed;
  }
}
