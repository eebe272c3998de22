/**
 The DR script that restores from a tagged manual cluster snapshot.

 It is laid out like the staging script's model: a function over `World` per script
 function, a method issuing the same calls on a `CloudState` proved to agree with it,
 and lemmas over the call log. Most of its calls sit in no `try` block, so a remote
 error escapes as an exception (`Raised`) rather than a `sys.exit(1)`.
 */
module TagRestore {
  import opened Settings
  import opened Cloud
  import opened Latest

  function SnapshotCreateTime(s: ClusterSnapshot): int { s.createTime }

  /** `s.get("TagList", [])`. */
  function TagsOf(s: ClusterSnapshot): seq<Tag> {
    match s.tagList
    case None => []
    case Some(tags) => tags
  }

  /** Some tag of the snapshot has exactly the configured key and value. An unset key or
      value matches no tag, since a tag's key and value are strings. */
  predicate HasMarker(s: ClusterSnapshot, key: Option<string>, value: Option<string>)
    ensures HasMarker(s, key, value) ==> key.Some? && value.Some? && s.tagList.Some? && s.tagList.value != []
  {
    exists t :: t in TagsOf(s) && Some(t.key) == key && Some(t.value) == value
  }

  /** The filter of `get_latest_snapshot`'s list comprehension. */
  function Marked(key: Option<string>, value: Option<string>): ClusterSnapshot -> bool {
    s => HasMarker(s, key, value)
  }

  /** `get_latest_snapshot`'s choice: the identifier of the first element of the marked
      snapshots sorted newest first, or `None` when no snapshot is marked. */
  function NewestTagged(snaps: seq<ClusterSnapshot>, key: Option<string>, value: Option<string>): Option<string> {
    var filtered := Filter(snaps, Marked(key, value));
    if filtered == [] then None
    else Some(SortDesc(filtered, SnapshotCreateTime)[0].identifier)
  }

  /** No identifier is chosen exactly when no snapshot carries the marker tag; otherwise the
      chosen one is that of the earliest-listed marked snapshot with the latest create time
      among the marked ones. */
  lemma NewestTaggedIsNewest(snaps: seq<ClusterSnapshot>, key: Option<string>, value: Option<string>)
    ensures var r := NewestTagged(snaps, key, value);
      && (r.None? <==> forall i :: 0 <= i < |snaps| ==> !HasMarker(snaps[i], key, value))
      && (r.Some? ==>
            exists k :: IsLatestKept(snaps, Marked(key, value), SnapshotCreateTime, k) && r.value == snaps[k].identifier)
  {
    var filtered := Filter(snaps, Marked(key, value));
    if filtered != [] {
      SortDescHead(filtered, SnapshotCreateTime);
      LatestOfFilter(snaps, Marked(key, value), SnapshotCreateTime);
    }
  }

  /** `get_latest_snapshot`: a failed listing raises, a listing with no marked snapshot exits
      with status 1, otherwise the newest marked snapshot's identifier is returned. */
  function LocateLatest(env: Env, w: World, cfg: Config): (r: (World, Flow<string>))
    ensures w.log <= r.0.log && Issued(w, r.0) == [DescribeClusterSnapshots("manual")]
    ensures r.0.cluster == w.cluster && r.0.instance == w.instance
    ensures |w.log| in env.faults ==> r.1 == Halt(Raised(Remote(env.faults[|w.log|])))
    ensures |w.log| !in env.faults ==>
      r.1 == match NewestTagged(env.snapshots, cfg.snapshotTagKey, cfg.snapshotTagValue)
             case None => Halt(Exited(1))
             case Some(id) => Continue(id)
  {
    var (w1, reply) := Apply(env, w, DescribeClusterSnapshots("manual"));
    (w1, match reply
      case Snapshots(snapshots) =>
        (match NewestTagged(snapshots, cfg.snapshotTagKey, cfg.snapshotTagValue)
         case Some(id) => Continue(id)
         case None => Halt(Exited(1)))
      case Failed(kind) => Halt(Raised(Remote(kind)))
      case _ => Halt(Raised(MissingField)))
  }

  /** The restore request of `create_dr_cluster`: no zone pin, a `CreatedBy` tag. */
  function RestoreRequestFor(cfg: Config, snapshotId: string): RestoreRequest {
    RestoreRequest(cfg.clusterId, snapshotId, cfg.engine, cfg.engineVersion, cfg.subnetGroup,
                   [cfg.securityGroup], [], None, None, [Tag("CreatedBy", "GitHubActions")])
  }

  /** The instance request of `create_dr_cluster`, pinned to `az`. */
  function InstanceRequestFor(cfg: Config, az: string): InstanceRequest {
    InstanceRequest(cfg.instanceId, cfg.instanceClass, cfg.engine, cfg.clusterId, None, Some(az))
  }

  /** `create_dr_cluster`: locate the snapshot, restore, then check the zone choice and create
      the instance. Nothing is awaited, and the zone is checked only after the restore. */
  function Provision(env: Env, w: World, cfg: Config, choice: string): (r: (World, Flow<()>))
    ensures w.log <= r.0.log
    ensures r.1.Halt? ==> r.1.outcome == Exited(1) || r.1.outcome.Raised?
  {
    var (w1, located) := LocateLatest(env, w, cfg);
    if located.Halt? then (w1, Halt(located.outcome))
    else RestoreAndPlace(env, w1, cfg, located.value, choice)
  }

  /** The rest of `create_dr_cluster` once the snapshot is known: restore, check the zone
      choice, create the instance. */
  function RestoreAndPlace(env: Env, w: World, cfg: Config, snapshotId: string, choice: string): (r: (World, Flow<()>))
    ensures w.log <= r.0.log
    ensures r.1.Halt? ==> r.1.outcome == Exited(1) || r.1.outcome.Raised?
  {
    var (w1, restored) := Apply(env, w, RestoreCluster(RestoreRequestFor(cfg, snapshotId)));
    if restored.Failed? then (w1, Halt(Raised(Remote(restored.kind))))
    else
      match ZoneFor(cfg, choice)
      case None => (w1, Halt(Exited(1)))
      case Some(az) =>
        var (w2, created) := Apply(env, w1, CreateInstance(InstanceRequestFor(cfg, az)));
        (w2, if created.Failed? then Halt(Raised(Remote(created.kind))) else Continue(()))
  }

  /** `delete_dr_cluster`: a not-found on either delete is tolerated; any other error escapes,
      and after a failed instance delete the cluster delete is not attempted. */
  function Teardown(env: Env, w: World, cfg: Config): (r: (World, Flow<()>))
    ensures w.log <= r.0.log
    ensures var issued := Issued(w, r.0);
      && (issued == [DeleteInstance(cfg.instanceId, true)] ||
          issued == [DeleteInstance(cfg.instanceId, true), DeleteCluster(cfg.clusterId, true)])
      && (|issued| == 1 <==> r.0.log[|w.log|].reply == Failed(Other))
      && (r.1.Continue? <==> |issued| == 2 && r.0.log[|w.log| + 1].reply != Failed(Other))
    ensures r.1.Halt? ==> r.1.outcome == Raised(Remote(Other))
  {
    var (w1, r1) := Apply(env, w, DeleteInstance(cfg.instanceId, true));
    if r1 == Failed(Other) then (w1, Halt(Raised(Remote(Other))))
    else
      var (w2, r2) := Apply(env, w1, DeleteCluster(cfg.clusterId, true));
      (w2, if r2 == Failed(Other) then Halt(Raised(Remote(Other))) else Continue(()))
  }

  /** `update_dns_record`: describe the cluster, then UPSERT the record to its first endpoint;
      every error escapes as an exception. */
  function DnsCutover(env: Env, w: World, cfg: Config): (r: (World, Flow<()>))
    ensures r.0.cluster == w.cluster && r.0.instance == w.instance
    ensures w.log <= r.0.log
    ensures Issued(w, r.0) == [DescribeClusters(cfg.clusterId)] ||
            Issued(w, r.0) == [DescribeClusters(cfg.clusterId),
                               ChangeRecordSets(cfg.hostedZoneId, UpsertCname(cfg.recordName, env.endpoint))]
    ensures r.1.Continue? ==>
      Issued(w, r.0) == [DescribeClusters(cfg.clusterId),
                         ChangeRecordSets(cfg.hostedZoneId, UpsertCname(cfg.recordName, env.endpoint))]
    ensures r.1.Halt? ==> r.1.outcome.Raised?
    ensures !w.cluster && |w.log| !in env.faults ==> r.1 == Halt(Raised(Remote(NotFound)))
    ensures w.cluster && Healthy(env, |w.log|, 2) ==> r.1.Continue?
  {
    var (w1, reply) := Apply(env, w, DescribeClusters(cfg.clusterId));
    match reply
    case Clusters(clusters) =>
      if clusters == [] then (w1, Halt(Raised(MissingField)))
      else
        var (w2, reply2) :=
          Apply(env, w1, ChangeRecordSets(cfg.hostedZoneId, UpsertCname(cfg.recordName, clusters[0].endpoint)));
        (w2, if reply2.Failed? then Halt(Raised(Remote(reply2.kind))) else Continue(()))
    case Failed(kind) => (w1, Halt(Raised(Remote(kind))))
    case _ => (w1, Halt(Raised(MissingField)))
  }

  /** The `__main__` block: the action, then the DNS update when both the flag is set and the
      action is `create`. */
  function Workflow(env: Env, w: World, cfg: Config, action: Action, choice: string, updateDns: bool): (r: (World, Outcome))
    ensures w.log <= r.0.log
    ensures r.1 == Completed || r.1 == Exited(1) || r.1.Raised?
    ensures action == Destroy ==> r.1 == Completed || r.1 == Raised(Remote(Other))
  {
    var (w1, acted) := match action
      case Create => Provision(env, w, cfg, choice)
      case Destroy => Teardown(env, w, cfg);
    if acted.Halt? then (w1, acted.outcome)
    else if updateDns && action == Create then
      var (w2, cut) := DnsCutover(env, w1, cfg);
      (w2, if cut.Halt? then cut.outcome else Completed)
    else (w1, Completed)
  }

  // ---------------------------------------------------------------------------
  // Properties of the run
  // ---------------------------------------------------------------------------

  /** A completed create issues exactly: the snapshot listing, the restore from the newest
      marked snapshot with no zone pin, and the instance pinned to the chosen zone and
      parented to the cluster. There is no existence check and no waiter. */
  lemma CreateTrace(env: Env, w: World, cfg: Config, choice: string)
    ensures var (w', f) := Provision(env, w, cfg, choice);
      f.Continue? ==>
        && NewestTagged(env.snapshots, cfg.snapshotTagKey, cfg.snapshotTagValue).Some?
        && ZoneFor(cfg, choice).Some?
        && var id := NewestTagged(env.snapshots, cfg.snapshotTagKey, cfg.snapshotTagValue).value;
           var az := ZoneFor(cfg, choice).value;
           && Issued(w, w') == [ DescribeClusterSnapshots("manual"),
                                 RestoreCluster(RestoreRequestFor(cfg, id)),
                                 CreateInstance(InstanceRequestFor(cfg, az)) ]
           && RestoreRequestFor(cfg, id).snapshotId == id && RestoreRequestFor(cfg, id).zones == []
           && InstanceRequestFor(cfg, az).zone == Some(az) && InstanceRequestFor(cfg, az).clusterId == cfg.clusterId
  {
    var (w1, located) := LocateLatest(env, w, cfg);
    if located.Continue? {
      var (w2, restored) := Apply(env, w1, RestoreCluster(RestoreRequestFor(cfg, located.value)));
      IssuedConcat(w, w1, w2);
      if !restored.Failed? && ZoneFor(cfg, choice).Some? {
        var w3 := Apply(env, w2, CreateInstance(InstanceRequestFor(cfg, ZoneFor(cfg, choice).value))).0;
        IssuedConcat(w, w2, w3);
      }
    }
  }

  /** Every create issues a non-empty prefix of: the snapshot listing, the restore from the
      newest marked snapshot, and the instance request pinned to the chosen zone. */
  lemma ProvisionTrace(env: Env, w: World, cfg: Config, choice: string)
    ensures var (w', f) := Provision(env, w, cfg, choice);
      var issued := Issued(w, w');
      var id := NewestTagged(env.snapshots, cfg.snapshotTagKey, cfg.snapshotTagValue);
      && 1 <= |issued| <= 3
      && |w'.log| == |w.log| + |issued|
      && issued[0] == DescribeClusterSnapshots("manual")
      && (|issued| >= 2 ==> id.Some? && issued[1] == RestoreCluster(RestoreRequestFor(cfg, id.value)))
      && (|issued| == 3 ==>
            ZoneFor(cfg, choice).Some? && issued[2] == CreateInstance(InstanceRequestFor(cfg, ZoneFor(cfg, choice).value)))
  {
    var (w1, located) := LocateLatest(env, w, cfg);
    if located.Continue? {
      RestoreAndPlaceTrace(env, w1, cfg, located.value, choice);
      var w' := RestoreAndPlace(env, w1, cfg, located.value, choice).0;
      IssuedConcat(w, w1, w');
      assert Issued(w1, w')[0] == Issued(w, w')[1];
      assert |Issued(w1, w')| == 2 ==> Issued(w1, w')[1] == Issued(w, w')[2];
    }
  }

  /** How a create ends, read off its last call, the only one that may have failed: a failed call escapes with its error; a run
      that stops without a failed call exits with status 1 because no snapshot is marked or
      the zone choice is unusable; a completed create leaves both resources present. */
  lemma ProvisionOutcome(env: Env, w: World, cfg: Config, choice: string)
    ensures var (w', f) := Provision(env, w, cfg, choice);
      var n := |w'.log| - |w.log|;
      var last := w'.log[|w'.log| - 1].reply;
      && 1 <= n <= 3
      && (forall i :: |w.log| <= i < |w'.log| - 1 ==> !w'.log[i].reply.Failed?)
      && (last.Failed? ==> f == Halt(Raised(Remote(last.kind))))
      && (f == Halt(Exited(1)) <==> !last.Failed? && n < 3)
      && (n == 1 && !last.Failed? ==> NewestTagged(env.snapshots, cfg.snapshotTagKey, cfg.snapshotTagValue).None?)
      && (n == 2 && !last.Failed? ==> ZoneFor(cfg, choice).None?)
      && (f.Continue? <==> n == 3 && !last.Failed?)
      && (f.Continue? ==> w'.cluster && w'.instance)
  {
    var (w1, located) := LocateLatest(env, w, cfg);
    if located.Continue? {
      assert !w1.log[|w.log|].reply.Failed?;
      RestoreAndPlaceTrace(env, w1, cfg, located.value, choice);
      var w' := RestoreAndPlace(env, w1, cfg, located.value, choice).0;
      forall i | |w.log| <= i < |w'.log| - 1
        ensures !w'.log[i].reply.Failed?
      {
        if i == |w.log| {
          assert w'.log[i] == w1.log[i];
        }
      }
    }
  }

  /** The trace of `RestoreAndPlace`: a non-empty prefix of the restore and the zone-pinned
      instance request, in which only the last call may have failed. */
  lemma RestoreAndPlaceTrace(env: Env, w: World, cfg: Config, snapshotId: string, choice: string)
    ensures var (w', f) := RestoreAndPlace(env, w, cfg, snapshotId, choice);
      var issued := Issued(w, w');
      && 1 <= |issued| <= 2
      && |w'.log| == |w.log| + |issued|
      && issued[0] == RestoreCluster(RestoreRequestFor(cfg, snapshotId))
      && (|issued| == 2 ==>
            ZoneFor(cfg, choice).Some? && issued[1] == CreateInstance(InstanceRequestFor(cfg, ZoneFor(cfg, choice).value)))
      && (forall i :: |w.log| <= i < |w'.log| - 1 ==> !w'.log[i].reply.Failed?)
      && var last := w'.log[|w'.log| - 1].reply;
         && (last.Failed? ==> f == Halt(Raised(Remote(last.kind))))
         && (f == Halt(Exited(1)) <==> !last.Failed? && |issued| < 2)
         && (|issued| == 1 && !last.Failed? ==> ZoneFor(cfg, choice).None?)
         && (f.Continue? <==> |issued| == 2 && !last.Failed?)
         && (f.Continue? ==> w'.cluster && w'.instance)
  {
    var (w1, restored) := Apply(env, w, RestoreCluster(RestoreRequestFor(cfg, snapshotId)));
    if !restored.Failed? && ZoneFor(cfg, choice).Some? {
      var w2 := Apply(env, w1, CreateInstance(InstanceRequestFor(cfg, ZoneFor(cfg, choice).value))).0;
      IssuedConcat(w, w1, w2);
    }
  }

  /** A restore the cloud refuses, because the cluster already exists, escapes as an
      exception before any instance is requested; the script has no existence check. */
  lemma RestoreConflictRaises(env: Env, w: World, cfg: Config, choice: string)
    requires NewestTagged(env.snapshots, cfg.snapshotTagKey, cfg.snapshotTagValue).Some?
    requires w.cluster && Healthy(env, |w.log|, 2)
    ensures var (w', f) := Provision(env, w, cfg, choice);
      var id := NewestTagged(env.snapshots, cfg.snapshotTagKey, cfg.snapshotTagValue).value;
      && f == Halt(Raised(Remote(Other)))
      && Issued(w, w') == [DescribeClusterSnapshots("manual"), RestoreCluster(RestoreRequestFor(cfg, id))]
  {
    var (w1, located) := LocateLatest(env, w, cfg);
    var w2 := Apply(env, w1, RestoreCluster(RestoreRequestFor(cfg, located.value))).0;
    IssuedConcat(w, w1, w2);
  }

  /** An unusable zone choice is noticed only after the restore was issued: the run exits
      with status 1, the restored cluster stays behind and no instance is requested. */
  lemma InvalidZoneAfterRestore(env: Env, w: World, cfg: Config, choice: string)
    requires ZoneFor(cfg, choice).None?
    requires NewestTagged(env.snapshots, cfg.snapshotTagKey, cfg.snapshotTagValue).Some?
    requires !w.cluster && Healthy(env, |w.log|, 2)
    ensures var (w', f) := Provision(env, w, cfg, choice);
      var id := NewestTagged(env.snapshots, cfg.snapshotTagKey, cfg.snapshotTagValue).value;
      && f == Halt(Exited(1))
      && Issued(w, w') == [DescribeClusterSnapshots("manual"), RestoreCluster(RestoreRequestFor(cfg, id))]
      && w'.cluster
      && forall c :: c in Issued(w, w') ==> !c.CreateInstance?
  {
    var (w1, located) := LocateLatest(env, w, cfg);
    var w2 := Apply(env, w1, RestoreCluster(RestoreRequestFor(cfg, located.value))).0;
    IssuedConcat(w, w1, w2);
  }

  /** A missing instance does not stop the teardown: the cluster delete is still attempted. */
  lemma MissingInstanceStillDeletesCluster(env: Env, w: World, cfg: Config)
    requires !w.instance && |w.log| !in env.faults
    ensures var (w', f) := Teardown(env, w, cfg);
      Issued(w, w') == [DeleteInstance(cfg.instanceId, true), DeleteCluster(cfg.clusterId, true)]
  {
  }

  /** On a healthy cloud the teardown always completes and leaves neither resource, whatever
      was there before; in particular a rerun after a teardown completes too. */
  lemma TeardownIdempotent(env: Env, w: World, cfg: Config)
    requires Healthy(env, |w.log|, 4)
    ensures var (w1, f1) := Teardown(env, w, cfg);
      && f1 == Continue(()) && !w1.cluster && !w1.instance
      && var (w2, f2) := Teardown(env, w1, cfg);
         f2 == Continue(()) && !w2.cluster && !w2.instance && |w2.log| == |w.log| + 4
  {
    var (w1, f1) := Teardown(env, w, cfg);
    assert |w1.log| == |w.log| + 2;
  }

  /** The destroy run with both resources already gone completes with exit status 0. */
  lemma DestroyWhenAbsentCompletes(env: Env, w: World, cfg: Config, choice: string, updateDns: bool)
    requires !w.cluster && !w.instance && Healthy(env, |w.log|, 2)
    ensures var (w', o) := Workflow(env, w, cfg, Destroy, choice, updateDns);
      && o == Completed && ExitStatus(o) == 0
      && Issued(w, w') == [DeleteInstance(cfg.instanceId, true), DeleteCluster(cfg.clusterId, true)]
      && w'.cluster == w.cluster && w'.instance == w.instance
  {
  }

  /** The DNS record is changed only when the flag is set, the action is `create` and the
      create path succeeded; the change is the CNAME upsert to the cluster's endpoint. */
  lemma DnsOnlyOnCreate(env: Env, w: World, cfg: Config, action: Action, choice: string, updateDns: bool)
    ensures var (w', o) := Workflow(env, w, cfg, action, choice, updateDns);
      && w.log <= w'.log
      && (TouchesDns(Issued(w, w')) ==>
            && action == Create && updateDns
            && var (w1, f) := Provision(env, w, cfg, choice);
               && f.Continue?
               && w1.log <= w'.log
               && Issued(w1, w') == [DescribeClusters(cfg.clusterId),
                                     ChangeRecordSets(cfg.hostedZoneId, UpsertCname(cfg.recordName, env.endpoint))])
  {
    match action
    case Destroy =>
      var w1 := Teardown(env, w, cfg).0;
      assert Workflow(env, w, cfg, action, choice, updateDns).0 == w1;
      TeardownIssuesNoDns(env, w, cfg);
    case Create =>
      var (w1, acted) := Provision(env, w, cfg, choice);
      ProvisionIssuesNoDns(env, w, cfg, choice);
      if !acted.Halt? && updateDns {
        var (w2, cut) := DnsCutover(env, w1, cfg);
        IssuedConcat(w, w1, w2);
        TouchesDnsConcat(Issued(w, w1), Issued(w1, w2));
      }
  }

  lemma TeardownIssuesNoDns(env: Env, w: World, cfg: Config)
    ensures var (w', f) := Teardown(env, w, cfg);
      !TouchesDns(Issued(w, w'))
  {
    var issued := Issued(w, Teardown(env, w, cfg).0);
    assert !issued[0].ChangeRecordSets?;
    assert |issued| == 2 ==> !issued[1].ChangeRecordSets?;
  }

  /** The other half of the DNS guard: a create with the flag set whose create path
      succeeded goes on to describe the cluster; when neither DNS call meets a fault, the
      run completes with the record changed to the cluster's endpoint. */
  lemma DnsAfterCreate(env: Env, w: World, cfg: Config, choice: string)
    ensures var (w1, f) := Provision(env, w, cfg, choice);
      var (w', o) := Workflow(env, w, cfg, Create, choice, true);
      f.Continue? ==>
        && w1.log <= w'.log
        && |Issued(w1, w')| >= 1 && Issued(w1, w')[0] == DescribeClusters(cfg.clusterId)
        && (Healthy(env, |w1.log|, 2) ==>
              && o == Completed
              && Issued(w1, w') == [DescribeClusters(cfg.clusterId),
                                    ChangeRecordSets(cfg.hostedZoneId, UpsertCname(cfg.recordName, env.endpoint))]
              && TouchesDns(Issued(w, w')))
  {
    var (w1, f) := Provision(env, w, cfg, choice);
    if f.Continue? {
      ProvisionOutcome(env, w, cfg, choice);
      var (w2, cut) := DnsCutover(env, w1, cfg);
      assert Workflow(env, w, cfg, Create, choice, true) == (w2, if cut.Halt? then cut.outcome else Completed);
      CutoverAfterCreate(env, w, w1, cfg);
    }
  }

  /** The DNS update run after a create: it starts with the describe, and on a healthy cloud
      with the cluster present it ends with the upsert. */
  lemma CutoverAfterCreate(env: Env, w: World, w1: World, cfg: Config)
    requires w.log <= w1.log && w1.cluster
    ensures var (w2, cut) := DnsCutover(env, w1, cfg);
      && w.log <= w2.log
      && |Issued(w1, w2)| >= 1 && Issued(w1, w2)[0] == DescribeClusters(cfg.clusterId)
      && (Healthy(env, |w1.log|, 2) ==>
            && cut.Continue?
            && Issued(w1, w2) == [DescribeClusters(cfg.clusterId),
                                  ChangeRecordSets(cfg.hostedZoneId, UpsertCname(cfg.recordName, env.endpoint))]
            && TouchesDns(Issued(w, w2))
            && w2.log[|w2.log| - 1] ==
                 Event(ChangeRecordSets(cfg.hostedZoneId, UpsertCname(cfg.recordName, env.endpoint)), Accepted))
  {
    var w2 := DnsCutover(env, w1, cfg).0;
    IssuedConcat(w, w1, w2);
    var issued := Issued(w, w2);
    if Healthy(env, |w1.log|, 2) {
      assert issued[|issued| - 1] == Issued(w1, w2)[1];
    }
  }

  /** A create with the flag on a healthy cloud holding neither resource completes with
      status 0, leaves both resources and ends with the accepted CNAME upsert. */
  lemma CreateOnHealthyCloud(env: Env, w: World, cfg: Config, choice: string)
    requires NewestTagged(env.snapshots, cfg.snapshotTagKey, cfg.snapshotTagValue).Some?
    requires ZoneFor(cfg, choice).Some?
    requires !w.cluster && !w.instance && Healthy(env, |w.log|, 5)
    ensures var (w', o) := Workflow(env, w, cfg, Create, choice, true);
      && o == Completed && ExitStatus(o) == 0
      && w'.cluster && w'.instance
      && |w'.log| == |w.log| + 5
      && w'.log[|w'.log| - 1] ==
           Event(ChangeRecordSets(cfg.hostedZoneId, UpsertCname(cfg.recordName, env.endpoint)), Accepted)
  {
    var (w1, located) := LocateLatest(env, w, cfg);
    RestoreAndPlaceOnHealthyCloud(env, w1, cfg, located.value, choice);
    var (w2, f) := Provision(env, w, cfg, choice);
    assert f.Continue? && w2.cluster && |w2.log| == |w.log| + 3;
    var (w3, cut) := DnsCutover(env, w2, cfg);
    assert Workflow(env, w, cfg, Create, choice, true) == (w3, if cut.Halt? then cut.outcome else Completed);
    CutoverAfterCreate(env, w, w2, cfg);
  }

  /** On a healthy cloud holding neither resource, the restore and the instance request both
      succeed. */
  lemma RestoreAndPlaceOnHealthyCloud(env: Env, w: World, cfg: Config, snapshotId: string, choice: string)
    requires ZoneFor(cfg, choice).Some?
    requires !w.cluster && !w.instance && Healthy(env, |w.log|, 2)
    ensures var (w', f) := RestoreAndPlace(env, w, cfg, snapshotId, choice);
      f.Continue? && w'.cluster && w'.instance && |w'.log| == |w.log| + 2
  {
  }

  /** A create with the flag on a healthy cloud holding neither resource issues exactly the
      listing, the unpinned restore, the zone-pinned instance, the describe and the upsert. */
  lemma CreateTraceOnHealthyCloud(env: Env, w: World, cfg: Config, choice: string)
    requires NewestTagged(env.snapshots, cfg.snapshotTagKey, cfg.snapshotTagValue).Some?
    requires ZoneFor(cfg, choice).Some?
    requires !w.cluster && !w.instance && Healthy(env, |w.log|, 5)
    ensures var (w', o) := Workflow(env, w, cfg, Create, choice, true);
      var id := NewestTagged(env.snapshots, cfg.snapshotTagKey, cfg.snapshotTagValue).value;
      && w.log <= w'.log
      && Issued(w, w') == [ DescribeClusterSnapshots("manual"),
                            RestoreCluster(RestoreRequestFor(cfg, id)),
                            CreateInstance(InstanceRequestFor(cfg, ZoneFor(cfg, choice).value)),
                            DescribeClusters(cfg.clusterId),
                            ChangeRecordSets(cfg.hostedZoneId, UpsertCname(cfg.recordName, env.endpoint)) ]
  {
    var (w1, located) := LocateLatest(env, w, cfg);
    RestoreAndPlaceOnHealthyCloud(env, w1, cfg, located.value, choice);
    var (w2, f) := Provision(env, w, cfg, choice);
    assert f.Continue? && |w2.log| == |w.log| + 3;
    CreateTrace(env, w, cfg, choice);
    DnsAfterCreate(env, w, cfg, choice);
    var w' := Workflow(env, w, cfg, Create, choice, true).0;
    IssuedConcat(w, w2, w');
  }

  /** After a healthy create with the flag, the configured record of the hosted zone is a
      CNAME with TTL 60 to the cluster's endpoint, and no other record set has changed. */
  lemma CreatePointsRecordAtEndpoint(env: Env, w: World, cfg: Config, choice: string, zone: map<RecordKey, RecordSet>)
    requires NewestTagged(env.snapshots, cfg.snapshotTagKey, cfg.snapshotTagValue).Some?
    requires ZoneFor(cfg, choice).Some?
    requires !w.cluster && !w.instance && Healthy(env, |w.log|, 5)
    requires CnameAllowed(zone, cfg.recordName)
    ensures var (w', o) := Workflow(env, w, cfg, Create, choice, true);
      var key := RecordKey(cfg.recordName, "CNAME");
      var zone' := RecordsAfter(zone, cfg.hostedZoneId, w'.log[|w.log|..]);
      && w.log <= w'.log
      && key in zone' && zone'[key] == RecordSet(cfg.recordName, "CNAME", 60, [env.endpoint])
      && CnameAllowed(zone', cfg.recordName)
      && forall k :: k in zone && k != key ==> k in zone' && zone'[k] == zone[k]
  {
    var w' := Workflow(env, w, cfg, Create, choice, true).0;
    CreateOnHealthyCloud(env, w, cfg, choice);
    CreateTraceOnHealthyCloud(env, w, cfg, choice);
    FirstFourCallsChangeNoRecord(Issued(w, w'));
    UpsertEndsRun(zone, cfg.hostedZoneId, w, w', cfg.recordName, env.endpoint);
  }

  lemma FirstFourCallsChangeNoRecord(issued: seq<Call>)
    requires |issued| == 5 && issued[0].DescribeClusterSnapshots? && issued[1].RestoreCluster?
    requires issued[2].CreateInstance? && issued[3].DescribeClusters?
    ensures forall i :: 0 <= i < |issued| - 1 ==> !issued[i].ChangeRecordSets?
  {
  }

  /** A destroy, or any run without the flag, leaves every hosted zone as it was. */
  lemma RecordsUnchangedWithoutCutover(env: Env, w: World, cfg: Config, action: Action, choice: string, updateDns: bool,
                                       zone: map<RecordKey, RecordSet>, hostedZoneId: string)
    requires action == Destroy || !updateDns
    ensures var (w', o) := Workflow(env, w, cfg, action, choice, updateDns);
      w.log <= w'.log && RecordsAfter(zone, hostedZoneId, w'.log[|w.log|..]) == zone
  {
    DnsOnlyOnCreate(env, w, cfg, action, choice, updateDns);
    var w' := Workflow(env, w, cfg, action, choice, updateDns).0;
    RecordsUntouched(zone, hostedZoneId, w'.log[|w.log|..]);
  }

  lemma ProvisionIssuesNoDns(env: Env, w: World, cfg: Config, choice: string)
    ensures var (w', f) := Provision(env, w, cfg, choice);
      !TouchesDns(Issued(w, w'))
  {
    ProvisionTrace(env, w, cfg, choice);
    CreateCallsChangeNoRecord(Issued(w, Provision(env, w, cfg, choice).0));
  }

  lemma CreateCallsChangeNoRecord(issued: seq<Call>)
    requires 1 <= |issued| <= 3 && issued[0].DescribeClusterSnapshots?
    requires |issued| >= 2 ==> issued[1].RestoreCluster?
    requires |issued| == 3 ==> issued[2].CreateInstance?
    ensures !TouchesDns(issued)
  {
  }

  // ---------------------------------------------------------------------------
  // The script's functions as methods on the cloud
  // ---------------------------------------------------------------------------

  method GetLatestSnapshot(cloud: CloudState, cfg: Config) returns (r: Flow<string>)
    modifies cloud
    ensures (cloud.State(), r) == LocateLatest(cloud.env, old(cloud.State()), cfg)
  {
    var response := cloud.Issue(DescribeClusterSnapshots("manual"));
    if response.Failed? {
      return Halt(Raised(Remote(response.kind)));
    }
    if !response.Snapshots? {
      return Halt(Raised(MissingField));
    }
    var latest := NewestTagged(response.snapshots, cfg.snapshotTagKey, cfg.snapshotTagValue);
    if latest.None? {
      return Halt(Exited(1));
    }
    return Continue(latest.value);
  }

  method CreateDrCluster(cloud: CloudState, cfg: Config, choice: string) returns (r: Flow<()>)
    modifies cloud
    ensures (cloud.State(), r) == Provision(cloud.env, old(cloud.State()), cfg, choice)
  {
    var snapshotId := GetLatestSnapshot(cloud, cfg);
    if snapshotId.Halt? {
      return Halt(snapshotId.outcome);
    }
    var cluster := cloud.Issue(RestoreCluster(RestoreRequestFor(cfg, snapshotId.value)));
    if cluster.Failed? {
      return Halt(Raised(Remote(cluster.kind)));
    }
    var az := ZoneFor(cfg, choice);
    if az.None? {
      return Halt(Exited(1));
    }
    var instance := cloud.Issue(CreateInstance(InstanceRequestFor(cfg, az.value)));
    if instance.Failed? {
      return Halt(Raised(Remote(instance.kind)));
    }
    return Continue(());
  }

  method DeleteDrCluster(cloud: CloudState, cfg: Config) returns (r: Flow<()>)
    modifies cloud
    ensures (cloud.State(), r) == Teardown(cloud.env, old(cloud.State()), cfg)
  {
    var reply := cloud.Issue(DeleteInstance(cfg.instanceId, true));
    if reply == Failed(Other) {
      return Halt(Raised(Remote(Other)));
    }
    reply := cloud.Issue(DeleteCluster(cfg.clusterId, true));
    if reply == Failed(Other) {
      return Halt(Raised(Remote(Other)));
    }
    return Continue(());
  }

  method UpdateDnsRecord(cloud: CloudState, cfg: Config) returns (r: Flow<()>)
    modifies cloud
    ensures (cloud.State(), r) == DnsCutover(cloud.env, old(cloud.State()), cfg)
  {
    var clusters := cloud.Issue(DescribeClusters(cfg.clusterId));
    if clusters.Failed? {
      return Halt(Raised(Remote(clusters.kind)));
    }
    if !clusters.Clusters? || clusters.clusters == [] {
      return Halt(Raised(MissingField));
    }
    var endpoint := clusters.clusters[0].endpoint;
    var response := cloud.Issue(ChangeRecordSets(cfg.hostedZoneId, UpsertCname(cfg.recordName, endpoint)));
    if response.Failed? {
      return Halt(Raised(Remote(response.kind)));
    }
    return Continue(());
  }

  method RunWorkflow(cloud: CloudState, cfg: Config, action: Action, choice: string, updateDns: bool)
    returns (outcome: Outcome)
    modifies cloud
    ensures (cloud.State(), outcome) == Workflow(cloud.env, old(cloud.State()), cfg, action, choice, updateDns)
  {
    var acted: Flow<()>;
    match action {
      case Create =>
        acted := CreateDrCluster(cloud, cfg, choice);
      case Destroy =>
        acted := DeleteDrCluster(cloud, cfg);
    }
    if acted.Halt? {
      return acted.outcome;
    }
    if updateDns && action == Create {
      var cut := UpdateDnsRecord(cloud, cfg);
      if cut.Halt? {
        return cut.outcome;
      }
    }
    return Completed;
  }
}
