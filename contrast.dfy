/**
 The two restore scripts side by side where they observably differ: when the zone choice
 is checked, and what a missing resource does to a teardown.
 */
module Contrast {
  import opened Settings
  import opened Cloud
  import Staging
  import TagRestore

  /** With an unusable zone choice the staging restore issues no call, and the other
      script's create restores the cluster first and leaves it behind. Over whole create
      runs: the staging script exits with status 1 after its existence check and listing,
      before any restore, and the other script exits with status 1 after its listing and
      the restore, with the cluster left in place. */
  lemma ZoneCheckedBeforeVersusAfterRestore(env: Env, w: World, cfg: Config, arn: string, choice: string, updateDns: bool)
    requires ZoneFor(cfg, choice).None?
    requires TagRestore.NewestTagged(env.snapshots, cfg.snapshotTagKey, cfg.snapshotTagValue).Some?
    requires !w.cluster && Healthy(env, |w.log|, 2)
    ensures Staging.Restore(env, w, cfg, arn, choice) == (w, Halt(Exited(1)))
    ensures var (w', f) := TagRestore.Provision(env, w, cfg, choice);
      f == Halt(Exited(1)) && w'.cluster && |w'.log| == |w.log| + 2
    ensures var (w1, o1) := Staging.Workflow(env, w, cfg, Create, choice, updateDns);
      && o1 == Exited(1) && !w1.cluster
      && Issued(w, w1) == [DescribeClusters(cfg.clusterId), ListRecoveryPoints(cfg.clusterId)]
    ensures var (w2, o2) := TagRestore.Workflow(env, w, cfg, Create, choice, updateDns);
      var id := TagRestore.NewestTagged(env.snapshots, cfg.snapshotTagKey, cfg.snapshotTagValue).value;
      && o2 == Exited(1) && w2.cluster
      && Issued(w, w2) == [DescribeClusterSnapshots("manual"), RestoreCluster(TagRestore.RestoreRequestFor(cfg, id))]
  {
    TagRestore.InvalidZoneAfterRestore(env, w, cfg, choice);
    var (w1, exists_) := Staging.ExistenceCheck(env, w, cfg);
    var (w2, located) := Staging.LocateLatest(env, w1, cfg);
    IssuedConcat(w, w1, w2);
  }

  /** On a healthy cloud where both resources are already gone, the staging teardown exits
      with status 1 at its first call, and the other script's teardown completes. */
  lemma MissingResourcesFatalVersusTolerated(env: Env, w: World, cfg: Config, choice: string, updateDns: bool)
    requires !w.cluster && !w.instance && Healthy(env, |w.log|, 2)
    ensures var (w1, o1) := Staging.Workflow(env, w, cfg, Destroy, choice, updateDns);
      o1 == Exited(1) && ExitStatus(o1) == 1 && |w1.log| == |w.log| + 1
    ensures var (w2, o2) := TagRestore.Workflow(env, w, cfg, Destroy, choice, updateDns);
      o2 == Completed && ExitStatus(o2) == 0 && |w2.log| == |w.log| + 2
  {
    Staging.TeardownMissingInstanceExits(env, w, cfg);
    TagRestore.DestroyWhenAbsentCompletes(env, w, cfg, choice, updateDns);
  }
}
