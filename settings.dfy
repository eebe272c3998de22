/**
 The configuration both scripts read from their environment, and the mapping of the
 symbolic zone choice (`primary-az`, `secondary-az`, `tertiary-az`) to a configured
 availability zone. Only the three zone variables and the snapshot tag key and value may
 be unset (`None`); every other variable is taken to be set.
 */
module Settings {

  datatype Option<+T> = None | Some(value: T)

  datatype Config = Config(
    clusterId: string,
    instanceId: string,
    engine: string,
    engineVersion: string,
    instanceClass: string,
    subnetGroup: string,
    securityGroup: string,
    hostedZoneId: string,
    recordName: string,
    azPrimary: Option<string>,
    azSecondary: Option<string>,
    azTertiary: Option<string>,
    snapshotTagKey: Option<string>,
    snapshotTagValue: Option<string>)

  /** The `--action` argument. */
  datatype Action = Create | Destroy

  const PRIMARY_AZ := "primary-az"
  const SECONDARY_AZ := "secondary-az"
  const TERTIARY_AZ := "tertiary-az"

  /** The zone map both scripts build: each symbolic choice to the value of its
      environment variable. */
  function ZoneMap(cfg: Config): (m: map<string, Option<string>>)
    ensures m.Keys == {PRIMARY_AZ, SECONDARY_AZ, TERTIARY_AZ}
  {
    map[PRIMARY_AZ := cfg.azPrimary, SECONDARY_AZ := cfg.azSecondary, TERTIARY_AZ := cfg.azTertiary]
  }

  /** `m.get(choice)` followed by the truthiness test `if not zone`: a choice that is
      not a key, a variable that is not set and an empty value all count as invalid. */
  function ResolveZone(m: map<string, Option<string>>, choice: string): Option<string> {
    if choice in m && m[choice].Some? && m[choice].value != "" then Some(m[choice].value) else None
  }

  /** The zone configured for `choice`, when there is a usable one. */
  function ZoneFor(cfg: Config, choice: string): (r: Option<string>)
    ensures r.Some? ==> r.value != ""
    ensures choice == PRIMARY_AZ ==> (r.Some? <==> cfg.azPrimary.Some? && cfg.azPrimary.value != "")
    ensures choice == SECONDARY_AZ ==> (r.Some? <==> cfg.azSecondary.Some? && cfg.azSecondary.value != "")
    ensures choice == TERTIARY_AZ ==> (r.Some? <==> cfg.azTertiary.Some? && cfg.azTertiary.value != "")
    ensures choice == PRIMARY_AZ && r.Some? ==> cfg.azPrimary == r
    ensures choice == SECONDARY_AZ && r.Some? ==> cfg.azSecondary == r
    ensures choice == TERTIARY_AZ && r.Some? ==> cfg.azTertiary == r
    ensures choice !in {PRIMARY_AZ, SECONDARY_AZ, TERTIARY_AZ} ==> r == None
  {
    ResolveZone(ZoneMap(cfg), choice)
  }
}
