/** The device-memory tier: a coarse 0 to 3 bucket of the memory the browser
    reports, in gigabytes. GPU detection queries the browser and is left
    out. */
module DeviceCapabilities {
  import opened Base

  /** `deviceMemoryTier`, with `navigator.deviceMemory` as a parameter
      (`None` when the browser does not report it, read as 4). */
  function DeviceMemoryTier(deviceMemory: Option<real>): (r: nat)
    ensures r <= 3
  {
    var dm := if deviceMemory.Some? then deviceMemory.value else 4.0;
    if dm >= 12.0 then 3
    else if dm >= 8.0 then 2
    else if dm >= 4.0 then 1
    else 0
  }

  /** Each tier is one band of memory sizes. */
  lemma TierBands(m: real)
    ensures DeviceMemoryTier(Some(m)) == 3 <==> 12.0 <= m
    ensures DeviceMemoryTier(Some(m)) == 2 <==> 8.0 <= m < 12.0
    ensures DeviceMemoryTier(Some(m)) == 1 <==> 4.0 <= m < 8.0
    ensures DeviceMemoryTier(Some(m)) == 0 <==> m < 4.0
  {
  }

  /** More memory never gives a lower tier. */
  lemma TierMonotone(a: real, b: real)
    requires a <= b
    ensures DeviceMemoryTier(Some(a)) <= DeviceMemoryTier(Some(b))
  {
  }

  /** An unreported size counts as 4 gigabytes: tier 1. */
  lemma TierUnreported()
    ensures DeviceMemoryTier(None) == DeviceMemoryTier(Some(4.0)) == 1
  {
  }
}
