/** The warning the settings panel shows beside a quality tier, from the
    detected capabilities. The rules are tried in order; the first that
    applies gives the message. */
module SettingsPanel {
  import opened Base
  import opened Protocol
  import opened App

  const SlowWithoutFp16 := "May be slow without FP16"
  const LowerQuality := "Lower quality than recommended"
  const SlowWithoutWebGpu := "May be slow without WebGPU"

  /** `getQualityWarning`. */
  function QualityWarning(q: Tier, caps: Capabilities): (r: Option<string>)
    ensures q == caps.recommended ==> r.None?
    ensures r.Some? ==> r.value in {SlowWithoutFp16, LowerQuality, SlowWithoutWebGpu}
  {
    if q == caps.recommended then None
    else if q == Pro && !caps.fp16 then Some(SlowWithoutFp16)
    else if q == Fast && caps.webgpu then Some(LowerQuality)
    else if !caps.webgpu && q != Fast then Some(SlowWithoutWebGpu)
    else None
  }

  /** Each message and the tiers and capabilities that produce it; the FP16
      rule takes precedence over the WebGPU one. */
  lemma WarningCases(q: Tier, caps: Capabilities)
    ensures QualityWarning(q, caps) == Some(SlowWithoutFp16) <==>
      q != caps.recommended && q == Pro && !caps.fp16
    ensures QualityWarning(q, caps) == Some(LowerQuality) <==>
      q != caps.recommended && q == Fast && caps.webgpu
    ensures QualityWarning(q, caps) == Some(SlowWithoutWebGpu) <==>
      q != caps.recommended && !caps.webgpu && (q == Quality || (q == Pro && caps.fp16))
    ensures QualityWarning(q, caps).None? <==>
      q == caps.recommended || (q == Fast && !caps.webgpu) || (q == Quality && caps.webgpu)
      || (q == Pro && caps.fp16 && caps.webgpu)
  {
    assert SlowWithoutFp16[20] != SlowWithoutWebGpu[20];
    assert LowerQuality[0] != SlowWithoutFp16[0] && LowerQuality[0] != SlowWithoutWebGpu[0];
  }

  /** With the capabilities the application detects, the recommended tier
      has no warning, the fast tier warns exactly on WebGPU, and the pro tier
      warns unless WebGPU has FP16. */
  lemma DetectedWarnings(d: Detection)
    ensures var caps := Capabilities(d.supported, d.shaderF16, RecommendedTier(d));
      QualityWarning(RecommendedTier(d), caps).None?
      && (QualityWarning(Fast, caps).Some? <==> d.supported)
      && (QualityWarning(Pro, caps).Some? <==> !(d.supported && d.shaderF16))
  {
    var caps := Capabilities(d.supported, d.shaderF16, RecommendedTier(d));
    WarningCases(Fast, caps);
    WarningCases(Pro, caps);
  }
}
