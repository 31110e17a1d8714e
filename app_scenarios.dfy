/** Runs of the single-image page against worker events, proved from the
    page's contracts. */
module AppScenarios {
  import opened Base
  import opened Protocol
  import opened App

  /** A result for a superseded request is ignored; the current request's
      result is applied; a repeated result for it is then ignored too. */
  method StaleAndRepeatedResults(img: seq<byte>, out: seq<byte>)
    returns (afterStale: Option<string>, afterCurrent: Option<string>, afterRepeat: Option<string>, processing: bool)
    ensures afterStale.None? && afterCurrent == Some("blob:2") && afterRepeat == Some("blob:2") && !processing
  {
    var p := new Session(true);
    p.HandleFile("image/png", img, "blob:in", "r1");
    p.Reprocess("r2");
    p.OnMessage(Result("r1", out, 1, 1, 10), "blob:1", "0.01");
    afterStale := p.outputUrl;
    p.OnMessage(Result("r2", out, 1, 1, 10), "blob:2", "0.01");
    afterCurrent := p.outputUrl;
    p.OnMessage(Result("r2", out, 1, 1, 10), "blob:3", "0.01");
    afterRepeat := p.outputUrl;
    processing := p.processing;
  }

  /** Progress from `'init'` is shown even with no request current, while a
      stale request's progress is not. */
  method InitProgressShown(img: seq<byte>)
    returns (shown: Option<string>, stillShown: Option<string>)
    ensures shown == Some("Worker ready") && stillShown == Some("Worker ready")
  {
    var p := new Session(true);
    p.PostInit();
    p.OnMessage(Progress("init", "init", None, None, Some("Worker ready")), "", "");
    shown := p.progress.message;
    p.OnMessage(Progress("r0", "compute:inference", Some(1.0), Some(2.0), Some("Processing")), "", "");
    stillShown := p.progress.message;
  }

  /** `reset` keeps the request id, so a result that arrives after it is
      still applied and brings the output back. */
  method ResultAfterReset(img: seq<byte>, out: seq<byte>)
    returns (afterReset: Option<string>, afterResult: Option<string>)
    ensures afterReset.None? && afterResult == Some("blob:1")
  {
    var p := new Session(true);
    p.HandleFile("image/png", img, "blob:in", "r1");
    p.Reset();
    afterReset := p.outputUrl;
    p.OnMessage(Result("r1", out, 1, 1, 10), "blob:1", "0.01");
    afterResult := p.outputUrl;
  }

  /** Without a cached image `reprocess` posts nothing. */
  method ReprocessNeedsImage() returns (posted: nat)
    ensures posted == 0
  {
    var p := new Session(true);
    p.Reprocess("r1");
    posted := |p.outbox|;
  }
}
