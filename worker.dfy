/** The inference worker: it answers `init` and `dispose` at once, ignores
    unknown message types, and turns a `process` request into progress
    events followed by exactly one `result` or `error`. The background
    removal library and the canvas are an oracle (`LibraryRun`): the
    progress callbacks the library makes, whether it throws, and what the
    compositing step produces. */
module InferenceWorker {
  import opened Base
  import opened Protocol

  /** The model names the library is asked for. */
  datatype Model = Isnet | IsnetFp16 | IsnetQuint8

  /** The model for a tier: FP16 for pro, quantised for fast, the full model otherwise. */
  function ModelFor(tier: Tier): Model {
    if tier == Pro then IsnetFp16 else if tier == Fast then IsnetQuint8 else Isnet
  }

  /** Each tier selects its own model and every model is used by some tier. */
  lemma ModelForBijective(a: Tier, b: Tier, m: Model)
    ensures ModelFor(a) == ModelFor(b) ==> a == b
    ensures exists t :: ModelFor(t) == m
  {
    match m
    case Isnet => assert ModelFor(Quality) == m;
    case IsnetFp16 => assert ModelFor(Pro) == m;
    case IsnetQuint8 => assert ModelFor(Fast) == m;
  }

  /** A missing device counts as automatic, and automatic is passed to the
      library as no device at all. */
  function DeviceConfig(device: Option<Device>): (r: Option<Device>)
    ensures r.None? <==> device.None? || device == Some(Auto)
    ensures r.Some? ==> r == device && r.value != Auto
  {
    if device.None? || device.value == Auto then None else device
  }

  predicate IsDownloadPhase(phase: string) {
    StartsWith(phase, "fetch:")
  }

  predicate IsComputePhase(phase: string) {
    StartsWith(phase, "compute:")
  }

  /** No phase is both a download and a compute phase. */
  lemma PhaseKindsExclusive(phase: string)
    ensures IsDownloadPhase(phase) ==> !IsComputePhase(phase)
  {
    if IsDownloadPhase(phase) {
      assert phase[0] == phase[..6][0];
    }
  }

  /** The MIME type of the export format. */
  function ExportMime(f: ExportFormat): (m: string)
    ensures m == "image/webp" <==> f == Webp
    ensures m == "image/png" <==> f == Png
  {
    match f
    case Webp => "image/webp"
    case Png => "image/png"
  }

  /** What is drawn under the cut-out before it is encoded. */
  datatype Backdrop = Nothing | Fill(color: string) | DrawImage(bytes: seq<byte>)

  /** A colour fill for the colour mode, the background image for the image
      mode when its bytes are present, nothing otherwise. */
  function BackdropFor(o: WireOptions): (d: Backdrop)
    ensures d.Fill? <==> o.bgMode == Color
    ensures d.Fill? ==> d.color == o.bgColor
    ensures d.DrawImage? <==> o.bgMode == ImageBg && o.bgImageBytes.Some?
    ensures d.DrawImage? ==> d.bytes == o.bgImageBytes.value
  {
    if o.bgMode == Color then Fill(o.bgColor)
    else if o.bgMode == ImageBg && o.bgImageBytes.Some? then DrawImage(o.bgImageBytes.value)
    else Nothing
  }

  /** A call the worker makes into code outside the model. */
  datatype LibraryCall =
    | RemoveBackground(model: Model, device: Option<Device>)
    | Composite(backdrop: Backdrop, mime: string)

  /** One invocation of the library's `progress` callback. */
  datatype Callback = Callback(phase: string, loaded: real, total: real)

  datatype Removal = Removed | RemovalThrew(message: string)

  datatype Encoding = Encoded(bytes: seq<byte>, width: int, height: int, totalMs: int) | EncodingThrew(message: string)

  /** What the library and the canvas do for one request. */
  datatype LibraryRun = LibraryRun(callbacks: seq<Callback>, removal: Removal, encoding: Encoding)

  /** The callback's percentage, 0 when the total is not positive. */
  function CallbackPct(loaded: real, total: real): (p: real)
    ensures total > 0.0 ==> p * total == loaded * 100.0
    ensures total <= 0.0 ==> p == 0.0
  {
    if total > 0.0 then loaded / total * 100.0 else 0.0
  }

  function Abs(x: real): real {
    if x < 0.0 then -x else x
  }

  /** The message text of a forwarded callback, chosen by the phase kind. */
  function ProgressText(phase: string, pct: real): (t: string)
    ensures IsDownloadPhase(phase) ==> StartsWith(t, "Downloading model ") && t[|t| - 1] == '%'
    ensures !IsDownloadPhase(phase) && IsComputePhase(phase) ==> t == "Processing image\U{2026}"
    ensures !IsDownloadPhase(phase) && !IsComputePhase(phase) ==> t == "Processing\U{2026}"
  {
    if IsDownloadPhase(phase) then "Downloading model " + IntToString(Round(pct)) + "%"
    else if IsComputePhase(phase) then "Processing image\U{2026}"
    else "Processing\U{2026}"
  }

  /** A download message carries the percentage rounded as `Math.round`
      does: the integer `n` with `n - 0.5 <= pct < n + 0.5`. */
  lemma ProgressTextDownload(phase: string, pct: real, n: int)
    requires IsDownloadPhase(phase)
    requires n as real <= pct + 0.5 < n as real + 1.0
    ensures ProgressText(phase, pct) == "Downloading model " + IntToString(n) + "%"
  {
    assert Round(pct) == n;
  }

  function CallbackEvent(id: string, c: Callback, pct: real): Event {
    Progress(id, c.phase, Some(c.loaded), Some(c.total), Some(ProgressText(c.phase, pct)))
  }

  /** The percentage a forwarded event reports through its loaded and total. */
  function EventPct(e: Event): real {
    if e.Progress? && e.loaded.Some? && e.total.Some? then CallbackPct(e.loaded.value, e.total.value) else 0.0
  }

  /** Every download event in `r` is more than 2 points away from the one
      before it, or from `last` for the first. */
  predicate Throttled(r: seq<Event>, last: real) {
    forall k :: 0 <= k < |r| && r[k].Progress? && IsDownloadPhase(r[k].phase) ==>
      Abs(EventPct(r[k]) - (if k == 0 then last else EventPct(r[k - 1]))) > 2.0
  }

  /** The progress events forwarded for a run of callbacks, `last` being the
      percentage last forwarded: a non-download callback always, a download
      callback only when it moved more than 2 points. */
  function Forward(id: string, cbs: seq<Callback>, last: real): (r: seq<Event>)
    ensures |r| <= |cbs|
    ensures forall k :: 0 <= k < |r| ==> r[k].Progress? && r[k].id == id && r[k].loaded.Some? && r[k].total.Some?
    decreases |cbs|
  {
    if cbs == [] then []
    else
      var c := cbs[0];
      var pct := CallbackPct(c.loaded, c.total);
      if Abs(pct - last) > 2.0 || !IsDownloadPhase(c.phase)
      then [CallbackEvent(id, c, pct)] + Forward(id, cbs[1..], pct)
      else Forward(id, cbs[1..], last)
  }

  /** The throttle: the forwarded download events are spaced more than 2
      points apart, starting from `last`. */
  lemma {:induction false} ForwardGap(id: string, cbs: seq<Callback>, last: real)
    ensures Throttled(Forward(id, cbs, last), last)
    decreases |cbs|
  {
    if cbs != [] {
      var c := cbs[0];
      var pct := CallbackPct(c.loaded, c.total);
      var r := Forward(id, cbs, last);
      if Abs(pct - last) > 2.0 || !IsDownloadPhase(c.phase) {
        var t := Forward(id, cbs[1..], pct);
        ForwardGap(id, cbs[1..], pct);
        assert r == [CallbackEvent(id, c, pct)] + t;
        assert EventPct(r[0]) == pct;
        forall k | 1 <= k < |r| && r[k].Progress? && IsDownloadPhase(r[k].phase)
          ensures Abs(EventPct(r[k]) - EventPct(r[k - 1])) > 2.0
        {
          assert r[k] == t[k - 1];
          if k > 1 {
            assert r[k - 1] == t[k - 2];
          }
        }
      } else {
        ForwardGap(id, cbs[1..], last);
      }
    }
  }

  /** Without a download phase every callback is forwarded, in order. */
  lemma {:induction false} ForwardAllWithoutDownload(id: string, cbs: seq<Callback>, last: real)
    requires forall i :: 0 <= i < |cbs| ==> !IsDownloadPhase(cbs[i].phase)
    ensures var r := Forward(id, cbs, last);
      |r| == |cbs| && forall k :: 0 <= k < |r| ==> r[k].phase == cbs[k].phase
    decreases |cbs|
  {
    if cbs != [] {
      var c := cbs[0];
      var pct := CallbackPct(c.loaded, c.total);
      ForwardAllWithoutDownload(id, cbs[1..], pct);
    }
  }

  /** The progress events of `es` whose phase is not a download phase. */
  function NonDownload(es: seq<Event>): seq<Event>
    decreases |es|
  {
    if es == [] then []
    else if es[0].Progress? && !IsDownloadPhase(es[0].phase) then [es[0]] + NonDownload(es[1..])
    else NonDownload(es[1..])
  }

  /** The event every non-download callback gets, in callback order. */
  function Unthrottled(id: string, cbs: seq<Callback>): seq<Event>
    decreases |cbs|
  {
    if cbs == [] then []
    else if !IsDownloadPhase(cbs[0].phase)
    then [CallbackEvent(id, cbs[0], CallbackPct(cbs[0].loaded, cbs[0].total))] + Unthrottled(id, cbs[1..])
    else Unthrottled(id, cbs[1..])
  }

  /** The throttle never drops a non-download callback, wherever it falls
      among download callbacks: the non-download events forwarded are, in
      order, exactly one per non-download callback. */
  lemma {:induction false} ForwardKeepsNonDownload(id: string, cbs: seq<Callback>, last: real)
    ensures NonDownload(Forward(id, cbs, last)) == Unthrottled(id, cbs)
    decreases |cbs|
  {
    if cbs != [] {
      var c := cbs[0];
      var pct := CallbackPct(c.loaded, c.total);
      if Abs(pct - last) > 2.0 || !IsDownloadPhase(c.phase) {
        var t := Forward(id, cbs[1..], pct);
        ForwardKeepsNonDownload(id, cbs[1..], pct);
        var r := [CallbackEvent(id, c, pct)] + t;
        assert r[0] == CallbackEvent(id, c, pct) && r[1..] == t;
      } else {
        ForwardKeepsNonDownload(id, cbs[1..], last);
      }
    }
  }

  function Preparing(id: string): Event {
    Progress(id, "download", None, None, Some("Preparing\U{2026}"))
  }

  function Compositing(id: string): Event {
    Progress(id, "composite", None, None, Some("Compositing\U{2026}"))
  }

  /** Everything the worker posts in answer to one message. */
  function Reply(req: Request, run: LibraryRun): seq<Event> {
    match req
    case Init(id, _, _, _) => [Progress(id, "init", None, None, Some("Worker ready"))]
    case Dispose(id) => [Progress(id, "dispose", None, None, Some("Disposed"))]
    case Unknown(_, _) => []
    case Process(id, _, _) => [Preparing(id)] + Forward(id, run.callbacks, 0.0) + Outcome(id, run)
  }

  /** What follows the forwarded progress: the error the removal threw, or
      the compositing notice and then the encoded result or its error. */
  function Outcome(id: string, run: LibraryRun): seq<Event> {
    match run.removal
    case RemovalThrew(m) => [Error(id, m)]
    case Removed =>
      match run.encoding
      case Encoded(bytes, w, h, ms) => [Compositing(id), Result(id, bytes, w, h, ms)]
      case EncodingThrew(m) => [Compositing(id), Error(id, m)]
  }

  /** The calls into the library and the canvas made for one message. */
  function LibraryCalls(req: Request, run: LibraryRun): seq<LibraryCall> {
    match req
    case Process(_, _, o) => ProcessCalls(o, run)
    case _ => []
  }

  function ProcessCalls(o: WireOptions, run: LibraryRun): seq<LibraryCall> {
    [RemoveBackground(ModelFor(o.tier), DeviceConfig(o.device))]
    + if run.removal.Removed? then [Composite(BackdropFor(o), ExportMime(o.exportFormat))] else []
  }

  /** `init` and `dispose` get exactly one progress reply with their own id
      and phase; any other kind of message gets none. */
  lemma ControlReplies(req: Request, run: LibraryRun)
    ensures req.Init? ==>
      |Reply(req, run)| == 1 && Reply(req, run)[0].Progress?
      && Reply(req, run)[0].id == req.id && Reply(req, run)[0].phase == "init"
    ensures req.Dispose? ==>
      |Reply(req, run)| == 1 && Reply(req, run)[0].Progress?
      && Reply(req, run)[0].id == req.id && Reply(req, run)[0].phase == "dispose"
    ensures req.Unknown? ==> Reply(req, run) == [] && LibraryCalls(req, run) == []
  {
  }

  /** A `process` request yields progress events and then exactly one
      terminal event, all carrying the request's id; the terminal event is a
      result exactly when both the removal and the encoding succeed. */
  lemma ProcessReplyShape(req: Request, run: LibraryRun)
    requires req.Process?
    ensures var r := Reply(req, run);
      |r| >= 2
      && (forall k :: 0 <= k < |r| ==> r[k].id == req.id)
      && (forall k :: 0 <= k < |r| - 1 ==> r[k].Progress?)
      && IsTerminal(r[|r| - 1])
      && (r[|r| - 1].Result? <==> run.removal.Removed? && run.encoding.Encoded?)
  {
    var id := req.id;
    var f := Forward(id, run.callbacks, 0.0);
    var r := Reply(req, run);
    var tail := Outcome(id, run);
    assert r == [Preparing(id)] + f + tail;
    forall k | 0 <= k < |r|
      ensures r[k].id == id
      ensures k < |r| - 1 ==> r[k].Progress?
    {
      if 1 <= k < 1 + |f| {
        assert r[k] == f[k - 1];
      }
    }
  }

  /** The library is asked for the model and device the request names; the
      compositing step is reached only after a successful removal. */
  lemma ProcessCallsShape(req: Request, run: LibraryRun)
    requires req.Process?
    ensures var c := LibraryCalls(req, run);
      |c| == (if run.removal.Removed? then 2 else 1)
      && c[0] == RemoveBackground(ModelFor(req.options.tier), DeviceConfig(req.options.device))
      && (run.removal.Removed? ==> c[1] == Composite(BackdropFor(req.options), ExportMime(req.options.exportFormat)))
  {
  }

  /** The worker's global state and what it has sent. */
  class Worker {
    /** `lastTier`: written by `init`, never read. */
    var lastTier: Tier
    /** Every event posted back, in order. */
    var outbox: seq<Event>
    var calls: seq<LibraryCall>

    constructor ()
      ensures lastTier == Quality && outbox == [] && calls == []
    {
      lastTier := Quality;
      outbox := [];
      calls := [];
    }

    /** The library's `progress` callback over one run: each callback is
        forwarded or dropped, and `lastProgress` follows the forwarded ones. */
    method ForwardCallbacks(id: string, cbs: seq<Callback>)
      modifies this
      ensures outbox == old(outbox) + Forward(id, cbs, 0.0)
      ensures calls == old(calls) && lastTier == old(lastTier)
    {
      var last := 0.0;
      var i := 0;
      while i < |cbs|
        invariant 0 <= i <= |cbs|
        invariant outbox + Forward(id, cbs[i..], last) == old(outbox) + Forward(id, cbs, 0.0)
        invariant calls == old(calls) && lastTier == old(lastTier)
      {
        var c := cbs[i];
        var pct := CallbackPct(c.loaded, c.total);
        assert cbs[i..] == [c] + cbs[i + 1..];
        if Abs(pct - last) > 2.0 || !IsDownloadPhase(c.phase) {
          last := pct;
          outbox := outbox + [CallbackEvent(id, c, pct)];
        }
        i := i + 1;
      }
      assert cbs[i..] == [];
    }

    /** The `process` branch of the handler, inside its `try`. */
    method RunProcess(id: string, o: WireOptions, run: LibraryRun)
      modifies this
      ensures outbox == old(outbox) + [Preparing(id)] + Forward(id, run.callbacks, 0.0) + Outcome(id, run)
      ensures calls == old(calls) + ProcessCalls(o, run)
      ensures lastTier == old(lastTier)
    {
      outbox := outbox + [Preparing(id)];
      calls := calls + [RemoveBackground(ModelFor(o.tier), DeviceConfig(o.device))];
      ForwardCallbacks(id, run.callbacks);
      if run.removal.RemovalThrew? {
        outbox := outbox + [Error(id, run.removal.message)];
      } else {
        calls := calls + [Composite(BackdropFor(o), ExportMime(o.exportFormat))];
        if run.encoding.Encoded? {
          var e := run.encoding;
          outbox := outbox + [Compositing(id), Result(id, e.bytes, e.width, e.height, e.totalMs)];
        } else {
          outbox := outbox + [Compositing(id), Error(id, run.encoding.message)];
        }
      }
    }

    /** `self.onmessage`: the reply goes out one event at a time, the
        progress callback deciding for each library callback whether to
        forward it. */
    method OnMessage(req: Request, run: LibraryRun)
      modifies this
      ensures outbox == old(outbox) + Reply(req, run)
      ensures calls == old(calls) + LibraryCalls(req, run)
      ensures lastTier == if req.Init? then req.tier else old(lastTier)
    {
      match req {
        case Init(id, tier, _, _) =>
          lastTier := tier;
          outbox := outbox + [Progress(id, "init", None, None, Some("Worker ready"))];
        case Dispose(id) =>
          outbox := outbox + [Progress(id, "dispose", None, None, Some("Disposed"))];
        case Unknown(_, _) =>
        case Process(id, _, o) =>
          RunProcess(id, o, run);
      }
    }
  }
}
