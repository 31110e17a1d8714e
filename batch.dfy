/** The batch queue of `useBatchProcessor`: an ordered list of items, each
    pending, processing, completed or failed, driven through the single worker
    one item at a time. React state updates, `setTimeout` re-dispatches and
    worker events are sequential steps of one object. */
module Batch {
  import opened Base
  import opened Protocol

  datatype Status = Pending | Processing | Completed | Failed

  datatype ItemResult = ItemResult(outputUrl: string, outputBytes: seq<byte>, timingMs: int, width: int, height: int)

  /** A `BatchItem`; the thumbnail URL is browser state and is left out. */
  datatype BatchItem = BatchItem(
    id: string,
    originalName: string,
    mime: string,
    inputBytes: seq<byte>,
    status: Status,
    progress: Option<ProgressView>,
    result: Option<ItemResult>,
    error: Option<string>)

  /** A `File` whose bytes have been read. */
  datatype InputFile = InputFile(name: string, mime: string, bytes: seq<byte>)

  /** The options the page passes to the hook (`ProcessingOptions`). */
  datatype ProcessingOptions = ProcessingOptions(
    tier: Tier,
    refineEdges: bool,
    bgMode: BgMode,
    bgColor: string,
    bgImageBytes: Option<seq<byte>>,
    exportFormat: ExportFormat,
    device: Device)

  function NewItem(f: InputFile, id: string): BatchItem {
    BatchItem(id, f.name, f.mime, f.bytes, Pending, None, None, None)
  }

  function NewItems(files: seq<InputFile>, ids: seq<string>): seq<BatchItem>
    requires |ids| == |files|
  {
    seq(|files|, i requires 0 <= i < |files| => NewItem(files[i], ids[i]))
  }

  predicate DistinctIds(s: seq<BatchItem>) {
    forall i, j :: 0 <= i < j < |s| ==> s[i].id != s[j].id
  }

  predicate Distinct(ids: seq<string>) {
    forall i, j :: 0 <= i < j < |ids| ==> ids[i] != ids[j]
  }

  predicate IsFirstPending(s: seq<BatchItem>, k: int) {
    0 <= k < |s| && s[k].status == Pending && forall j :: 0 <= j < k ==> s[j].status != Pending
  }

  predicate NoPending(s: seq<BatchItem>) {
    forall j :: 0 <= j < |s| ==> s[j].status != Pending
  }

  predicate AtMostOneProcessing(s: seq<BatchItem>) {
    forall i, j :: 0 <= i < |s| && 0 <= j < |s| && s[i].status == Processing && s[j].status == Processing ==> i == j
  }

  /** The lowest pending index at or after `k`, or -1. */
  function FirstPendingFrom(s: seq<BatchItem>, k: nat): (r: int)
    requires k <= |s|
    ensures r == -1 || k <= r < |s|
    ensures r == -1 <==> forall j :: k <= j < |s| ==> s[j].status != Pending
    ensures r != -1 ==> s[r].status == Pending && forall j :: k <= j < r ==> s[j].status != Pending
    decreases |s| - k
  {
    if k == |s| then -1 else if s[k].status == Pending then k else FirstPendingFrom(s, k + 1)
  }

  /** The index of the first pending item, or -1. */
  function FirstPending(s: seq<BatchItem>): (r: int)
    ensures r == -1 <==> NoPending(s)
    ensures r != -1 ==> IsFirstPending(s, r)
  {
    FirstPendingFrom(s, 0)
  }

  /** The lowest index at or after `k` whose item has that id, or -1. */
  function IndexOfIdFrom(s: seq<BatchItem>, id: string, k: nat): (r: int)
    requires k <= |s|
    ensures r == -1 || k <= r < |s|
    ensures r == -1 <==> forall j :: k <= j < |s| ==> s[j].id != id
    ensures r != -1 ==> s[r].id == id && forall j :: k <= j < r ==> s[j].id != id
    decreases |s| - k
  {
    if k == |s| then -1 else if s[k].id == id then k else IndexOfIdFrom(s, id, k + 1)
  }

  /** The index of the first item with the id, or -1. */
  function IndexOfId(s: seq<BatchItem>, id: string): (r: int)
    ensures r == -1 <==> forall j :: 0 <= j < |s| ==> s[j].id != id
    ensures r != -1 ==> 0 <= r < |s| && s[r].id == id && forall j :: 0 <= j < r ==> s[j].id != id
  {
    IndexOfIdFrom(s, id, 0)
  }

  /** The search loop of `processNextItem`. */
  method FindFirstPending(s: seq<BatchItem>) returns (k: int)
    ensures k == FirstPending(s)
  {
    k := 0;
    while k < |s|
      invariant 0 <= k <= |s|
      invariant FirstPendingFrom(s, k) == FirstPending(s)
    {
      if s[k].status == Pending {
        return;
      }
      k := k + 1;
    }
    k := -1;
  }

  /** The search loop of the message handler. */
  method FindById(s: seq<BatchItem>, id: string) returns (k: int)
    ensures k == IndexOfId(s, id)
  {
    k := 0;
    while k < |s|
      invariant 0 <= k <= |s|
      invariant IndexOfIdFrom(s, id, k) == IndexOfId(s, id)
    {
      if s[k].id == id {
        return;
      }
      k := k + 1;
    }
    k := -1;
  }

  /** The list without the items carrying the id. */
  function RemoveId(s: seq<BatchItem>, id: string): (r: seq<BatchItem>)
    ensures |r| <= |s|
    ensures forall x :: x in r <==> x in s && x.id != id
  {
    if s == [] then []
    else if s[0].id == id then RemoveId(s[1..], id)
    else [s[0]] + RemoveId(s[1..], id)
  }

  /** Removal keeps the surviving items in their order: it distributes over
      concatenation, and an item with a different id survives in place. */
  lemma {:induction false} RemoveIdAppend(s: seq<BatchItem>, t: seq<BatchItem>, id: string)
    ensures RemoveId(s + t, id) == RemoveId(s, id) + RemoveId(t, id)
  {
    if s != [] {
      assert (s + t)[1..] == s[1..] + t;
      RemoveIdAppend(s[1..], t, id);
    } else {
      assert s + t == t;
    }
  }

  /** An id that no item carries changes nothing. */
  lemma {:induction false} RemoveUnknownId(s: seq<BatchItem>, id: string)
    requires forall i :: 0 <= i < |s| ==> s[i].id != id
    ensures RemoveId(s, id) == s
  {
    if s != [] {
      RemoveUnknownId(s[1..], id);
    }
  }

  lemma {:induction false} RemoveIdKeepsDistinct(s: seq<BatchItem>, id: string)
    requires DistinctIds(s)
    ensures DistinctIds(RemoveId(s, id))
  {
    if s != [] {
      RemoveIdKeepsDistinct(s[1..], id);
      var rest := RemoveId(s[1..], id);
      if s[0].id != id {
        assert forall x :: x in rest ==> x in s[1..];
        forall i, j | 0 <= i < j < |[s[0]] + rest|
          ensures ([s[0]] + rest)[i].id != ([s[0]] + rest)[j].id
        {
          if i == 0 {
            var y := rest[j - 1];
            assert y in s[1..];
            var m :| 0 <= m < |s[1..]| && s[1..][m] == y;
            assert s[m + 1] == y;
          }
        }
      }
    }
  }

  /** How many items have the status. */
  function CountStatus(s: seq<BatchItem>, st: Status): (n: nat)
    ensures n <= |s|
  {
    if s == [] then 0 else (if s[0].status == st then 1 else 0) + CountStatus(s[1..], st)
  }

  /** Replacing one item moves it from the old status's count to the new one. */
  lemma {:induction false} CountStatusUpdate(s: seq<BatchItem>, k: nat, x: BatchItem, st: Status)
    requires k < |s|
    ensures CountStatus(s[k := x], st)
         == CountStatus(s, st) - (if s[k].status == st then 1 else 0) + (if x.status == st then 1 else 0)
  {
    if k > 0 {
      assert s[k := x][1..] == s[1..][k - 1 := x];
      CountStatusUpdate(s[1..], k - 1, x, st);
    } else {
      assert s[k := x][1..] == s[1..];
    }
  }

  lemma {:induction false} CountStatusAppend(s: seq<BatchItem>, t: seq<BatchItem>, st: Status)
    ensures CountStatus(s + t, st) == CountStatus(s, st) + CountStatus(t, st)
  {
    if s != [] {
      assert (s + t)[1..] == s[1..] + t;
      CountStatusAppend(s[1..], t, st);
    } else {
      assert s + t == t;
    }
  }

  /** The four counts partition the list. */
  lemma {:induction false} CountsPartition(s: seq<BatchItem>)
    ensures CountStatus(s, Pending) + CountStatus(s, Processing)
          + CountStatus(s, Completed) + CountStatus(s, Failed) == |s|
  {
    if s != [] {
      CountsPartition(s[1..]);
    }
  }

  /** Distinct ids, one outstanding request at most, and "processing" exactly
      for the items whose request is outstanding: then at most one item is
      processing. */
  lemma AtMostOneProcessingFromFlight(s: seq<BatchItem>, inFlight: set<string>)
    requires DistinctIds(s)
    requires |inFlight| <= 1
    requires forall i :: 0 <= i < |s| && s[i].status == Processing ==> s[i].id in inFlight
    ensures AtMostOneProcessing(s)
  {
    forall i, j | 0 <= i < |s| && 0 <= j < |s| && s[i].status == Processing && s[j].status == Processing
      ensures i == j
    {
      if s[i].id != s[j].id {
        assert |inFlight - {s[i].id}| == |inFlight| - 1;
      }
    }
  }

  /** Every item's id was issued, and an item is processing exactly when its
      request is outstanding. */
  predicate AllTracked(s: seq<BatchItem>, issued: set<string>, flight: set<string>) {
    forall i :: 0 <= i < |s| ==> s[i].id in issued && (s[i].status == Processing <==> s[i].id in flight)
  }

  /** Replacing one item by one with the same id, while the outstanding set
      changes at most for that id, keeps the bookkeeping consistent. */
  lemma UpdateTracked(s: seq<BatchItem>, k: nat, x: BatchItem, issued: set<string>, flight: set<string>, flight': set<string>)
    requires DistinctIds(s) && AllTracked(s, issued, flight)
    requires k < |s| && x.id == s[k].id
    requires flight' - {x.id} == flight - {x.id}
    requires x.status == Processing <==> x.id in flight'
    ensures DistinctIds(s[k := x]) && AllTracked(s[k := x], issued, flight')
  {
    forall i | 0 <= i < |s| && i != k
      ensures s[i].id in flight' <==> s[i].id in flight
    {
      assert s[i].id != x.id;
      assert s[i].id in flight' - {x.id} <==> s[i].id in flight - {x.id};
    }
  }

  /** Forgetting the request of an id no item carries keeps the bookkeeping
      consistent. */
  lemma DropUnusedFlight(s: seq<BatchItem>, issued: set<string>, flight: set<string>, id: string)
    requires AllTracked(s, issued, flight)
    requires forall j :: 0 <= j < |s| ==> s[j].id != id
    ensures AllTracked(s, issued, flight - {id})
  {
  }

  /** The request posted for an item: its own id and bytes, and the options
      as they are at the moment of dispatch. */
  function DispatchRequest(item: BatchItem, o: ProcessingOptions): (r: Request)
    ensures r.Process? && r.id == item.id && r.image == Image(item.mime, item.inputBytes)
    ensures r.options.bgMode == EffectiveBgMode(o.bgMode, o.bgImageBytes)
    ensures r.options.tier == o.tier && r.options.exportFormat == o.exportFormat
    ensures r.options.bgImageBytes == o.bgImageBytes && r.options.device == Some(o.device)
    ensures r.options.refineEdges == o.refineEdges && r.options.bgColor == o.bgColor
  {
    Process(item.id, Image(item.mime, item.inputBytes),
      WireOptions(o.tier, o.refineEdges, EffectiveBgMode(o.bgMode, o.bgImageBytes), o.bgColor,
                  o.bgImageBytes, o.exportFormat, Some(o.device)))
  }

  /** What a worker event does to the item it names. */
  function ApplyEvent(it: BatchItem, ev: Event, outputUrl: string): BatchItem {
    match ev
    case Progress(_, _, loaded, total, message) =>
      it.(progress := Some(ProgressView(PercentOf(loaded, total), message)))
    case Result(_, bytes, width, height, timingMs) =>
      it.(status := Completed, progress := None,
          result := Some(ItemResult(outputUrl, bytes, timingMs, width, height)))
    case Error(_, message) =>
      it.(status := Failed, progress := None, error := Some(message))
  }

  /** A terminal event settles the item and clears its progress; a progress
      event leaves its status alone. */
  lemma ApplyEventSettles(it: BatchItem, ev: Event, url: string)
    ensures var r := ApplyEvent(it, ev, url);
      r.id == it.id
      && (ev.Progress? ==> r.status == it.status && r.progress.Some?)
      && (ev.Result? ==> r.status == Completed && r.progress.None? && r.result.Some? && r.result.value.outputBytes == ev.bytes)
      && (ev.Error? ==> r.status == Failed && r.progress.None? && r.error == Some(ev.errorMessage))
  {
  }

  class BatchProcessor {
    var items: seq<BatchItem>
    var isProcessing: bool
    var currentIndex: int
    /** `processingRef.current`: the run flag the callbacks consult. */
    var running: bool
    /** `optionsRef.current`: read at every dispatch. */
    var options: ProcessingOptions
    /** Whether `worker.current` is set. */
    const hasWorker: bool
    /** Every request posted to the worker, in order. */
    var outbox: seq<Request>
    /** Re-dispatches scheduled on a 100 ms timer after a terminal event that
        have not yet fired. */
    var scheduled: nat
    /** Every id `crypto.randomUUID` has handed out. */
    ghost var issuedIds: set<string>
    /** Ids of posted requests whose terminal event has not yet arrived. */
    ghost var inFlight: set<string>

    ghost predicate Valid()
      reads this
    {
      DistinctIds(items) && inFlight <= issuedIds && AllTracked(items, issuedIds, inFlight)
    }

    /** The single-worker discipline: at most one request outstanding or about
        to be dispatched by a scheduled timer. */
    ghost predicate SingleFlight()
      reads this
    {
      Valid() && |inFlight| + scheduled <= 1
    }

    constructor (hasWorker: bool, options: ProcessingOptions)
      ensures Valid() && SingleFlight()
      ensures this.hasWorker == hasWorker && this.options == options
      ensures items == [] && !isProcessing && currentIndex == -1 && !running
      ensures outbox == [] && scheduled == 0 && issuedIds == {} && inFlight == {}
    {
      this.hasWorker := hasWorker;
      this.options := options;
      items := [];
      isProcessing := false;
      currentIndex := -1;
      running := false;
      outbox := [];
      scheduled := 0;
      issuedIds := {};
      inFlight := {};
    }

    /** The effect that copies the latest options into the ref. */
    method SetOptions(o: ProcessingOptions)
      modifies this
      ensures options == o
      ensures items == old(items) && running == old(running) && isProcessing == old(isProcessing)
      ensures currentIndex == old(currentIndex) && outbox == old(outbox) && scheduled == old(scheduled)
      ensures issuedIds == old(issuedIds) && inFlight == old(inFlight)
    {
      options := o;
    }

    /** `addFiles`: one pending item per file, with fresh ids, after the
        existing items. */
    method AddFiles(files: seq<InputFile>, ids: seq<string>)
      requires Valid()
      requires |ids| == |files| && Distinct(ids)
      requires forall i :: 0 <= i < |ids| ==> ids[i] !in issuedIds
      modifies this
      ensures Valid()
      ensures items == old(items) + NewItems(files, ids)
      ensures issuedIds == old(issuedIds) + set i | 0 <= i < |ids| :: ids[i]
      ensures running == old(running) && isProcessing == old(isProcessing) && currentIndex == old(currentIndex)
      ensures options == old(options) && outbox == old(outbox) && scheduled == old(scheduled)
      ensures inFlight == old(inFlight)
      ensures old(SingleFlight()) ==> SingleFlight()
    {
      var added := NewItems(files, ids);
      issuedIds := issuedIds + set i | 0 <= i < |ids| :: ids[i];
      items := items + added;
      forall i, j | 0 <= i < j < |items| ensures items[i].id != items[j].id {
        if j >= |old(items)| && i < |old(items)| {
          assert items[i] == old(items)[i];
        }
      }
      forall i | 0 <= i < |items|
        ensures items[i].id in issuedIds && (items[i].status == Processing <==> items[i].id in inFlight)
      {
        if i >= |old(items)| {
          assert items[i] == added[i - |old(items)|];
        }
      }
    }

    /** `removeItem`: drop every item with that id; `currentIndex` is not
        touched and an outstanding request for the item is not retracted. */
    method RemoveItem(id: string)
      requires Valid()
      modifies this
      ensures Valid()
      ensures items == RemoveId(old(items), id)
      ensures running == old(running) && isProcessing == old(isProcessing) && currentIndex == old(currentIndex)
      ensures options == old(options) && outbox == old(outbox) && scheduled == old(scheduled)
      ensures issuedIds == old(issuedIds) && inFlight == old(inFlight)
      ensures old(SingleFlight()) ==> SingleFlight()
    {
      RemoveIdKeepsDistinct(items, id);
      items := RemoveId(items, id);
      forall i | 0 <= i < |items|
        ensures items[i].id in issuedIds && (items[i].status == Processing <==> items[i].id in inFlight)
      {
        assert items[i] in old(items);
        var m :| 0 <= m < |old(items)| && old(items)[m] == items[i];
      }
    }

    /** `clearAll`. */
    method ClearAll()
      requires Valid()
      modifies this
      ensures Valid()
      ensures items == [] && !running && !isProcessing && currentIndex == -1
      ensures options == old(options) && outbox == old(outbox) && scheduled == old(scheduled)
      ensures issuedIds == old(issuedIds) && inFlight == old(inFlight)
      ensures old(SingleFlight()) ==> SingleFlight()
    {
      items := [];
      isProcessing := false;
      currentIndex := -1;
      running := false;
    }

    /** `processNextItem`. */
    method ProcessNext()
      requires Valid()
      modifies this
      ensures Valid()
      ensures options == old(options) && scheduled == old(scheduled) && issuedIds == old(issuedIds)
      ensures !old(running) || !hasWorker ==>
        items == old(items) && running == old(running) && isProcessing == old(isProcessing)
        && currentIndex == old(currentIndex) && outbox == old(outbox) && inFlight == old(inFlight)
      ensures old(running) && hasWorker && FirstPending(old(items)) == -1 ==>
        items == old(items) && !running && !isProcessing && currentIndex == -1
        && outbox == old(outbox) && inFlight == old(inFlight)
      ensures old(running) && hasWorker && FirstPending(old(items)) != -1 ==>
        currentIndex == FirstPending(old(items))
        && items == old(items)[currentIndex := old(items)[currentIndex].(status := Processing)]
        && running && isProcessing == old(isProcessing)
        && outbox == old(outbox) + [DispatchRequest(old(items)[currentIndex], options)]
        && inFlight == old(inFlight) + {old(items)[currentIndex].id}
        && old(items)[currentIndex].id !in old(inFlight)
    {
      if !running || !hasWorker {
        return;
      }
      var next := FindFirstPending(items);
      if next == -1 {
        isProcessing := false;
        currentIndex := -1;
        running := false;
        return;
      }
      currentIndex := next;
      var item := items[next];
      UpdateTracked(items, next, item.(status := Processing), issuedIds, inFlight, inFlight + {item.id});
      items := items[next := item.(status := Processing)];
      inFlight := inFlight + {item.id};
      outbox := outbox + [DispatchRequest(item, options)];
    }

    /** `startProcessing`: a no-op while the run flag is set. */
    method StartProcessing()
      requires Valid()
      modifies this
      ensures Valid()
      ensures old(running) ==>
        items == old(items) && running && isProcessing == old(isProcessing)
        && currentIndex == old(currentIndex) && outbox == old(outbox) && inFlight == old(inFlight)
      ensures !old(running) && !hasWorker ==>
        items == old(items) && running && isProcessing
        && currentIndex == old(currentIndex) && outbox == old(outbox) && inFlight == old(inFlight)
      ensures !old(running) && hasWorker && FirstPending(old(items)) == -1 ==>
        items == old(items) && !running && !isProcessing && currentIndex == -1
        && outbox == old(outbox) && inFlight == old(inFlight)
      ensures !old(running) && hasWorker && FirstPending(old(items)) != -1 ==>
        currentIndex == FirstPending(old(items))
        && items == old(items)[currentIndex := old(items)[currentIndex].(status := Processing)]
        && running && isProcessing
        && outbox == old(outbox) + [DispatchRequest(old(items)[currentIndex], options)]
        && inFlight == old(inFlight) + {old(items)[currentIndex].id}
      ensures options == old(options) && scheduled == old(scheduled) && issuedIds == old(issuedIds)
      ensures old(SingleFlight()) && (old(running) || (old(inFlight) == {} && old(scheduled) == 0)) ==> SingleFlight()
    {
      if running {
        return;
      }
      running := true;
      isProcessing := true;
      ProcessNext();
    }

    /** `stopProcessing`: the outstanding request, if any, is left to finish. */
    method StopProcessing()
      requires Valid()
      modifies this
      ensures Valid()
      ensures !running && !isProcessing && currentIndex == -1
      ensures items == old(items) && options == old(options) && outbox == old(outbox)
      ensures scheduled == old(scheduled) && issuedIds == old(issuedIds) && inFlight == old(inFlight)
      ensures old(SingleFlight()) ==> SingleFlight()
    {
      running := false;
      isProcessing := false;
      currentIndex := -1;
    }

    /** One scheduled re-dispatch timer fires. */
    method RunScheduled()
      requires Valid() && scheduled > 0
      modifies this
      ensures Valid()
      ensures scheduled == old(scheduled) - 1
      ensures options == old(options) && issuedIds == old(issuedIds)
      ensures !old(running) || !hasWorker ==>
        items == old(items) && running == old(running) && isProcessing == old(isProcessing)
        && currentIndex == old(currentIndex) && outbox == old(outbox) && inFlight == old(inFlight)
      ensures old(running) && hasWorker && FirstPending(old(items)) == -1 ==>
        items == old(items) && !running && !isProcessing && currentIndex == -1
        && outbox == old(outbox) && inFlight == old(inFlight)
      ensures old(running) && hasWorker && FirstPending(old(items)) != -1 ==>
        currentIndex == FirstPending(old(items))
        && items == old(items)[currentIndex := old(items)[currentIndex].(status := Processing)]
        && running && isProcessing == old(isProcessing)
        && outbox == old(outbox) + [DispatchRequest(old(items)[currentIndex], options)]
        && inFlight == old(inFlight) + {old(items)[currentIndex].id}
      ensures old(SingleFlight()) ==> SingleFlight()
    {
      scheduled := scheduled - 1;
      ProcessNext();
    }

    /** The worker message handler: the event is routed to the item with its
        id, or dropped when there is none; a terminal event schedules the next
        dispatch. `outputUrl` is the object URL made for a result's bytes. */
    method HandleMessage(ev: Event, outputUrl: string)
      requires Valid()
      modifies this
      ensures Valid()
      ensures running == old(running) && isProcessing == old(isProcessing) && currentIndex == old(currentIndex)
      ensures options == old(options) && outbox == old(outbox) && issuedIds == old(issuedIds)
      ensures inFlight == if ev.Progress? then old(inFlight) else old(inFlight) - {ev.id}
      ensures IndexOfId(old(items), ev.id) == -1 ==>
        items == old(items) && scheduled == old(scheduled)
      ensures var k := IndexOfId(old(items), ev.id);
        k != -1 ==>
        items == old(items)[k := ApplyEvent(old(items)[k], ev, outputUrl)]
        && scheduled == old(scheduled) + (if ev.Progress? then 0 else 1)
      ensures old(SingleFlight()) && (ev.Progress? || ev.id in old(inFlight)) ==> SingleFlight()
    {
      var k := FindById(items, ev.id);
      if !ev.Progress? {
        if ev.id in inFlight {
          assert |inFlight - {ev.id}| == |inFlight| - 1;
        }
        inFlight := inFlight - {ev.id};
      }
      if k == -1 {
        if !ev.Progress? {
          DropUnusedFlight(items, issuedIds, old(inFlight), ev.id);
        }
      } else {
        var item := items[k];
        UpdateTracked(items, k, ApplyEvent(item, ev, outputUrl), issuedIds, old(inFlight), inFlight);
        items := items[k := ApplyEvent(item, ev, outputUrl)];
        if !ev.Progress? {
          scheduled := scheduled + 1;
        }
      }
    }

    /** Under the single-worker discipline at most one item is processing. */
    lemma OneProcessing()
      requires SingleFlight()
      ensures AtMostOneProcessing(items)
    {
      AtMostOneProcessingFromFlight(items, inFlight);
    }
  }
}
