/** Runs of the batch queue, each a sequence of hook calls, worker events and
    timer firings, proved from the operations' contracts alone. */
module BatchScenarios {
  import opened Base
  import opened Protocol
  import opened Batch

  /** A queue with a worker and two freshly added files. */
  method Setup2(o: ProcessingOptions, f1: InputFile, f2: InputFile) returns (b: BatchProcessor)
    ensures fresh(b) && b.Valid() && b.hasWorker && b.options == o
    ensures b.items == [NewItem(f1, "a"), NewItem(f2, "b")]
    ensures !b.running && b.scheduled == 0 && b.outbox == [] && b.inFlight == {}
  {
    b := new BatchProcessor(true, o);
    b.AddFiles([f1, f2], ["a", "b"]);
    assert b.items == [NewItem(f1, "a"), NewItem(f2, "b")];
  }

  /** A queue with a worker and three freshly added files. */
  method Setup3(o: ProcessingOptions, f1: InputFile, f2: InputFile, f3: InputFile) returns (b: BatchProcessor)
    ensures fresh(b) && b.Valid() && b.hasWorker && b.options == o
    ensures b.items == [NewItem(f1, "a"), NewItem(f2, "b"), NewItem(f3, "c")]
    ensures !b.running && b.scheduled == 0 && b.outbox == [] && b.inFlight == {}
  {
    b := new BatchProcessor(true, o);
    b.AddFiles([f1, f2, f3], ["a", "b", "c"]);
    assert b.items == [NewItem(f1, "a"), NewItem(f2, "b"), NewItem(f3, "c")];
  }

  /** The first half of `EndToEnd`: the first item completes and the timer
      dispatches the second. */
  method FirstCompletes(o: ProcessingOptions, f1: InputFile, f2: InputFile, f3: InputFile, out1: seq<byte>)
    returns (b: BatchProcessor)
    ensures fresh(b) && b.Valid() && b.hasWorker && b.running && b.scheduled == 0
    ensures |b.items| == 3 && b.items[0].id == "a" && b.items[0].status == Completed
    ensures b.items[1].id == "b" && b.items[1].status == Processing
    ensures b.items[2].id == "c" && b.items[2].status == Pending
    ensures |b.outbox| == 2 && b.inFlight == {"b"}
  {
    b := Setup3(o, f1, f2, f3);
    b.StartProcessing();
    assert b.currentIndex == 0;
    b.HandleMessage(Result("a", out1, 4, 3, 120), "blob:a");
    assert b.items[0].status == Completed && b.items[1].status == Pending;
    assert FirstPending(b.items) == 1;
    b.RunScheduled();
  }

  /** Three items; the first succeeds, the second fails, the third succeeds;
      every re-dispatch fires. The queue ends idle with 2 completed, 1 failed
      and nothing pending. */
  method EndToEnd(o: ProcessingOptions, f1: InputFile, f2: InputFile, f3: InputFile, out1: seq<byte>, out3: seq<byte>)
    returns (completed: nat, failed: nat, pending: nat, running: bool, requests: nat)
    ensures completed == 2 && failed == 1 && pending == 0 && !running && requests == 3
  {
    var b := FirstCompletes(o, f1, f2, f3, out1);
    assert IndexOfId(b.items, "b") == 1;
    b.HandleMessage(Error("b", "decode failed"), "");
    assert b.items[1].status == Failed && b.items[2].status == Pending;
    assert FirstPending(b.items) == 2;
    b.RunScheduled();
    assert b.currentIndex == 2;
    assert b.items[0].id == "a" && b.items[1].id == "b" && b.items[2].id == "c";
    assert IndexOfId(b.items, "c") == 2;
    b.HandleMessage(Result("c", out3, 4, 3, 90), "blob:c");
    assert FirstPending(b.items) == -1;
    b.RunScheduled();
    var s := b.items;
    assert s == [s[0], s[1], s[2]];
    CountThree(s[0], s[1], s[2], Completed);
    CountThree(s[0], s[1], s[2], Failed);
    CountThree(s[0], s[1], s[2], Pending);
    completed := CountStatus(s, Completed);
    failed := CountStatus(s, Failed);
    pending := CountStatus(s, Pending);
    running := b.running;
    requests := |b.outbox|;
  }

  lemma CountThree(x: BatchItem, y: BatchItem, z: BatchItem, st: Status)
    ensures CountStatus([x, y, z], st)
         == (if x.status == st then 1 else 0) + (if y.status == st then 1 else 0) + (if z.status == st then 1 else 0)
  {
    assert CountStatus([z], st) == (if z.status == st then 1 else 0) + CountStatus([], st) by {
      assert [z][1..] == [];
    }
    assert CountStatus([y, z], st) == (if y.status == st then 1 else 0) + CountStatus([z], st) by {
      assert [y, z][1..] == [z];
    }
    assert CountStatus([x, y, z], st) == (if x.status == st then 1 else 0) + CountStatus([y, z], st) by {
      assert [x, y, z][1..] == [y, z];
    }
  }

  /** Calling start twice in a row posts one request. */
  method IdempotentStart(o: ProcessingOptions, f1: InputFile, f2: InputFile)
    returns (requests: nat)
    ensures requests == 1
  {
    var b := Setup2(o, f1, f2);
    b.StartProcessing();
    b.StartProcessing();
    requests := |b.outbox|;
  }

  /** Stop while the first item is processing: its result still lands, and
      the re-dispatch it schedules finds the run flag cleared. */
  method StopLetsInFlightFinish(o: ProcessingOptions, f1: InputFile, f2: InputFile, out1: seq<byte>)
    returns (first: Status, second: Status, requests: nat)
    ensures first == Completed && second == Pending && requests == 1
  {
    var b := Setup2(o, f1, f2);
    b.StartProcessing();
    b.StopProcessing();
    assert b.items[0].id == "a";
    b.HandleMessage(Result("a", out1, 1, 1, 5), "blob:a");
    b.RunScheduled();
    first, second := b.items[0].status, b.items[1].status;
    requests := |b.outbox|;
  }

  /** Options changed between two dispatches: the first request carries the
      old export format, the second the new one. */
  method OptionsReadAtDispatch(o: ProcessingOptions, f1: InputFile, f2: InputFile, out1: seq<byte>)
    returns (firstFormat: ExportFormat, secondFormat: ExportFormat)
    ensures firstFormat == Png && secondFormat == Webp
  {
    var b := Setup2(o.(exportFormat := Png), f1, f2);
    b.StartProcessing();
    b.SetOptions(o.(exportFormat := Webp));
    assert b.items[0].id == "a";
    b.HandleMessage(Result("a", out1, 1, 1, 5), "blob:a");
    assert b.items[1].status == Pending;
    b.RunScheduled();
    assert |b.outbox| == 2;
    firstFormat := b.outbox[0].options.exportFormat;
    secondFormat := b.outbox[1].options.exportFormat;
  }

  /** The processing item is removed through the hook: its late result is
      dropped, leaves the list alone and schedules nothing, so the queue stays
      running with a pending item and no request out; start is then a no-op. */
  method RemovedItemStalls(o: ProcessingOptions, f1: InputFile, f2: InputFile, out1: seq<byte>)
    returns (remaining: seq<BatchItem>, running: bool, requests: nat)
    ensures |remaining| == 1 && remaining[0].id == "b" && remaining[0].status == Pending
    ensures running && requests == 1
  {
    var b := Setup2(o, f1, f2);
    b.StartProcessing();
    b.RemoveItem("a");
    assert b.items == [b.items[0]] && b.items[0].id == "b";
    b.HandleMessage(Result("a", out1, 1, 1, 5), "blob:a");
    b.StartProcessing();
    remaining, running := b.items, b.running;
    requests := |b.outbox|;
  }

  /** Counterexample to "at most one processing" without the discipline:
      stop then start while the first item is still processing dispatches the
      second one beside it. */
  method RestartWhileProcessing(o: ProcessingOptions, f1: InputFile, f2: InputFile)
    returns (bothProcessing: bool, requests: nat)
    ensures bothProcessing && requests == 2
  {
    var b := Setup2(o, f1, f2);
    b.StartProcessing();
    b.StopProcessing();
    assert b.items[0].status == Processing && b.items[1].status == Pending;
    b.StartProcessing();
    bothProcessing := b.items[0].status == Processing && b.items[1].status == Processing;
    requests := |b.outbox|;
  }

  /** In the model, where the timer reads the queue as it is when it fires,
      "no item is processing" is not enough either: stop, the first result
      arrives and schedules a re-dispatch, start dispatches the second item,
      then the timer dispatches the third beside it. */
  method RestartBeforeTimer(o: ProcessingOptions, f1: InputFile, f2: InputFile, f3: InputFile, out1: seq<byte>)
    returns (noneProcessingAtStart: bool, bothProcessing: bool)
    ensures noneProcessingAtStart && bothProcessing
  {
    var b := Setup3(o, f1, f2, f3);
    b.StartProcessing();
    b.StopProcessing();
    assert b.items[0].id == "a";
    b.HandleMessage(Result("a", out1, 1, 1, 5), "blob:a");
    assert b.items[0].status == Completed && b.items[1].status == Pending && b.items[2].status == Pending;
    assert b.items == [b.items[0], b.items[1], b.items[2]];
    noneProcessingAtStart := forall i :: 0 <= i < |b.items| ==> b.items[i].status != Processing;
    assert FirstPending(b.items) == 1;
    b.StartProcessing();
    assert b.items[1].status == Processing && b.items[2].status == Pending;
    assert FirstPending(b.items) == 2;
    b.RunScheduled();
    bothProcessing := b.items[1].status == Processing && b.items[2].status == Processing;
  }
}
