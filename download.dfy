/** File names for downloaded results, the list of separate downloads, and
    the entry names of the ZIP archive. Anchor clicks, delays, object URLs
    and the compression itself are left out: the model computes what would
    be downloaded under which name. */
module Download {
  import opened Base
  import opened Protocol
  import opened Batch

  /** The extension pattern of `getOutputFilename` matches at `d`: a dot
      followed by at least one character, up to the end, none of them a dot or
      a slash. */
  predicate ExtensionAt(s: string, d: int) {
    0 <= d < |s| - 1 && s[d] == '.' && forall j :: d < j < |s| ==> s[j] != '.' && s[j] != '/'
  }

  /** The index of the last dot, or -1. */
  function LastDot(s: string): (d: int)
    ensures -1 <= d < |s|
    ensures d >= 0 ==> s[d] == '.'
    ensures forall j :: d < j < |s| ==> s[j] != '.'
    decreases |s|
  {
    if s == [] then -1
    else if s[|s| - 1] == '.' then |s| - 1
    else LastDot(s[..|s| - 1])
  }

  /** The name without the extension `ExtensionAt` finds, or
      the whole name when it has none. */
  function StripExtension(s: string): (r: string)
    ensures r == s <==> forall d :: 0 <= d < |s| ==> !ExtensionAt(s, d)
    ensures r != s ==> ExtensionAt(s, |r|) && r == s[..|r|]
  {
    var d := LastDot(s);
    if d >= 0 && d < |s| - 1 && (forall j :: d < j < |s| ==> s[j] != '/') then
      assert ExtensionAt(s, d);
      s[..d]
    else
      s
  }

  /** `getOutputFilename`. */
  function OutputFilename(name: string, f: ExportFormat): string {
    StripExtension(name) + "-bye-bg." + FormatName(f)
  }

  /** The extension a format adds holds neither a dot nor a slash. */
  lemma FormatNamePlain(f: ExportFormat)
    ensures |FormatName(f)| >= 1
    ensures forall j :: 0 <= j < |FormatName(f)| ==> FormatName(f)[j] != '.' && FormatName(f)[j] != '/'
  {
  }

  /** Stripping an output name removes exactly the format extension. */
  lemma StripOutputFilename(name: string, f: ExportFormat)
    ensures StripExtension(OutputFilename(name, f)) == StripExtension(name) + "-bye-bg"
  {
    var b := StripExtension(name) + "-bye-bg";
    var s := OutputFilename(name, f);
    FormatNamePlain(f);
    assert s == b + "." + FormatName(f);
    assert ExtensionAt(s, |b|);
    var r := StripExtension(s);
    ExtensionAtUnique(s, |r|, |b|);
  }

  /** The extension-stripping pattern matches at one place at most. */
  lemma ExtensionAtUnique(s: string, d: int, e: int)
    requires ExtensionAt(s, d) && ExtensionAt(s, e)
    ensures d == e
  {
  }

  /** A name chosen for a duplicate: the base name, a space, the counter in
      parentheses, a dot and the extension. */
  function Candidate(base: string, ext: string, n: nat): string {
    base + " (" + NatToString(n) + ")." + ext
  }

  /** Different counters give different names. */
  lemma CandidateInjective(base: string, ext: string, m: nat, n: nat)
    requires Candidate(base, ext, m) == Candidate(base, ext, n)
    ensures m == n
  {
    var a, b := Candidate(base, ext, m), Candidate(base, ext, n);
    var lo := |base| + 2;
    assert |NatToString(m)| == |NatToString(n)|;
    var hi := lo + |NatToString(m)|;
    assert a[lo..hi] == NatToString(m);
    assert b[lo..hi] == NatToString(n);
    NatToStringInjective(m, n);
  }

  /** A duplicate's name ends in `).ext`, an output name in `g.ext`, so no
      duplicate's name is ever an output name. */
  lemma CandidateIsNotOutput(base: string, n: nat, name: string, f: ExportFormat)
    ensures Candidate(base, FormatName(f), n) != OutputFilename(name, f)
  {
    var ext := FormatName(f);
    var c, o := Candidate(base, ext, n), OutputFilename(name, f);
    assert c[|c| - |ext| - 2] == ')';
    assert o[|o| - |ext| - 2] == 'g';
  }

  /** Completed, with a result. */
  predicate HasOutput(x: BatchItem) {
    x.status == Completed && x.result.Some?
  }

  /** The `completed` list both bulk downloads start from. */
  function CompletedWithResult(items: seq<BatchItem>): (r: seq<BatchItem>)
    ensures |r| <= |items|
    ensures forall x :: x in r <==> x in items && HasOutput(x)
  {
    if items == [] then []
    else if HasOutput(items[0]) then [items[0]] + CompletedWithResult(items[1..])
    else CompletedWithResult(items[1..])
  }

  /** The filter keeps list order: it distributes over concatenation. */
  lemma {:induction false} CompletedWithResultAppend(s: seq<BatchItem>, t: seq<BatchItem>)
    ensures CompletedWithResult(s + t) == CompletedWithResult(s) + CompletedWithResult(t)
  {
    if s != [] {
      assert (s + t)[1..] == s[1..] + t;
      CompletedWithResultAppend(s[1..], t);
    } else {
      assert s + t == t;
    }
  }

  /** A download: the URL to fetch and the file name to save it under. */
  datatype SavedFile = SavedFile(url: string, filename: string)

  /** `downloadBatchItem`: nothing unless the item has a result with a
      non-empty URL. */
  function DownloadBatchItem(item: BatchItem, f: ExportFormat): (r: Option<SavedFile>)
    ensures r.Some? <==> item.result.Some? && item.result.value.outputUrl != ""
    ensures r.Some? ==> r.value == SavedFile(item.result.value.outputUrl, OutputFilename(item.originalName, f))
  {
    if item.result.None? || item.result.value.outputUrl == "" then None
    else Some(SavedFile(item.result.value.outputUrl, OutputFilename(item.originalName, f)))
  }

  /** The downloads a list of items produces, one after another. */
  function Downloads(items: seq<BatchItem>, f: ExportFormat): seq<SavedFile>
    decreases |items|
  {
    if items == [] then []
    else
      var d := DownloadBatchItem(items[|items| - 1], f);
      Downloads(items[..|items| - 1], f) + (if d.Some? then [d.value] else [])
  }

  /** When every result has a URL, each item is saved once, in order, under
      its output name. */
  lemma {:induction false} DownloadsAll(items: seq<BatchItem>, f: ExportFormat)
    requires forall i :: 0 <= i < |items| ==> items[i].result.Some? && items[i].result.value.outputUrl != ""
    ensures |Downloads(items, f)| == |items|
    ensures forall i :: 0 <= i < |items| ==>
      Downloads(items, f)[i] == SavedFile(items[i].result.value.outputUrl, OutputFilename(items[i].originalName, f))
    decreases |items|
  {
    if items != [] {
      var init := items[..|items| - 1];
      DownloadsAll(init, f);
      assert forall i :: 0 <= i < |init| ==> init[i] == items[i];
    }
  }

  /** Every download comes from a completed item with a result. */
  lemma {:induction false} DownloadsFromItems(items: seq<BatchItem>, f: ExportFormat)
    ensures |Downloads(items, f)| <= |items|
    ensures forall d :: d in Downloads(items, f) ==>
      exists x :: x in items && DownloadBatchItem(x, f) == Some(d)
    decreases |items|
  {
    if items != [] {
      var init := items[..|items| - 1];
      DownloadsFromItems(init, f);
      forall d | d in Downloads(items, f)
        ensures exists x :: x in items && DownloadBatchItem(x, f) == Some(d)
      {
        if d in Downloads(init, f) {
          var x :| x in init && DownloadBatchItem(x, f) == Some(d);
          assert x in items;
        } else {
          assert DownloadBatchItem(items[|items| - 1], f) == Some(d);
        }
      }
    }
  }

  /** `downloadAllSeparate`: one download per completed item with a result,
      in list order. */
  method DownloadAllSeparate(items: seq<BatchItem>, f: ExportFormat) returns (saved: seq<SavedFile>)
    ensures saved == Downloads(CompletedWithResult(items), f)
  {
    var completed := CompletedWithResult(items);
    saved := [];
    var i := 0;
    while i < |completed|
      invariant 0 <= i <= |completed|
      invariant saved == Downloads(completed[..i], f)
    {
      var d := DownloadBatchItem(completed[i], f);
      assert completed[..i + 1][..i] == completed[..i];
      if d.Some? {
        saved := saved + [d.value];
      }
      i := i + 1;
    }
    assert completed[..i] == completed;
  }

  datatype ZipEntry = ZipEntry(name: string, bytes: seq<byte>)

  /** The names already placed in the archive (`usedFilenames`). */
  function Names(es: seq<ZipEntry>): set<string>
    decreases |es|
  {
    if es == [] then {} else Names(es[..|es| - 1]) + {es[|es| - 1].name}
  }

  /** A name is used exactly when some entry carries it. */
  lemma {:induction false} NamesMember(es: seq<ZipEntry>, x: string)
    ensures x in Names(es) <==> exists j :: 0 <= j < |es| && es[j].name == x
    decreases |es|
  {
    if es != [] {
      var init := es[..|es| - 1];
      NamesMember(init, x);
      if x in Names(init) {
        var j :| 0 <= j < |init| && init[j].name == x;
        assert es[j] == init[j];
      }
      if j :| 0 <= j < |es| - 1 && es[j].name == x {
        assert init[j] == es[j];
      }
    }
  }

  /** How the archive names an entry that wants `wanted` when `used` is taken:
      the wanted name if it is free, else the duplicate name with the
      smallest counter from 1 that is free. */
  ghost predicate NameRule(used: set<string>, wanted: string, ext: string, chosen: string) {
    if wanted !in used then chosen == wanted
    else FirstFreeName(used, StripExtension(wanted), ext, chosen)
  }

  /** `name` is the duplicate name with the smallest counter from 1 that is
      not in `used`. */
  ghost predicate FirstFreeName(used: set<string>, base: string, ext: string, name: string) {
    exists n: nat ::
      1 <= n && name == Candidate(base, ext, n) && name !in used
      && forall m: nat :: 1 <= m < n ==> Candidate(base, ext, m) in used
  }

  /** The name a rule chooses is never one already used. */
  lemma NameRuleFresh(used: set<string>, wanted: string, ext: string, chosen: string)
    requires NameRule(used, wanted, ext, chosen)
    ensures chosen !in used
  {
  }

  /** The archive for a list of completed items: one entry per item, with
      its bytes, named by the rule against the names before it. */
  ghost predicate ZipOf(completed: seq<BatchItem>, f: ExportFormat, es: seq<ZipEntry>) {
    |es| == |completed|
    && forall i :: 0 <= i < |es| ==> ZipEntryOf(completed[i], f, Names(es[..i]), es[i])
  }

  /** One entry of the archive, given the names placed before it. */
  ghost predicate ZipEntryOf(item: BatchItem, f: ExportFormat, used: set<string>, e: ZipEntry) {
    item.result.Some? && e.bytes == item.result.value.outputBytes
    && NameRule(used, OutputFilename(item.originalName, f), FormatName(f), e.name)
  }

  /** The archive grows one entry at a time. */
  lemma ZipOfSnoc(completed: seq<BatchItem>, f: ExportFormat, es: seq<ZipEntry>, x: BatchItem, e: ZipEntry)
    requires ZipOf(completed, f, es)
    requires ZipEntryOf(x, f, Names(es), e)
    ensures ZipOf(completed + [x], f, es + [e])
  {
    var c', es' := completed + [x], es + [e];
    forall k | 0 <= k < |es'| ensures ZipEntryOf(c'[k], f, Names(es'[..k]), es'[k]) {
      if k < |es| {
        assert es'[..k] == es[..k];
      } else {
        assert es'[..k] == es;
      }
    }
  }

  /** The names of entries `0..i` are pairwise distinct. */
  predicate DistinctNames(es: seq<ZipEntry>) {
    forall i, j :: 0 <= i < j < |es| ==> es[i].name != es[j].name
  }

  /** Every name in an archive is distinct from the others. */
  lemma {:induction false} ZipNamesDistinct(completed: seq<BatchItem>, f: ExportFormat, es: seq<ZipEntry>)
    requires ZipOf(completed, f, es)
    ensures DistinctNames(es)
  {
    forall i, j | 0 <= i < j < |es| ensures es[i].name != es[j].name {
      NameRuleFresh(Names(es[..j]), OutputFilename(completed[j].originalName, f), FormatName(f), es[j].name);
      assert es[..j][i] == es[i];
      NamesMember(es[..j], es[i].name);
    }
  }

  /** An item whose output name no earlier item shares keeps that name. */
  lemma {:induction false} ZipFirstKeepsName(completed: seq<BatchItem>, f: ExportFormat, es: seq<ZipEntry>, i: nat)
    requires ZipOf(completed, f, es)
    requires i < |es|
    requires forall j :: 0 <= j < i ==> OutputFilename(completed[j].originalName, f) != OutputFilename(completed[i].originalName, f)
    ensures es[i].name == OutputFilename(completed[i].originalName, f)
  {
    var wanted := OutputFilename(completed[i].originalName, f);
    NamesMember(es[..i], wanted);
    if wanted in Names(es[..i]) {
      var j :| 0 <= j < i && es[..i][j].name == wanted;
      assert es[..i][j] == es[j];
      var used := Names(es[..j]);
      var w := OutputFilename(completed[j].originalName, f);
      if w in used {
        var n: nat :| 1 <= n && es[j].name == Candidate(StripExtension(w), FormatName(f), n) && es[j].name !in used
          && (forall m: nat :: 1 <= m < n ==> Candidate(StripExtension(w), FormatName(f), m) in used);
        CandidateIsNotOutput(StripExtension(w), n, completed[i].originalName, f);
      }
    }
  }

  /** `downloadAsZip` up to the compression: `None` when there is no
      completed item with a result, else the archive's entries in order. */
  method ZipEntries(items: seq<BatchItem>, f: ExportFormat) returns (r: Option<seq<ZipEntry>>)
    ensures r.None? <==> CompletedWithResult(items) == []
    ensures r.Some? ==> ZipOf(CompletedWithResult(items), f, r.value)
  {
    var completed := CompletedWithResult(items);
    if |completed| == 0 {
      return None;
    }
    var used: set<string> := {};
    var es: seq<ZipEntry> := [];
    var i := 0;
    while i < |completed|
      invariant 0 <= i <= |completed| && |es| == i
      invariant used == Names(es)
      invariant ZipOf(completed[..i], f, es)
    {
      var item := completed[i];
      assert item in completed;
      var e := PlaceEntry(used, item, f);
      ZipStep(completed, i, f, es, e);
      NamesSnoc(es, e);
      used := used + {e.name};
      es := es + [e];
      i := i + 1;
    }
    assert completed[..i] == completed;
    return Some(es);
  }

  /** One turn of the outer loop keeps its invariant. */
  lemma ZipStep(completed: seq<BatchItem>, i: nat, f: ExportFormat, es: seq<ZipEntry>, e: ZipEntry)
    requires i < |completed| && ZipOf(completed[..i], f, es)
    requires ZipEntryOf(completed[i], f, Names(es), e)
    ensures ZipOf(completed[..i + 1], f, es + [e])
  {
    ZipOfSnoc(completed[..i], f, es, completed[i], e);
    assert completed[..i + 1] == completed[..i] + [completed[i]];
  }

  /** Appending an entry adds its name. */
  lemma NamesSnoc(es: seq<ZipEntry>, e: ZipEntry)
    ensures Names(es + [e]) == Names(es) + {e.name}
  {
    assert (es + [e])[..|es|] == es;
  }

  /** The body of the outer loop: name one entry against `used`. */
  method PlaceEntry(used: set<string>, item: BatchItem, f: ExportFormat) returns (e: ZipEntry)
    requires HasOutput(item)
    ensures ZipEntryOf(item, f, used, e)
  {
    var filename := OutputFilename(item.originalName, f);
    var chosen := filename;
    if filename in used {
      var base := StripExtension(filename);
      chosen := FirstFree(used, base, FormatName(f));
    }
    e := ZipEntry(chosen, item.result.value.outputBytes);
  }

  /** The duplicate names with counters `1..n-1`. */
  ghost function Below(base: string, ext: string, n: nat): set<string> {
    if n <= 1 then {} else Below(base, ext, n - 1) + {Candidate(base, ext, n - 1)}
  }

  /** A counter from `n` up has not been tried below `n`. */
  lemma {:induction false} BelowExcludes(base: string, ext: string, n: nat, k: nat)
    requires k >= n
    ensures Candidate(base, ext, k) !in Below(base, ext, n)
  {
    if n > 1 {
      BelowExcludes(base, ext, n - 1, k);
      if Candidate(base, ext, k) == Candidate(base, ext, n - 1) {
        CandidateInjective(base, ext, k, n - 1);
      }
    }
  }

  /** The inner `while`: the smallest counter from 1 whose duplicate name is
      not yet used. */
  method FirstFree(used: set<string>, base: string, ext: string) returns (name: string)
    ensures FirstFreeName(used, base, ext, name)
  {
    var counter: nat := 1;
    while Candidate(base, ext, counter) in used
      invariant counter >= 1
      invariant forall m: nat :: 1 <= m < counter ==> Candidate(base, ext, m) in used
      invariant Below(base, ext, counter) <= used && |Below(base, ext, counter)| == counter - 1
      decreases |used - Below(base, ext, counter)|
    {
      BelowExcludes(base, ext, counter, counter);
      assert used - Below(base, ext, counter + 1) == (used - Below(base, ext, counter)) - {Candidate(base, ext, counter)};
      counter := counter + 1;
    }
    name := Candidate(base, ext, counter);
    assert 1 <= counter && name == Candidate(base, ext, counter) && name !in used;
  }
}
