/** The colour picker's hex field, swatch selection and recent swatches. The
    parent owns the current colour: `onChange` calls are recorded in order,
    and the parent passing a new colour back is the `ValueChanged` step. The
    popover, the drag picker and the upper-cased display are left out. */
module ColorPicker {
  import opened Base
  import opened RecentColors

  /** `DEFAULT_PRESETS`. */
  const DefaultPresets: seq<string> := ["#0f172a", "#0ea5e9", "#1e293b", "#f8fafc", "#ec4899"]

  /** How many recent swatches the panel shows. */
  const MaxShown: nat := 5

  predicate IsHexDigit(c: char) {
    '0' <= c <= '9' || 'a' <= c <= 'f' || 'A' <= c <= 'F'
  }

  /** A hash followed by exactly six hexadecimal digits, either case. */
  predicate IsValidHex(s: string) {
    |s| == 7 && s[0] == '#' && forall i :: 1 <= i < 7 ==> IsHexDigit(s[i])
  }

  /** Non-empty text without a leading `#` gets one. */
  function NormalizeHexInput(s: string): (r: string)
    ensures s == [] <==> r == []
    ensures r != [] ==> r[0] == '#'
    ensures r == s || r == "#" + s
    ensures s != [] && s[0] == '#' ==> r == s
  {
    if s != [] && !StartsWith(s, "#") then "#" + s else s
  }

  /** Normalising twice is normalising once. */
  lemma NormalizeIdempotent(s: string)
    ensures NormalizeHexInput(NormalizeHexInput(s)) == NormalizeHexInput(s)
  {
  }

  /** Typing six hex digits, with or without the hash, yields a valid colour;
      a valid colour is left alone. */
  lemma NormalizeSixDigits(digits: string)
    requires |digits| == 6 && forall i :: 0 <= i < 6 ==> IsHexDigit(digits[i])
    ensures IsValidHex(NormalizeHexInput(digits))
    ensures NormalizeHexInput(digits) == "#" + digits
    ensures NormalizeHexInput("#" + digits) == "#" + digits
  {
    assert !StartsWith(digits, "#") by {
      assert IsHexDigit(digits[0]);
    }
    var r := "#" + digits;
    assert forall i :: 1 <= i < 7 ==> r[i] == digits[i - 1];
  }

  /** Only a normalised input can be valid: valid text starts with the hash,
      which normalising keeps. */
  lemma ValidIsNormal(s: string)
    requires IsValidHex(s)
    ensures NormalizeHexInput(s) == s
  {
  }

  /** `filteredRecent`: recent colours whose lower-case form is not in the
      preset list and is not the current colour up to case. */
  function FilteredRecent(recent: seq<string>, presets: seq<string>, value: string): (r: seq<string>)
    ensures forall c :: c in r <==> c in recent && Lower(c) !in presets && Lower(c) != Lower(value)
    ensures IsSubsequence(r, recent)
    decreases |recent|
  {
    if recent == [] then []
    else
      var rest := FilteredRecent(recent[1..], presets, value);
      if Lower(recent[0]) !in presets && Lower(recent[0]) != Lower(value) then
        assert ([recent[0]] + rest)[1..] == rest;
        [recent[0]] + rest
      else
        SubsequenceSkip(rest, recent);
        rest
  }

  lemma SubsequenceSkip(a: seq<string>, b: seq<string>)
    requires b != [] && IsSubsequence(a, b[1..])
    ensures IsSubsequence(a, b)
  {
  }

  /** With lower-case presets, as the defaults are, no shown recent colour
      equals a preset or the current colour up to case. */
  lemma FilteredExcludesPresets(recent: seq<string>, presets: seq<string>, value: string, c: string, p: string)
    requires forall q :: q in presets ==> Lower(q) == q
    requires c in FilteredRecent(recent, presets, value) && p in presets
    ensures Lower(c) != Lower(p) && Lower(c) != Lower(value)
  {
  }

  /** The default presets are lower-case. */
  lemma DefaultPresetsLower()
    ensures forall q :: q in DefaultPresets ==> Lower(q) == q
  {
    forall q | q in DefaultPresets ensures Lower(q) == q {
      assert q == "#0f172a" || q == "#0ea5e9" || q == "#1e293b" || q == "#f8fafc" || q == "#ec4899";
    }
  }

  class Picker {
    /** The current colour, as the parent last passed it. */
    var value: string
    /** The text in the hex field. */
    var inputValue: string
    /** The recent-colours list of `useRecentColors`. */
    var recent: seq<string>
    /** Whether the popover panel is open. */
    var isOpen: bool
    /** Every colour handed to `onChange`, oldest first. */
    var changes: seq<string>
    const presets: seq<string>

    constructor(value: string, presets: seq<string>, recent: seq<string>)
      ensures this.value == value && inputValue == value && this.presets == presets
      ensures this.recent == recent && !isOpen && changes == []
    {
      this.value := value;
      inputValue := value;
      this.presets := presets;
      this.recent := recent;
      isOpen := false;
      changes := [];
    }

    /** The effect on `value`: the field follows a new colour from the parent.
        The effect runs only when the colour actually changes. */
    method ValueChanged(v: string)
      requires v != value
      modifies this
      ensures value == v && inputValue == v
      ensures recent == old(recent) && isOpen == old(isOpen) && changes == old(changes)
    {
      value := v;
      inputValue := v;
    }

    method OpenPanel()
      modifies this
      ensures isOpen
      ensures value == old(value) && inputValue == old(inputValue) && recent == old(recent) && changes == old(changes)
    {
      isOpen := true;
    }

    /** `handleInputChange`: the field shows the normalised text; a valid
        colour is passed on. */
    method InputChange(typed: string)
      modifies this
      ensures inputValue == NormalizeHexInput(typed)
      ensures changes == old(changes) + (if IsValidHex(inputValue) then [inputValue] else [])
      ensures value == old(value) && recent == old(recent) && isOpen == old(isOpen)
    {
      var newValue := typed;
      if newValue != [] && !StartsWith(newValue, "#") {
        newValue := "#" + newValue;
      }
      inputValue := newValue;
      if IsValidHex(newValue) {
        changes := changes + [newValue];
      }
    }

    /** `handleInputBlur`: invalid text is replaced by the current colour. */
    method InputBlur()
      modifies this
      ensures inputValue == (if IsValidHex(old(inputValue)) then old(inputValue) else value)
      ensures IsValidHex(value) ==> IsValidHex(inputValue)
      ensures value == old(value) && recent == old(recent) && isOpen == old(isOpen) && changes == old(changes)
    {
      if !IsValidHex(inputValue) {
        inputValue := value;
      }
    }

    /** `handleSelectColor`: apply the swatch, record it, close the panel. */
    method SelectColor(color: string)
      modifies this
      ensures changes == old(changes) + [color] && inputValue == color
      ensures recent == AddRecent(old(recent), color) && recent[0] == Lower(color)
      ensures !isOpen && value == old(value)
    {
      changes := changes + [color];
      inputValue := color;
      recent := AddRecent(recent, color);
      isOpen := false;
    }

    /** `handlePickerClose`, on the panel's blur: record the current colour. */
    method PickerClose()
      modifies this
      ensures recent == AddRecent(old(recent), value) && recent[0] == Lower(value)
      ensures value == old(value) && inputValue == old(inputValue) && isOpen == old(isOpen) && changes == old(changes)
    {
      recent := AddRecent(recent, value);
    }

    /** The recent swatches on display. */
    function Shown(): (r: seq<string>)
      reads this
      ensures |r| <= MaxShown
      ensures IsSubsequence(r, recent)
      ensures forall c :: c in r ==> Lower(c) !in presets && Lower(c) != Lower(value)
    {
      var f := FilteredRecent(recent, presets, value);
      SubsequencePrefix(f, recent, |Take(f, MaxShown)|);
      assert Take(f, MaxShown) == f[..|Take(f, MaxShown)|];
      Take(f, MaxShown)
    }
  }

  /** Picking a swatch and then blurring the panel records the swatch once:
      the blur adds the colour the parent passed back, the same one. */
  method SelectThenClose(value: string, recent: seq<string>, swatch: string)
    returns (shownRecent: seq<string>, applied: seq<string>)
    ensures shownRecent == AddRecent(recent, swatch) && applied == [swatch]
  {
    var p := new Picker(value, DefaultPresets, recent);
    p.OpenPanel();
    p.SelectColor(swatch);
    if swatch != value {
      p.ValueChanged(swatch);
    }
    p.PickerClose();
    AddRecentIdempotent(recent, swatch);
    shownRecent, applied := p.recent, p.changes;
  }
}
