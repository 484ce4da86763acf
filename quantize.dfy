// The quantize stage of the post-processing pipeline: the tempo grid, pulling
// one time toward it, and the per-note pass with its minimum-length floor.
module Quantize {
  import opened Numeric
  import opened Text
  import opened State

  /** The text after the first "/" up to the next one: `grid.split("/")[1]`, if there is a "/". */
  function SecondField(s: string): Option<string>
  {
    if |s| == 0 then None
    else if s[0] == '/' then Some(UpToSlash(s[1..]))
    else SecondField(s[1..])
  }

  function UpToSlash(s: string): string
  {
    if |s| == 0 || s[0] == '/' then [] else [s[0]] + UpToSlash(s[1..])
  }

  /** The grid's denominator as written, or 16 when it is missing or not an integer. */
  function GridDenominator(grid: string): int
  {
    match SecondField(grid)
    case None => 16
    case Some(field) =>
      match ParseInt(field)
      case None => 16
      case Some(d) => d
  }

  /** Length of one grid step in seconds: a quarter note times 4/denominator. */
  function GridSeconds(bpm: int, grid: string): (g: real)
    ensures g > 0.0
  {
    var b := Max(1, bpm);
    var d := Max(1, GridDenominator(grid));
    (60.0 / b as real) * (4.0 / d as real)
  }

  lemma {:induction false} SecondFieldAfterPrefix(num: string, field: string)
    requires forall i :: 0 <= i < |num| ==> num[i] != '/'
    requires forall i :: 0 <= i < |field| ==> field[i] != '/'
    ensures SecondField(num + "/" + field) == Some(field)
    decreases |num|
  {
    if |num| == 0 {
      assert (num + "/" + field)[1..] == field;
      UpToSlashAll(field);
    } else {
      assert (num + "/" + field)[1..] == num[1..] + "/" + field;
      SecondFieldAfterPrefix(num[1..], field);
    }
  }

  lemma {:induction false} UpToSlashAll(s: string)
    requires forall i :: 0 <= i < |s| ==> s[i] != '/'
    ensures UpToSlash(s) == s
    decreases |s|
  {
    if |s| > 0 {
      UpToSlashAll(s[1..]);
    }
  }

  lemma {:induction false} NoSlashSecondField(s: string)
    requires forall i :: 0 <= i < |s| ==> s[i] != '/'
    ensures SecondField(s) == None
    decreases |s|
  {
    if |s| > 0 { NoSlashSecondField(s[1..]); }
  }

  /** A grid written "num/n" has denominator n. */
  lemma DenominatorOfFraction(num: string, n: int)
    requires forall i :: 0 <= i < |num| ==> num[i] != '/'
    ensures GridDenominator(num + "/" + IntToString(n)) == n
  {
    var digits := IntToString(n);
    assert forall i :: 0 <= i < |digits| ==> digits[i] != '/';
    SecondFieldAfterPrefix(num, digits);
    ParseIntToString(n);
  }

  /** A grid written "num/n" with n >= 1 is 4/n quarter notes long; bpm below 1 counts as 1. */
  lemma GridSecondsOfFraction(bpm: int, num: string, n: int)
    requires n >= 1
    requires forall i :: 0 <= i < |num| ==> num[i] != '/'
    ensures GridSeconds(bpm, num + "/" + IntToString(n)) == (60.0 / Max(1, bpm) as real) * (4.0 / n as real)
  {
    var grid := num + "/" + IntToString(n);
    DenominatorOfFraction(num, n);
    DenominatorSeconds(bpm, grid, n);
  }

  lemma DenominatorSeconds(bpm: int, grid: string, d: int)
    requires GridDenominator(grid) == d >= 1
    ensures GridSeconds(bpm, grid) == (60.0 / Max(1, bpm) as real) * (4.0 / d as real)
  {
  }

  /** A grid without "/" falls back to sixteenth notes. */
  lemma GridWithoutSlash(bpm: int, grid: string)
    requires forall i :: 0 <= i < |grid| ==> grid[i] != '/'
    ensures GridSeconds(bpm, grid) == (60.0 / Max(1, bpm) as real) * 0.25
  {
    NoSlashSecondField(grid);
  }

  /** The default setting, 1/16 at 120 BPM, is an eighth of a second. */
  lemma DefaultGrid()
    ensures GridSeconds(120, "1/16") == 0.125
  {
    GridSecondsOfFraction(120, "1", 16);
    SixteenAsText();
    assert "1" + "/" + "16" == "1/16";
  }

  /** `str(16)`. */
  lemma SixteenAsText()
    ensures IntToString(16) == "16"
  {
    assert NatToString(1) == "1";
  }

  /** The grid line nearest to t (ties to the even multiple). */
  function GridTarget(t: real, grid: real): real
    requires grid > 0.0
  {
    RoundHalfEven(t / grid) as real * grid
  }

  /** Pull t toward the nearest multiple of the grid by the fraction `strength`. */
  function QuantizeTime(t: real, grid: real, strength: real): (r: real)
    ensures grid <= 0.0 ==> r == t
    ensures grid > 0.0 && strength == 0.0 ==> r == t
    ensures grid > 0.0 && strength == 1.0 ==> r == GridTarget(t, grid)
    ensures grid > 0.0 && 0.0 <= strength <= 1.0 ==>
      (t <= r <= GridTarget(t, grid) || GridTarget(t, grid) <= r <= t)
  {
    if grid <= 0.0 then t
    else
      var target := GridTarget(t, grid);
      if 0.0 <= strength <= 1.0 then
        LerpBetween(t, target, strength);
        Lerp(t, target, strength)
      else Lerp(t, target, strength)
  }

  /** |x * g| <= g/2 when |x| <= 1/2 and g > 0. */
  lemma HalfOfPositive(x: real, g: real)
    requires g > 0.0 && -0.5 <= x <= 0.5
    ensures -(g / 2.0) <= x * g <= g / 2.0
  {
    ScaledFraction(g, x + 0.5);
    assert x * g == (x + 0.5) * g - 0.5 * g;
  }

  lemma DivMul(t: real, g: real)
    requires g != 0.0
    ensures (t / g) * g == t
  {
  }

  /** The nearest grid line is at most half a step away. */
  lemma NearestGridLine(t: real, grid: real)
    requires grid > 0.0
    ensures -(grid / 2.0) <= GridTarget(t, grid) - t <= grid / 2.0
  {
    var q := t / grid;
    var k := RoundHalfEven(q) as real;
    var x := k - q;
    assert -0.5 <= x <= 0.5;
    HalfOfPositive(x, grid);
    var p := x * grid;
    assert -(grid / 2.0) <= p <= grid / 2.0;
    DivMul(t, grid);
    assert p == k * grid - t;
  }

  /** A time moves by at most half a grid step, however strong the pull. */
  lemma QuantizeMovesAtMostHalfStep(t: real, grid: real, strength: real)
    requires grid > 0.0 && 0.0 <= strength <= 1.0
    ensures Abs(QuantizeTime(t, grid, strength) - t) <= grid / 2.0
  {
    NearestGridLine(t, grid);
  }

  /** A grid line is its own nearest grid line. */
  lemma GridTargetOnGrid(t: real, grid: real)
    requires grid > 0.0
    ensures GridTarget(GridTarget(t, grid), grid) == GridTarget(t, grid)
  {
    var k := RoundHalfEven(t / grid);
    var g := GridTarget(t, grid);
    assert g == k as real * grid;
    MulDiv(k as real, grid);
    assert g / grid == k as real;
    RoundOfInt(k);
    assert RoundHalfEven(g / grid) == k;
  }

  lemma MulDiv(k: real, g: real)
    requires g != 0.0
    ensures (k * g) / g == k
  {
  }

  /** The `strength` of the quantize pass: the slider's percentage clamped to [0, 1]. */
  function QuantizeStrength(s: Settings): (r: real)
    ensures 0.0 <= r <= 1.0
  {
    ClampR(s.quantizeStrength as real / 100.0, 0.0, 1.0)
  }

  /** The quantize pass's minimum note length: at least a millisecond. */
  function QuantizeMinDuration(s: Settings): (r: real)
    ensures r >= 0.001 && r >= s.minNoteMs as real / 1000.0
  {
    MaxR(0.001, s.minNoteMs as real / 1000.0)
  }

  /** One note of the quantize pass: both edges pulled, swapped back if they crossed, then floored to minDur. */
  function QuantizeNote(n: NoteEvent, grid: real, strength: real, minDur: real): (r: NoteEvent)
    ensures r.midiPitch == n.midiPitch && r.velocity == n.velocity
    ensures r.startSec <= r.endSec
    ensures r.endSec - r.startSec >= minDur
    ensures r.startSec == MinR(QuantizeTime(n.startSec, grid, strength), QuantizeTime(n.endSec, grid, strength))
    ensures r.endSec - r.startSec == MaxR(minDur,
      Abs(QuantizeTime(n.endSec, grid, strength) - QuantizeTime(n.startSec, grid, strength)))
  {
    var stQ := QuantizeTime(n.startSec, grid, strength);
    var enQ := QuantizeTime(n.endSec, grid, strength);
    var st := if enQ < stQ then enQ else stQ;
    var en := if enQ < stQ then stQ else enQ;
    var en2 := if en - st < minDur then st + minDur else en;
    NoteEvent(st, en2, n.midiPitch, n.velocity)
  }

  /** With the full pull a note's start lands on a grid line (it is its own nearest grid line). */
  lemma FullStrengthStartOnGrid(n: NoteEvent, grid: real, minDur: real)
    requires grid > 0.0
    ensures var st := QuantizeNote(n, grid, 1.0, minDur).startSec;
      st == GridTarget(st, grid)
  {
    GridTargetOnGrid(n.startSec, grid);
    GridTargetOnGrid(n.endSec, grid);
  }

  /**
   * What `_apply_quantize` returns: the input itself when the strength is 0,
   * otherwise one quantized note per input note, same pitch and velocity, never
   * reversed and never shorter than the quantize pass's minimum length.
   */
  function QuantizedNotes(notes: seq<NoteEvent>, s: Settings): (r: seq<NoteEvent>)
    ensures |r| == |notes|
    ensures QuantizeStrength(s) == 0.0 ==> r == notes
    ensures forall i :: 0 <= i < |r| ==> r[i].midiPitch == notes[i].midiPitch && r[i].velocity == notes[i].velocity
    ensures QuantizeStrength(s) > 0.0 ==> forall i :: 0 <= i < |r| ==>
      r[i].startSec <= r[i].endSec && r[i].endSec - r[i].startSec >= QuantizeMinDuration(s)
  {
    var grid := GridSeconds(s.quantizeBpm, s.quantizeGrid);
    var strength := QuantizeStrength(s);
    if strength <= 0.0 then notes
    else seq(|notes|, i requires 0 <= i < |notes| => QuantizeNote(notes[i], grid, strength, QuantizeMinDuration(s)))
  }

  /** `_apply_quantize`: the per-note loop. */
  method ApplyQuantize(notes: seq<NoteEvent>, s: Settings) returns (out: seq<NoteEvent>)
    ensures out == QuantizedNotes(notes, s)
  {
    var grid := GridSeconds(s.quantizeBpm, s.quantizeGrid);
    var strength := QuantizeStrength(s);
    if strength <= 0.0 {
      return notes;
    }
    var minDur := QuantizeMinDuration(s);
    out := [];
    for i := 0 to |notes|
      invariant |out| == i
      invariant forall k :: 0 <= k < i ==> out[k] == QuantizeNote(notes[k], grid, strength, minDur)
    {
      var n := notes[i];
      var stQ := QuantizeTime(n.startSec, grid, strength);
      var enQ := QuantizeTime(n.endSec, grid, strength);
      if enQ < stQ {
        stQ, enQ := enQ, stQ;
      }
      if enQ - stQ < minDur {
        enQ := stQ + minDur;
      }
      out := out + [NoteEvent(stQ, enQ, n.midiPitch, n.velocity)];
    }
  }
}
