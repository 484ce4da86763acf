// `apply_tweaks`: the whole post-processing pipeline. Raw notes are filtered,
// merged, capped, optionally quantized, given one velocity and sorted.
module Postprocess {
  import opened Numeric
  import opened State
  import opened Sorting
  import opened Quantize
  import opened MergeGap
  import opened Polyphony

  /** The filter's minimum length: `max(0, min_note_ms / 1000)`. */
  function MinDuration(s: Settings): real
  {
    MaxR(0.0, s.minNoteMs as real / 1000.0)
  }

  /** A raw note survives the filter: pitch in range, positive and long enough, loud enough. */
  predicate Passes(n: NoteEvent, s: Settings)
  {
    s.pitchMin <= n.midiPitch <= s.pitchMax &&
    n.endSec > n.startSec &&
    n.endSec - n.startSec >= MinDuration(s) &&
    n.velocity >= s.minVelocity
  }

  function Keeps(s: Settings): NoteEvent -> bool
  {
    (n: NoteEvent) => Passes(n, s)
  }

  /** The filter loop at the head of `apply_tweaks`. */
  method FilterRaw(raw: seq<NoteEvent>, s: Settings) returns (out: seq<NoteEvent>)
    ensures out == Filter(raw, Keeps(s))
  {
    var minDur := MaxR(0.0, s.minNoteMs as real / 1000.0);
    assert minDur == MinDuration(s);
    out := [];
    for i := 0 to |raw|
      invariant out == Filter(raw[..i], Keeps(s))
    {
      var n := raw[i];
      FilterStep(raw, i, s);
      if n.midiPitch < s.pitchMin || n.midiPitch > s.pitchMax {
        continue;
      }
      if n.endSec <= n.startSec {
        continue;
      }
      if n.endSec - n.startSec < minDur {
        continue;
      }
      if n.velocity < s.minVelocity {
        continue;
      }
      out := out + [NoteEvent(n.startSec, n.endSec, n.midiPitch, n.velocity)];
    }
    assert raw[..|raw|] == raw;
  }

  /** One more raw note adds itself to the filtered prefix exactly when it passes. */
  lemma FilterStep(raw: seq<NoteEvent>, i: int, s: Settings)
    requires 0 <= i < |raw|
    ensures Filter(raw[..i + 1], Keeps(s)) == Filter(raw[..i], Keeps(s)) + (if Passes(raw[i], s) then [raw[i]] else [])
  {
    FilterAppend(raw[..i], raw[i], Keeps(s));
    assert raw[..i + 1] == raw[..i] + [raw[i]];
  }

  /** The filter keeps exactly the notes that pass, in their original order. */
  lemma FilterKeepsPassing(raw: seq<NoteEvent>, s: Settings)
    ensures forall n :: n in Filter(raw, Keeps(s)) <==> n in raw && Passes(n, s)
    ensures forall key :: Sorted(raw, key) ==> Sorted(Filter(raw, Keeps(s)), key)
  {
    forall key | Sorted(raw, key) ensures Sorted(Filter(raw, Keeps(s)), key) {
      FilterSorted(raw, Keeps(s), key);
    }
  }

  /** The last stage's comprehension: every note gets velocity v. */
  function WithVelocity(notes: seq<NoteEvent>, v: int): (r: seq<NoteEvent>)
    ensures |r| == |notes|
    ensures forall i :: 0 <= i < |r| ==>
      r[i].startSec == notes[i].startSec && r[i].endSec == notes[i].endSec &&
      r[i].midiPitch == notes[i].midiPitch && r[i].velocity == v
  {
    if |notes| == 0 then []
    else [NoteEvent(notes[0].startSec, notes[0].endSec, notes[0].midiPitch, v)] + WithVelocity(notes[1..], v)
  }

  /** The merge gap in seconds. */
  function GapSeconds(s: Settings): real
  {
    s.mergeGapMs as real / 1000.0
  }

  /** What `apply_tweaks` returns: filter, merge, cap, quantize if enabled, one velocity, start order. */
  function Tweaked(raw: seq<NoteEvent>, s: Settings): seq<NoteEvent>
  {
    var filtered := Filter(raw, Keeps(s));
    var merged := MergedNotes(filtered, GapSeconds(s));
    var capped := CappedNotes(merged, s.maxPolyphony);
    var shaped := if s.quantize then QuantizedNotes(capped, s) else capped;
    SortBy(WithVelocity(shaped, Clamp(s.velocity, 1, 127)), StartPitchKey)
  }

  /** `apply_tweaks`: the five stages in order. */
  method ApplyTweaks(raw: seq<NoteEvent>, s: Settings) returns (out: seq<NoteEvent>)
    ensures out == Tweaked(raw, s)
  {
    var filtered := FilterRaw(raw, s);
    var merged := MergeGap.MergeGap(filtered, GapSeconds(s));
    var capped := CapPolyphony(merged, s.maxPolyphony);
    var shaped := capped;
    if s.quantize {
      shaped := ApplyQuantize(capped, s);
    }
    var v := Max(1, Min(127, s.velocity));
    out := SortBy(WithVelocity(shaped, v), StartPitchKey);
  }

  /** A note the pipeline may emit: pitch in range, positive length of at least the filter's minimum. */
  ghost predicate Valid(n: NoteEvent, s: Settings)
  {
    s.pitchMin <= n.midiPitch <= s.pitchMax && n.endSec > n.startSec && n.endSec - n.startSec >= MinDuration(s)
  }

  ghost predicate AllValid(notes: seq<NoteEvent>, s: Settings)
  {
    forall n :: n in notes ==> Valid(n, s)
  }

  lemma ValidSubMultiset(a: seq<NoteEvent>, b: seq<NoteEvent>, s: Settings)
    requires multiset(a) <= multiset(b) && AllValid(b, s)
    ensures AllValid(a, s)
  {
    forall n | n in a ensures Valid(n, s) {
      assert n in multiset(b);
    }
  }

  /** Merging valid notes gives valid notes: a merged note starts with its first note and ends no earlier. */
  lemma MergeKeepsValid(notes: seq<NoteEvent>, s: Settings)
    requires AllValid(notes, s)
    ensures AllValid(MergedNotes(notes, GapSeconds(s)), s)
  {
    var gap := GapSeconds(s);
    if gap <= 0.0 {
      ValidSubMultiset(MergedNotes(notes, gap), notes, s);
    } else {
      forall m | m in MergedNotes(notes, gap) ensures Valid(m, s) {
        MergedNoteValid(notes, s, m);
      }
    }
  }

  lemma MergedNoteValid(notes: seq<NoteEvent>, s: Settings, m: NoteEvent)
    requires AllValid(notes, s) && GapSeconds(s) > 0.0 && m in MergedNotes(notes, GapSeconds(s))
    ensures Valid(m, s)
  {
    MergedNoteOrigin(notes, GapSeconds(s), m);
    var n :| n in notes && n.startSec == m.startSec && n.midiPitch == m.midiPitch && n.endSec <= m.endSec;
    assert Valid(n, s);
  }

  lemma QuantizeKeepsValid(notes: seq<NoteEvent>, s: Settings)
    requires AllValid(notes, s)
    ensures AllValid(QuantizedNotes(notes, s), s)
  {
    var r := QuantizedNotes(notes, s);
    forall n | n in r ensures Valid(n, s) {
      var i :| 0 <= i < |r| && r[i] == n;
      assert notes[i] in notes;
    }
  }

  lemma WithVelocityKeepsValid(notes: seq<NoteEvent>, v: int, s: Settings)
    requires AllValid(notes, s)
    ensures AllValid(WithVelocity(notes, v), s)
  {
    var r := WithVelocity(notes, v);
    forall n | n in r ensures Valid(n, s) {
      var i :| 0 <= i < |r| && r[i] == n;
      assert notes[i] in notes;
    }
  }

  /** Stage results, named for the proofs below. */
  function Stages(raw: seq<NoteEvent>, s: Settings): (seq<NoteEvent>, seq<NoteEvent>, seq<NoteEvent>, seq<NoteEvent>)
  {
    var filtered := Filter(raw, Keeps(s));
    var merged := MergedNotes(filtered, GapSeconds(s));
    var capped := CappedNotes(merged, s.maxPolyphony);
    var shaped := if s.quantize then QuantizedNotes(capped, s) else capped;
    (filtered, merged, capped, shaped)
  }

  /**
   * Every note `apply_tweaks` returns has its pitch in the configured range, a
   * positive length and at least the minimum length.
   */
  lemma TweakedNotesValid(raw: seq<NoteEvent>, s: Settings)
    ensures AllValid(Tweaked(raw, s), s)
  {
    var (filtered, merged, capped, shaped) := Stages(raw, s);
    var v := Clamp(s.velocity, 1, 127);
    assert AllValid(filtered, s);
    MergeKeepsValid(filtered, s);
    CappedNotesProps(merged, s.maxPolyphony);
    ValidSubMultiset(capped, merged, s);
    if s.quantize {
      QuantizeKeepsValid(capped, s);
    }
    WithVelocityKeepsValid(shaped, v, s);
    ValidSubMultiset(Tweaked(raw, s), WithVelocity(shaped, v), s);
  }

  /**
   * `apply_tweaks` returns notes sorted by (start, pitch), no more of them than
   * it was given, every one with velocity `clamp(velocity, 1, 127)`.
   */
  lemma TweakedShape(raw: seq<NoteEvent>, s: Settings)
    ensures Sorted(Tweaked(raw, s), StartPitchKey)
    ensures |Tweaked(raw, s)| <= |raw|
    ensures forall n :: n in Tweaked(raw, s) ==> n.velocity == Clamp(s.velocity, 1, 127)
  {
    var (filtered, merged, capped, shaped) := Stages(raw, s);
    var v := Clamp(s.velocity, 1, 127);
    var w := WithVelocity(shaped, v);
    StartPitchUniform();
    SortBySorted(w, StartPitchKey);
    MergeShrinksAndSorts(filtered, GapSeconds(s));
    CappedNotesProps(merged, s.maxPolyphony);
    SubMultisetLength(capped, merged);
    forall n | n in Tweaked(raw, s) ensures n.velocity == v {
      assert n in multiset(w);
      var i :| 0 <= i < |w| && w[i] == n;
    }
  }

  lemma ApartWithVelocity(notes: seq<NoteEvent>, v: int, gap: real)
    requires PairwiseApart(notes, gap)
    ensures PairwiseApart(WithVelocity(notes, v), gap)
  {
    var r := WithVelocity(notes, v);
    forall x, y | 0 <= x < y < |r| ensures Apart(r[x], r[y], gap) {
      assert Apart(notes[x], notes[y], gap);
    }
  }

  /**
   * Without quantize and with a positive merge gap, two output notes of one
   * pitch are always more than the gap apart: the later starts more than
   * `merge_gap_ms / 1000` seconds after the earlier ends.
   */
  lemma TweakedSeparated(raw: seq<NoteEvent>, s: Settings)
    requires !s.quantize && s.mergeGapMs > 0
    ensures RunsSeparated(Tweaked(raw, s), GapSeconds(s))
  {
    var (filtered, merged, capped, shaped) := Stages(raw, s);
    var gap := GapSeconds(s);
    var v := Clamp(s.velocity, 1, 127);
    var out := Tweaked(raw, s);
    MergeSeparates(filtered, gap);
    CappedNotesProps(merged, s.maxPolyphony);
    ApartSubMultiset(merged, capped, gap);
    ApartWithVelocity(capped, v, gap);
    ApartSubMultiset(WithVelocity(capped, v), out, gap);
    TweakedShape(raw, s);
    SortedStartOrdered(out);
    TweakedNotesValid(raw, s);
    forall x | 0 <= x < |out| ensures out[x].startSec <= out[x].endSec {
      assert Valid(out[x], s);
    }
    ApartInStartOrder(out, gap);
  }

  lemma {:induction false} SoundingWithVelocity(notes: seq<NoteEvent>, v: int, t: real)
    ensures |Sounding(WithVelocity(notes, v), t)| == |Sounding(notes, t)|
    decreases |notes|
  {
    if |notes| > 0 {
      SoundingWithVelocity(notes[1..], v, t);
    }
  }

  /**
   * Without quantize and with a positive polyphony cap, at no instant do more
   * than `max_polyphony` output notes sound.
   */
  lemma TweakedPolyphony(raw: seq<NoteEvent>, s: Settings)
    requires !s.quantize && s.maxPolyphony > 0
    ensures WithinPolyphony(Tweaked(raw, s), s.maxPolyphony)
  {
    var (filtered, merged, capped, shaped) := Stages(raw, s);
    var v := Clamp(s.velocity, 1, 127);
    var w := WithVelocity(capped, v);
    CappedNotesProps(merged, s.maxPolyphony);
    forall t ensures |Sounding(w, t)| <= s.maxPolyphony {
      SoundingWithVelocity(capped, v, t);
    }
    PolyphonyPermutation(w, Tweaked(raw, s), s.maxPolyphony);
  }
}
