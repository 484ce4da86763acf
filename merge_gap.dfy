// The merge stage of the post-processing pipeline (`_merge_gap`): notes of one
// pitch that follow each other within `gap` seconds become one note.
module MergeGap {
  import opened Numeric
  import opened State
  import opened Sorting

  /** The merge pass's working order: pitch, then start, then end. */
  function PitchStartEndKey(n: NoteEvent): seq<real>
  {
    [n.midiPitch as real, n.startSec, n.endSec]
  }

  /** Notes ordered by pitch first and, within a pitch, by start. */
  ghost predicate PitchMajor(ps: seq<NoteEvent>)
  {
    forall k, l :: 0 <= k < l < |ps| ==>
      ps[k].midiPitch <= ps[l].midiPitch &&
      (ps[k].midiPitch == ps[l].midiPitch ==> ps[k].startSec <= ps[l].startSec)
  }

  /** Notes ordered by start (pitch breaks ties). */
  ghost predicate StartOrdered(ps: seq<NoteEvent>)
  {
    forall k, l :: 0 <= k < l < |ps| ==> ps[k].startSec <= ps[l].startSec
  }

  lemma PitchStartEndUniform()
    ensures UniformKey(PitchStartEndKey)
  {
  }

  lemma StartPitchUniform()
    ensures UniformKey(StartPitchKey)
  {
  }

  lemma SortedPitchMajor(ps: seq<NoteEvent>)
    requires Sorted(ps, PitchStartEndKey)
    ensures PitchMajor(ps)
  {
    forall k, l | 0 <= k < l < |ps|
      ensures ps[k].midiPitch <= ps[l].midiPitch &&
        (ps[k].midiPitch == ps[l].midiPitch ==> ps[k].startSec <= ps[l].startSec)
    {
      var a, b := PitchStartEndKey(ps[k]), PitchStartEndKey(ps[l]);
      assert LexLe(a, b);
      LexLeHead(a, b);
      if a[0] == b[0] {
        LexLeHead(a[1..], b[1..]);
      }
    }
  }

  lemma SortedStartOrdered(ps: seq<NoteEvent>)
    requires Sorted(ps, StartPitchKey)
    ensures StartOrdered(ps)
  {
    forall k, l | 0 <= k < l < |ps| ensures ps[k].startSec <= ps[l].startSec {
      LexLeHead(StartPitchKey(ps[k]), StartPitchKey(ps[l]));
    }
  }

  /**
   * The inner loop: starting at index j with the note merged so far, absorb the
   * following notes of the same pitch that start within `gap` of its end.
   * Returns the index where the loop stops and the merged note.
   */
  function Absorb(ps: seq<NoteEvent>, j: nat, cur: NoteEvent, gap: real): (r: (nat, NoteEvent))
    requires j <= |ps|
    ensures j <= r.0 <= |ps|
    decreases |ps| - j
  {
    if j < |ps| && ps[j].midiPitch == cur.midiPitch && ps[j].startSec <= cur.endSec + gap then
      var next := NoteEvent(cur.startSec, MaxR(cur.endSec, ps[j].endSec), cur.midiPitch, Max(cur.velocity, ps[j].velocity));
      Absorb(ps, j + 1, next, gap)
    else
      (j, cur)
  }

  /**
   * The merged note keeps the first note's start and pitch; its end and velocity
   * are the largest of the absorbed notes', and the loop stops at the first note
   * of another pitch or one that starts more than `gap` after the merged end.
   */
  lemma {:induction false} AbsorbFacts(ps: seq<NoteEvent>, j: nat, cur: NoteEvent, gap: real)
    requires j <= |ps|
    ensures var r := Absorb(ps, j, cur, gap);
      r.1.startSec == cur.startSec && r.1.midiPitch == cur.midiPitch &&
      cur.endSec <= r.1.endSec && cur.velocity <= r.1.velocity &&
      (forall k :: j <= k < r.0 ==>
        ps[k].midiPitch == cur.midiPitch && ps[k].endSec <= r.1.endSec && ps[k].velocity <= r.1.velocity) &&
      (r.1.endSec == cur.endSec || exists k :: j <= k < r.0 && ps[k].endSec == r.1.endSec) &&
      (r.1.velocity == cur.velocity || exists k :: j <= k < r.0 && ps[k].velocity == r.1.velocity) &&
      (r.0 == |ps| || ps[r.0].midiPitch != cur.midiPitch || ps[r.0].startSec > r.1.endSec + gap)
    decreases |ps| - j
  {
    if j < |ps| && ps[j].midiPitch == cur.midiPitch && ps[j].startSec <= cur.endSec + gap {
      var next := NoteEvent(cur.startSec, MaxR(cur.endSec, ps[j].endSec), cur.midiPitch, Max(cur.velocity, ps[j].velocity));
      AbsorbFacts(ps, j + 1, next, gap);
    }
  }

  /**
   * m is the merge of the notes ps[a..b]: it starts where ps[a] starts, has
   * their pitch, and its end and velocity are the largest of theirs.
   */
  ghost predicate IsGroup(ps: seq<NoteEvent>, a: int, b: int, m: NoteEvent)
  {
    0 <= a < b <= |ps| &&
    m.startSec == ps[a].startSec && m.midiPitch == ps[a].midiPitch &&
    (forall k :: a <= k < b ==>
      ps[k].midiPitch == m.midiPitch && ps[k].endSec <= m.endSec && ps[k].velocity <= m.velocity) &&
    (exists k :: a <= k < b && ps[k].endSec == m.endSec) &&
    (exists k :: a <= k < b && ps[k].velocity == m.velocity)
  }

  /** The outer loop from index i: one merged note per run of close same-pitch notes. */
  function Runs(ps: seq<NoteEvent>, i: nat, gap: real): (r: seq<NoteEvent>)
    requires i <= |ps|
    ensures |r| <= |ps| - i
    decreases |ps| - i
  {
    if i == |ps| then []
    else
      var (j, m) := Absorb(ps, i + 1, ps[i], gap);
      [m] + Runs(ps, j, gap)
  }

  /** One step of the outer loop. */
  lemma RunsStep(ps: seq<NoteEvent>, i: nat, gap: real)
    requires i < |ps|
    ensures Runs(ps, i, gap) == [Absorb(ps, i + 1, ps[i], gap).1] + Runs(ps, Absorb(ps, i + 1, ps[i], gap).0, gap)
  {
  }

  lemma OuterStep(ps: seq<NoteEvent>, i: nat, gap: real, merged: seq<NoteEvent>, all: seq<NoteEvent>)
    requires i < |ps| && merged + Runs(ps, i, gap) == all
    ensures var (j, m) := Absorb(ps, i + 1, ps[i], gap);
      (merged + [m]) + Runs(ps, j, gap) == all
  {
    var (j, m) := Absorb(ps, i + 1, ps[i], gap);
    RunsStep(ps, i, gap);
    assert (merged + [m]) + Runs(ps, j, gap) == merged + ([m] + Runs(ps, j, gap));
  }

  /** Each merged note is the merge of a run of consecutive notes. */
  lemma {:induction false} RunsAreGroups(ps: seq<NoteEvent>, i: nat, gap: real)
    requires i <= |ps|
    ensures forall m :: m in Runs(ps, i, gap) ==> exists a, b :: i <= a && IsGroup(ps, a, b, m)
    decreases |ps| - i
  {
    if i < |ps| {
      var (j, m) := Absorb(ps, i + 1, ps[i], gap);
      RunsStep(ps, i, gap);
      RunsAreGroups(ps, j, gap);
      AbsorbFacts(ps, i + 1, ps[i], gap);
      assert IsGroup(ps, i, j, m);
    }
  }

  /** What `_merge_gap` returns. */
  function MergedNotes(notes: seq<NoteEvent>, gap: real): seq<NoteEvent>
  {
    if gap <= 0.0 then SortBy(notes, StartPitchKey)
    else SortBy(Runs(SortBy(notes, PitchStartEndKey), 0, gap), StartPitchKey)
  }

  /** `_merge_gap`: walk the pitch-sorted notes, growing each note over its close successors. */
  method MergeGap(notes: seq<NoteEvent>, gap: real) returns (out: seq<NoteEvent>)
    ensures out == MergedNotes(notes, gap)
  {
    if gap <= 0.0 {
      return SortBy(notes, StartPitchKey);
    }
    var ps := SortBy(notes, PitchStartEndKey);
    var merged: seq<NoteEvent> := [];
    var i := 0;
    while i < |ps|
      invariant 0 <= i <= |ps|
      invariant merged + Runs(ps, i, gap) == Runs(ps, 0, gap)
      decreases |ps| - i
    {
      var cur := ps[i];
      var st, en, vel, p := cur.startSec, cur.endSec, cur.velocity, cur.midiPitch;
      var j := i + 1;
      while j < |ps| && ps[j].midiPitch == p
        invariant i + 1 <= j <= |ps|
        invariant Absorb(ps, j, NoteEvent(st, en, p, vel), gap) == Absorb(ps, i + 1, cur, gap)
        decreases |ps| - j
      {
        var nxt := ps[j];
        if nxt.startSec <= en + gap {
          assert Absorb(ps, j, NoteEvent(st, en, p, vel), gap)
            == Absorb(ps, j + 1, NoteEvent(st, MaxR(en, nxt.endSec), p, Max(vel, nxt.velocity)), gap);
          en := MaxR(en, nxt.endSec);
          vel := Max(vel, nxt.velocity);
          j := j + 1;
        } else {
          break;
        }
      }
      var m := NoteEvent(st, en, p, vel);
      assert Absorb(ps, j, m, gap) == (j, m);
      OuterStep(ps, i, gap, merged, Runs(ps, 0, gap));
      merged := merged + [m];
      i := j;
    }
    assert Runs(ps, i, gap) == [];
    assert merged == Runs(ps, 0, gap);
    out := SortBy(merged, StartPitchKey);
  }

  /** With no positive gap the merge only sorts: same notes, start order. */
  lemma MergeWithoutGap(notes: seq<NoteEvent>, gap: real)
    requires gap <= 0.0
    ensures multiset(MergedNotes(notes, gap)) == multiset(notes)
    ensures StartOrdered(MergedNotes(notes, gap))
  {
    StartPitchUniform();
    SortBySorted(notes, StartPitchKey);
    SortedStartOrdered(MergedNotes(notes, gap));
  }

  /** The merge never adds notes, and its output is in start order. */
  lemma MergeShrinksAndSorts(notes: seq<NoteEvent>, gap: real)
    ensures |MergedNotes(notes, gap)| <= |notes|
    ensures Sorted(MergedNotes(notes, gap), StartPitchKey)
  {
    StartPitchUniform();
    if gap <= 0.0 {
      SortBySorted(notes, StartPitchKey);
    } else {
      SortBySorted(Runs(SortBy(notes, PitchStartEndKey), 0, gap), StartPitchKey);
    }
  }

  /** Every merged note is the merge of a run of the pitch-sorted input. */
  lemma MergedNotesAreGroups(notes: seq<NoteEvent>, gap: real, m: NoteEvent)
    requires gap > 0.0 && m in MergedNotes(notes, gap)
    ensures exists a, b :: IsGroup(SortBy(notes, PitchStartEndKey), a, b, m)
  {
    var rs := Runs(SortBy(notes, PitchStartEndKey), 0, gap);
    assert m in multiset(rs);
    assert m in rs;
    RunsAreGroups(SortBy(notes, PitchStartEndKey), 0, gap);
  }

  /** Every merged note starts as one input note starts, at its pitch, and ends no earlier. */
  lemma MergedNoteOrigin(notes: seq<NoteEvent>, gap: real, m: NoteEvent)
    requires gap > 0.0 && m in MergedNotes(notes, gap)
    ensures exists n :: n in notes && n.startSec == m.startSec && n.midiPitch == m.midiPitch && n.endSec <= m.endSec
  {
    var ps := SortBy(notes, PitchStartEndKey);
    MergedNotesAreGroups(notes, gap, m);
    var a, b :| IsGroup(ps, a, b, m);
    assert ps[a] in multiset(notes);
  }

  /** m takes n's place: same pitch, starting no later, ending no earlier, at least as loud. */
  ghost predicate Covers(m: NoteEvent, n: NoteEvent)
  {
    m.midiPitch == n.midiPitch && m.startSec <= n.startSec &&
    n.endSec <= m.endSec && n.velocity <= m.velocity
  }

  lemma {:induction false} RunsCover(ps: seq<NoteEvent>, i: nat, gap: real, k: int)
    requires i <= k < |ps| && PitchMajor(ps)
    ensures exists m :: m in Runs(ps, i, gap) && Covers(m, ps[k])
    decreases |ps| - i
  {
    var (j, m) := Absorb(ps, i + 1, ps[i], gap);
    RunsStep(ps, i, gap);
    AbsorbFacts(ps, i + 1, ps[i], gap);
    if k < j {
      assert Covers(m, ps[k]);
    } else {
      RunsCover(ps, j, gap, k);
      var m' :| m' in Runs(ps, j, gap) && Covers(m', ps[k]);
      assert m' in Runs(ps, i, gap);
    }
  }

  /** No input note is lost: each one is covered by a merged note. */
  lemma MergeCoversInput(notes: seq<NoteEvent>, gap: real, n: NoteEvent)
    requires gap > 0.0 && n in notes
    ensures exists m :: m in MergedNotes(notes, gap) && Covers(m, n)
  {
    var ps := SortBy(notes, PitchStartEndKey);
    PitchStartEndUniform();
    SortBySorted(notes, PitchStartEndKey);
    SortedPitchMajor(ps);
    assert n in multiset(ps);
    var k :| 0 <= k < |ps| && ps[k] == n;
    RunsCover(ps, 0, gap, k);
    var m :| m in Runs(ps, 0, gap) && Covers(m, n);
    assert m in multiset(MergedNotes(notes, gap));
  }

  /** Within the runs list, a later note of the same pitch starts more than `gap` after an earlier one ends. */
  ghost predicate RunsSeparated(rs: seq<NoteEvent>, gap: real)
  {
    forall x, y :: 0 <= x < y < |rs| && rs[x].midiPitch == rs[y].midiPitch ==>
      rs[y].startSec > rs[x].endSec + gap
  }

  /** The first merged note of a run ends more than `gap` before any later same-pitch note starts. */
  lemma FirstRunApart(ps: seq<NoteEvent>, i: nat, gap: real, n: NoteEvent)
    requires i < |ps| && PitchMajor(ps)
    requires n in Runs(ps, Absorb(ps, i + 1, ps[i], gap).0, gap)
    requires n.midiPitch == ps[i].midiPitch
    ensures n.startSec > Absorb(ps, i + 1, ps[i], gap).1.endSec + gap
  {
    var (j, m) := Absorb(ps, i + 1, ps[i], gap);
    AbsorbFacts(ps, i + 1, ps[i], gap);
    RunsAreGroups(ps, j, gap);
    var a, b :| j <= a && IsGroup(ps, a, b, n);
    assert ps[i].midiPitch <= ps[j].midiPitch <= ps[a].midiPitch;
  }

  lemma {:induction false} RunsAreSeparated(ps: seq<NoteEvent>, i: nat, gap: real)
    requires i <= |ps| && PitchMajor(ps)
    ensures RunsSeparated(Runs(ps, i, gap), gap)
    decreases |ps| - i
  {
    if i < |ps| {
      var (j, m) := Absorb(ps, i + 1, ps[i], gap);
      var rest := Runs(ps, j, gap);
      var rs := Runs(ps, i, gap);
      RunsStep(ps, i, gap);
      AbsorbFacts(ps, i + 1, ps[i], gap);
      RunsAreSeparated(ps, j, gap);
      forall x, y | 0 <= x < y < |rs| && rs[x].midiPitch == rs[y].midiPitch
        ensures rs[y].startSec > rs[x].endSec + gap
      {
        assert rs[y] == rest[y - 1];
        if x == 0 {
          assert rest[y - 1] in rest;
          FirstRunApart(ps, i, gap, rest[y - 1]);
        } else {
          assert rs[x] == rest[x - 1];
        }
      }
    }
  }

  /** A list has two copies of v at two different places when its multiset counts v twice. */
  lemma {:induction false} TwoCopies(s: seq<NoteEvent>, v: NoteEvent)
    requires multiset(s)[v] >= 2
    ensures exists x, y :: 0 <= x < y < |s| && s[x] == v && s[y] == v
    decreases |s|
  {
    assert s == [s[0]] + s[1..];
    if s[0] == v {
      assert v in multiset(s[1..]);
      var y :| 0 <= y < |s[1..]| && s[1..][y] == v;
      assert s[y + 1] == v;
    } else {
      TwoCopies(s[1..], v);
      var x, y :| 0 <= x < y < |s[1..]| && s[1..][x] == v && s[1..][y] == v;
      assert s[x + 1] == v && s[y + 1] == v;
    }
  }

  /** Two notes that cannot be merged: different pitches, or one starts more than `gap` after the other ends. */
  ghost predicate Apart(a: NoteEvent, b: NoteEvent, gap: real)
  {
    a.midiPitch != b.midiPitch || b.startSec > a.endSec + gap || a.startSec > b.endSec + gap
  }

  /** Every two notes at different places in s are apart. */
  ghost predicate PairwiseApart(s: seq<NoteEvent>, gap: real)
  {
    forall x, y :: 0 <= x < y < |s| ==> Apart(s[x], s[y], gap)
  }

  /** Any selection of notes from a pairwise-apart list, in any order, is pairwise apart. */
  lemma ApartSubMultiset(rs: seq<NoteEvent>, out: seq<NoteEvent>, gap: real)
    requires PairwiseApart(rs, gap) && multiset(out) <= multiset(rs)
    ensures PairwiseApart(out, gap)
  {
    forall u, v | 0 <= u < v < |out| ensures Apart(out[u], out[v], gap) {
      assert out[u] in multiset(rs) && out[v] in multiset(rs);
      if out[u] == out[v] {
        assert multiset(out)[out[u]] >= 2 by {
          assert out == out[..u] + [out[u]] + out[u + 1..v] + [out[v]] + out[v + 1..];
        }
        TwoCopies(rs, out[u]);
      } else {
        var x :| 0 <= x < |rs| && rs[x] == out[u];
        var y :| 0 <= y < |rs| && rs[y] == out[v];
      }
    }
  }

  /** In start order, pairwise-apart notes that do not end before they start are separated front to back. */
  lemma ApartInStartOrder(out: seq<NoteEvent>, gap: real)
    requires gap > 0.0 && PairwiseApart(out, gap) && StartOrdered(out)
    requires forall x :: 0 <= x < |out| ==> out[x].startSec <= out[x].endSec
    ensures RunsSeparated(out, gap)
  {
  }

  /** The runs list is pairwise apart. */
  lemma RunsApart(ps: seq<NoteEvent>, gap: real)
    requires PitchMajor(ps)
    ensures PairwiseApart(Runs(ps, 0, gap), gap)
  {
    RunsAreSeparated(ps, 0, gap);
  }

  /**
   * With a positive gap, no two merged notes could be merged again; in start
   * order, any two merged notes of one pitch are more than `gap` apart (for
   * input notes that do not end before they start).
   */
  lemma MergeSeparates(notes: seq<NoteEvent>, gap: real)
    requires gap > 0.0
    ensures PairwiseApart(MergedNotes(notes, gap), gap)
    ensures (forall n :: n in notes ==> n.startSec <= n.endSec) ==> RunsSeparated(MergedNotes(notes, gap), gap)
  {
    var ps := SortBy(notes, PitchStartEndKey);
    var rs := Runs(ps, 0, gap);
    var out := MergedNotes(notes, gap);
    PitchStartEndUniform();
    SortBySorted(notes, PitchStartEndKey);
    SortedPitchMajor(ps);
    RunsApart(ps, gap);
    ApartSubMultiset(rs, out, gap);
    if forall n :: n in notes ==> n.startSec <= n.endSec {
      MergedWellOrdered(notes, gap);
      MergeShrinksAndSorts(notes, gap);
      SortedStartOrdered(out);
      ApartInStartOrder(out, gap);
    }
  }

  /** Merging notes that do not end before they start gives notes that do not either. */
  lemma MergedWellOrdered(notes: seq<NoteEvent>, gap: real)
    requires gap > 0.0
    requires forall n :: n in notes ==> n.startSec <= n.endSec
    ensures forall x :: 0 <= x < |MergedNotes(notes, gap)| ==>
      MergedNotes(notes, gap)[x].startSec <= MergedNotes(notes, gap)[x].endSec
  {
    var ps := SortBy(notes, PitchStartEndKey);
    var out := MergedNotes(notes, gap);
    forall x | 0 <= x < |out| ensures out[x].startSec <= out[x].endSec {
      MergedNotesAreGroups(notes, gap, out[x]);
      var a, b :| IsGroup(ps, a, b, out[x]);
      assert ps[a] in multiset(notes);
    }
  }
}
