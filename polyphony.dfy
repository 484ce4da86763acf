// The polyphony cap of the post-processing pipeline (`_cap_polyphony`): notes
// are admitted in start order and, whenever more than `cap` of them sound at
// once, the quietest sounding note is dropped again.
module Polyphony {
  import opened State
  import opened Sorting
  import opened MergeGap

  /** The cap's working order: start, then loudest first. */
  function StartLoudestKey(n: NoteEvent): seq<real>
  {
    [n.startSec, -(n.velocity as real)]
  }

  /** A note still sounding after time t (`a.end_sec > t`). */
  function Outlives(t: real): NoteEvent -> bool
  {
    (n: NoteEvent) => n.endSec > t
  }

  /** A note sounding at instant t: started, not yet ended. */
  function SoundsAt(t: real): NoteEvent -> bool
  {
    (n: NoteEvent) => n.startSec <= t < n.endSec
  }

  /** `prune(t)`: drop the active notes that have ended by t. */
  function Prune(active: seq<NoteEvent>, t: real): seq<NoteEvent>
  {
    Filter(active, Outlives(t))
  }

  /** Index of `min(active, key=velocity)`: the first note of least velocity. */
  function FirstMinVelocity(s: seq<NoteEvent>): (i: nat)
    requires |s| > 0
    ensures i < |s|
    ensures forall k :: 0 <= k < |s| ==> s[i].velocity <= s[k].velocity
    ensures forall k :: 0 <= k < i ==> s[k].velocity > s[i].velocity
  {
    if |s| == 1 then 0
    else
      var j := FirstMinVelocity(s[..|s| - 1]);
      if s[|s| - 1].velocity < s[j].velocity then |s| - 1 else j
  }

  /** One iteration of the loop: prune, admit n, and evict the quietest if over the cap. */
  function CapStep(active: seq<NoteEvent>, kept: seq<NoteEvent>, n: NoteEvent, cap: int): (seq<NoteEvent>, seq<NoteEvent>)
  {
    var a := Prune(active, n.startSec) + [n];
    var k := kept + [n];
    if |a| > cap then
      var worst := a[FirstMinVelocity(a)];
      (RemoveFirst(a, worst), RemoveFirst(k, worst))
    else (a, k)
  }

  /** The loop over the remaining notes ps, from the given active and kept lists; the final kept list. */
  function CapFrom(ps: seq<NoteEvent>, active: seq<NoteEvent>, kept: seq<NoteEvent>, cap: int): seq<NoteEvent>
    decreases |ps|
  {
    if |ps| == 0 then kept
    else
      var (a, k) := CapStep(active, kept, ps[0], cap);
      CapFrom(ps[1..], a, k, cap)
  }

  /** What `_cap_polyphony` returns. */
  function CappedNotes(notes: seq<NoteEvent>, cap: int): seq<NoteEvent>
  {
    if cap <= 0 then SortBy(notes, StartPitchKey)
    else SortBy(CapFrom(SortBy(notes, StartLoudestKey), [], [], cap), StartPitchKey)
  }

  /** The notes of s sounding at t. */
  function Sounding(s: seq<NoteEvent>, t: real): seq<NoteEvent>
  {
    Filter(s, SoundsAt(t))
  }

  /** At no instant do more than `cap` notes of s sound. */
  ghost predicate WithinPolyphony(s: seq<NoteEvent>, cap: int)
  {
    forall t :: |Sounding(s, t)| <= cap
  }

  /** A sub-multiset is no longer than the whole. */
  lemma {:induction false} SubMultisetLength(a: seq<NoteEvent>, b: seq<NoteEvent>)
    requires multiset(a) <= multiset(b)
    ensures |a| <= |b|
    decreases |a|
  {
    if |a| > 0 {
      assert a == [a[0]] + a[1..];
      assert a[0] in multiset(b);
      var b' := RemoveFirst(b, a[0]);
      assert multiset(a[1..]) <= multiset(b');
      SubMultisetLength(a[1..], b');
    }
  }

  lemma StartLoudestUniform()
    ensures UniformKey(StartLoudestKey)
  {
  }

  /** The cap's working order visits notes by non-decreasing start. */
  lemma StartLoudestOrdered(ps: seq<NoteEvent>)
    requires Sorted(ps, StartLoudestKey)
    ensures StartOrdered(ps)
  {
    forall k, l | 0 <= k < l < |ps| ensures ps[k].startSec <= ps[l].startSec {
      LexLeHead(StartLoudestKey(ps[k]), StartLoudestKey(ps[l]));
    }
  }

  /** Pruning keeps exactly the copies of the notes that outlive t. */
  lemma PruneCounts(active: seq<NoteEvent>, t: real)
    ensures multiset(Prune(active, t)) <= multiset(active)
    ensures |Prune(active, t)| <= |active|
    ensures forall x: NoteEvent :: x.endSec > t ==> multiset(Prune(active, t))[x] == multiset(active)[x]
  {
    forall x ensures multiset(Prune(active, t))[x] == if x.endSec > t then multiset(active)[x] else 0 {
      FilterMultiset(active, Outlives(t), x);
    }
  }

  /**
   * The loop's bookkeeping after admitting notes up to time t: the active list
   * is part of the kept list, holds at most `cap` notes, and holds every kept
   * note that outlives t.
   */
  ghost predicate Bookkeeping(active: seq<NoteEvent>, kept: seq<NoteEvent>, t: real, cap: int)
  {
    multiset(active) <= multiset(kept) && |active| <= cap &&
    forall x: NoteEvent :: x.endSec > t ==> multiset(kept)[x] <= multiset(active)[x]
  }

  /** One loop step keeps the bookkeeping, and only ever adds the admitted note. */
  lemma CapStepCounts(active: seq<NoteEvent>, kept: seq<NoteEvent>, n: NoteEvent, cap: int, last: real)
    requires cap > 0 && last <= n.startSec && Bookkeeping(active, kept, last, cap)
    ensures Bookkeeping(CapStep(active, kept, n, cap).0, CapStep(active, kept, n, cap).1, n.startSec, cap)
    ensures multiset(CapStep(active, kept, n, cap).1) <= multiset(kept) + multiset{n}
  {
    var a := Prune(active, n.startSec) + [n];
    var k := kept + [n];
    AdmitCounts(active, kept, n, last);
    if |a| > cap {
      var worst := a[FirstMinVelocity(a)];
      EvictCounts(a, k, worst, n.startSec);
      assert CapStep(active, kept, n, cap) == (RemoveFirst(a, worst), RemoveFirst(k, worst));
    } else {
      assert CapStep(active, kept, n, cap) == (a, k);
    }
  }

  /** Pruning and admitting n: active stays inside kept and keeps every kept note outliving n's start. */
  lemma AdmitCounts(active: seq<NoteEvent>, kept: seq<NoteEvent>, n: NoteEvent, last: real)
    requires last <= n.startSec
    requires multiset(active) <= multiset(kept)
    requires forall x: NoteEvent :: x.endSec > last ==> multiset(kept)[x] <= multiset(active)[x]
    ensures var a, k := Prune(active, n.startSec) + [n], kept + [n];
      multiset(a) <= multiset(k) && |a| <= |active| + 1 && multiset(k) == multiset(kept) + multiset{n} &&
      (forall x: NoteEvent :: x.endSec > n.startSec ==> multiset(k)[x] <= multiset(a)[x])
  {
    var pruned := Prune(active, n.startSec);
    PruneCounts(active, n.startSec);
    assert multiset(pruned + [n]) == multiset(pruned) + multiset{n};
  }

  /** Evicting one copy of an active note from both lists keeps the same relations. */
  lemma EvictCounts(a: seq<NoteEvent>, k: seq<NoteEvent>, w: NoteEvent, t: real)
    requires w in a && multiset(a) <= multiset(k)
    requires forall x: NoteEvent :: x.endSec > t ==> multiset(k)[x] <= multiset(a)[x]
    ensures var a', k' := RemoveFirst(a, w), RemoveFirst(k, w);
      multiset(a') <= multiset(k') && |a'| == |a| - 1 && multiset(k') <= multiset(k) &&
      (forall x: NoteEvent :: x.endSec > t ==> multiset(k')[x] <= multiset(a')[x])
  {
    assert w in multiset(k);
  }

  /** One loop step keeps every instant within the cap. */
  lemma CapStepBound(active: seq<NoteEvent>, kept: seq<NoteEvent>, n: NoteEvent, cap: int)
    requires cap > 0
    requires WithinPolyphony(kept, cap)
    requires Bookkeeping(CapStep(active, kept, n, cap).0, CapStep(active, kept, n, cap).1, n.startSec, cap)
    requires multiset(CapStep(active, kept, n, cap).1) <= multiset(kept) + multiset{n}
    ensures WithinPolyphony(CapStep(active, kept, n, cap).1, cap)
  {
    var (a, k) := CapStep(active, kept, n, cap);
    forall t ensures |Sounding(k, t)| <= cap {
      if t < n.startSec {
        forall x ensures multiset(Sounding(k, t))[x] <= multiset(Sounding(kept, t))[x] {
          FilterMultiset(k, SoundsAt(t), x);
          FilterMultiset(kept, SoundsAt(t), x);
        }
        SubMultisetLength(Sounding(k, t), Sounding(kept, t));
      } else {
        forall x ensures multiset(Sounding(k, t))[x] <= multiset(Sounding(a, t))[x] {
          FilterMultiset(k, SoundsAt(t), x);
          FilterMultiset(a, SoundsAt(t), x);
        }
        SubMultisetLength(Sounding(k, t), Sounding(a, t));
      }
    }
  }

  /** Reordering a list does not change how many of its notes sound at any instant. */
  lemma PolyphonyPermutation(a: seq<NoteEvent>, b: seq<NoteEvent>, cap: int)
    requires multiset(a) == multiset(b) && WithinPolyphony(a, cap)
    ensures WithinPolyphony(b, cap)
  {
    forall t ensures |Sounding(b, t)| <= cap {
      forall x ensures multiset(Sounding(b, t))[x] <= multiset(Sounding(a, t))[x] {
        FilterMultiset(a, SoundsAt(t), x);
        FilterMultiset(b, SoundsAt(t), x);
      }
      SubMultisetLength(Sounding(b, t), Sounding(a, t));
    }
  }

  /** Running the loop from position i is one step followed by the loop from i + 1. */
  lemma CapFromStep(ps: seq<NoteEvent>, i: int, active: seq<NoteEvent>, kept: seq<NoteEvent>, cap: int)
    requires 0 <= i < |ps|
    ensures CapFrom(ps[i..], active, kept, cap) ==
      CapFrom(ps[i + 1..], CapStep(active, kept, ps[i], cap).0, CapStep(active, kept, ps[i], cap).1, cap)
  {
    assert ps[i..][1..] == ps[i + 1..];
  }

  /**
   * The loop from any point where the bookkeeping holds keeps only notes it was
   * given and never lets more than `cap` kept notes sound at once.
   */
  lemma {:induction false} CapFromProps(ps: seq<NoteEvent>, active: seq<NoteEvent>, kept: seq<NoteEvent>, cap: int, last: real)
    requires cap > 0 && StartOrdered(ps)
    requires |ps| > 0 ==> last <= ps[0].startSec
    requires Bookkeeping(active, kept, last, cap) && WithinPolyphony(kept, cap)
    ensures multiset(CapFrom(ps, active, kept, cap)) <= multiset(kept) + multiset(ps)
    ensures WithinPolyphony(CapFrom(ps, active, kept, cap), cap)
    decreases |ps|
  {
    if |ps| > 0 {
      var n := ps[0];
      CapStepCounts(active, kept, n, cap, last);
      CapStepBound(active, kept, n, cap);
      var (a, k) := CapStep(active, kept, n, cap);
      CapFromProps(ps[1..], a, k, cap, n.startSec);
      assert ps == [n] + ps[1..];
    }
  }

  /**
   * What `_cap_polyphony` returns: some of its input notes, in start order;
   * with a positive cap, never more than `cap` of them sounding at one instant;
   * with no positive cap, all of them.
   */
  lemma CappedNotesProps(notes: seq<NoteEvent>, cap: int)
    ensures multiset(CappedNotes(notes, cap)) <= multiset(notes)
    ensures Sorted(CappedNotes(notes, cap), StartPitchKey)
    ensures cap <= 0 ==> multiset(CappedNotes(notes, cap)) == multiset(notes)
    ensures cap > 0 ==> WithinPolyphony(CappedNotes(notes, cap), cap)
  {
    StartPitchUniform();
    if cap <= 0 {
      SortBySorted(notes, StartPitchKey);
    } else {
      var ps := SortBy(notes, StartLoudestKey);
      StartLoudestUniform();
      SortBySorted(notes, StartLoudestKey);
      StartLoudestOrdered(ps);
      var last := if |ps| > 0 then ps[0].startSec else 0.0;
      CapFromProps(ps, [], [], cap, last);
      var kept := CapFrom(ps, [], [], cap);
      SortBySorted(kept, StartPitchKey);
      PolyphonyPermutation(kept, CappedNotes(notes, cap), cap);
    }
  }

  /** `_cap_polyphony`: the greedy admission loop. */
  method CapPolyphony(notes: seq<NoteEvent>, cap: int) returns (out: seq<NoteEvent>)
    ensures out == CappedNotes(notes, cap)
  {
    if cap <= 0 {
      return SortBy(notes, StartPitchKey);
    }
    var ps := SortBy(notes, StartLoudestKey);
    var active: seq<NoteEvent> := [];
    var kept: seq<NoteEvent> := [];
    for i := 0 to |ps|
      invariant CapFrom(ps[i..], active, kept, cap) == CapFrom(ps, [], [], cap)
    {
      var n := ps[i];
      ghost var before := (active, kept);
      CapFromStep(ps, i, active, kept, cap);
      active := Filter(active, Outlives(n.startSec));
      kept := kept + [n];
      active := active + [n];
      if |active| > cap {
        var worst := active[FirstMinVelocity(active)];
        kept := RemoveFirst(kept, worst);
        active := RemoveFirst(active, worst);
      }
      assert (active, kept) == CapStep(before.0, before.1, n, cap);
    }
    assert ps[|ps|..] == [];
    out := SortBy(kept, StartPitchKey);
  }
}
