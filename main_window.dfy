// The main window's non-graphical rules: how separated stems are renamed,
// which numbered subfolder a new separation goes to, how the notes of all
// stems are merged for a single-track export, and which stem is loaded into
// the piano roll for preview. The directory listing is a set of names.
module MainWindow {
  import opened State
  import opened Sorting
  import opened Text
  import opened MergeGap
  import Multitrack

  // ---------------------------------------------------------------------
  // Stem renaming after separation

  /** `stem_map`: the separator's stem names that are kept, and their new names. */
  const StemMap: map<string, string> := map[
    "vocals" := "voice",
    "drums" := "drums",
    "bass" := "bass",
    "other" := "other",
    "piano" := "piano",
    "guitar" := "guitar"]

  /** The audio extension of the chosen output format. */
  function StemExt(format: string): string
  {
    if format == "mp3" then ".mp3" else ".wav"
  }

  /** The new file name for a separated file with stem `fileStem`, or None when the stem is not kept. */
  function StemOutName(base: string, fileStem: string, format: string): Option<string>
  {
    var s := Lower(fileStem);
    if s in StemMap then Some(base + "_" + StemMap[s] + StemExt(format)) else None
  }

  /** Exactly the six known stems are kept, matched without regard to case, and vocals become voice. */
  lemma StemOutNameCases(base: string, fileStem: string, format: string)
    ensures StemOutName(base, fileStem, format).Some? <==>
      Lower(fileStem) in {"vocals", "drums", "bass", "other", "piano", "guitar"}
    ensures Lower(fileStem) == "vocals" ==> StemOutName(base, fileStem, format) == Some(base + "_voice" + StemExt(format))
    ensures Lower(fileStem) in {"drums", "bass", "other", "piano", "guitar"} ==>
      StemOutName(base, fileStem, format) == Some(base + "_" + Lower(fileStem) + StemExt(format))
  {
    assert base + "_" + "voice" == base + "_voice";
  }

  /** Lower-casing twice is lower-casing once. */
  lemma {:induction false} LowerIdempotent(s: string)
    ensures Lower(Lower(s)) == Lower(s)
    decreases |s|
  {
    if |s| > 0 {
      LowerIdempotent(s[1..]);
      assert Lower(s)[1..] == Lower(s[1..]);
    }
  }

  /** The name only depends on the stem's lower-case spelling. */
  lemma StemOutNameCaseInsensitive(base: string, fileStem: string, format: string)
    ensures StemOutName(base, fileStem, format) == StemOutName(base, Lower(fileStem), format)
  {
    LowerIdempotent(fileStem);
  }

  /** Two kept stems get the same new name only if they are the same stem up to case. */
  lemma StemOutNameInjective(base: string, a: string, b: string, format: string)
    requires StemOutName(base, a, format).Some?
    requires StemOutName(base, a, format) == StemOutName(base, b, format)
    ensures Lower(a) == Lower(b)
  {
    var ma, mb := StemMap[Lower(a)], StemMap[Lower(b)];
    var ext := StemExt(format);
    var na := base + "_" + ma + ext;
    var nb := base + "_" + mb + ext;
    assert na == nb;
    assert |ma| == |mb|;
    assert ma == na[|base| + 1..|na| - |ext|] == mb;
  }

  // ---------------------------------------------------------------------
  // Output subfolder numbering

  /** The folder `base_i`. */
  function Numbered(base: string, i: nat): string
  {
    base + "_" + NatToString(i)
  }

  lemma NumberedInjective(base: string, i: nat, j: nat)
    requires Numbered(base, i) == Numbered(base, j)
    ensures i == j
  {
    assert NatToString(i) == Numbered(base, i)[|base| + 1..];
    assert NatToString(j) == Numbered(base, j)[|base| + 1..];
    NatDigitsValue(i);
    NatDigitsValue(j);
  }

  /** If `base_2` up to `base_{i-1}` all exist, the folder holds at least i - 2 names. */
  lemma {:induction false} NumberedBound(existing: set<string>, base: string, i: nat)
    requires i >= 2
    requires forall j :: 2 <= j < i ==> Numbered(base, j) in existing
    ensures i - 2 <= |existing|
    decreases i
  {
    if i > 2 {
      var rest := existing - {Numbered(base, i - 1)};
      forall j | 2 <= j < i - 1
        ensures Numbered(base, j) in rest
      {
        if Numbered(base, j) == Numbered(base, i - 1) {
          NumberedInjective(base, j, i - 1);
        }
      }
      NumberedBound(rest, base, i - 1);
    }
  }

  /** The subfolder `_start_separation` writes into: `base`, unless it exists and overwriting is off;
      then `base_i` for the smallest i >= 2 that does not exist. */
  method ChooseSubfolder(existing: set<string>, base: string, overwrite: bool) returns (name: string)
    ensures base !in existing || overwrite ==> name == base
    ensures base in existing && !overwrite ==>
      exists i :: i >= 2 && name == Numbered(base, i) && name !in existing &&
        forall j :: 2 <= j < i ==> Numbered(base, j) in existing
  {
    name := base;
    if base in existing && !overwrite {
      var i := 2;
      while Numbered(base, i) in existing
        invariant i >= 2
        invariant forall j :: 2 <= j < i ==> Numbered(base, j) in existing
        decreases |existing| + 2 - i
      {
        NumberedBound(existing, base, i + 1);
        i := i + 1;
      }
      name := Numbered(base, i);
    }
  }

  // ---------------------------------------------------------------------
  // Merged export

  /** All stems' notes, stem after stem, in dictionary order. */
  function AllNotes(stems: Multitrack.Stems): (r: seq<NoteEvent>)
  {
    if |stems| == 0 then [] else AllNotes(stems[..|stems| - 1]) + stems[|stems| - 1].1
  }

  /** Every stem's notes are among the merged notes, as often as they occur in the stem. */
  lemma {:induction false} StemNotesInAll(stems: Multitrack.Stems, i: int)
    requires 0 <= i < |stems|
    ensures multiset(stems[i].1) <= multiset(AllNotes(stems))
    decreases |stems|
  {
    if i < |stems| - 1 {
      StemNotesInAll(stems[..|stems| - 1], i);
    }
  }

  /** The single-track branch of `_on_stems_transcribed`: concatenate every stem's notes and sort by (start, pitch). */
  method MergeStemNotes(stems: Multitrack.Stems) returns (merged: seq<NoteEvent>)
    ensures merged == SortBy(AllNotes(stems), StartPitchKey)
    ensures Sorted(merged, StartPitchKey)
    ensures multiset(merged) == multiset(AllNotes(stems))
    ensures forall i :: 0 <= i < |stems| ==> multiset(stems[i].1) <= multiset(merged)
  {
    merged := [];
    for i := 0 to |stems|
      invariant merged == AllNotes(stems[..i])
    {
      assert stems[..i + 1][..i] == stems[..i];
      merged := merged + stems[i].1;
    }
    assert stems[..|stems|] == stems;
    merged := SortBy(merged, StartPitchKey);
    StartPitchUniform();
    SortBySorted(AllNotes(stems), StartPitchKey);
    forall i | 0 <= i < |stems|
      ensures multiset(stems[i].1) <= multiset(merged)
    {
      StemNotesInAll(stems, i);
    }
  }

  // ---------------------------------------------------------------------
  // Preview stem pick

  /** Stem-name prefixes in order of preference for the preview. */
  const PreviewPreferences: seq<string> := ["vocals", "vocal", "other", "bass", "drums"]

  /** `stem.lower().startswith(pref)`. */
  predicate Matches(stem: string, pref: string)
  {
    StartsWith(Lower(stem), pref)
  }

  /** Python's truth value of `pick`: a name that is not empty. */
  predicate Truthy(pick: Option<string>)
  {
    pick.Some? && |pick.value| > 0
  }

  /** Index of the first stem name that matches `pref`. */
  function FirstMatch(names: seq<string>, pref: string): (r: Option<nat>)
    ensures r.Some? ==> r.value < |names| && Matches(names[r.value], pref)
    ensures r.Some? ==> forall m :: 0 <= m < r.value ==> !Matches(names[m], pref)
    ensures r.None? ==> forall m :: 0 <= m < |names| ==> !Matches(names[m], pref)
  {
    if |names| == 0 then None
    else if Matches(names[0], pref) then Some(0)
    else
      match FirstMatch(names[1..], pref)
      case None => None
      case Some(i) => Some(i + 1)
  }

  /** The pick over the preferences `prefs`, falling back to the first name. */
  function PickFrom(prefs: seq<string>, names: seq<string>): Option<string>
  {
    if |prefs| == 0 then (if |names| > 0 then Some(names[0]) else None)
    else
      match FirstMatch(names, prefs[0])
      case Some(i) => Some(names[i])
      case None => PickFrom(prefs[1..], names)
  }

  /** The stem whose notes are loaded into the piano roll (`pick`), or None. */
  function PreviewPick(names: seq<string>): Option<string>
  {
    PickFrom(PreviewPreferences, names)
  }

  /** The pick is the first name matching the earliest preference that any name matches. */
  lemma {:induction false} PickFromFirstPreference(prefs: seq<string>, names: seq<string>, k: int, j: int)
    requires 0 <= k < |prefs| && 0 <= j < |names| && Matches(names[j], prefs[k])
    requires forall m :: 0 <= m < j ==> !Matches(names[m], prefs[k])
    requires forall k2, m :: 0 <= k2 < k && 0 <= m < |names| ==> !Matches(names[m], prefs[k2])
    ensures PickFrom(prefs, names) == Some(names[j])
    decreases k
  {
    if k == 0 {
      assert FirstMatch(names, prefs[0]) == Some(j);
    } else {
      assert FirstMatch(names, prefs[0]).None?;
      assert prefs[1..][k - 1] == prefs[k];
      forall k2, m | 0 <= k2 < k - 1 && 0 <= m < |names|
        ensures !Matches(names[m], prefs[1..][k2])
      {
        assert prefs[1..][k2] == prefs[k2 + 1];
      }
      PickFromFirstPreference(prefs[1..], names, k - 1, j);
    }
  }

  /** When no name matches any preference, the pick is the first name, if there is one. */
  lemma {:induction false} PickFromFallback(prefs: seq<string>, names: seq<string>)
    requires forall k, m :: 0 <= k < |prefs| && 0 <= m < |names| ==> !Matches(names[m], prefs[k])
    ensures PickFrom(prefs, names) == (if |names| > 0 then Some(names[0]) else None)
    decreases |prefs|
  {
    if |prefs| > 0 {
      assert FirstMatch(names, prefs[0]).None?;
      forall k, m | 0 <= k < |prefs[1..]| && 0 <= m < |names|
        ensures !Matches(names[m], prefs[1..][k])
      {
        assert prefs[1..][k] == prefs[k + 1];
      }
      PickFromFallback(prefs[1..], names);
    }
  }

  /** A vocals stem is always preferred: if any stem's name starts with "vocals", in any case, the pick does. */
  lemma VocalsPreferred(names: seq<string>, j: int)
    requires 0 <= j < |names| && Matches(names[j], "vocals")
    ensures PreviewPick(names).Some? && Matches(PreviewPick(names).value, "vocals")
  {
    var r := FirstMatch(names, "vocals");
    assert PreviewPreferences[0] == "vocals";
  }

  /** A name matching a preference is not empty, so the loop's `if pick` sees it. */
  lemma MatchIsTruthy(stem: string, pref: string)
    requires pref != "" && Matches(stem, pref)
    ensures |stem| > 0
  {
  }

  /** The preview pick in `_on_stems_transcribed`: for each preference in turn, the first stem (in
      dictionary order) whose lower-case name starts with it; otherwise the first stem. */
  method PickPreviewStem(names: seq<string>) returns (pick: Option<string>)
    ensures pick == PreviewPick(names)
  {
    pick := None;
    var k := 0;
    while k < |PreviewPreferences|
      invariant 0 <= k <= |PreviewPreferences|
      invariant pick == None
      invariant PickFrom(PreviewPreferences[k..], names) == PreviewPick(names)
    {
      var pref := PreviewPreferences[k];
      for j := 0 to |names|
        invariant pick == None
        invariant forall m :: 0 <= m < j ==> !Matches(names[m], pref)
      {
        if Matches(names[j], pref) {
          pick := Some(names[j]);
          break;
        }
      }
      if Truthy(pick) {
        break;
      }
      assert PreviewPreferences[k..][1..] == PreviewPreferences[k + 1..];
      k := k + 1;
    }
    if !Truthy(pick) && |names| > 0 {
      pick := Some(names[0]);
    }
  }
}
