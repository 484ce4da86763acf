// The piano roll's geometry and selection: the view bounds `set_notes`
// derives from the notes, the virtual canvas size, the pitch-to-y and
// time-to-x mappings, each note's rectangle, and the first-hit search a
// mouse press runs. Painting, repaint requests and the `selectionChanged`
// signal are Qt's and are not modelled; note names come from `NoteNames`.
module PianoRoll {
  import opened Numeric
  import opened State
  import opened NoteBounds
  import opened Text

  const LeftMargin: real := 56.0
  const TopMargin: real := 10.0
  const PxPerSec: real := 160.0
  const PxPerSemitone: real := 10.0

  /** The widget's minimum size, `setMinimumSize(900, 500)`. */
  const MinWidth: int := 900
  const MinHeight: int := 500

  /** The pitch range, time origin and duration the roll shows. */
  datatype View = View(pitchMin: int, pitchMax: int, t0: real, durationSec: real)

  /** The view before any notes are set, and after an empty list. */
  const DefaultView: View := View(21, 108, 0.0, 10.0)

  /** The view `set_notes(notes)` computes: two semitones of headroom either side of the
      notes' pitches (within 0..127), time from the earliest start, at least a second long.
      Every note whose pitch is a MIDI pitch then lies inside it. */
  function ViewFor(notes: seq<NoteEvent>): (v: View)
    ensures |notes| == 0 ==> v == DefaultView
    ensures 0 <= v.pitchMin && v.pitchMax <= 127 && v.durationSec >= 1.0
    ensures forall i :: 0 <= i < |notes| && 0 <= notes[i].midiPitch <= 127 ==>
      v.pitchMin <= notes[i].midiPitch <= v.pitchMax
    ensures forall i :: 0 <= i < |notes| ==>
      v.t0 <= notes[i].startSec && notes[i].endSec <= v.t0 + v.durationSec
    ensures |notes| > 0 ==> exists i :: 0 <= i < |notes| && v.t0 == notes[i].startSec
  {
    if |notes| == 0 then DefaultView
    else
      var t0 := MinStart(notes);
      View(Max(0, MinPitch(notes) - 2), Min(127, MaxPitch(notes) + 2), t0, MaxR(1.0, MaxEnd(notes) - t0))
  }

  /** `_recompute_virtual_size`'s width: wide enough for the whole duration plus 200 pixels. */
  function VirtualWidth(durationSec: real): (r: int)
    ensures r >= MinWidth
    ensures durationSec >= 0.0 ==> LeftMargin + durationSec * PxPerSec + 199.0 < r as real
  {
    Max(MinWidth, Trunc(LeftMargin + durationSec * PxPerSec + 200.0))
  }

  /** `_recompute_virtual_size`'s height: tall enough for one row per pitch in range plus 40 pixels. */
  function VirtualHeight(pitchMin: int, pitchMax: int): (r: int)
    ensures r >= MinHeight
    ensures TopMargin + (pitchMax - pitchMin + 1) as real * PxPerSemitone + 39.0 < r as real
  {
    Max(MinHeight, Trunc(TopMargin + (pitchMax - pitchMin + 1) as real * PxPerSemitone + 40.0))
  }

  /** A `QRectF`: left, top, width and height. */
  datatype Rect = Rect(x: real, y: real, w: real, h: real)

  /** `QRectF.contains(QPointF)` for a rectangle of positive size: the edges count. */
  predicate Contains(r: Rect, px: real, py: real)
  {
    r.x <= px <= r.x + r.w && r.y <= py <= r.y + r.h
  }

  /** `PianoRollWidget`: the notes shown, the selection, the view and the canvas size. */
  class PianoRollWidget {
    var notes: seq<NoteEvent>
    var selectedIndex: Option<int>
    var pitchMin: int
    var pitchMax: int
    var durationSec: real
    var t0: real
    var playheadTime: Option<real>
    var minimumWidth: int
    var minimumHeight: int

    /** The view the fields hold. */
    function CurrentView(): View
      reads this
    {
      View(pitchMin, pitchMax, t0, durationSec)
    }

    /** A fresh widget: no notes, nothing selected, the default view, no playhead. */
    constructor()
      ensures notes == [] && selectedIndex == None && playheadTime == None
      ensures CurrentView() == DefaultView
      ensures minimumWidth == VirtualWidth(10.0) && minimumHeight == VirtualHeight(21, 108)
    {
      notes := [];
      selectedIndex := None;
      pitchMin, pitchMax := 21, 108;
      durationSec := 10.0;
      t0 := 0.0;
      playheadTime := None;
      minimumWidth, minimumHeight := MinWidth, MinHeight;
      new;
      RecomputeVirtualSize();
    }

    /** `_recompute_virtual_size`: the minimum size follows the view. */
    method RecomputeVirtualSize()
      modifies this
      ensures minimumWidth == VirtualWidth(durationSec) && minimumHeight == VirtualHeight(pitchMin, pitchMax)
      ensures notes == old(notes) && selectedIndex == old(selectedIndex) && playheadTime == old(playheadTime)
      ensures CurrentView() == old(CurrentView())
    {
      var width := Trunc(LeftMargin + durationSec * PxPerSec + 200.0);
      var height := Trunc(TopMargin + (pitchMax - pitchMin + 1) as real * PxPerSemitone + 40.0);
      minimumWidth, minimumHeight := Max(MinWidth, width), Max(MinHeight, height);
    }

    /** `set_notes(notes)`: show `ns`, clear the selection and playhead, fit the view to the notes. */
    method SetNotes(ns: seq<NoteEvent>)
      modifies this
      ensures notes == ns && selectedIndex == None && playheadTime == None
      ensures CurrentView() == ViewFor(ns)
      ensures minimumWidth == VirtualWidth(durationSec) && minimumHeight == VirtualHeight(pitchMin, pitchMax)
    {
      notes := ns;
      selectedIndex := None;
      if |notes| > 0 {
        pitchMin := Max(0, MinPitch(notes) - 2);
        pitchMax := Min(127, MaxPitch(notes) + 2);
        t0 := MinStart(notes);
        var t1 := MaxEnd(notes);
        durationSec := MaxR(1.0, t1 - t0);
      } else {
        pitchMin, pitchMax := 21, 108;
        durationSec := 10.0;
        t0 := 0.0;
      }
      playheadTime := None;
      RecomputeVirtualSize();
    }

    /** `set_playhead_time(t)`: only the playhead moves. */
    method SetPlayheadTime(time: Option<real>)
      modifies this
      ensures playheadTime == time
      ensures notes == old(notes) && selectedIndex == old(selectedIndex) && CurrentView() == old(CurrentView())
      ensures minimumWidth == old(minimumWidth) && minimumHeight == old(minimumHeight)
    {
      playheadTime := time;
    }

    /** `_pitch_to_y`: the top edge of a pitch's row, higher pitches nearer the top. */
    function PitchToY(midiPitch: int): real
      reads this`pitchMax
    {
      TopMargin + (pitchMax - midiPitch) as real * PxPerSemitone
    }

    /** `_time_to_x`: seconds from the time origin at `PxPerSec` pixels each. */
    function TimeToX(t: real): real
      reads this`t0
    {
      LeftMargin + (t - t0) * PxPerSec
    }

    /** A higher pitch is drawn strictly higher, one row of `PxPerSemitone` per semitone,
        and the top pitch of the view sits at the top margin. */
    lemma PitchToYDecreasing(p: int, q: int)
      requires p < q
      ensures PitchToY(q) < PitchToY(p)
      ensures PitchToY(p) - PitchToY(q) == (q - p) as real * PxPerSemitone
      ensures PitchToY(pitchMax) == TopMargin
    {
    }

    /** A later time is drawn further right, and the time origin sits at the left margin. */
    lemma TimeToXIncreasing(s: real, t: real)
      requires s < t
      ensures TimeToX(s) < TimeToX(t)
      ensures TimeToX(t0) == LeftMargin
    {
      MulMonotone(s - t0, t - t0, PxPerSec);
      assert (t - t0) * PxPerSec - (s - t0) * PxPerSec == (t - s) * PxPerSec;
    }

    /** `_note_rect(n)`: from the note's start, at least a pixel wide, one row high. */
    function NoteRect(n: NoteEvent): Rect
      reads this`t0, this`pitchMax
    {
      Rect(TimeToX(n.startSec), PitchToY(n.midiPitch), MaxR(1.0, (n.endSec - n.startSec) * PxPerSec), PxPerSemitone)
    }

    /** Whether note `i`'s rectangle contains the point. */
    predicate Hit(i: int, px: real, py: real)
      reads this`notes, this`t0, this`pitchMax
      requires 0 <= i < |notes|
    {
      Contains(NoteRect(notes[i]), px, py)
    }

    /** The first note from index `k` on whose rectangle contains the point. */
    function FirstHitFrom(k: int, px: real, py: real): (r: Option<int>)
      reads this`notes, this`t0, this`pitchMax
      requires 0 <= k <= |notes|
      ensures r.Some? ==> k <= r.value < |notes| && Hit(r.value, px, py)
      ensures r.Some? ==> forall j :: k <= j < r.value ==> !Hit(j, px, py)
      ensures r.None? ==> forall j :: k <= j < |notes| ==> !Hit(j, px, py)
      decreases |notes| - k
    {
      if k == |notes| then None
      else if Hit(k, px, py) then Some(k)
      else FirstHitFrom(k + 1, px, py)
    }

    /** `mousePressEvent` at (px, py): with no notes nothing changes; otherwise the selection
        becomes the first note, in list order, under the point, or none. */
    method MousePress(px: real, py: real)
      modifies this
      ensures |old(notes)| == 0 ==> selectedIndex == old(selectedIndex)
      ensures |old(notes)| > 0 ==> selectedIndex == FirstHitFrom(0, px, py)
      ensures notes == old(notes) && playheadTime == old(playheadTime) && CurrentView() == old(CurrentView())
      ensures minimumWidth == old(minimumWidth) && minimumHeight == old(minimumHeight)
    {
      if |notes| == 0 {
        return;
      }
      var hit: Option<int> := None;
      var i := 0;
      while i < |notes|
        invariant 0 <= i <= |notes|
        invariant hit == None && FirstHitFrom(0, px, py) == FirstHitFrom(i, px, py)
      {
        if Contains(NoteRect(notes[i]), px, py) {
          assert FirstHitFrom(i, px, py) == Some(i);
          hit := Some(i);
          break;
        }
        i := i + 1;
      }
      selectedIndex := hit;
    }
  }

  /** Once the notes are set, every note with a MIDI pitch is drawn inside the canvas: its row
      lies between the top margin and the canvas's bottom, it starts right of the left margin
      and it ends within the canvas's width. */
  lemma NotesInsideCanvas(w: PianoRollWidget, i: int)
    requires 0 <= i < |w.notes| && 0 <= w.notes[i].midiPitch <= 127
    requires w.CurrentView() == ViewFor(w.notes)
    requires w.minimumWidth == VirtualWidth(w.durationSec)
    requires w.minimumHeight == VirtualHeight(w.pitchMin, w.pitchMax)
    ensures TopMargin <= w.PitchToY(w.notes[i].midiPitch)
    ensures w.PitchToY(w.notes[i].midiPitch) + PxPerSemitone <= w.minimumHeight as real
    ensures LeftMargin <= w.TimeToX(w.notes[i].startSec)
    ensures w.TimeToX(w.notes[i].endSec) < w.minimumWidth as real
  {
    var n := w.notes[i];
    MulMonotone(0.0, n.startSec - w.t0, PxPerSec);
    MulMonotone(n.endSec - w.t0, w.durationSec, PxPerSec);
    assert w.PitchToY(n.midiPitch) + PxPerSemitone <= TopMargin + (w.pitchMax - w.pitchMin + 1) as real * PxPerSemitone;
  }
}
