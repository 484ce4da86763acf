// The extremes of a non-empty note list that the piano roll and the preview
// synthesizer take with Python's `min(...)` and `max(...)` over a generator:
// earliest start, latest end, lowest and highest pitch.
module NoteBounds {
  import opened Numeric
  import opened State

  /** `min(n.start_sec for n in notes)`. */
  function MinStart(notes: seq<NoteEvent>): (r: real)
    requires |notes| > 0
    ensures forall i :: 0 <= i < |notes| ==> r <= notes[i].startSec
    ensures exists i :: 0 <= i < |notes| && r == notes[i].startSec
  {
    if |notes| == 1 then notes[0].startSec
    else
      var rest := MinStart(notes[1..]);
      assert forall i :: 1 <= i < |notes| ==> notes[i] == notes[1..][i - 1];
      MinR(notes[0].startSec, rest)
  }

  /** `max(n.end_sec for n in notes)`. */
  function MaxEnd(notes: seq<NoteEvent>): (r: real)
    requires |notes| > 0
    ensures forall i :: 0 <= i < |notes| ==> notes[i].endSec <= r
    ensures exists i :: 0 <= i < |notes| && r == notes[i].endSec
  {
    if |notes| == 1 then notes[0].endSec
    else
      var rest := MaxEnd(notes[1..]);
      assert forall i :: 1 <= i < |notes| ==> notes[i] == notes[1..][i - 1];
      MaxR(notes[0].endSec, rest)
  }

  /** `min(n.midi_pitch for n in notes)`. */
  function MinPitch(notes: seq<NoteEvent>): (r: int)
    requires |notes| > 0
    ensures forall i :: 0 <= i < |notes| ==> r <= notes[i].midiPitch
    ensures exists i :: 0 <= i < |notes| && r == notes[i].midiPitch
  {
    if |notes| == 1 then notes[0].midiPitch
    else
      var rest := MinPitch(notes[1..]);
      assert forall i :: 1 <= i < |notes| ==> notes[i] == notes[1..][i - 1];
      Min(notes[0].midiPitch, rest)
  }

  /** `max(n.midi_pitch for n in notes)`. */
  function MaxPitch(notes: seq<NoteEvent>): (r: int)
    requires |notes| > 0
    ensures forall i :: 0 <= i < |notes| ==> notes[i].midiPitch <= r
    ensures exists i :: 0 <= i < |notes| && r == notes[i].midiPitch
  {
    if |notes| == 1 then notes[0].midiPitch
    else
      var rest := MaxPitch(notes[1..]);
      assert forall i :: 1 <= i < |notes| ==> notes[i] == notes[1..][i - 1];
      Max(notes[0].midiPitch, rest)
  }
}
