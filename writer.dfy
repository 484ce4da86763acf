// `write_midi`: one pretty_midi instrument holding every note, each pulled
// into what a MIDI file can carry (a start that is not negative, an end at
// least a millisecond later, a pitch in 0..127 and a velocity in 1..127).
module Writer {
  import opened Numeric
  import opened MidiModel

  /** `pretty_midi.Note`. */
  datatype PmNote = PmNote(velocity: int, pitch: int, start: real, end: real)

  /** `pretty_midi.Instrument` with its program number and notes. */
  datatype Instrument = Instrument(program: int, notes: seq<PmNote>)

  /** The `PrettyMIDI` object handed to `write`. */
  datatype PrettyMidi = PrettyMidi(instruments: seq<Instrument>)

  /** The note written for `n`. */
  function WrittenNote(n: ChannelNote): PmNote
  {
    var start := MaxR(0.0, n.startSec);
    PmNote(Clamp(n.velocity, 1, 127), Clamp(n.midiPitch, 0, 127), start, MaxR(start + 0.001, n.endSec))
  }

  /** Every written note is one a MIDI file can hold, and a note that already was one is written as it is. */
  lemma WrittenNoteBounds(n: ChannelNote)
    ensures var w := WrittenNote(n);
      0.0 <= w.start && n.startSec <= w.start &&
      w.start + 0.001 <= w.end && n.endSec <= w.end &&
      0 <= w.pitch <= 127 && 1 <= w.velocity <= 127
    ensures var w := WrittenNote(n);
      (0.0 <= n.startSec ==> w.start == n.startSec) &&
      (MaxR(0.0, n.startSec) + 0.001 <= n.endSec ==> w.end == n.endSec) &&
      (0 <= n.midiPitch <= 127 ==> w.pitch == n.midiPitch) &&
      (1 <= n.velocity <= 127 ==> w.velocity == n.velocity)
  {
  }

  /** The note that reads back a written note. */
  function ReadBack(w: PmNote, channel: int): ChannelNote
  {
    ChannelNote(w.start, w.end, w.pitch, w.velocity, channel)
  }

  /** Writing a note that was written before changes nothing. */
  lemma WrittenNoteIdempotent(n: ChannelNote)
    ensures WrittenNote(ReadBack(WrittenNote(n), n.channel)) == WrittenNote(n)
  {
    WrittenNoteBounds(n);
    WrittenNoteBounds(ReadBack(WrittenNote(n), n.channel));
  }

  /** `write_midi(note_events, out_path, program)`: the object written, one instrument note per input note, in order. */
  method WriteMidi(noteEvents: seq<ChannelNote>, program: int := 0) returns (pm: PrettyMidi)
    ensures |pm.instruments| == 1 && pm.instruments[0].program == program
    ensures |pm.instruments[0].notes| == |noteEvents|
    ensures forall i :: 0 <= i < |noteEvents| ==> pm.instruments[0].notes[i] == WrittenNote(noteEvents[i])
  {
    var inst := Instrument(program, []);
    for i := 0 to |noteEvents|
      invariant inst.program == program && |inst.notes| == i
      invariant forall j :: 0 <= j < i ==> inst.notes[j] == WrittenNote(noteEvents[j])
    {
      var n := noteEvents[i];
      var start := MaxR(0.0, n.startSec);
      var end := MaxR(start + 0.001, n.endSec);
      var pitch := Clamp(n.midiPitch, 0, 127);
      var vel := Clamp(n.velocity, 1, 127);
      inst := inst.(notes := inst.notes + [PmNote(vel, pitch, start, end)]);
    }
    pm := PrettyMidi([inst]);
  }
}
