// `PolyphonicStubTranscriber.transcribe`: a placeholder transcriber that
// plays a C major arpeggio (C4 E4 G4 C5) over the audio's length, clamped
// to between 2 and 8 seconds. Only the number of samples is used.
module PolyModel {
  import opened Numeric
  import opened State
  import opened MidiModel

  /** C E G C. */
  const ArpeggioPitches: seq<int> := [60, 64, 67, 72]

  /** `max(2.0, min(8.0, len(audio) / sr))`. */
  function StubDuration(audioLength: nat, sr: int): (r: real)
    requires sr != 0
    ensures 2.0 <= r <= 8.0
    ensures 2.0 <= audioLength as real / sr as real <= 8.0 ==> r == audioLength as real / sr as real
  {
    MaxR(2.0, MinR(8.0, audioLength as real / sr as real))
  }

  /** The i-th arpeggio note: it starts at i steps and lasts 0.9 of a step. */
  function ArpeggioNote(i: int, dur: real, velocity: int): ChannelNote
    requires 0 <= i < 4
  {
    var step := dur / 4.0;
    ChannelNote(i as real * step, i as real * step + step * 0.9, ArpeggioPitches[i], velocity, 0)
  }

  /** `transcribe(audio, sr, settings)` for an audio clip of `audioLength` samples. */
  method Transcribe(audioLength: nat, sr: int, settings: Settings) returns (notes: seq<ChannelNote>)
    requires sr != 0
    ensures |notes| == 4
    ensures forall i :: 0 <= i < 4 ==> notes[i] == ArpeggioNote(i, StubDuration(audioLength, sr), settings.velocity)
  {
    var dur := StubDuration(audioLength, sr);
    var step := dur / |ArpeggioPitches| as real;
    notes := [];
    var t := 0.0;
    for k := 0 to |ArpeggioPitches|
      invariant |notes| == k
      invariant t == k as real * step
      invariant forall i :: 0 <= i < k ==> notes[i] == ArpeggioNote(i, dur, settings.velocity)
    {
      var p := ArpeggioPitches[k];
      notes := notes + [ChannelNote(t, t + step * 0.9, p, settings.velocity, 0)];
      t := t + step;
    }
  }

  /** The arpeggio: pitches C E G C in order, every velocity the setting's, each note ending before the next begins,
      all within the clip's clamped duration. */
  lemma ArpeggioShape(audioLength: nat, sr: int, velocity: int)
    requires sr != 0
    ensures var dur := StubDuration(audioLength, sr);
      forall i :: 0 <= i < 4 ==>
        ArpeggioNote(i, dur, velocity).midiPitch == ArpeggioPitches[i] &&
        ArpeggioNote(i, dur, velocity).velocity == velocity &&
        0.0 <= ArpeggioNote(i, dur, velocity).startSec < ArpeggioNote(i, dur, velocity).endSec < dur
    ensures var dur := StubDuration(audioLength, sr);
      forall i :: 0 <= i < 3 ==> ArpeggioNote(i, dur, velocity).endSec < ArpeggioNote(i + 1, dur, velocity).startSec
  {
    var dur := StubDuration(audioLength, sr);
    var step := dur / 4.0;
    assert step >= 0.5;
    forall i | 0 <= i < 4
      ensures 0.0 <= ArpeggioNote(i, dur, velocity).startSec < ArpeggioNote(i, dur, velocity).endSec < dur
    {
      MulMonotone(0.0, i as real, step);
      MulMonotone(i as real, 3.0, step);
    }
    forall i | 0 <= i < 3
      ensures ArpeggioNote(i, dur, velocity).endSec < ArpeggioNote(i + 1, dur, velocity).startSec
    {
      assert (i + 1) as real * step == i as real * step + step;
    }
  }
}
