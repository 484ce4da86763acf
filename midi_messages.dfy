// The MIDI vocabulary the exporters hand to mido and the parser reads back:
// the messages of a track, mido's tempo conversions, and the outcome of an
// export that can fail for want of the library or on a value mido refuses.
module MidiMessages {
  import opened Numeric
  import State

  /** Resolution every exporter writes: ticks per quarter note. */
  const TicksPerBeat: int := 480

  /** mido's tempo before any `set_tempo`: 500000 microseconds per beat (120 bpm). */
  const DefaultTempo: int := 500000

  /** The messages that occur in the model; `time` is the delta in ticks from the previous message. */
  datatype MidiMsg =
    | SetTempo(tempo: int, time: int)
    | TrackName(name: string, time: int)
    | NoteOn(channel: int, note: int, velocity: int, time: int)
    | NoteOff(channel: int, note: int, velocity: int, time: int)
    | EndOfTrack(time: int)

  /** A file: its tracks, in order. */
  type Tracks = seq<seq<MidiMsg>>

  datatype Result<T> = Ok(value: T) | Err(msg: string)

  /** The largest tempo a `set_tempo` message holds: three bytes of microseconds per beat. */
  const MaxTempo: int := 0xFF_FFFF

  /** mido's `ValueError` for a `set_tempo` outside 0..0xFFFFFF. */
  const TempoRangeError: string := "attribute must be in range 0..16777215"

  /** mido's `ValueError` for a note number or velocity outside 0..127. */
  const DataByteError: string := "data byte must be in range 0..127"

  /** A value mido accepts as a note number or a velocity. */
  predicate DataByte(v: int)
  {
    0 <= v <= 127
  }

  /** mido accepts a `set_tempo` with this tempo. */
  predicate TempoFits(tempo: int)
  {
    0 <= tempo <= MaxTempo
  }

  /** The note's pitch and velocity both go into a `note_on` without a `ValueError`. */
  predicate NoteFits(n: State.NoteEvent)
  {
    DataByte(n.midiPitch) && DataByte(n.velocity)
  }

  predicate NotesFit(notes: seq<State.NoteEvent>)
  {
    forall i :: 0 <= i < |notes| ==> NoteFits(notes[i])
  }

  /** The (note, velocity) pair of a `note_on`; nothing for any other message. */
  function OnPair(m: MidiMsg): multiset<(int, int)>
  {
    if m.NoteOn? then multiset{(m.note, m.velocity)} else multiset{}
  }

  /** The note number of a `note_off`; nothing for any other message. */
  function OffPitch(m: MidiMsg): multiset<int>
  {
    if m.NoteOff? then multiset{m.note} else multiset{}
  }

  /** The (pitch, velocity) pair a note should be written with. */
  function NotePair(n: State.NoteEvent): multiset<(int, int)>
  {
    multiset{(n.midiPitch, n.velocity)}
  }

  function NotePitch(n: State.NoteEvent): multiset<int>
  {
    multiset{n.midiPitch}
  }

  /** `mido.bpm2tempo(bpm)`: microseconds per beat, rounded to the nearest integer. */
  function BpmToTempo(bpm: int): (r: int)
    requires bpm > 0
    ensures r >= 0
    ensures r as real - 0.5 <= 60000000.0 / bpm as real <= r as real + 0.5
  {
    RoundHalfEven(60000000.0 / bpm as real)
  }

  /** `bpm2tempo` fits a `set_tempo` exactly from 4 bpm up: 3 bpm is 20000000 microseconds per beat, 4 bpm 15000000. */
  lemma TempoFitsFrom4(bpm: int)
    requires bpm > 0
    ensures TempoFits(BpmToTempo(bpm)) <==> bpm >= 4
  {
    if bpm >= 4 {
      assert bpm as real * 15000000.0 >= 60000000.0;
      assert 60000000.0 / bpm as real <= 15000000.0;
    } else {
      assert bpm as real * 20000000.0 <= 60000000.0;
      assert 60000000.0 / bpm as real >= 20000000.0;
    }
  }

  /** `mido.tick2second(ticks, ticksPerBeat, tempo)`: ticks times the length of a tick. */
  function TickToSecond(ticks: int, ticksPerBeat: int, tempo: int): real
    requires ticksPerBeat > 0
  {
    ticks as real * (tempo as real / 1000000.0 / ticksPerBeat as real)
  }

  /** 120 bpm is exactly mido's default tempo. */
  lemma BpmToTempo120()
    ensures BpmToTempo(120) == DefaultTempo
  {
    RoundOfInt(500000);
  }

  /** Converting ticks to seconds is additive in the ticks, so deltas add up to absolute times. */
  lemma TickToSecondAdd(a: int, b: int, ticksPerBeat: int, tempo: int)
    requires ticksPerBeat > 0
    ensures TickToSecond(a + b, ticksPerBeat, tempo) == TickToSecond(a, ticksPerBeat, tempo) + TickToSecond(b, ticksPerBeat, tempo)
  {
  }

  /** Sum of the delta times of a list of messages. */
  function SumTimes(ms: seq<MidiMsg>): int
  {
    if |ms| == 0 then 0 else ms[0].time + SumTimes(ms[1..])
  }

  /** The sum over a list one message longer. */
  lemma {:induction false} SumTimesSnoc(ms: seq<MidiMsg>, m: MidiMsg)
    ensures SumTimes(ms + [m]) == SumTimes(ms) + m.time
    decreases |ms|
  {
    if |ms| > 0 {
      assert (ms + [m])[1..] == ms[1..] + [m];
      SumTimesSnoc(ms[1..], m);
    }
  }
}
