// `_midi_to_notes`: reading notes back out of a MIDI file's tracks. A map
// keyed by (channel, note) pairs each note-on with the next note-off (or
// zero-velocity note-on) of the same key; time runs in seconds from the start
// of each track at the current tempo. The stub `_dummy_notes` is here too.
module Analyze {
  import opened Numeric
  import opened Sorting
  import opened MidiModel
  import opened MidiMessages

  /** The parser's variables: tempo, clock, pending note-ons and the notes found so far. */
  datatype ParseState = ParseState(
    tempo: int,
    now: real,
    active: map<(int, int), (real, int)>,
    notes: seq<ChannelNote>)

  /** A track's fresh state: clock at 0 and nothing pending, keeping tempo and notes. */
  function TrackStart(tempo: int, notes: seq<ChannelNote>): ParseState
  {
    ParseState(tempo, 0.0, map[], notes)
  }

  /** `if msg.time: current_time_sec += tick2second(msg.time, ticks_per_beat, tempo)`. */
  function Advance(now: real, time: int, ticksPerBeat: int, tempo: int): real
    requires ticksPerBeat > 0
  {
    if time != 0 then now + TickToSecond(time, ticksPerBeat, tempo) else now
  }

  /** Ending the pending note of (channel, note), if there is one: it lasts at least 1 ms. */
  function Close(s: ParseState, channel: int, note: int): ParseState
  {
    if (channel, note) in s.active then
      var (start, vel) := s.active[(channel, note)];
      s.(active := s.active - {(channel, note)},
         notes := s.notes + [ChannelNote(start, MaxR(start + 0.001, s.now), note, vel, channel)])
    else s
  }

  /** One message: advance the clock with the tempo in force, then act on the message. */
  function Step(s: ParseState, m: MidiMsg, ticksPerBeat: int): ParseState
    requires ticksPerBeat > 0
  {
    var s1 := s.(now := Advance(s.now, m.time, ticksPerBeat, s.tempo));
    match m
    case SetTempo(t, _) => s1.(tempo := t)
    case NoteOn(ch, note, vel, _) =>
      if vel > 0 then s1.(active := s1.active[(ch, note) := (s1.now, vel)])
      else if vel == 0 then Close(s1, ch, note)
      else s1
    case NoteOff(ch, note, _, _) => Close(s1, ch, note)
    case _ => s1
  }

  /** The state after the messages of a track, in order. */
  function Run(ms: seq<MidiMsg>, s: ParseState, ticksPerBeat: int): ParseState
    requires ticksPerBeat > 0
    decreases |ms|
  {
    if |ms| == 0 then s else Run(ms[1..], Step(s, ms[0], ticksPerBeat), ticksPerBeat)
  }

  /** Track after track until one of them has produced notes; open notes are dropped with each track. */
  function ParseTracks(ts: Tracks, tempo: int, notes: seq<ChannelNote>, ticksPerBeat: int): seq<ChannelNote>
    requires ticksPerBeat > 0
    decreases |ts|
  {
    if |ts| == 0 then notes
    else
      var s := Run(ts[0], TrackStart(tempo, notes), ticksPerBeat);
      if |s.notes| > 0 then s.notes else ParseTracks(ts[1..], s.tempo, s.notes, ticksPerBeat)
  }

  /** The notes of a file, sorted by (start, pitch). */
  function ParsedNotes(ts: Tracks, ticksPerBeat: int): seq<ChannelNote>
    requires ticksPerBeat > 0
  {
    SortBy(ParseTracks(ts, DefaultTempo, [], ticksPerBeat), ChannelNoteKey)
  }

  /** `_midi_to_notes` over a file's tracks (the file's `ticks_per_beat` is positive). */
  method MidiToNotes(ts: Tracks, ticksPerBeat: int) returns (notes: seq<ChannelNote>)
    requires ticksPerBeat > 0
    ensures notes == ParsedNotes(ts, ticksPerBeat)
  {
    var tempo := DefaultTempo;
    notes := [];
    var t := 0;
    while t < |ts|
      invariant 0 <= t <= |ts|
      invariant ParseTracks(ts[t..], tempo, notes, ticksPerBeat) == ParseTracks(ts, DefaultTempo, [], ticksPerBeat)
      decreases |ts| - t
    {
      var track := ts[t];
      var now := 0.0;
      var active: map<(int, int), (real, int)> := map[];
      ghost var start := TrackStart(tempo, notes);
      for j := 0 to |track|
        invariant Run(track[j..], ParseState(tempo, now, active, notes), ticksPerBeat) == Run(track, start, ticksPerBeat)
      {
        assert track[j..][1..] == track[j + 1..];
        var m := track[j];
        if m.time != 0 {
          now := now + TickToSecond(m.time, ticksPerBeat, tempo);
        }
        if m.SetTempo? {
          tempo := m.tempo;
          continue;
        }
        if m.NoteOn? && m.velocity > 0 {
          active := active[(m.channel, m.note) := (now, m.velocity)];
        } else if m.NoteOff? || m.NoteOn? {
          if m.NoteOn? && m.velocity != 0 {
            continue;
          }
          var key := (m.channel, m.note);
          if key in active {
            var (st, vel) := active[key];
            active := active - {key};
            notes := notes + [ChannelNote(st, MaxR(st + 0.001, now), m.note, vel, m.channel)];
          }
        }
      }
      assert track[|track|..] == [];
      assert ts[t..][1..] == ts[t + 1..];
      if |notes| > 0 {
        break;
      }
      t := t + 1;
    }
    notes := SortBy(notes, ChannelNoteKey);
  }

  /** Every note lasts at least 1 ms and has a positive velocity. */
  ghost predicate NotesOk(ns: seq<ChannelNote>)
  {
    forall n :: n in ns ==> n.endSec >= n.startSec + 0.001 && n.velocity > 0
  }

  /** Every pending note-on has a positive velocity. */
  ghost predicate ActiveOk(a: map<(int, int), (real, int)>)
  {
    forall k :: k in a ==> a[k].1 > 0
  }

  lemma StepKeeps(s: ParseState, m: MidiMsg, ticksPerBeat: int)
    requires ticksPerBeat > 0
    requires NotesOk(s.notes) && ActiveOk(s.active)
    ensures var s' := Step(s, m, ticksPerBeat);
      NotesOk(s'.notes) && ActiveOk(s'.active) && |s.notes| <= |s'.notes|
  {
  }

  lemma {:induction false} RunKeeps(ms: seq<MidiMsg>, s: ParseState, ticksPerBeat: int)
    requires ticksPerBeat > 0
    requires NotesOk(s.notes) && ActiveOk(s.active)
    ensures var s' := Run(ms, s, ticksPerBeat);
      NotesOk(s'.notes) && ActiveOk(s'.active) && |s.notes| <= |s'.notes|
    decreases |ms|
  {
    if |ms| > 0 {
      StepKeeps(s, ms[0], ticksPerBeat);
      RunKeeps(ms[1..], Step(s, ms[0], ticksPerBeat), ticksPerBeat);
    }
  }

  lemma {:induction false} TracksKeep(ts: Tracks, tempo: int, notes: seq<ChannelNote>, ticksPerBeat: int)
    requires ticksPerBeat > 0
    requires NotesOk(notes)
    ensures NotesOk(ParseTracks(ts, tempo, notes, ticksPerBeat))
    decreases |ts|
  {
    if |ts| > 0 {
      RunKeeps(ts[0], TrackStart(tempo, notes), ticksPerBeat);
      var s := Run(ts[0], TrackStart(tempo, notes), ticksPerBeat);
      if |s.notes| == 0 {
        TracksKeep(ts[1..], s.tempo, s.notes, ticksPerBeat);
      }
    }
  }

  /** Every parsed note ends at least 1 ms after it starts and has a positive velocity; the list is sorted by (start, pitch). */
  lemma ParsedNotesWellFormed(ts: Tracks, ticksPerBeat: int)
    requires ticksPerBeat > 0
    ensures var ns := ParsedNotes(ts, ticksPerBeat);
      Sorted(ns, ChannelNoteKey) &&
      forall n :: n in ns ==> n.endSec >= n.startSec + 0.001 && n.velocity > 0
  {
    var raw := ParseTracks(ts, DefaultTempo, [], ticksPerBeat);
    TracksKeep(ts, DefaultTempo, [], ticksPerBeat);
    assert UniformKey(ChannelNoteKey);
    SortBySorted(raw, ChannelNoteKey);
    forall n | n in ParsedNotes(ts, ticksPerBeat) ensures n.endSec >= n.startSec + 0.001 && n.velocity > 0 {
      assert n in multiset(raw);
    }
  }

  /** Once a track has produced notes, the tracks after it are not read. */
  lemma StopsAfterFirstNotes(ts: Tracks, ticksPerBeat: int)
    requires ticksPerBeat > 0 && |ts| > 0
    requires |Run(ts[0], TrackStart(DefaultTempo, []), ticksPerBeat).notes| > 0
    ensures ParsedNotes(ts, ticksPerBeat) == ParsedNotes(ts[..1], ticksPerBeat)
  {
    assert ts[..1][0] == ts[0];
  }

  /** A note-on never closes a note, and neither does a non-note message. */
  predicate Opens(m: MidiMsg)
  {
    !(m.NoteOff? || (m.NoteOn? && m.velocity == 0))
  }

  /** A track without note-offs produces no notes: pending note-ons are dropped when the track ends. */
  lemma {:induction false} OpenNotesDropped(ms: seq<MidiMsg>, s: ParseState, ticksPerBeat: int)
    requires ticksPerBeat > 0
    requires forall i :: 0 <= i < |ms| ==> Opens(ms[i])
    ensures Run(ms, s, ticksPerBeat).notes == s.notes
    decreases |ms|
  {
    if |ms| > 0 {
      OpenNotesDropped(ms[1..], Step(s, ms[0], ticksPerBeat), ticksPerBeat);
    }
  }

  /** A note-off with no pending note-on for its (channel, note) is ignored. */
  lemma UnmatchedOffIgnored(s: ParseState, ch: int, note: int, vel: int, time: int, ticksPerBeat: int)
    requires ticksPerBeat > 0 && (ch, note) !in s.active
    ensures var s' := Step(s, NoteOff(ch, note, vel, time), ticksPerBeat);
      s'.notes == s.notes && s'.active == s.active && s'.tempo == s.tempo
  {
  }

  /** A second note-on for the same (channel, note) replaces the first: the note that closes starts at the second and has its velocity. */
  lemma SecondNoteOnWins(s: ParseState, ch: int, note: int, v1: int, v2: int, w: int, d1: int, d2: int, d3: int, ticksPerBeat: int)
    requires ticksPerBeat > 0 && v1 > 0 && v2 > 0
    ensures var t2 := Advance(Advance(s.now, d1, ticksPerBeat, s.tempo), d2, ticksPerBeat, s.tempo);
      var t3 := Advance(t2, d3, ticksPerBeat, s.tempo);
      var s' := Run([NoteOn(ch, note, v1, d1), NoteOn(ch, note, v2, d2), NoteOff(ch, note, w, d3)], s, ticksPerBeat);
      s'.notes == s.notes + [ChannelNote(t2, MaxR(t2 + 0.001, t3), note, v2, ch)] &&
      (ch, note) !in s'.active
  {
    var ms := [NoteOn(ch, note, v1, d1), NoteOn(ch, note, v2, d2), NoteOff(ch, note, w, d3)];
    assert ms[1..] == [NoteOn(ch, note, v2, d2), NoteOff(ch, note, w, d3)];
    assert ms[1..][1..] == [NoteOff(ch, note, w, d3)];
    var s1 := Step(s, ms[0], ticksPerBeat);
    var s2 := Step(s1, ms[1], ticksPerBeat);
    var s3 := Step(s2, ms[2], ticksPerBeat);
    assert Run(ms[1..][1..], s2, ticksPerBeat) == Run([], s3, ticksPerBeat) == s3;
    assert Run(ms, s, ticksPerBeat) == s3;
  }

  /** No tempo change in the messages. */
  predicate NoTempoChange(ms: seq<MidiMsg>)
  {
    forall i :: 0 <= i < |ms| ==> !ms[i].SetTempo?
  }

  /** Without tempo changes the clock advances by the summed deltas at the tempo in force. */
  lemma {:induction false} ClockAdvance(ms: seq<MidiMsg>, s: ParseState, ticksPerBeat: int)
    requires ticksPerBeat > 0 && NoTempoChange(ms)
    ensures var s' := Run(ms, s, ticksPerBeat);
      s'.tempo == s.tempo && s'.now == s.now + TickToSecond(SumTimes(ms), ticksPerBeat, s.tempo)
    decreases |ms|
  {
    if |ms| > 0 {
      var s1 := Step(s, ms[0], ticksPerBeat);
      assert s1.tempo == s.tempo;
      assert s1.now == s.now + TickToSecond(ms[0].time, ticksPerBeat, s.tempo);
      ClockAdvance(ms[1..], s1, ticksPerBeat);
      TickToSecondAdd(ms[0].time, SumTimes(ms[1..]), ticksPerBeat, s.tempo);
    }
  }

  /** A `set_tempo` message's own delta is counted at the old tempo; the messages after it at the new one. */
  lemma TempoChangeClock(t: int, d: int, ms: seq<MidiMsg>, s: ParseState, ticksPerBeat: int)
    requires ticksPerBeat > 0 && NoTempoChange(ms)
    ensures var s' := Run([SetTempo(t, d)] + ms, s, ticksPerBeat);
      s'.tempo == t &&
      s'.now == s.now + TickToSecond(d, ticksPerBeat, s.tempo) + TickToSecond(SumTimes(ms), ticksPerBeat, t)
  {
    var all := [SetTempo(t, d)] + ms;
    assert all[1..] == ms;
    var s1 := Step(s, SetTempo(t, d), ticksPerBeat);
    assert s1.now == s.now + TickToSecond(d, ticksPerBeat, s.tempo);
    ClockAdvance(ms, s1, ticksPerBeat);
  }

  /** Each track starts its clock at 0 with nothing pending, whatever the tracks before it did. */
  lemma TrackRestartsClock(ts: Tracks, tempo: int, notes: seq<ChannelNote>, ticksPerBeat: int)
    requires ticksPerBeat > 0 && |ts| > 1
    requires |Run(ts[0], TrackStart(tempo, notes), ticksPerBeat).notes| == 0
    ensures var s := Run(ts[0], TrackStart(tempo, notes), ticksPerBeat);
      ParseTracks(ts, tempo, notes, ticksPerBeat) == ParseTracks(ts[1..], s.tempo, [], ticksPerBeat)
  {
  }

  const DummyPitches: seq<int> := [60, 64, 67, 72, 67, 64, 60]

  /** `_dummy_notes`: the seven-note fallback, 0.4 s apart, each 0.35 s long. */
  method DummyNotes() returns (out: seq<ChannelNote>)
    ensures |out| == 7
    ensures forall i :: 0 <= i < 7 ==>
      out[i] == ChannelNote(0.4 * i as real, 0.4 * i as real + 0.35, DummyPitches[i], 96, 0)
  {
    var t := 0.0;
    var dur := 0.35;
    out := [];
    for i := 0 to |DummyPitches|
      invariant |out| == i && t == 0.4 * i as real
      invariant forall k :: 0 <= k < i ==>
        out[k] == ChannelNote(0.4 * k as real, 0.4 * k as real + 0.35, DummyPitches[k], 96, 0)
    {
      out := out + [ChannelNote(t, t + dur, DummyPitches[i], 96, 0)];
      t := t + 0.40;
    }
  }

  /** The fallback notes are in start order and never overlap: each ends 0.05 s before the next starts. */
  lemma DummyNotesApart(out: seq<ChannelNote>)
    requires |out| == 7
    requires forall i :: 0 <= i < 7 ==>
      out[i] == ChannelNote(0.4 * i as real, 0.4 * i as real + 0.35, DummyPitches[i], 96, 0)
    ensures forall i, j :: 0 <= i < j < 7 ==> out[i].endSec + 0.05 <= out[j].startSec
    ensures Sorted(out, ChannelNoteKey)
  {
    forall i, j | 0 <= i < j < 7 ensures LexLe(ChannelNoteKey(out[i]), ChannelNoteKey(out[j])) {
      assert out[i].startSec < out[j].startSec;
    }
  }
}
