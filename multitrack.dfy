// The main window's multi-track export: one tempo track, then one track per
// stem. Times are converted to ticks first (never below zero), the events of
// a stem are sorted by (tick, not is_on), and each message carries the plain
// difference from the previous tick. Without mido the export returns False;
// a note number or velocity outside 0..127 makes mido raise.
module Multitrack {
  import opened Numeric
  import opened State
  import opened Sorting
  import opened MidiMessages
  import opened Text

  /** An entry of a stem's event list: tick, kind, pitch and velocity. */
  datatype TickEvent = TickEvent(tick: int, on: bool, pitch: int, vel: int)

  /** The stems in dictionary order: name and notes. */
  type Stems = seq<(string, seq<NoteEvent>)>

  /** What `_export_multitrack_midi` does: saves these tracks and returns True, returns False without mido, or raises mido's error. */
  datatype Outcome = Saved(tracks: Tracks) | Unavailable | Raised(msg: string)

  /** The key as written, `(tick, not is_on)`: at one tick a note-on (False) sorts before a note-off (True). */
  function AsWrittenKey(e: TickEvent): seq<real>
  {
    [e.tick as real, if e.on then 0.0 else 1.0]
  }

  /** The order the comment beside the sort asks for: at one tick the note-off first. */
  function OffFirstKey(e: TickEvent): seq<real>
  {
    [e.tick as real, if e.on then 1.0 else 0.0]
  }

  /** The tempo the spin box's range (30 to 300 bpm) allows is positive. */
  lemma TempoPositive(bpm: int)
    requires 30 <= bpm <= 300
    ensures BpmToTempo(bpm) >= 199999
  {
    assert bpm as real * 200000.0 <= 60000000.0;
    assert 60000000.0 / bpm as real >= 200000.0;
  }

  /** `ticks_per_sec = ticks_per_beat * 1e6 / tempo`. */
  function TicksPerSec(tempo: int): real
    requires tempo > 0
  {
    TicksPerBeat as real * 1000000.0 / tempo as real
  }

  /** `sec_to_ticks`: the rounded tick, never below zero. */
  function SecToTicks(sec: real, tempo: int): (r: int)
    requires tempo > 0
    ensures r >= 0
  {
    Max(0, RoundHalfEven(sec * TicksPerSec(tempo)))
  }

  /** A later time never gets an earlier tick. */
  lemma SecToTicksMonotone(a: real, b: real, tempo: int)
    requires tempo > 0 && a <= b
    ensures SecToTicks(a, tempo) <= SecToTicks(b, tempo)
  {
    assert TicksPerSec(tempo) > 0.0;
    MulMonotone(a, b, TicksPerSec(tempo));
    RoundMonotone(a * TicksPerSec(tempo), b * TicksPerSec(tempo));
  }

  /** The unsorted events of one stem: the on and the off of each note, note by note. */
  function StemEvents(notes: seq<NoteEvent>, tempo: int): (r: seq<TickEvent>)
    requires tempo > 0
    ensures |r| == 2 * |notes|
  {
    if |notes| == 0 then []
    else
      var n := notes[|notes| - 1];
      StemEvents(notes[..|notes| - 1], tempo)
        + [TickEvent(SecToTicks(n.startSec, tempo), true, n.midiPitch, n.velocity),
           TickEvent(SecToTicks(n.endSec, tempo), false, n.midiPitch, 0)]
  }

  /** mido accepts the event's note number and velocity. */
  predicate EventFits(e: TickEvent)
  {
    DataByte(e.pitch) && DataByte(e.vel)
  }

  predicate EventsFit(es: seq<TickEvent>)
  {
    forall i :: 0 <= i < |es| ==> EventFits(es[i])
  }

  /** Every note of every stem fits mido. */
  predicate StemsFit(stems: Stems)
  {
    forall s :: 0 <= s < |stems| ==> NotesFit(stems[s].1)
  }

  function EventMsg(e: TickEvent, delta: int): MidiMsg
  {
    if e.on then NoteOn(0, e.pitch, e.vel, delta) else NoteOff(0, e.pitch, 0, delta)
  }

  /** Delta encoding without a clamp: each message's time is `t - last`. */
  function DeltaEncode(es: seq<TickEvent>, last: int): (r: seq<MidiMsg>)
    ensures |r| == |es|
  {
    if |es| == 0 then []
    else [EventMsg(es[0], es[0].tick - last)] + DeltaEncode(es[1..], es[0].tick)
  }

  /** One stem's track: its name, then its events sorted by `key` and delta-encoded. */
  function StemTrack(name: string, notes: seq<NoteEvent>, tempo: int, key: TickEvent -> seq<real>): seq<MidiMsg>
    requires tempo > 0
  {
    [TrackName(name, 0)] + DeltaEncode(SortBy(StemEvents(notes, tempo), key), 0)
  }

  function StemTracks(stems: Stems, tempo: int, key: TickEvent -> seq<real>): (r: Tracks)
    requires tempo > 0
    ensures |r| == |stems|
  {
    if |stems| == 0 then []
    else StemTracks(stems[..|stems| - 1], tempo, key) + [StemTrack(stems[|stems| - 1].0, stems[|stems| - 1].1, tempo, key)]
  }

  /** The tracks saved; nothing when mido cannot be imported; mido's error when a note number or velocity is outside 0..127. */
  function MultitrackFile(stems: Stems, bpm: int, haveMido: bool, key: TickEvent -> seq<real>): Outcome
    requires 30 <= bpm <= 300
  {
    TempoPositive(bpm);
    if !haveMido then Unavailable
    else if !StemsFit(stems) then Raised(DataByteError)
    else Saved(FileTracks(stems, BpmToTempo(bpm), key))
  }

  /** The tempo track with its one `set_tempo`, then the stems' tracks. */
  function FileTracks(stems: Stems, tempo: int, key: TickEvent -> seq<real>): Tracks
    requires tempo > 0
  {
    [[SetTempo(tempo, 0)]] + StemTracks(stems, tempo, key)
  }

  /** A file with one stem holds the tempo track and that stem's named track. */
  lemma OneStemFile(name: string, notes: seq<NoteEvent>, bpm: int, key: TickEvent -> seq<real>, body: seq<MidiMsg>)
    requires 30 <= bpm <= 300
    requires BpmToTempo(bpm) > 0 && DeltaEncode(SortBy(StemEvents(notes, BpmToTempo(bpm)), key), 0) == body
    ensures MultitrackFile([(name, notes)], bpm, true, key) ==
      if NotesFit(notes) then Saved([[SetTempo(BpmToTempo(bpm), 0)], [TrackName(name, 0)] + body]) else Raised(DataByteError)
  {
    var stems := [(name, notes)];
    assert stems[0].1 == notes;
    assert StemsFit(stems) <==> NotesFit(notes);
    if NotesFit(notes) {
      var tempo := BpmToTempo(bpm);
      assert stems[..0] == [];
      assert StemTracks(stems, tempo, key) == [StemTrack(name, notes, tempo, key)];
      assert StemTrack(name, notes, tempo, key) == [TrackName(name, 0)] + body;
      assert FileTracks(stems, tempo, key) == [[SetTempo(tempo, 0)], [TrackName(name, 0)] + body];
    }
  }

  /** `_export_multitrack_midi` as written: tempo track, then per stem the name, the sorted events and their deltas. */
  method ExportMultitrack(stems: Stems, bpm: int, haveMido: bool) returns (r: Outcome)
    requires 30 <= bpm <= 300
    ensures r == MultitrackFile(stems, bpm, haveMido, AsWrittenKey)
  {
    if !haveMido {
      return Unavailable;
    }
    var tempo := BpmToTempo(bpm);
    TempoPositive(bpm);
    var tracks: Tracks := [[SetTempo(tempo, 0)]];
    for s := 0 to |stems|
      invariant tracks == [[SetTempo(tempo, 0)]] + StemTracks(stems[..s], tempo, AsWrittenKey)
      invariant StemsFit(stems[..s])
    {
      var track := ExportStem(stems[s].0, stems[s].1, tempo);
      if track.Err? {
        assert !StemsFit(stems);
        return Raised(track.msg);
      }
      StemsFitSnoc(stems, s);
      assert stems[..s + 1][..s] == stems[..s];
      tracks := tracks + [track.value];
    }
    assert stems[..|stems|] == stems;
    assert StemsFit(stems);
    r := Saved(tracks);
  }

  /** One more stem whose notes fit keeps the prefix fitting. */
  lemma StemsFitSnoc(stems: Stems, s: int)
    requires 0 <= s < |stems| && StemsFit(stems[..s]) && NotesFit(stems[s].1)
    ensures StemsFit(stems[..s + 1])
  {
    var pre := stems[..s + 1];
    forall k | 0 <= k < |pre| ensures NotesFit(pre[k].1) {
      if k < s {
        assert pre[k] == stems[..s][k];
      }
    }
  }

  /** The body of the loop over the stems: the name, then the stem's events collected, sorted and delta-encoded, or mido's error. */
  method ExportStem(name: string, notes: seq<NoteEvent>, tempo: int) returns (r: Result<seq<MidiMsg>>)
    requires tempo > 0
    ensures r == if NotesFit(notes) then Ok(StemTrack(name, notes, tempo, AsWrittenKey)) else Err(DataByteError)
  {
    var events := CollectEvents(notes, tempo);
    events := SortBy(events, AsWrittenKey);
    StemEventsFit(notes, tempo, AsWrittenKey);
    var body := DeltaEncodeEvents(events);
    if body.Err? {
      return Err(body.msg);
    }
    r := Ok([TrackName(name, 0)] + body.value);
  }

  /** The inner loop over one stem's notes: a `note_on` and a `note_off` per note, in note order. */
  method CollectEvents(notes: seq<NoteEvent>, tempo: int) returns (events: seq<TickEvent>)
    requires tempo > 0
    ensures events == StemEvents(notes, tempo)
  {
    events := [];
    for i := 0 to |notes|
      invariant events == StemEvents(notes[..i], tempo)
    {
      assert notes[..i + 1][..i] == notes[..i];
      var onT := SecToTicks(notes[i].startSec, tempo);
      var offT := SecToTicks(notes[i].endSec, tempo);
      events := events + [TickEvent(onT, true, notes[i].midiPitch, notes[i].velocity), TickEvent(offT, false, notes[i].midiPitch, 0)];
    }
    assert notes[..|notes|] == notes;
  }

  /** The loop updating `last`: the message's time is the tick minus the previous tick, and building a message mido refuses raises. */
  method DeltaEncodeEvents(events: seq<TickEvent>) returns (r: Result<seq<MidiMsg>>)
    ensures r == if EventsFit(events) then Ok(DeltaEncode(events, 0)) else Err(DataByteError)
  {
    var msgs := [];
    var last := 0;
    for i := 0 to |events|
      invariant msgs + DeltaEncode(events[i..], last) == DeltaEncode(events, 0)
      invariant forall k :: 0 <= k < i ==> EventFits(events[k])
    {
      if !EventFits(events[i]) {
        assert !EventsFit(events);
        return Err(DataByteError);
      }
      assert events[i..][1..] == events[i + 1..];
      var dt := events[i].tick - last;
      last := events[i].tick;
      msgs := msgs + [EventMsg(events[i], dt)];
    }
    assert events[|events|..] == [];
    assert EventsFit(events);
    assert msgs == DeltaEncode(events, 0);
    r := Ok(msgs);
  }

  /** A stem's event list fits mido exactly when every note does. */
  lemma {:induction false} StemEventsFitUnsorted(notes: seq<NoteEvent>, tempo: int)
    requires tempo > 0
    ensures EventsFit(StemEvents(notes, tempo)) <==> NotesFit(notes)
    decreases |notes|
  {
    if |notes| > 0 {
      var init := notes[..|notes| - 1];
      var es := StemEvents(notes, tempo);
      var before := StemEvents(init, tempo);
      StemEventsFitUnsorted(init, tempo);
      if EventsFit(es) {
        forall k | 0 <= k < |before| ensures EventFits(before[k]) {
          assert es[k] == before[k];
        }
        assert EventFits(es[|es| - 2]);
        forall i | 0 <= i < |notes| ensures NoteFits(notes[i]) {
          if i < |notes| - 1 {
            assert notes[i] == init[i];
          }
        }
      }
      if NotesFit(notes) {
        forall i | 0 <= i < |init| ensures NoteFits(init[i]) {
          assert init[i] == notes[i];
        }
        forall k | 0 <= k < |es| ensures EventFits(es[k]) {
          if k < |es| - 2 {
            assert es[k] == before[k];
          }
        }
      }
    }
  }

  /** Sorted by any key, a stem's events fit mido exactly when every note does. */
  lemma StemEventsFit(notes: seq<NoteEvent>, tempo: int, key: TickEvent -> seq<real>)
    requires tempo > 0
    ensures EventsFit(SortBy(StemEvents(notes, tempo), key)) <==> NotesFit(notes)
  {
    StemEventsFitUnsorted(notes, tempo);
    ForallPermutation(StemEvents(notes, tempo), SortBy(StemEvents(notes, tempo), key), EventFits);
  }

  /** The (pitch, velocity) a note-on event is written with. */
  function EventOnPair(e: TickEvent): multiset<(int, int)>
  {
    if e.on then multiset{(e.pitch, e.vel)} else multiset{}
  }

  function EventOffPitch(e: TickEvent): multiset<int>
  {
    if e.on then multiset{} else multiset{e.pitch}
  }

  /** Delta encoding turns the note-on events into `note_on`s with the same pitch and velocity, and the note-off events into `note_off`s with the same pitch. */
  lemma {:induction false} DeltaEncodeContent(es: seq<TickEvent>, last: int)
    ensures Collect(DeltaEncode(es, last), OnPair) == Collect(es, EventOnPair)
    ensures Collect(DeltaEncode(es, last), OffPitch) == Collect(es, EventOffPitch)
    decreases |es|
  {
    if |es| > 0 {
      DeltaEncodeContent(es[1..], es[0].tick);
      assert DeltaEncode(es, last)[1..] == DeltaEncode(es[1..], es[0].tick);
    }
  }

  /** A stem's events hold one note-on per note, with its pitch and velocity, and one note-off per note, with its pitch. */
  lemma {:induction false} StemEventsContent(notes: seq<NoteEvent>, tempo: int)
    requires tempo > 0
    ensures Collect(StemEvents(notes, tempo), EventOnPair) == Collect(notes, NotePair)
    ensures Collect(StemEvents(notes, tempo), EventOffPitch) == Collect(notes, NotePitch)
    decreases |notes|
  {
    if |notes| > 0 {
      var init := notes[..|notes| - 1];
      var n := notes[|notes| - 1];
      var pair := [TickEvent(SecToTicks(n.startSec, tempo), true, n.midiPitch, n.velocity),
                   TickEvent(SecToTicks(n.endSec, tempo), false, n.midiPitch, 0)];
      StemEventsContent(init, tempo);
      CollectAppend(StemEvents(init, tempo), pair, EventOnPair);
      CollectAppend(StemEvents(init, tempo), pair, EventOffPitch);
      assert notes == init + [n];
      CollectAppend(init, [n], NotePair);
      CollectAppend(init, [n], NotePitch);
      NoteEventsContent(n, pair);
    }
  }

  /** The two events of one note carry what the note does. */
  lemma NoteEventsContent(n: NoteEvent, pair: seq<TickEvent>)
    requires |pair| == 2 && pair[0].on && !pair[1].on
    requires pair[0].pitch == pair[1].pitch == n.midiPitch && pair[0].vel == n.velocity
    ensures Collect(pair, EventOnPair) == Collect([n], NotePair)
    ensures Collect(pair, EventOffPitch) == Collect([n], NotePitch)
  {
    var off := pair[1..];
    assert off[1..] == [] && [n][1..] == [];
    assert Collect(off, EventOnPair) == multiset{};
    assert Collect(pair, EventOnPair) == NotePair(n);
    assert Collect(off, EventOffPitch) == NotePitch(n);
    assert Collect(pair, EventOffPitch) == NotePitch(n);
  }

  /** A stem's track holds, as multisets, exactly one `note_on` per note with its pitch and velocity and exactly one `note_off` per note with its pitch, whatever the sort key. */
  lemma StemTrackContent(name: string, notes: seq<NoteEvent>, tempo: int, key: TickEvent -> seq<real>)
    requires tempo > 0
    ensures Collect(StemTrack(name, notes, tempo, key), OnPair) == Collect(notes, NotePair)
    ensures Collect(StemTrack(name, notes, tempo, key), OffPitch) == Collect(notes, NotePitch)
  {
    var es := StemEvents(notes, tempo);
    var body := DeltaEncode(SortBy(es, key), 0);
    DeltaEncodeContent(SortBy(es, key), 0);
    CollectPermutation(SortBy(es, key), es, EventOnPair);
    CollectPermutation(SortBy(es, key), es, EventOffPitch);
    StemEventsContent(notes, tempo);
    CollectAppend([TrackName(name, 0)], body, OnPair);
    CollectAppend([TrackName(name, 0)], body, OffPitch);
  }

  /** In a saved file, track i + 1 holds stem i's notes: its (pitch, velocity) pairs as `note_on`s and its pitches as `note_off`s, each as often as among the notes. */
  lemma MultitrackContent(stems: Stems, bpm: int, key: TickEvent -> seq<real>)
    requires 30 <= bpm <= 300
    ensures var r := MultitrackFile(stems, bpm, true, key);
      r.Saved? ==>
        |r.tracks| == |stems| + 1 &&
        forall i :: 0 <= i < |stems| ==>
          Collect(r.tracks[i + 1], OnPair) == Collect(stems[i].1, NotePair) &&
          Collect(r.tracks[i + 1], OffPitch) == Collect(stems[i].1, NotePitch)
  {
    TempoPositive(bpm);
    var tempo := BpmToTempo(bpm);
    var r := MultitrackFile(stems, bpm, true, key);
    if r.Saved? {
      StemTracksShape(stems, tempo, key);
      forall i | 0 <= i < |stems|
        ensures Collect(r.tracks[i + 1], OnPair) == Collect(stems[i].1, NotePair)
        ensures Collect(r.tracks[i + 1], OffPitch) == Collect(stems[i].1, NotePitch)
      {
        assert r.tracks[i + 1] == StemTrack(stems[i].0, stems[i].1, tempo, key);
        StemTrackContent(stems[i].0, stems[i].1, tempo, key);
      }
    }
  }

  /** Without mido nothing is written and False comes back; with it, mido raises on a note number or velocity outside 0..127 in any stem; otherwise the file is saved. */
  lemma MultitrackOutcome(stems: Stems, bpm: int, haveMido: bool, key: TickEvent -> seq<real>)
    requires 30 <= bpm <= 300
    ensures var r := MultitrackFile(stems, bpm, haveMido, key);
      (r == Unavailable <==> !haveMido) &&
      (r == Raised(DataByteError) <==>
         haveMido && exists s, i :: 0 <= s < |stems| && 0 <= i < |stems[s].1| && !NoteFits(stems[s].1[i])) &&
      (r.Saved? <==> haveMido && StemsFit(stems))
  {
  }

  /** A saved file has one tempo track with a single `set_tempo`, then per stem, in order, a track opening with its name and holding two messages per note. */
  lemma MultitrackShape(stems: Stems, bpm: int, key: TickEvent -> seq<real>)
    requires 30 <= bpm <= 300
    ensures MultitrackFile(stems, bpm, true, key).Saved? ==>
      var ts := MultitrackFile(stems, bpm, true, key).tracks;
      |ts| == |stems| + 1 &&
      ts[0] == [SetTempo(BpmToTempo(bpm), 0)] &&
      forall i :: 0 <= i < |stems| ==>
        |ts[i + 1]| == 1 + 2 * |stems[i].1| && ts[i + 1][0] == TrackName(stems[i].0, 0)
  {
    TempoPositive(bpm);
    FileShape(stems, BpmToTempo(bpm), key);
  }

  lemma FileShape(stems: Stems, tempo: int, key: TickEvent -> seq<real>)
    requires tempo > 0
    ensures var ts := FileTracks(stems, tempo, key);
      |ts| == |stems| + 1 &&
      ts[0] == [SetTempo(tempo, 0)] &&
      forall i :: 0 <= i < |stems| ==>
        |ts[i + 1]| == 1 + 2 * |stems[i].1| && ts[i + 1][0] == TrackName(stems[i].0, 0)
  {
    var ts := FileTracks(stems, tempo, key);
    StemTracksShape(stems, tempo, key);
    forall i | 0 <= i < |stems|
      ensures |ts[i + 1]| == 1 + 2 * |stems[i].1| && ts[i + 1][0] == TrackName(stems[i].0, 0)
    {
      assert ts[i + 1] == StemTracks(stems, tempo, key)[i];
    }
  }

  lemma {:induction false} StemTracksShape(stems: Stems, tempo: int, key: TickEvent -> seq<real>)
    requires tempo > 0
    ensures var ts := StemTracks(stems, tempo, key);
      forall i :: 0 <= i < |stems| ==> ts[i] == StemTrack(stems[i].0, stems[i].1, tempo, key)
    decreases |stems|
  {
    if |stems| > 0 {
      var init := stems[..|stems| - 1];
      StemTracksShape(init, tempo, key);
      forall i | 0 <= i < |stems| - 1
        ensures StemTracks(stems, tempo, key)[i] == StemTrack(stems[i].0, stems[i].1, tempo, key)
      {
        assert init[i] == stems[i];
      }
    }
  }

  /** Event ticks never decrease along the list. */
  ghost predicate TicksAscending(es: seq<TickEvent>)
  {
    forall i, j :: 0 <= i < j < |es| ==> es[i].tick <= es[j].tick
  }

  /** From a `last` no later than the first tick, every delta is non-negative and the running sum reaches each tick. */
  lemma {:induction false} DeltaSums(es: seq<TickEvent>, last: int, k: nat)
    requires TicksAscending(es)
    requires k < |es| && last <= es[0].tick
    ensures var r := DeltaEncode(es, last);
      r[k].time >= 0 && last + SumTimes(r[..k + 1]) == es[k].tick
    decreases k
  {
    var r := DeltaEncode(es, last);
    assert r[..k + 1][1..] == DeltaEncode(es[1..], es[0].tick)[..k];
    if k > 0 {
      assert TicksAscending(es[1..]) by {
        forall i, j | 0 <= i < j < |es[1..]| ensures es[1..][i].tick <= es[1..][j].tick {
          assert es[1..][i] == es[i + 1] && es[1..][j] == es[j + 1];
        }
      }
      DeltaSums(es[1..], es[0].tick, k - 1);
      assert es[1..][k - 1] == es[k];
      assert r[k] == DeltaEncode(es[1..], es[0].tick)[k - 1];
    }
  }

  /** Every event of a stem's list has a tick that is not negative. */
  lemma {:induction false} StemTicksNonNegative(notes: seq<NoteEvent>, tempo: int, e: TickEvent)
    requires tempo > 0 && e in StemEvents(notes, tempo)
    ensures e.tick >= 0
    decreases |notes|
  {
    var n := notes[|notes| - 1];
    if e in StemEvents(notes[..|notes| - 1], tempo) {
      StemTicksNonNegative(notes[..|notes| - 1], tempo, e);
    }
  }

  /** Sorted by either key, a stem's events are in tick order. */
  lemma TickKeyedAscending(es: seq<TickEvent>, key: TickEvent -> seq<real>)
    requires key == AsWrittenKey || key == OffFirstKey
    requires Sorted(es, key)
    ensures TicksAscending(es)
  {
    forall i, j | 0 <= i < j < |es| ensures es[i].tick <= es[j].tick {
      LexLeHead(key(es[i]), key(es[j]));
    }
  }

  /** A stem track's deltas (`t - last`, unclamped) are never negative, and their running sums equal the event ticks. */
  lemma StemDeltas(notes: seq<NoteEvent>, tempo: int, key: TickEvent -> seq<real>)
    requires tempo > 0
    requires key == AsWrittenKey || key == OffFirstKey
    ensures var es := SortBy(StemEvents(notes, tempo), key);
      var body := DeltaEncode(es, 0);
      forall k :: 0 <= k < |es| ==> body[k].time >= 0 && SumTimes(body[..k + 1]) == es[k].tick
  {
    var es := SortBy(StemEvents(notes, tempo), key);
    SortBySorted(StemEvents(notes, tempo), key);
    TickKeyedAscending(es, key);
    if |es| > 0 {
      assert es[0] in multiset(StemEvents(notes, tempo));
      StemTicksNonNegative(notes, tempo, es[0]);
    }
    forall k | 0 <= k < |es| ensures DeltaEncode(es, 0)[k].time >= 0 && SumTimes(DeltaEncode(es, 0)[..k + 1]) == es[k].tick {
      DeltaSums(es, 0, k);
    }
  }

  /** As written, at one tick a note-on is placed before a note-off, the reverse of the comment beside the sort. */
  lemma AsWrittenOnFirst(es: seq<TickEvent>)
    requires Sorted(es, AsWrittenKey)
    ensures forall i, j :: 0 <= i < j < |es| && es[i].tick == es[j].tick && !es[i].on ==> !es[j].on
  {
    forall i, j | 0 <= i < j < |es| && es[i].tick == es[j].tick && !es[i].on ensures !es[j].on {
      var a, b := AsWrittenKey(es[i]), AsWrittenKey(es[j]);
      LexLeHead(a, b);
      LexLeHead(a[1..], b[1..]);
    }
  }

  /** With the off-first key, at one tick every note-off comes before every note-on. */
  lemma OffFirstOrder(es: seq<TickEvent>)
    requires Sorted(es, OffFirstKey)
    ensures forall i, j :: 0 <= i < j < |es| && es[i].tick == es[j].tick && es[i].on ==> es[j].on
  {
    forall i, j | 0 <= i < j < |es| && es[i].tick == es[j].tick && es[i].on ensures es[j].on {
      var a, b := OffFirstKey(es[i]), OffFirstKey(es[j]);
      LexLeHead(a, b);
      LexLeHead(a[1..], b[1..]);
    }
  }
}
