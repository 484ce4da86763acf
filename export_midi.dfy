// `export_midi`: a list of notes becomes one MIDI track. Each note gives a
// note-on and a note-off event stamped in seconds; the events are sorted by
// (seconds, priority) with the off first at equal seconds; seconds become
// ticks at 480 per beat, and each message carries the clamped difference
// from the previous tick.
module ExportMidi {
  import opened Numeric
  import opened State
  import opened Sorting
  import opened MidiMessages

  /** An entry of the event list: seconds, same-time priority (off -1, on 0), kind, pitch and velocity. */
  datatype Event = Event(sec: real, prio: int, on: bool, pitch: int, vel: int)

  /** The sort key `(seconds, priority)`. */
  function EventKey(e: Event): seq<real>
  {
    [e.sec, e.prio as real]
  }

  function OnEvent(n: NoteEvent): Event
  {
    Event(n.startSec, 0, true, n.midiPitch, n.velocity)
  }

  function OffEvent(n: NoteEvent): Event
  {
    Event(n.endSec, -1, false, n.midiPitch, 0)
  }

  /** The unsorted event list: the on and the off of each note, note by note. */
  function EventList(notes: seq<NoteEvent>): (r: seq<Event>)
    ensures |r| == 2 * |notes|
  {
    if |notes| == 0 then []
    else EventList(notes[..|notes| - 1]) + [OnEvent(notes[|notes| - 1]), OffEvent(notes[|notes| - 1])]
  }

  /** `sec_to_ticks`: seconds over the beat length (60 / max(1, bpm)), times 480, rounded. */
  function SecToTicks(sec: real, bpm: int): int
  {
    RoundHalfEven(sec / (60.0 / Max(1, bpm) as real) * TicksPerBeat as real)
  }

  /** A later time never gets an earlier tick. */
  lemma SecToTicksMonotone(a: real, b: real, bpm: int)
    requires a <= b
    ensures SecToTicks(a, bpm) <= SecToTicks(b, bpm)
  {
    var beat := 60.0 / Max(1, bpm) as real;
    assert a / beat * 480.0 <= b / beat * 480.0;
    RoundMonotone(a / beat * 480.0, b / beat * 480.0);
  }

  /** Time zero is tick zero, and a non-negative time never gets a negative tick. */
  lemma SecToTicksNonNegative(sec: real, bpm: int)
    requires sec >= 0.0
    ensures SecToTicks(sec, bpm) >= 0
  {
    SecToTicksMonotone(0.0, sec, bpm);
    RoundOfInt(0);
  }

  /** mido accepts the event's note number and velocity. */
  predicate EventFits(e: Event)
  {
    DataByte(e.pitch) && DataByte(e.vel)
  }

  predicate EventsFit(es: seq<Event>)
  {
    forall i :: 0 <= i < |es| ==> EventFits(es[i])
  }

  /** The message an event becomes, with delta `delta`. */
  function EventMsg(e: Event, delta: int): MidiMsg
  {
    if e.on then NoteOn(0, e.pitch, e.vel, delta) else NoteOff(0, e.pitch, 0, delta)
  }

  /** Delta encoding from `last`: each message's time is max(0, tick - last), and last becomes the tick. */
  function Encode(es: seq<Event>, bpm: int, last: int): (r: seq<MidiMsg>)
    ensures |r| == |es|
  {
    if |es| == 0 then []
    else
      var tick := SecToTicks(es[0].sec, bpm);
      [EventMsg(es[0], Max(0, tick - last))] + Encode(es[1..], bpm, tick)
  }

  /** Message i is event i's kind, pitch and velocity with a non-negative delta. */
  lemma {:induction false} EncodeMessages(es: seq<Event>, bpm: int, last: int)
    ensures var r := Encode(es, bpm, last);
      forall i :: 0 <= i < |es| ==> r[i].time >= 0 && r[i] == EventMsg(es[i], r[i].time)
    decreases |es|
  {
    if |es| > 0 {
      var tick := SecToTicks(es[0].sec, bpm);
      EncodeMessages(es[1..], bpm, tick);
      var r := Encode(es, bpm, last);
      forall i | 0 < i < |es| ensures r[i].time >= 0 && r[i] == EventMsg(es[i], r[i].time) {
        assert r[i] == Encode(es[1..], bpm, tick)[i - 1];
        assert es[i] == es[1..][i - 1];
      }
    }
  }

  const MissingMido := "Missing dependency 'mido'. Install with: pip install mido"

  /** The events in the order the file holds them. */
  function SortedEvents(notes: seq<NoteEvent>): (r: seq<Event>)
    ensures |r| == 2 * |notes|
  {
    SortBy(EventList(notes), EventKey)
  }

  /** The note messages of the track, between the tempo and the end of track. */
  function NoteMessages(notes: seq<NoteEvent>, bpm: int): (r: seq<MidiMsg>)
    ensures |r| == 2 * |notes|
  {
    Encode(SortedEvents(notes), bpm, 0)
  }

  /** The single track `export_midi` saves, or the error it raises: mido missing, a tempo too long for `set_tempo`, or a note number or velocity outside 0..127. */
  function ExportedTrack(notes: seq<NoteEvent>, bpm: int, haveMido: bool): Result<seq<MidiMsg>>
  {
    if !haveMido then Err(MissingMido)
    else if !TempoFits(BpmToTempo(Max(1, bpm))) then Err(TempoRangeError)
    else if !NotesFit(notes) then Err(DataByteError)
    else
      Ok([SetTempo(BpmToTempo(Max(1, bpm)), 0)]
         + NoteMessages(notes, bpm)
         + [EndOfTrack(1)])
  }

  /** Builds the event list note by note, sorts it and delta-encodes it into the track. */
  method ExportMidi(notes: seq<NoteEvent>, bpm: int, haveMido: bool) returns (r: Result<seq<MidiMsg>>)
    ensures r == ExportedTrack(notes, bpm, haveMido)
  {
    if !haveMido {
      return Err(MissingMido);
    }
    var tempo := BpmToTempo(Max(1, bpm));
    if !TempoFits(tempo) {
      return Err(TempoRangeError);
    }
    var events: seq<Event> := [];
    for i := 0 to |notes|
      invariant events == EventList(notes[..i])
    {
      assert notes[..i + 1][..i] == notes[..i];
      events := events + [OnEvent(notes[i]), OffEvent(notes[i])];
    }
    assert notes[..|notes|] == notes;
    events := SortBy(events, EventKey);
    SortedEventsFit(notes);
    var body := EncodeEvents(events, bpm);
    if body.Err? {
      return Err(body.msg);
    }
    r := Ok([SetTempo(tempo, 0)] + body.value + [EndOfTrack(1)]);
  }

  /** The delta-encoding loop: `last_tick` follows each event's tick, and building a message mido refuses raises. */
  method EncodeEvents(events: seq<Event>, bpm: int) returns (r: Result<seq<MidiMsg>>)
    ensures r == if EventsFit(events) then Ok(Encode(events, bpm, 0)) else Err(DataByteError)
  {
    var track := [];
    var lastTick := 0;
    for i := 0 to |events|
      invariant track + Encode(events[i..], bpm, lastTick) == Encode(events, bpm, 0)
      invariant forall k :: 0 <= k < i ==> EventFits(events[k])
    {
      if !EventFits(events[i]) {
        assert !EventsFit(events);
        return Err(DataByteError);
      }
      var tick := SecToTicks(events[i].sec, bpm);
      var delta := Max(0, tick - lastTick);
      EncodeStep(events, i, bpm, lastTick);
      lastTick := tick;
      track := track + [EventMsg(events[i], delta)];
    }
    assert events[|events|..] == [];
    assert EventsFit(events);
    assert track == Encode(events, bpm, 0);
    r := Ok(track);
  }

  /** One step of the encoding loop: the event at i becomes the next message and its tick the new `last`. */
  lemma EncodeStep(es: seq<Event>, i: nat, bpm: int, last: int)
    requires i < |es|
    ensures var tick := SecToTicks(es[i].sec, bpm);
      Encode(es[i..], bpm, last) == [EventMsg(es[i], Max(0, tick - last))] + Encode(es[i + 1..], bpm, tick)
  {
    assert es[i..][1..] == es[i + 1..];
  }

  /** The event key has two components for every event. */
  lemma EventKeyUniform()
    ensures UniformKey(EventKey)
  {
  }

  /** A saved track starts with the one `set_tempo` at time 0, holds one message per event and ends with `end_of_track` at time 1. */
  lemma ExportShape(notes: seq<NoteEvent>, bpm: int)
    ensures ExportedTrack(notes, bpm, true).Ok? ==>
      var t := ExportedTrack(notes, bpm, true).value;
      |t| == 2 * |notes| + 2 &&
      t[0] == SetTempo(BpmToTempo(Max(1, bpm)), 0) &&
      t[|t| - 1] == EndOfTrack(1) &&
      (forall i :: 0 < i < |t| ==> !t[i].SetTempo?) &&
      (forall i :: 0 < i < |t| - 1 ==> t[i].NoteOn? || t[i].NoteOff?)
  {
    if ExportedTrack(notes, bpm, true).Err? {
      return;
    }
    var es := SortedEvents(notes);
    var t := ExportedTrack(notes, bpm, true).value;
    var enc := NoteMessages(notes, bpm);
    EncodeMessages(es, bpm, 0);
    assert t == [SetTempo(BpmToTempo(Max(1, bpm)), 0)] + enc + [EndOfTrack(1)];
    forall i | 0 < i < |t| - 1 ensures t[i].NoteOn? || t[i].NoteOff? {
      assert t[i] == enc[i - 1] == EventMsg(es[i - 1], enc[i - 1].time);
    }
  }

  /** The export fails in three cases, checked in this order: without mido with the install hint, below 4 bpm on the tempo, and on any note whose pitch or velocity is outside 0..127; otherwise it succeeds. */
  lemma ExportErrors(notes: seq<NoteEvent>, bpm: int, haveMido: bool)
    ensures var r := ExportedTrack(notes, bpm, haveMido);
      (r == Err(MissingMido) <==> !haveMido) &&
      (r == Err(TempoRangeError) <==> haveMido && bpm <= 3) &&
      (r == Err(DataByteError) <==> haveMido && bpm >= 4 && exists i :: 0 <= i < |notes| && !NoteFits(notes[i])) &&
      (r.Ok? <==> haveMido && bpm >= 4 && NotesFit(notes))
  {
    TempoFitsFrom4(Max(1, bpm));
    assert TempoRangeError[0] == 'a';
    assert DataByteError[0] == 'd';
  }

  /** The event list fits mido exactly when every note does: a note-on carries the note's pitch and velocity, a note-off its pitch and 0. */
  lemma {:induction false} EventListFits(notes: seq<NoteEvent>)
    ensures EventsFit(EventList(notes)) <==> NotesFit(notes)
    decreases |notes|
  {
    if |notes| > 0 {
      var init := notes[..|notes| - 1];
      var n := notes[|notes| - 1];
      var es := EventList(notes);
      EventListFits(init);
      assert es == EventList(init) + [OnEvent(n), OffEvent(n)];
      if EventsFit(es) {
        forall k | 0 <= k < |EventList(init)| ensures EventFits(EventList(init)[k]) {
          assert es[k] == EventList(init)[k];
        }
        assert es[|es| - 2] == OnEvent(n);
        forall i | 0 <= i < |notes| ensures NoteFits(notes[i]) {
          if i < |notes| - 1 {
            assert notes[i] == init[i];
          }
        }
      }
      if NotesFit(notes) {
        forall i | 0 <= i < |init| ensures NoteFits(init[i]) {
          assert init[i] == notes[i];
        }
        forall k | 0 <= k < |es| ensures EventFits(es[k]) {
          if k < |es| - 2 {
            assert es[k] == EventList(init)[k];
          }
        }
      }
    }
  }

  /** Sorting does not change whether every event fits. */
  lemma SortedEventsFit(notes: seq<NoteEvent>)
    ensures EventsFit(SortedEvents(notes)) <==> NotesFit(notes)
  {
    EventListFits(notes);
    ForallPermutation(EventList(notes), SortedEvents(notes), EventFits);
  }

  predicate IsOn(e: Event)
  {
    e.on
  }

  function CountOnMsgs(ms: seq<MidiMsg>): nat
  {
    if |ms| == 0 then 0 else (if ms[0].NoteOn? then 1 else 0) + CountOnMsgs(ms[1..])
  }

  /** Every event of the list is the on or the off of one of the notes. */
  lemma {:induction false} EventListOrigin(notes: seq<NoteEvent>, e: Event)
    requires e in EventList(notes)
    ensures exists n :: n in notes && (e == OnEvent(n) || e == OffEvent(n))
    decreases |notes|
  {
    var last := notes[|notes| - 1];
    if e != OnEvent(last) && e != OffEvent(last) {
      EventListOrigin(notes[..|notes| - 1], e);
      var n :| n in notes[..|notes| - 1] && (e == OnEvent(n) || e == OffEvent(n));
      assert n in notes;
    } else {
      assert last in notes;
    }
  }

  /** The list holds one on event per note. */
  lemma {:induction false} CountOnEventList(notes: seq<NoteEvent>)
    ensures |Filter(EventList(notes), IsOn)| == |notes|
    decreases |notes|
  {
    if |notes| > 0 {
      var n := notes[|notes| - 1];
      var init := EventList(notes[..|notes| - 1]);
      CountOnEventList(notes[..|notes| - 1]);
      FilterAppend(init, OnEvent(n), IsOn);
      assert init + [OnEvent(n), OffEvent(n)] == (init + [OnEvent(n)]) + [OffEvent(n)];
      FilterAppend(init + [OnEvent(n)], OffEvent(n), IsOn);
    }
  }

  lemma {:induction false} CountOnEncode(es: seq<Event>, bpm: int, last: int)
    ensures CountOnMsgs(Encode(es, bpm, last)) == |Filter(es, IsOn)|
    decreases |es|
  {
    if |es| > 0 {
      CountOnEncode(es[1..], bpm, SecToTicks(es[0].sec, bpm));
    }
  }

  /** Every event of the sorted list is still the on or the off of one of the notes. */
  lemma SortedEventOrigin(notes: seq<NoteEvent>, i: nat)
    requires i < 2 * |notes|
    ensures var e := SortedEvents(notes)[i];
      exists n :: n in notes && (e == OnEvent(n) || e == OffEvent(n))
  {
    var es := SortedEvents(notes);
    assert es[i] in multiset(es);
    EventListOrigin(notes, es[i]);
  }

  /** Lists with the same elements have the same number of on events. */
  lemma CountOnPermutation(a: seq<Event>, b: seq<Event>)
    requires multiset(a) == multiset(b)
    ensures |Filter(a, IsOn)| == |Filter(b, IsOn)|
  {
    FilterMultisetMono(a, b, IsOn);
    FilterMultisetMono(b, a, IsOn);
    assert multiset(Filter(a, IsOn)) == multiset(Filter(b, IsOn));
    assert |multiset(Filter(a, IsOn))| == |Filter(a, IsOn)|;
    assert |multiset(Filter(b, IsOn))| == |Filter(b, IsOn)|;
  }

  /** Each note gives exactly one `note_on` and one `note_off`: n of each between tempo and end of track. */
  lemma ExportNoteCounts(notes: seq<NoteEvent>, bpm: int)
    ensures var body := NoteMessages(notes, bpm);
      CountOnMsgs(body) == |notes| && |body| - CountOnMsgs(body) == |notes|
  {
    var es := SortedEvents(notes);
    CountOnEncode(es, bpm, 0);
    CountOnPermutation(es, EventList(notes));
    CountOnEventList(notes);
  }

  /** Every `note_on` carries the pitch and velocity of one of the notes, every `note_off` velocity 0. */
  lemma ExportNoteVelocities(notes: seq<NoteEvent>, bpm: int)
    ensures var body := NoteMessages(notes, bpm);
      (forall i :: 0 <= i < |body| && body[i].NoteOff? ==> body[i].velocity == 0) &&
      (forall i :: 0 <= i < |body| && body[i].NoteOn? ==>
         exists n :: n in notes && body[i].note == n.midiPitch && body[i].velocity == n.velocity)
  {
    var es := SortedEvents(notes);
    var body := NoteMessages(notes, bpm);
    EncodeMessages(es, bpm, 0);
    forall i | 0 <= i < |body| && body[i].NoteOn?
      ensures exists n :: n in notes && body[i].note == n.midiPitch && body[i].velocity == n.velocity
    {
      SortedEventOrigin(notes, i);
    }
  }

  /** The (pitch, velocity) an on event is written with. */
  function EventOnPair(e: Event): multiset<(int, int)>
  {
    if e.on then multiset{(e.pitch, e.vel)} else multiset{}
  }

  function EventOffPitch(e: Event): multiset<int>
  {
    if e.on then multiset{} else multiset{e.pitch}
  }

  /** Encoding turns the on events into `note_on`s with the same pitch and velocity, and the off events into `note_off`s with the same pitch. */
  lemma {:induction false} EncodeContent(es: seq<Event>, bpm: int, last: int)
    ensures Collect(Encode(es, bpm, last), OnPair) == Collect(es, EventOnPair)
    ensures Collect(Encode(es, bpm, last), OffPitch) == Collect(es, EventOffPitch)
    decreases |es|
  {
    if |es| > 0 {
      var tick := SecToTicks(es[0].sec, bpm);
      EncodeContent(es[1..], bpm, tick);
      assert Encode(es, bpm, last)[1..] == Encode(es[1..], bpm, tick);
    }
  }

  /** The event list holds one on event per note, with its pitch and velocity, and one off event per note, with its pitch. */
  lemma {:induction false} EventListContent(notes: seq<NoteEvent>)
    ensures Collect(EventList(notes), EventOnPair) == Collect(notes, NotePair)
    ensures Collect(EventList(notes), EventOffPitch) == Collect(notes, NotePitch)
    decreases |notes|
  {
    if |notes| > 0 {
      var init := notes[..|notes| - 1];
      var n := notes[|notes| - 1];
      EventListContent(init);
      CollectAppend(EventList(init), [OnEvent(n), OffEvent(n)], EventOnPair);
      CollectAppend(EventList(init), [OnEvent(n), OffEvent(n)], EventOffPitch);
      assert notes == init + [n];
      CollectAppend(init, [n], NotePair);
      CollectAppend(init, [n], NotePitch);
      NoteEventsContent(n);
    }
  }

  /** The two events of one note carry what the note does. */
  lemma NoteEventsContent(n: NoteEvent)
    ensures Collect([OnEvent(n), OffEvent(n)], EventOnPair) == Collect([n], NotePair)
    ensures Collect([OnEvent(n), OffEvent(n)], EventOffPitch) == Collect([n], NotePitch)
  {
    var pair := [OnEvent(n), OffEvent(n)];
    var off := [OffEvent(n)];
    assert pair[1..] == off && off[1..] == [] && [n][1..] == [];
    assert Collect(off, EventOnPair) == multiset{};
    assert Collect(pair, EventOnPair) == NotePair(n);
    assert Collect(off, EventOffPitch) == NotePitch(n);
    assert Collect(pair, EventOffPitch) == NotePitch(n);
  }

  /** The note messages hold, as multisets, exactly one `note_on` per note with its pitch and velocity and exactly one `note_off` per note with its pitch. */
  lemma NoteMessagesContent(notes: seq<NoteEvent>, bpm: int)
    ensures Collect(NoteMessages(notes, bpm), OnPair) == Collect(notes, NotePair)
    ensures Collect(NoteMessages(notes, bpm), OffPitch) == Collect(notes, NotePitch)
  {
    EncodeContent(SortedEvents(notes), bpm, 0);
    CollectPermutation(SortedEvents(notes), EventList(notes), EventOnPair);
    CollectPermutation(SortedEvents(notes), EventList(notes), EventOffPitch);
    EventListContent(notes);
  }

  /** In a saved track, the `note_on`s are the notes' (pitch, velocity) pairs and the `note_off`s their pitches, each as often as among the notes. */
  lemma ExportNoteContent(notes: seq<NoteEvent>, bpm: int)
    ensures var r := ExportedTrack(notes, bpm, true);
      r.Ok? ==>
        Collect(r.value, OnPair) == Collect(notes, NotePair) &&
        Collect(r.value, OffPitch) == Collect(notes, NotePitch)
  {
    var r := ExportedTrack(notes, bpm, true);
    if r.Ok? {
      var head := [SetTempo(BpmToTempo(Max(1, bpm)), 0)];
      var body := NoteMessages(notes, bpm);
      assert r.value == (head + body) + [EndOfTrack(1)];
      NoteMessagesContent(notes, bpm);
      CollectAppend(head + body, [EndOfTrack(1)], OnPair);
      CollectAppend(head + body, [EndOfTrack(1)], OffPitch);
      CollectAppend(head, body, OnPair);
      CollectAppend(head, body, OffPitch);
    }
  }

  /** Two events in key order are in time order, and at an equal time an off never follows an on. */
  lemma KeyOrderedEvents(notes: seq<NoteEvent>, a: Event, b: Event)
    requires a in EventList(notes) && b in EventList(notes)
    requires LexLe(EventKey(a), EventKey(b))
    ensures a.sec <= b.sec && (a.sec == b.sec && a.on ==> b.on)
  {
    EventListOrigin(notes, a);
    EventListOrigin(notes, b);
    var ka, kb := EventKey(a), EventKey(b);
    LexLeHead(ka, kb);
    if ka[0] == kb[0] {
      LexLeHead(ka[1..], kb[1..]);
    }
  }

  /** Events come out in time order, and at an equal time every note-off precedes every note-on. */
  lemma ExportOrder(notes: seq<NoteEvent>)
    ensures var es := SortedEvents(notes);
      forall i, j :: 0 <= i < j < |es| ==>
        es[i].sec <= es[j].sec && (es[i].sec == es[j].sec && es[i].on ==> es[j].on)
  {
    var es := SortBy(EventList(notes), EventKey);
    EventKeyUniform();
    SortBySorted(EventList(notes), EventKey);
    forall i, j | 0 <= i < j < |es|
      ensures es[i].sec <= es[j].sec && (es[i].sec == es[j].sec && es[i].on ==> es[j].on)
    {
      SortedPairInOrder(notes, es, i, j);
    }
  }

  /** One pair of a key-sorted arrangement of the events. */
  lemma SortedPairInOrder(notes: seq<NoteEvent>, es: seq<Event>, i: int, j: int)
    requires Sorted(es, EventKey) && multiset(es) == multiset(EventList(notes))
    requires 0 <= i < j < |es|
    ensures es[i].sec <= es[j].sec && (es[i].sec == es[j].sec && es[i].on ==> es[j].on)
  {
    assert es[i] in multiset(es) && es[j] in multiset(es);
    assert LexLe(EventKey(es[i]), EventKey(es[j]));
    KeyOrderedEvents(notes, es[i], es[j]);
  }

  /** Ticks of the events never decrease along the list. */
  ghost predicate TicksAscending(es: seq<Event>, bpm: int)
  {
    forall i, j :: 0 <= i < j < |es| ==> SecToTicks(es[i].sec, bpm) <= SecToTicks(es[j].sec, bpm)
  }

  /** Events in time order have ascending ticks. */
  lemma OrderedTicks(es: seq<Event>, bpm: int)
    requires forall i, j :: 0 <= i < j < |es| ==> es[i].sec <= es[j].sec
    ensures TicksAscending(es, bpm)
  {
    forall i, j | 0 <= i < j < |es| ensures SecToTicks(es[i].sec, bpm) <= SecToTicks(es[j].sec, bpm) {
      SecToTicksMonotone(es[i].sec, es[j].sec, bpm);
    }
  }

  /** Dropping the first event keeps the ticks ascending. */
  lemma AscendingTail(es: seq<Event>, bpm: int)
    requires |es| > 0 && TicksAscending(es, bpm)
    ensures TicksAscending(es[1..], bpm)
  {
    forall i, j | 0 <= i < j < |es[1..]|
      ensures SecToTicks(es[1..][i].sec, bpm) <= SecToTicks(es[1..][j].sec, bpm)
    {
      assert es[1..][i] == es[i + 1] && es[1..][j] == es[j + 1];
    }
  }

  /** The first k+1 encoded messages: the first event's message, then k of the rest's. */
  lemma EncodePrefix(es: seq<Event>, bpm: int, last: int, k: nat)
    requires k < |es|
    ensures var tick := SecToTicks(es[0].sec, bpm);
      SumTimes(Encode(es, bpm, last)[..k + 1]) == Max(0, tick - last) + SumTimes(Encode(es[1..], bpm, tick)[..k])
  {
    var tick := SecToTicks(es[0].sec, bpm);
    var p := Encode(es, bpm, last)[..k + 1];
    assert p[0] == EventMsg(es[0], Max(0, tick - last));
    assert p[1..] == Encode(es[1..], bpm, tick)[..k];
  }

  /** The running sum of deltas from `last` reaches each event's tick. */
  lemma {:induction false} EncodeSums(es: seq<Event>, bpm: int, last: int, k: nat)
    requires TicksAscending(es, bpm)
    requires k < |es| && last <= SecToTicks(es[0].sec, bpm)
    ensures last + SumTimes(Encode(es, bpm, last)[..k + 1]) == SecToTicks(es[k].sec, bpm)
    decreases k
  {
    var tick := SecToTicks(es[0].sec, bpm);
    EncodePrefix(es, bpm, last, k);
    if k > 0 {
      AscendingTail(es, bpm);
      assert es[1..][0] == es[1];
      EncodeSums(es[1..], bpm, tick, k - 1);
      assert es[1..][k - 1] == es[k];
    } else {
      assert Encode(es[1..], bpm, tick)[..0] == [];
    }
  }

  /** With all note times non-negative, the deltas of the first k+1 note messages add up to the k-th event's tick. */
  lemma ExportDeltaSums(notes: seq<NoteEvent>, bpm: int)
    requires forall n :: n in notes ==> n.startSec >= 0.0 && n.endSec >= 0.0
    ensures var body := NoteMessages(notes, bpm);
      var es := SortedEvents(notes);
      forall k :: 0 <= k < |es| ==> SumTimes(body[..k + 1]) == SecToTicks(es[k].sec, bpm)
  {
    var es := SortedEvents(notes);
    ExportOrder(notes);
    OrderedTicks(es, bpm);
    if |es| > 0 {
      SortedEventOrigin(notes, 0);
      SecToTicksNonNegative(es[0].sec, bpm);
    }
    forall k | 0 <= k < |es| ensures SumTimes(NoteMessages(notes, bpm)[..k + 1]) == SecToTicks(es[k].sec, bpm) {
      EncodeSums(es, bpm, 0, k);
    }
  }
}
