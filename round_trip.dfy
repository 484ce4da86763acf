// What survives a trip through a MIDI file and back into notes. Two notes of
// one pitch played back to back (the first ends where the second starts)
// come back as two notes from `export_midi`, whose sort puts the note-off
// first at an equal time; the multi-track exporter's (tick, not is_on) key
// puts the second note-on first instead, and the parser then pairs the
// first note-off with the second note-on.
module RoundTrip {
  import opened Numeric
  import opened State
  import opened Sorting
  import opened MidiModel
  import opened MidiMessages
  import opened Multitrack
  import opened Text
  import Analyze

  /** The example: two C4 notes at velocity 90, the second starting as the first ends. */
  function BackToBack(): seq<NoteEvent>
  {
    [NoteEvent(0.0, 0.5, 60, 90), NoteEvent(0.5, 1.0, 60, 90)]
  }

  /** At 120 bpm a second is 960 ticks. */
  lemma TicksAt120()
    ensures BpmToTempo(120) == 500000
    ensures Multitrack.SecToTicks(0.0, 500000) == 0
    ensures Multitrack.SecToTicks(0.5, 500000) == 480
    ensures Multitrack.SecToTicks(1.0, 500000) == 960
  {
    BpmToTempo120();
    assert TicksPerSec(500000) == 960.0;
    RoundOfInt(0);
    RoundOfInt(480);
    RoundOfInt(960);
  }

  /** The events of the example, named by kind and tick. */
  const On0 := TickEvent(0, true, 60, 90)
  const Off480 := TickEvent(480, false, 60, 0)
  const On480 := TickEvent(480, true, 60, 90)
  const Off960 := TickEvent(960, false, 60, 0)

  /** The stem's events before sorting: on, off, on, off. */
  lemma BackToBackEvents()
    ensures StemEvents(BackToBack(), 500000) == [On0, Off480, On480, Off960]
  {
    TicksAt120();
    assert BackToBack()[..1] == [NoteEvent(0.0, 0.5, 60, 90)];
    assert BackToBack()[..1][..0] == [];
  }

  /** Sorting a list with a head is inserting the head into the sorted tail. */
  lemma SortByCons<T>(x: T, s: seq<T>, key: T -> seq<real>)
    ensures SortBy([x] + s, key) == Insert(x, SortBy(s, key), key)
  {
    assert ([x] + s)[1..] == s;
  }

  /** Inserting past a head whose key is smaller. */
  lemma InsertPast<T>(x: T, y: T, s: seq<T>, key: T -> seq<real>)
    requires !LexLe(key(x), key(y))
    ensures Insert(x, [y] + s, key) == [y] + Insert(x, s, key)
  {
    assert ([y] + s)[1..] == s;
  }

  /** Sorting four items of which only the second and third are out of order swaps those two. */
  lemma SortSwapsMiddle<T>(a: T, b: T, c: T, d: T, key: T -> seq<real>)
    requires LexLe(key(a), key(c)) && !LexLe(key(b), key(c)) && LexLe(key(b), key(d)) && LexLe(key(c), key(d))
    ensures SortBy([a] + ([b] + ([c] + [d])), key) == [a] + ([c] + ([b] + [d]))
  {
    var sd := [d];
    assert SortBy(sd, key) == sd;
    SortByCons(c, sd, key);
    assert SortBy([c] + sd, key) == [c] + sd;
    SortByCons(b, [c] + sd, key);
    InsertPast(b, c, sd, key);
    assert Insert(b, sd, key) == [b] + sd;
    SortByCons(a, [b] + ([c] + sd), key);
  }

  /** A display of four items is the same as the item-by-item concatenation. */
  lemma FourDisplay<T>(a: T, b: T, c: T, d: T)
    ensures [a] + ([b] + ([c] + [d])) == [a, b, c, d]
  {
  }

  /** As written: the sort puts the second note-on before the first note-off. */
  lemma AsWrittenOrder()
    ensures SortBy([On0, Off480, On480, Off960], AsWrittenKey) == [On0, On480, Off480, Off960]
  {
    var key := AsWrittenKey;
    assert LexLe(key(On0), key(On480));
    assert !LexLe(key(Off480), key(On480));
    assert LexLe(key(Off480), key(Off960));
    assert LexLe(key(On480), key(Off960));
    SortSwapsMiddle(On0, Off480, On480, Off960, key);
    FourDisplay(On0, Off480, On480, Off960);
    FourDisplay(On0, On480, Off480, Off960);
  }

  /** The off-first order keeps the events as they were built. */
  lemma OffFirstOrderOfExample()
    ensures SortBy([On0, Off480, On480, Off960], OffFirstKey) == [On0, Off480, On480, Off960]
  {
    var es := [On0, Off480, On480, Off960];
    assert Sorted(es, OffFirstKey);
    SortBySortedIdentity(es, OffFirstKey);
  }

  /** The messages the as-written order turns into: both note-ons before both note-offs. */
  function AsWrittenBody(): seq<MidiMsg>
  {
    [NoteOn(0, 60, 90, 0), NoteOn(0, 60, 90, 480), NoteOff(0, 60, 0, 0), NoteOff(0, 60, 0, 480)]
  }

  /** The messages the off-first order turns into: on, off, on, off. */
  function OffFirstBody(): seq<MidiMsg>
  {
    [NoteOn(0, 60, 90, 0), NoteOff(0, 60, 0, 480), NoteOn(0, 60, 90, 0), NoteOff(0, 60, 0, 480)]
  }

  lemma AsWrittenDeltas()
    ensures DeltaEncode([On0, On480, Off480, Off960], 0) == AsWrittenBody()
  {
    assert DeltaEncode([], 960) == [];
    assert DeltaEncode([Off960], 480) == [NoteOff(0, 60, 0, 480)];
    assert DeltaEncode([Off480, Off960], 480) == [NoteOff(0, 60, 0, 0), NoteOff(0, 60, 0, 480)];
    assert DeltaEncode([On480, Off480, Off960], 0) == AsWrittenBody()[1..];
  }

  lemma OffFirstDeltas()
    ensures DeltaEncode([On0, Off480, On480, Off960], 0) == OffFirstBody()
  {
    assert DeltaEncode([], 960) == [];
    assert DeltaEncode([Off960], 480) == [NoteOff(0, 60, 0, 480)];
    assert DeltaEncode([On480, Off960], 480) == [NoteOn(0, 60, 90, 0), NoteOff(0, 60, 0, 480)];
    assert DeltaEncode([Off480, On480, Off960], 0) == OffFirstBody()[1..];
  }

  /** Both notes of the example have a pitch and a velocity mido accepts. */
  lemma BackToBackFits()
    ensures NotesFit(BackToBack())
  {
    var notes := BackToBack();
    assert NoteFits(notes[0]) && NoteFits(notes[1]);
  }

  /** The file for the example: the tempo track, then one track named "piano" holding `body`. */
  lemma ExampleFile(key: TickEvent -> seq<real>, body: seq<MidiMsg>)
    requires DeltaEncode(SortBy(StemEvents(BackToBack(), 500000), key), 0) == body
    ensures MultitrackFile([("piano", BackToBack())], 120, true, key) == Saved([[SetTempo(500000, 0)], [TrackName("piano", 0)] + body])
  {
    BackToBackFits();
    TicksAt120();
    OneStemFile("piano", BackToBack(), 120, key, body);
  }

  /** The parser's clock: 480 ticks at tempo 500000 and 480 ticks per beat are half a second. */
  lemma HalfSecond()
    ensures TickToSecond(480, TicksPerBeat, 500000) == 0.5
  {
  }

  /** Running five messages is five steps. */
  lemma RunFive(ms: seq<MidiMsg>, s: Analyze.ParseState)
    requires |ms| == 5
    ensures var s1 := Analyze.Step(s, ms[0], TicksPerBeat);
      var s2 := Analyze.Step(s1, ms[1], TicksPerBeat);
      var s3 := Analyze.Step(s2, ms[2], TicksPerBeat);
      var s4 := Analyze.Step(s3, ms[3], TicksPerBeat);
      Analyze.Run(ms, s, TicksPerBeat) == Analyze.Step(s4, ms[4], TicksPerBeat)
  {
    var s1 := Analyze.Step(s, ms[0], TicksPerBeat);
    var s2 := Analyze.Step(s1, ms[1], TicksPerBeat);
    var s3 := Analyze.Step(s2, ms[2], TicksPerBeat);
    var s4 := Analyze.Step(s3, ms[3], TicksPerBeat);
    var s5 := Analyze.Step(s4, ms[4], TicksPerBeat);
    assert ms[1..][1..][1..][1..][1..] == [];
    assert Analyze.Run(ms[1..][1..][1..][1..][1..], s5, TicksPerBeat) == s5;
    assert ms[1..][1..][1..][1..][0] == ms[4];
    assert Analyze.Run(ms[1..][1..][1..][1..], s4, TicksPerBeat) == s5;
    assert ms[1..][1..][1..][0] == ms[3];
    assert Analyze.Run(ms[1..][1..][1..], s3, TicksPerBeat) == s5;
    assert ms[1..][1..][0] == ms[2];
    assert Analyze.Run(ms[1..][1..], s2, TicksPerBeat) == s5;
    assert ms[1..][0] == ms[1];
    assert Analyze.Run(ms[1..], s1, TicksPerBeat) == s5;
  }

  /** A file whose first track only sets the tempo and whose second track yields notes gives those notes. */
  lemma ParseAfterTempoTrack(track: seq<MidiMsg>)
    requires |Analyze.Run(track, Analyze.TrackStart(500000, []), TicksPerBeat).notes| > 0
    ensures Analyze.ParseTracks([[SetTempo(500000, 0)], track], DefaultTempo, [], TicksPerBeat)
      == Analyze.Run(track, Analyze.TrackStart(500000, []), TicksPerBeat).notes
  {
    var ts := [[SetTempo(500000, 0)], track];
    assert [SetTempo(500000, 0)][1..] == [];
    assert Analyze.Run(ts[0], Analyze.TrackStart(DefaultTempo, []), TicksPerBeat) == Analyze.TrackStart(500000, []);
    assert ts[1..] == [track];
    assert ts[1..][1..] == [];
  }

  /** The parser over the as-written track: the second note-on replaces the first, and the first note-off ends it at once. */
  lemma ParseAsWritten()
    ensures Analyze.Run([TrackName("piano", 0)] + AsWrittenBody(), Analyze.TrackStart(500000, []), TicksPerBeat).notes
      == [ChannelNote(0.5, 0.501, 60, 90, 0)]
  {
    var track := [TrackName("piano", 0)] + AsWrittenBody();
    HalfSecond();
    var s1 := Analyze.Step(Analyze.TrackStart(500000, []), track[0], TicksPerBeat);
    assert s1 == Analyze.ParseState(500000, 0.0, map[], []);
    var s2 := Analyze.Step(s1, track[1], TicksPerBeat);
    assert s2 == Analyze.ParseState(500000, 0.0, map[(0, 60) := (0.0, 90)], []);
    var s3 := Analyze.Step(s2, track[2], TicksPerBeat);
    assert s3 == Analyze.ParseState(500000, 0.5, map[(0, 60) := (0.5, 90)], []);
    var s4 := Analyze.Step(s3, track[3], TicksPerBeat);
    assert s4.notes == [ChannelNote(0.5, 0.501, 60, 90, 0)];
    assert (0, 60) !in s4.active;
    var s5 := Analyze.Step(s4, track[4], TicksPerBeat);
    assert s5.notes == s4.notes;
    RunFive(track, Analyze.TrackStart(500000, []));
  }

  /** The parser over the off-first track: each note-off closes the note-on before it. */
  lemma ParseOffFirst()
    ensures Analyze.Run([TrackName("piano", 0)] + OffFirstBody(), Analyze.TrackStart(500000, []), TicksPerBeat).notes
      == [ChannelNote(0.0, 0.5, 60, 90, 0), ChannelNote(0.5, 1.0, 60, 90, 0)]
  {
    var track := [TrackName("piano", 0)] + OffFirstBody();
    HalfSecond();
    var s1 := Analyze.Step(Analyze.TrackStart(500000, []), track[0], TicksPerBeat);
    assert s1 == Analyze.ParseState(500000, 0.0, map[], []);
    var s2 := Analyze.Step(s1, track[1], TicksPerBeat);
    assert s2 == Analyze.ParseState(500000, 0.0, map[(0, 60) := (0.0, 90)], []);
    var s3 := Analyze.Step(s2, track[2], TicksPerBeat);
    assert s3.notes == [ChannelNote(0.0, 0.5, 60, 90, 0)];
    assert s3.now == 0.5 && (0, 60) !in s3.active;
    var s4 := Analyze.Step(s3, track[3], TicksPerBeat);
    assert s4.notes == s3.notes && s4.now == 0.5 && s4.active[(0, 60)] == (0.5, 90);
    var s5 := Analyze.Step(s4, track[4], TicksPerBeat);
    assert s5.notes == [ChannelNote(0.0, 0.5, 60, 90, 0), ChannelNote(0.5, 1.0, 60, 90, 0)];
    RunFive(track, Analyze.TrackStart(500000, []));
  }

  /** A single item is sorted. */
  lemma SortOne<T>(x: T, key: T -> seq<real>)
    ensures SortBy([x], key) == [x]
  {
    assert [x][1..] == [];
  }

  /** Two items already in order stay in order. */
  lemma SortTwoInOrder<T>(x: T, y: T, key: T -> seq<real>)
    requires LexLe(key(x), key(y))
    ensures SortBy([x, y], key) == [x, y]
  {
    SortOne(y, key);
    assert [x, y] == [x] + [y];
    SortByCons(x, [y], key);
  }

  /** As written, the back-to-back pair comes back as one 1 ms note at 0.5 s: the first note is lost and the second is cut short. */
  lemma AsWrittenLosesNote()
    ensures var ts := MultitrackFile([("piano", BackToBack())], 120, true, AsWrittenKey).tracks;
      Analyze.ParsedNotes(ts, TicksPerBeat) == [ChannelNote(0.5, 0.501, 60, 90, 0)]
  {
    BackToBackEvents();
    AsWrittenOrder();
    AsWrittenDeltas();
    ExampleFile(AsWrittenKey, AsWrittenBody());
    ParseAsWritten();
    ParseAfterTempoTrack([TrackName("piano", 0)] + AsWrittenBody());
    SortOne(ChannelNote(0.5, 0.501, 60, 90, 0), ChannelNoteKey);
  }

  /** With the note-off first at an equal tick, both notes come back intact. */
  lemma OffFirstKeepsNotes()
    ensures var ts := MultitrackFile([("piano", BackToBack())], 120, true, OffFirstKey).tracks;
      Analyze.ParsedNotes(ts, TicksPerBeat) == [ChannelNote(0.0, 0.5, 60, 90, 0), ChannelNote(0.5, 1.0, 60, 90, 0)]
  {
    BackToBackEvents();
    OffFirstOrderOfExample();
    OffFirstDeltas();
    ExampleFile(OffFirstKey, OffFirstBody());
    ParseOffFirst();
    ParseAfterTempoTrack([TrackName("piano", 0)] + OffFirstBody());
    assert LexLe(ChannelNoteKey(ChannelNote(0.0, 0.5, 60, 90, 0)), ChannelNoteKey(ChannelNote(0.5, 1.0, 60, 90, 0)));
    SortTwoInOrder(ChannelNote(0.0, 0.5, 60, 90, 0), ChannelNote(0.5, 1.0, 60, 90, 0), ChannelNoteKey);
  }
}
