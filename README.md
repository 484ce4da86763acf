# WaveNotes core, modelled in Dafny

WaveNotes turns audio into notes. A separated or transcribed stem yields a list of note events,
each with a start, an end, a MIDI pitch and a velocity. This project models what happens to those notes:

- the post-processing pass that filters, merges, caps polyphony, quantizes and re-velocities them;
- the MIDI exporters: single track, one track per stem, and the pretty_midi writer;
- the MIDI reader that turns a file back into notes, and the dummy fallback notes;
- the preview synthesiser that renders notes to a 16-bit WAV;
- the polyphonic stub transcriber;
- the piano roll's geometry and hit testing;
- the main window's small pieces of logic: stem renaming, subfolder numbering, the merged export order and the preview stem pick;
- the application state with its defaults.

Each module follows one source file.

| module | source file |
|---|---|
| `State`, `MidiModel` | `app/state.py`, `app/midi/model.py` |
| `Quantize`, `MergeGap`, `Polyphony`, `Postprocess` | `app/transcription/postprocess.py` |
| `ExportMidi` | `app/midi/export_midi.py` |
| `Multitrack`, `MainWindow` | `app/ui/main_window_bu.py` |
| `Analyze` | `app/pipeline/analyze_bu.py` |
| `Writer` | `app/midi/writer.py` |
| `PreviewSynth` | `app/midi/preview_synth.py` |
| `PolyModel` | `app/transcription/poly_model.py` |
| `PianoRoll`, `NoteNames` | `app/ui/piano_roll.py` (and `_midi_name` in the main window) |
| `RoundTrip` | the exporter and the reader taken together |

Helper modules hold the building blocks:

- `Numeric` covers Python's `round` (ties to even), `int()` truncation, `max`/`min` clamps and linear interpolation.
- `Sorting` covers Python's stable `sorted` with a tuple key, list comprehensions used as filters, `list.remove`, and multisets collected over a list.
- `Text` covers `str(int)`, `int(str)` and ASCII `lower`.
- `NoteBounds` covers `min`/`max` over the notes.
- `MidiMessages` covers mido's messages, `bpm2tempo`, `tick2second` and the ranges mido checks.

Modelling choices:

- Seconds are exact reals.
- Every operation the source writes as a loop is a `method` with a loop. It is proved equal to a function.
- The listed properties are proved about that function.
- The piano roll, whose methods update the widget's fields, is a class.

Where the code and its design notes differ, the model follows the code:

- `export_midi` sorts its events by `(seconds, priority)`, not by tick. Two times that round to the same tick keep their seconds order.
- `_export_multitrack_midi` sorts by `(tick, not is_on)`. That puts a note-on before a note-off at the same tick, although the comment beside the sort says note-off first. This is the finding below.
- The multitrack deltas are `t - last` with no clamp. The model proves they are never negative anyway (`Multitrack.StemDeltas`).
- The quantize pass's minimum length is `max(0.001, min_note_ms / 1000)`, not `min_note_ms / 1000`.
- Without mido, `export_midi` raises an error and the multitrack export returns False. Neither falls back to anything by itself.
- A `NoteEvent` is not range-checked when it is built. The post-processing pass clamps its velocity to 1..127 (app/transcription/postprocess.py:123), the pretty_midi writer clamps pitch and velocity (app/midi/writer.py:21-22), and mido refuses a note number or velocity outside 0..127 with a `ValueError` (see below).
- Both mido exporters can raise mido's `ValueError`. `export_midi` raises it when the tempo of `max(1, bpm)` does not fit a `set_tempo` (above 0xFFFFFF microseconds, that is below 4 bpm) and when a note's pitch or velocity is outside 0..127. The multi-track export raises it for such a note in any stem. Nothing is saved then. The model returns the error as a value (`ExportMidi.ExportedTrack`, `Multitrack.MultitrackFile`); the error texts follow mido's own checks.

## Model

| member | source | states |
|---|---|---|
| State.SettingsDefaults | app/state.py:8-20 | a fresh settings object has min note 80 ms, min velocity 10, merge gap 30 ms, pitch range 21..108, polyphony 10, velocity 96, quantize off at 120 bpm on a 1/16 grid with strength 60 |
| State.NoteEventDefaultVelocity | app/state.py:23-28 | a note built without a velocity has velocity 96 |
| State.SessionDefaults | app/state.py:31-38 | a new session runs at 44100 Hz with no raw notes, no current notes and no warnings |
| Numeric.RoundHalfEven | app/midi/export_midi.py:37 | Python's `round`: the result is within half of the argument, and on a tie it is even |
| Numeric.RoundMonotone | app/midi/export_midi.py:37 | a larger argument never rounds to a smaller integer |
| Numeric.Trunc | app/midi/preview_synth.py:31 | `int()` of a float truncates toward zero: within 1 of the argument, never past it |
| Numeric.Clamp | app/midi/writer.py:21-22 | `max(lo, min(hi, x))` lies in [lo, hi], is x when x already is, and otherwise is the nearer end |
| Sorting.SortBy | app/transcription/postprocess.py:46 | `sorted` returns a permutation of its input |
| Sorting.SortBySorted | app/transcription/postprocess.py:46 | `sorted` with a tuple key returns the elements in key order |
| Sorting.SortBySortedIdentity | app/transcription/postprocess.py:125 | sorting a list already in key order leaves it unchanged (the sort is stable) |
| Sorting.Filter | app/transcription/postprocess.py:82 | a comprehension with a condition keeps exactly the elements that satisfy it and is no longer than its input |
| Sorting.FilterSorted | app/transcription/postprocess.py:82 | filtering keeps the order of what it keeps |
| Sorting.FilterMultiset | app/transcription/postprocess.py:82 | filtering keeps every copy of a kept element and drops every copy of the others |
| Sorting.CollectAppend | app/midi/export_midi.py:23-30 | what is collected over a concatenation is the union of what is collected over its parts |
| Sorting.CollectPermutation | app/midi/export_midi.py:32 | sorting does not change what is collected over a list |
| Sorting.ForallPermutation | app/midi/export_midi.py:32 | sorting does not change whether every element has a property |
| Sorting.RemoveFirst | app/transcription/postprocess.py:91-94 | `list.remove(x)` removes exactly one copy of x when x is present and changes nothing otherwise |
| Text.IntToString | app/ui/piano_roll.py:15 | `str(n)` is non-empty and starts with '-' exactly when n is negative |
| Text.ParseIntToString | app/transcription/postprocess.py:11 | `int(str(n)) == n` for every integer |
| Text.IntToStringInjective | app/ui/piano_roll.py:15 | different integers print differently |
| Text.Lower | app/ui/main_window_bu.py:138 | ASCII lower-casing: keeps the length, maps A-Z to a-z and leaves every other character alone |
| MidiMessages.BpmToTempo | app/midi/export_midi.py:20 | `bpm2tempo` is within half a microsecond of 60000000 / bpm |
| MidiMessages.TempoFitsFrom4 | app/midi/export_midi.py:20-21 | the tempo of a positive bpm fits a `set_tempo` (at most 0xFFFFFF) exactly when the bpm is at least 4 |
| MidiMessages.BpmToTempo120 | app/pipeline/analyze_bu.py:175 | 120 bpm is the parser's default tempo of 500000 |
| MidiMessages.TickToSecondAdd | app/pipeline/analyze_bu.py:189-190 | converting ticks to seconds is additive, so deltas add up to absolute times |
| NoteBounds.MinStart | app/ui/piano_roll.py:49 | the earliest start is at or before every note's start and is some note's start |
| NoteBounds.MaxEnd | app/ui/piano_roll.py:50 | the latest end is at or after every note's end and is some note's end |
| NoteBounds.MinPitch | app/ui/piano_roll.py:47 | the lowest pitch is at or below every note's pitch and is some note's pitch |
| NoteBounds.MaxPitch | app/ui/piano_roll.py:48 | the highest pitch is at or above every note's pitch and is some note's pitch |
| Quantize.GridSeconds | app/transcription/postprocess.py:7-15 | a grid step is always positive, whatever bpm and grid text are given |
| Quantize.DenominatorOfFraction | app/transcription/postprocess.py:11 | a grid written "num/n" has denominator n |
| Quantize.GridSecondsOfFraction | app/transcription/postprocess.py:7-15 | a grid "num/n" with n >= 1 is 4/n quarter notes at max(1, bpm) |
| Quantize.DenominatorSeconds | app/transcription/postprocess.py:14-15 | a positive denominator d gives (60 / max(1, bpm)) * (4 / d) seconds |
| Quantize.GridWithoutSlash | app/transcription/postprocess.py:12-13 | a grid text without "/" falls back to sixteenth notes |
| Quantize.DefaultGrid | app/transcription/postprocess.py:7-15 | the default 1/16 at 120 bpm is 0.125 s |
| Quantize.QuantizeTime | app/transcription/postprocess.py:18-22 | no grid or zero strength leaves t alone; full strength lands on the nearest grid line; a strength in [0, 1] stays between t and that line |
| Quantize.NearestGridLine | app/transcription/postprocess.py:21 | the nearest grid line is at most half a step from t |
| Quantize.QuantizeMovesAtMostHalfStep | app/transcription/postprocess.py:18-22 | quantizing moves a time by at most half a grid step |
| Quantize.GridTargetOnGrid | app/transcription/postprocess.py:21 | snapping is idempotent: a grid line is its own nearest grid line |
| Quantize.QuantizeStrength | app/transcription/postprocess.py:27 | the strength is in [0, 1] |
| Quantize.QuantizeMinDuration | app/transcription/postprocess.py:31 | the minimum length is at least 1 ms and at least the filter's minimum |
| Quantize.QuantizeNote | app/transcription/postprocess.py:33-40 | a quantized note keeps pitch and velocity, starts at the earlier of its two pulled edges, and is at least the minimum long |
| Quantize.FullStrengthStartOnGrid | app/transcription/postprocess.py:34-39 | at full strength a note's start lands on a grid line |
| Quantize.QuantizedNotes | app/transcription/postprocess.py:25-41 | one note out per note in, same order, pitch and velocity kept; zero strength returns the notes unchanged |
| Quantize.ApplyQuantize | app/transcription/postprocess.py:25-41 | the loop computes exactly the quantized notes |
| MergeGap.MergeGap | app/transcription/postprocess.py:44-68 | the two nested loops compute exactly the merged notes |
| MergeGap.AbsorbFacts | app/transcription/postprocess.py:57-65 | the inner loop stops at the first note of another pitch or the first note beyond the gap; the merged end and velocity are the maxima over what it absorbed |
| MergeGap.Runs | app/transcription/postprocess.py:51-67 | the outer loop emits at most one note per input note |
| MergeGap.RunsAreGroups | app/transcription/postprocess.py:51-67 | every emitted note is the merge of a run of consecutive pitch-sorted notes |
| MergeGap.MergeWithoutGap | app/transcription/postprocess.py:45-46 | with no positive gap the merge only reorders: the same notes, in start order |
| MergeGap.MergeShrinksAndSorts | app/transcription/postprocess.py:44-68 | the merge never adds notes and returns them sorted by (start, pitch) |
| MergeGap.MergedNotesAreGroups | app/transcription/postprocess.py:48-67 | every merged note is the merge of a run of the pitch-sorted input |
| MergeGap.MergedNoteOrigin | app/transcription/postprocess.py:52-66 | every merged note starts where an input note of its pitch starts and ends no earlier |
| MergeGap.MergeCoversInput | app/transcription/postprocess.py:44-68 | no input note is lost: some merged note of its pitch starts no later, ends no later and is at least as loud |
| MergeGap.RunsAreSeparated | app/transcription/postprocess.py:58-65 | within the output, a later note of a pitch starts more than the gap after an earlier one ends |
| MergeGap.RunsApart | app/transcription/postprocess.py:51-67 | any two emitted notes differ in pitch or lie more than the gap apart |
| MergeGap.MergeSeparates | app/transcription/postprocess.py:44-68 | the merged notes cannot be merged again: any two differ in pitch or are more than the gap apart, and in start order the later one starts beyond the gap |
| MergeGap.MergedWellOrdered | app/transcription/postprocess.py:61 | merging notes that do not end before they start gives notes that do not either |
| Polyphony.FirstMinVelocity | app/transcription/postprocess.py:89 | `min(active, key=velocity)` is a note of least velocity, the first such in the list |
| Polyphony.PruneCounts | app/transcription/postprocess.py:80-82 | pruning keeps exactly the notes that outlive t and drops the rest |
| Polyphony.CapStepCounts | app/transcription/postprocess.py:84-94 | one loop step keeps the active list inside the kept list, keeps every kept note that outlives the new start active, and only adds the admitted note |
| Polyphony.CapStepBound | app/transcription/postprocess.py:84-94 | one loop step keeps every instant within the cap |
| Polyphony.PolyphonyPermutation | app/transcription/postprocess.py:96 | reordering does not change how many notes sound at any instant |
| Polyphony.CapFromProps | app/transcription/postprocess.py:84-94 | the loop's result holds only input notes and never has more than the cap sounding at once |
| Polyphony.CappedNotesProps | app/transcription/postprocess.py:71-96 | the capped notes are a sub-multiset of the input sorted by (start, pitch); a cap of 0 or less keeps them all; a positive cap is never exceeded at any instant |
| Polyphony.CapPolyphony | app/transcription/postprocess.py:71-96 | the loop computes exactly the capped notes |
| Postprocess.FilterRaw | app/transcription/postprocess.py:100-115 | the filter loop computes the comprehension of the notes that pass |
| Postprocess.FilterStep | app/transcription/postprocess.py:106-115 | one more raw note adds itself to the filtered list exactly when it passes |
| Postprocess.FilterKeepsPassing | app/transcription/postprocess.py:106-115 | a note survives the filter if and only if it is in range, positive, long enough and loud enough; sorted input stays sorted |
| Postprocess.WithVelocity | app/transcription/postprocess.py:124 | one note per note, in order, the same times and pitch, every velocity v |
| Postprocess.ApplyTweaks | app/transcription/postprocess.py:99-125 | the five stages in order compute exactly the tweaked notes |
| Postprocess.MergeKeepsValid | app/transcription/postprocess.py:117 | merging valid notes gives valid notes |
| Postprocess.QuantizeKeepsValid | app/transcription/postprocess.py:120-121 | quantizing valid notes gives valid notes |
| Postprocess.TweakedNotesValid | app/transcription/postprocess.py:99-125 | every output note is in the pitch range and lasts a positive time of at least the minimum note length |
| Postprocess.TweakedShape | app/transcription/postprocess.py:99-125 | the output is sorted by (start, pitch), no longer than the input, and every velocity is the clamped setting |
| Postprocess.TweakedSeparated | app/transcription/postprocess.py:117-125 | without quantizing and with a positive gap, the output has no two same-pitch notes within the gap of each other |
| Postprocess.TweakedPolyphony | app/transcription/postprocess.py:118-125 | without quantizing and with a positive cap, no instant has more than the cap of notes sounding |
| ExportMidi.EventList | app/midi/export_midi.py:23-30 | two events per note |
| ExportMidi.EventListOrigin | app/midi/export_midi.py:23-30 | every event is the note-on or the note-off of one of the notes |
| ExportMidi.SecToTicksMonotone | app/midi/export_midi.py:34-37 | a later time never gets an earlier tick |
| ExportMidi.SecToTicksNonNegative | app/midi/export_midi.py:34-37 | a non-negative time never gets a negative tick |
| ExportMidi.Encode | app/midi/export_midi.py:39-49 | one message per event |
| ExportMidi.EncodeMessages | app/midi/export_midi.py:39-49 | message i carries event i's kind, pitch and velocity with a non-negative delta |
| ExportMidi.SortedEvents | app/midi/export_midi.py:32 | the sorted events are the two events per note |
| ExportMidi.NoteMessages | app/midi/export_midi.py:39-49 | two note messages per note |
| ExportMidi.ExportMidi | app/midi/export_midi.py:9-52 | the method builds exactly the exported track, or the error `export_midi` raises: mido missing, a tempo beyond 0xFFFFFF, or a note number or velocity outside 0..127 |
| ExportMidi.EncodeEvents | app/midi/export_midi.py:39-49 | the loop computes exactly the delta encoding from tick 0 when every event's pitch and velocity fit 0..127, and mido's error otherwise |
| ExportMidi.EncodeStep | app/midi/export_midi.py:41-43 | each message's delta is max(0, tick - last tick), and the tick becomes the last tick |
| ExportMidi.ExportShape | app/midi/export_midi.py:20-51 | a saved track opens with one `set_tempo` at time 0, holds two note messages per note, and ends with `end_of_track` at time 1 |
| ExportMidi.ExportErrors | app/midi/export_midi.py:10-51 | the export fails without mido (install hint), else below 4 bpm (tempo range), else when some note's pitch or velocity is outside 0..127 (data byte range); in every other case it succeeds |
| ExportMidi.EventListFits | app/midi/export_midi.py:24-30 | every event's pitch and velocity fit 0..127 exactly when every note's do |
| ExportMidi.SortedEventsFit | app/midi/export_midi.py:32 | the same holds after sorting |
| ExportMidi.CountOnEventList | app/midi/export_midi.py:23-30 | the event list holds one on event per note |
| ExportMidi.CountOnPermutation | app/midi/export_midi.py:32 | sorting does not change the number of on events |
| ExportMidi.ExportNoteCounts | app/midi/export_midi.py:23-49 | the track holds exactly one note-on and one note-off per note |
| ExportMidi.ExportNoteVelocities | app/midi/export_midi.py:45-49 | every note-off has velocity 0, and every note-on carries the pitch and velocity of one of the notes |
| ExportMidi.EncodeContent | app/midi/export_midi.py:40-49 | encoding turns the on events' (pitch, velocity) pairs into the `note_on`s' (note, velocity) pairs and the off events' pitches into the `note_off`s' notes, as multisets |
| ExportMidi.EventListContent | app/midi/export_midi.py:24-30 | the event list holds, as multisets, each note's (pitch, velocity) once among the on events and its pitch once among the off events |
| ExportMidi.NoteMessagesContent | app/midi/export_midi.py:23-49 | the multiset of the `note_on`s' (note, velocity) pairs is the multiset of the notes' (pitch, velocity) pairs, and the multiset of the `note_off`s' notes is the multiset of the notes' pitches |
| ExportMidi.ExportNoteContent | app/midi/export_midi.py:20-51 | the same holds for a whole saved track |
| ExportMidi.KeyOrderedEvents | app/midi/export_midi.py:29-32 | two events in key order are in time order, and at an equal time an off never follows an on |
| ExportMidi.ExportOrder | app/midi/export_midi.py:32 | events come out in time order, and at an equal time every note-off precedes every note-on |
| ExportMidi.ExportDeltaSums | app/midi/export_midi.py:39-49 | with non-negative note times, the running sum of deltas reaches each event's tick |
| Multitrack.TempoPositive | app/ui/main_window_bu.py:1171 | every tempo the bpm spin box allows is positive |
| Multitrack.SecToTicks | app/ui/main_window_bu.py:1177-1180 | a tick is never negative |
| Multitrack.SecToTicksMonotone | app/ui/main_window_bu.py:1177-1180 | a later time never gets an earlier tick |
| Multitrack.StemEvents | app/ui/main_window_bu.py:1186-1193 | two events per note |
| Multitrack.DeltaEncode | app/ui/main_window_bu.py:1197-1204 | one message per event |
| Multitrack.StemTracks | app/ui/main_window_bu.py:1182-1206 | one track per stem |
| Multitrack.OneStemFile | app/ui/main_window_bu.py:1170-1206 | one stem whose notes fit gives the tempo track and that stem's named track; otherwise mido's error |
| Multitrack.ExportMultitrack | app/ui/main_window_bu.py:1162-1210 | the method builds exactly the file's tracks with the sort key as written, returns False without mido, or raises mido's error on a pitch or velocity outside 0..127 |
| Multitrack.ExportStem | app/ui/main_window_bu.py:1183-1206 | one stem's track (name, then its sorted, delta-encoded events) when its notes fit, mido's error otherwise |
| Multitrack.CollectEvents | app/ui/main_window_bu.py:1186-1193 | the inner loop computes exactly the stem's events |
| Multitrack.DeltaEncodeEvents | app/ui/main_window_bu.py:1197-1204 | the loop computes exactly the delta encoding from tick 0 when every event's pitch and velocity fit 0..127, and mido's error otherwise |
| Multitrack.StemEventsFitUnsorted | app/ui/main_window_bu.py:1186-1193 | a stem's events fit 0..127 exactly when its notes do |
| Multitrack.StemEventsFit | app/ui/main_window_bu.py:1195 | the same holds after sorting by any key |
| Multitrack.MultitrackOutcome | app/ui/main_window_bu.py:1164-1210 | without mido False comes back and nothing is written; with it, mido raises exactly when some stem has a note whose pitch or velocity is outside 0..127; otherwise the file is saved |
| Multitrack.MultitrackShape | app/ui/main_window_bu.py:1170-1206 | a saved file has one tempo track with a single `set_tempo`; then, per stem and in order, a track that opens with the stem's name and holds two messages per note |
| Multitrack.FileShape | app/ui/main_window_bu.py:1173-1206 | the tempo track first, then per stem a named track with two messages per note |
| Multitrack.StemTracksShape | app/ui/main_window_bu.py:1182-1206 | track i is stem i's track |
| Multitrack.DeltaSums | app/ui/main_window_bu.py:1197-1204 | on ascending ticks every unclamped delta is non-negative and the running sum reaches each tick |
| Multitrack.StemTicksNonNegative | app/ui/main_window_bu.py:1188-1189 | every event tick is non-negative |
| Multitrack.TickKeyedAscending | app/ui/main_window_bu.py:1195 | events sorted by either key are in tick order |
| Multitrack.StemDeltas | app/ui/main_window_bu.py:1195-1204 | a stem track's deltas are never negative and add up to each event's tick |
| Multitrack.DeltaEncodeContent | app/ui/main_window_bu.py:1197-1204 | delta encoding turns the note-on events' (pitch, velocity) pairs into the `note_on`s' pairs and the note-off events' pitches into the `note_off`s' notes, as multisets |
| Multitrack.StemEventsContent | app/ui/main_window_bu.py:1186-1193 | a stem's events hold, as multisets, each note's (pitch, velocity) once among the note-ons and its pitch once among the note-offs |
| Multitrack.StemTrackContent | app/ui/main_window_bu.py:1182-1206 | whatever the sort key, a stem's track has as its `note_on`s' (note, velocity) multiset the notes' (pitch, velocity) multiset, and as its `note_off`s' note multiset the notes' pitch multiset |
| Multitrack.MultitrackContent | app/ui/main_window_bu.py:1170-1206 | in a saved file, track i + 1 holds exactly stem i's notes in that sense |
| Multitrack.AsWrittenOnFirst | app/ui/main_window_bu.py:1195 | as written, at one tick every note-on precedes every note-off, the reverse of the comment beside the sort |
| Multitrack.OffFirstOrder | app/ui/main_window_bu.py:1195 | with the key the comment asks for, at one tick every note-off precedes every note-on |
| MainWindow.StemOutNameCases | app/ui/main_window_bu.py:126-142 | exactly the six known stems are kept, matched without regard to case; vocals become voice and the others keep their name |
| MainWindow.LowerIdempotent | app/ui/main_window_bu.py:138 | lower-casing twice is lower-casing once |
| MainWindow.StemOutNameCaseInsensitive | app/ui/main_window_bu.py:138-142 | the new name depends only on the stem's lower-case spelling |
| MainWindow.StemOutNameInjective | app/ui/main_window_bu.py:128-142 | two kept stems get the same new name only if they are the same stem up to case |
| MainWindow.NumberedInjective | app/ui/main_window_bu.py:998-1000 | different numbers give different folder names |
| MainWindow.NumberedBound | app/ui/main_window_bu.py:997-999 | if folders base_2 up to base_(i-1) exist, the directory holds at least i - 2 names, so the search ends |
| MainWindow.ChooseSubfolder | app/ui/main_window_bu.py:993-1001 | the folder is base unless it exists and overwriting is off; otherwise it is the first base_i, from i = 2, that does not exist |
| MainWindow.StemNotesInAll | app/ui/main_window_bu.py:1129-1131 | every stem's notes are among the merged notes |
| MainWindow.MergeStemNotes | app/ui/main_window_bu.py:1129-1132 | the merged notes are all the stems' notes, sorted by (start, pitch), each stem's notes included |
| MainWindow.FirstMatch | app/ui/main_window_bu.py:1141-1144 | the index found is the first name matching the preference, or no name matches |
| MainWindow.PickFromFirstPreference | app/ui/main_window_bu.py:1139-1146 | the pick is the first name matching the earliest preference that any name matches |
| MainWindow.PickFromFallback | app/ui/main_window_bu.py:1147-1148 | when no name matches any preference, the pick is the first name, if there is one |
| MainWindow.VocalsPreferred | app/ui/main_window_bu.py:1138-1148 | if any stem starts with "vocals", in any case, the pick does |
| MainWindow.MatchIsTruthy | app/ui/main_window_bu.py:1145 | a matching name is not empty, so `if pick` sees it |
| MainWindow.PickPreviewStem | app/ui/main_window_bu.py:1139-1148 | the loops compute exactly the preview pick |
| Analyze.MidiToNotes | app/pipeline/analyze_bu.py:165-226 | the nested loops compute exactly the parsed notes |
| Analyze.ParsedNotesWellFormed | app/pipeline/analyze_bu.py:196-225 | every parsed note ends at least 1 ms after it starts and has a positive velocity; the list is sorted by (start, pitch) |
| Analyze.StepKeeps | app/pipeline/analyze_bu.py:187-217 | one message keeps every note at least 1 ms long with a positive velocity |
| Analyze.RunKeeps | app/pipeline/analyze_bu.py:187-217 | a track keeps every note at least 1 ms long with a positive velocity |
| Analyze.TracksKeep | app/pipeline/analyze_bu.py:183-222 | the track loop keeps every note at least 1 ms long with a positive velocity |
| Analyze.StopsAfterFirstNotes | app/pipeline/analyze_bu.py:221-222 | once a track yields notes, the later tracks are not read |
| Analyze.OpenNotesDropped | app/pipeline/analyze_bu.py:184-185 | a track without note-offs yields no notes: pending note-ons are dropped |
| Analyze.UnmatchedOffIgnored | app/pipeline/analyze_bu.py:205-207 | a note-off with no pending note-on for its channel and pitch changes no notes |
| Analyze.SecondNoteOnWins | app/pipeline/analyze_bu.py:196-198 | a second note-on for the same channel and pitch replaces the first: the note that closes starts at the second, with its velocity |
| Analyze.ClockAdvance | app/pipeline/analyze_bu.py:189-190 | without tempo changes the clock advances by the summed deltas at the tempo in force |
| Analyze.TempoChangeClock | app/pipeline/analyze_bu.py:189-194 | a `set_tempo`'s own delta counts at the old tempo, the later messages at the new one |
| Analyze.TrackRestartsClock | app/pipeline/analyze_bu.py:183-185 | each track starts at time 0 with nothing pending, keeping the tempo |
| Analyze.DummyNotes | app/pipeline/analyze_bu.py:233-241 | seven notes at 0.4 i s, each 0.35 s long, with pitches C4 E4 G4 C5 G4 E4 C4, velocity 96 and channel 0 |
| Analyze.DummyNotesApart | app/pipeline/analyze_bu.py:233-241 | the fallback notes are in start order and never overlap; each ends 0.05 s before the next starts |
| Writer.WrittenNoteBounds | app/midi/writer.py:18-24 | every written note fits a MIDI file (start >= 0, at least 1 ms long, pitch 0..127, velocity 1..127), and a field that already fits is written unchanged |
| Writer.WrittenNoteIdempotent | app/midi/writer.py:18-24 | writing an already written note changes nothing |
| Writer.WriteMidi | app/midi/writer.py:10-28 | one instrument with the program, holding the written form of each note in order |
| PreviewSynth.EffectiveRate | app/midi/preview_synth.py:17-18 | the rate is positive: the caller's when positive, else 44100 |
| PreviewSynth.SampleCount | app/midi/preview_synth.py:28-31 | the buffer size is never negative |
| PreviewSynth.Window | app/midi/preview_synth.py:36-40 | a note's window starts at 0 or later and ends within the buffer |
| PreviewSynth.Amp | app/midi/preview_synth.py:42 | the amplitude lies in [0.0125, 0.25] |
| PreviewSynth.EnvelopeBounds | app/midi/preview_synth.py:44-53 | inside a window the envelope lies in [0, 1] |
| PreviewSynth.SilenceOutsideWindows | app/midi/preview_synth.py:35-54 | a sample outside every note's window stays silent |
| PreviewSynth.ToneBound | app/midi/preview_synth.py:46-54 | a tone is at most its amplitude when the oscillator stays in [-1, 1] |
| PreviewSynth.ContributionBound | app/midi/preview_synth.py:35-54 | a note adds at most its amplitude to any sample |
| PreviewSynth.MaxAbs | app/midi/preview_synth.py:56 | the peak bounds every sample's magnitude |
| PreviewSynth.MaxAbsAttained | app/midi/preview_synth.py:56 | the peak is some sample's magnitude |
| PreviewSynth.PeakBounds | app/midi/preview_synth.py:56-57 | the peak is positive and bounds every sample; the norm is 0.95 over it |
| PreviewSynth.PcmSample | app/midi/preview_synth.py:58-61 | a frame lies in [-32767, 32767] |
| PreviewSynth.Normalised | app/midi/preview_synth.py:57-58 | after normalisation no sample exceeds 0.95 in magnitude |
| PreviewSynth.NeverClamped | app/midi/preview_synth.py:58-61 | the clamp to 16 bits never cuts a normalised sample |
| PreviewSynth.PcmFrames | app/midi/preview_synth.py:58-61 | one frame per sample, each within ±32767 |
| PreviewSynth.AddNote | app/midi/preview_synth.py:46-54 | the inner loop adds the note's tone inside its window and leaves every other sample unchanged |
| PreviewSynth.MixNotes | app/midi/preview_synth.py:35-54 | after the note loop every sample is the sum of the notes' contributions |
| PreviewSynth.ToPcm | app/midi/preview_synth.py:58-61 | the conversion loop computes exactly the frames |
| PreviewSynth.MixBuffer | app/midi/preview_synth.py:33-54 | a zeroed buffer with every note mixed in |
| PreviewSynth.RenderPreviewWav | app/midi/preview_synth.py:16-67 | the method produces exactly the WAV the rendering describes, or the empty-buffer error |
| PreviewSynth.EmptyPreview | app/midi/preview_synth.py:20-26 | no notes give a tenth of a second of silence, at 44100 Hz when the rate is not positive |
| PreviewSynth.PreviewFrames | app/midi/preview_synth.py:28-67 | a non-empty preview is mono 16-bit at the effective rate, one frame per buffer sample, each within ±32767, and silent wherever no note's window reaches |
| PreviewSynth.PreviewFailsOnlyOnEmptyBuffer | app/midi/preview_synth.py:28-57 | rendering fails if and only if there are notes and the buffer is empty; at 10 Hz or more it never fails |
| PolyModel.StubDuration | app/transcription/poly_model.py:17 | the duration lies in [2, 8] and is the clip's length when that already does |
| PolyModel.Transcribe | app/transcription/poly_model.py:15-26 | four notes, the i-th the arpeggio's i-th note over the clamped duration |
| PolyModel.ArpeggioShape | app/transcription/poly_model.py:18-25 | pitches C4 E4 G4 C5 in order at the setting's velocity, inside the duration, each ending before the next starts |
| NoteNames.WellKnownNames | app/ui/piano_roll.py:12-15 | 60 is C4, 61 is C#4, 21 is A0 and 108 is C8 |
| NoteNames.NoteNameParts | app/ui/main_window_bu.py:834-837 | a name is the pitch class followed by text that `int()` reads back as the octave |
| NoteNames.SharpMarksSplit | app/ui/piano_roll.py:12-15 | the second character is '#' exactly when the pitch class is a sharp |
| NoteNames.PitchClassesDistinct | app/ui/piano_roll.py:13 | the twelve pitch class names are different |
| NoteNames.NoteNameInjective | app/ui/piano_roll.py:12-15 | different pitches get different names |
| PianoRoll.ViewFor | app/ui/piano_roll.py:42-60 | no notes give the default view; otherwise the pitch range lies in 0..127, covers every MIDI pitch of the notes, and the time range starts at the earliest start and covers every note, at least a second long |
| PianoRoll.VirtualWidth | app/ui/piano_roll.py:69-72 | the width is at least 900 and leaves room for the whole duration |
| PianoRoll.VirtualHeight | app/ui/piano_roll.py:69-72 | the height is at least 500 and leaves room for every pitch row |
| PianoRoll.PianoRollWidget.constructor | app/ui/piano_roll.py:21-40 | a new widget has no notes, no selection, no playhead and the default view, sized for it |
| PianoRoll.PianoRollWidget.RecomputeVirtualSize | app/ui/piano_roll.py:69-72 | the minimum size follows the view; nothing else changes |
| PianoRoll.PianoRollWidget.SetNotes | app/ui/piano_roll.py:42-60 | the notes are shown, selection and playhead cleared, the view fitted to the notes and the size recomputed |
| PianoRoll.PianoRollWidget.SetPlayheadTime | app/ui/piano_roll.py:62-64 | only the playhead moves |
| PianoRoll.PianoRollWidget.PitchToYDecreasing | app/ui/piano_roll.py:74-75 | a higher pitch is drawn strictly higher, one row per semitone, the top pitch at the top margin |
| PianoRoll.PianoRollWidget.TimeToXIncreasing | app/ui/piano_roll.py:77-78 | a later time is drawn further right, the time origin at the left margin |
| PianoRoll.PianoRollWidget.FirstHitFrom | app/ui/piano_roll.py:155-161 | the index found is the first note whose rectangle holds the point, or no note's rectangle does |
| PianoRoll.PianoRollWidget.MousePress | app/ui/piano_roll.py:150-163 | with no notes nothing changes; otherwise the selection becomes the first note under the point, or none |
| PianoRoll.NotesInsideCanvas | app/ui/piano_roll.py:42-85 | once the notes are set, every note with a MIDI pitch is drawn inside the canvas |
| RoundTrip.AsWrittenLosesNote | app/ui/main_window_bu.py:1195 | as written, two back-to-back C4 notes read back as one 1 ms note at 0.5 s |
| RoundTrip.OffFirstKeepsNotes | app/ui/main_window_bu.py:1195 | with the off-first key the same two notes read back intact |

## Left out

- Qt painting, repaint requests, mouse tracking and the `selectionChanged` signal of the piano roll are not modelled. Hit testing and geometry are.
- The piano roll's `time_origin` getter only returns the `t0` field, which the model exposes directly.
- File and process I/O is left out: `mido` saving, pretty_midi `write`, the `wave` and `struct` byte packing, `mkdir`, moving stem files, and reading a MIDI file from disk. The model produces the tracks, the instrument or the frames that would be written. Reading starts from the file's tracks.
- Floating-point rounding is not modelled: seconds, amplitudes and samples are exact reals.
- `math.sin` and `midi_to_hz` are not modelled. The oscillator is a parameter `osc(pitch, t)`; the bounds assume it stays in [-1, 1].
- The directory listing in `_start_separation` is modelled as a set of existing names.
- Demucs, FFmpeg, Basic Pitch and the rest of `analyze_audio`'s orchestration are outside the core.
- The parser's `ticks_per_beat` comes from the file and is a positive parameter.
- PolyModel.Transcribe: requires a non-zero sample rate. Python raises `ZeroDivisionError` there, and the model does not model the exception.
- Multitrack.ExportMultitrack: requires 30 <= bpm <= 300. That is the bpm spin box's range (app/ui/main_window_bu.py:367), so no other value reaches the method. In that range the tempo is between 200000 and 2000000, so mido's tempo check cannot fail there.
- Text.Lower: lower-cases ASCII letters only. Python's `lower()` also lower-cases non-ASCII letters and can change the length of a string. Its callers compare the result with ASCII stem names (app/ui/main_window_bu.py:138-139) and ASCII prefixes (app/ui/main_window_bu.py:1142), none containing a 'k'. Apart from the Kelvin sign, which lowers to 'k', a non-ASCII character lowers to text that is still non-ASCII, so those comparisons come out the same.
- Text.ParseInt: accepts ASCII digits and ASCII whitespace only. Python's `int()` also accepts other Unicode decimal digits and whitespace. The grid text it parses comes from a combo box holding "1/4", "1/8" and "1/16" (app/ui/main_window_bu.py:373), and the octaves it reads back are printed by `str`.
- The text of mido's `ValueError`s is taken from mido's own checks. mido is not part of this model.
- The `getattr` defaults in the multitrack export (velocity 96, pitch 60) are left out because every note has both fields.
- The `float()` and `int()` conversions applied to fields that already have those types are identities in the model.
- A note-on with a negative velocity opens nothing and closes nothing. The model follows the code's branches for that case.
- PreviewSynth.RenderPreviewWav: the empty-buffer failure of `max()` is modelled as an error value rather than a Python exception.

## Findings

| source | as written | input that shows it | evidently intended | confidence | as-written member | corrected member |
|---|---|---|---|---|---|---|
| app/ui/main_window_bu.py:1195 | the key `(tick, not is_on)` sorts a note-on (key False) before a note-off (key True) at the same tick | one stem "piano" with two C4 notes [0, 0.5] and [0.5, 1.0] at velocity 90, 120 bpm: the file holds on 0, on 480, off 480, off 960, and the reader returns a single 1 ms note at 0.5 s | note-off first at an equal tick, as the comment on the line says, so that both notes read back intact | not executed | RoundTrip.AsWrittenLosesNote | RoundTrip.OffFirstKeepsNotes |

In the model, `Multitrack.MultitrackFile` takes the sort key as a parameter:

- `Multitrack.ExportMultitrack` uses the key as written (`AsWrittenKey`).
- The corrected key is `OffFirstKey`. `Multitrack.OffFirstOrder` proves that under it, every note-off at a tick precedes every note-on there.
- `Multitrack.MultitrackShape` and `Multitrack.StemDeltas` hold for both keys.
