// The application's data model: tweak settings, the note value every stage
// passes around and the analysis session, with the defaults the application
// starts from.
module State {

  /** The post-processing knobs, with the defaults a new session starts from. */
  datatype Settings = Settings(
    minNoteMs: int := 80,
    minVelocity: int := 10,
    mergeGapMs: int := 30,
    pitchMin: int := 21,
    pitchMax: int := 108,
    maxPolyphony: int := 10,
    velocity: int := 96,
    quantize: bool := false,
    quantizeBpm: int := 120,
    quantizeGrid: string := "1/16",
    quantizeStrength: int := 60)

  /** A note as the pipeline sees it: seconds, MIDI pitch and velocity (no channel). */
  datatype NoteEvent = NoteEvent(startSec: real, endSec: real, midiPitch: int, velocity: int := 96)

  /** The notes of one loaded file: raw transcription, current tweaked view and warnings. */
  datatype AnalysisSession = AnalysisSession(
    inputPath: string,
    decodedWavPath: string,
    sampleRate: int := 44100,
    rawNotes: seq<NoteEvent> := [],
    currentNotes: seq<NoteEvent> := [],
    warnings: seq<string> := [])

  /** The ordering every caller relies on: start time, then pitch. */
  function StartPitchKey(n: NoteEvent): seq<real>
  {
    [n.startSec, n.midiPitch as real]
  }

  /** A fresh `Settings()` carries the documented filter, range and quantize defaults. */
  lemma SettingsDefaults()
    ensures var s := Settings();
      s.minNoteMs == 80 && s.minVelocity == 10 && s.mergeGapMs == 30 &&
      s.pitchMin == 21 && s.pitchMax == 108 && s.maxPolyphony == 10 && s.velocity == 96 &&
      !s.quantize && s.quantizeBpm == 120 && s.quantizeGrid == "1/16" && s.quantizeStrength == 60
  {
  }

  /** A note built without a velocity gets 96. */
  lemma NoteEventDefaultVelocity(st: real, en: real, p: int)
    ensures NoteEvent(st, en, p).velocity == 96
  {
  }

  /** A new session runs at 44100 Hz with no notes and no warnings. */
  lemma SessionDefaults(input: string, decoded: string)
    ensures var a := AnalysisSession(input, decoded);
      a.sampleRate == 44100 && a.rawNotes == [] && a.currentNotes == [] && a.warnings == []
  {
  }
}

// The frozen note value used on the MIDI side, which also carries a channel.
module MidiModel {

  datatype ChannelNote = ChannelNote(startSec: real, endSec: real, midiPitch: int, velocity: int := 96, channel: int := 0)

  function ChannelNoteKey(n: ChannelNote): seq<real>
  {
    [n.startSec, n.midiPitch as real]
  }
}
