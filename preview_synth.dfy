// `render_preview_wav`: a sine-tone rendering of the notes into a mono
// 16-bit WAV. The buffer is an array of samples; every note adds its tone,
// with a short linear attack and release, inside its window of sample
// indices; the sum is then peak-normalised to 0.95 and clamped to 16 bits.
// The oscillator `sin(2 pi midi_to_hz(pitch) t)` is a parameter `osc`.
module PreviewSynth {
  import opened Numeric
  import opened State
  import opened NoteBounds
  import opened MidiMessages

  /** The sample rate used when the caller's is not positive. */
  const DefaultRate: int := 44100

  /** `sr = 44100 if sr <= 0 else sr`. */
  function EffectiveRate(sr: int): (r: int)
    ensures r > 0
    ensures sr > 0 ==> r == sr
    ensures sr <= 0 ==> r == DefaultRate
  {
    if sr <= 0 then DefaultRate else sr
  }

  /** What `wave` writes: channel count, bytes per sample, frame rate and the 16-bit frames. */
  datatype Wav = Wav(channels: int, sampleWidth: int, rate: int, frames: seq<int>)

  /** `max()` of the empty sample buffer raises this. */
  const EmptyBuffer: string := "max() arg is an empty sequence"

  /** `n_samples = int(max(0.1, end1 - start0) * sr)`. */
  function SampleCount(notes: seq<NoteEvent>, rate: int): (r: int)
    requires |notes| > 0 && rate > 0
    ensures r >= 0
  {
    Samples(MaxR(0.1, MaxEnd(notes) - MinStart(notes)), rate)
  }

  /** `int(seconds * sr)`: whole samples in a stretch of time. */
  function Samples(seconds: real, rate: int): (r: int)
    requires seconds >= 0.0 && rate > 0
    ensures r >= 0
  {
    Trunc(seconds * rate as real)
  }

  /** A note's window of sample indices `[st, en)`, with `en` cut at the buffer's end. */
  function Window(n: NoteEvent, start0: real, rate: int, size: int): (r: (int, int))
    requires rate > 0
    ensures 0 <= r.0 && r.1 <= size
  {
    var st := Trunc(MaxR(0.0, n.startSec - start0) * rate as real);
    var en := Trunc(MaxR(0.0, n.endSec - start0) * rate as real);
    (st, Min(en, size))
  }

  /** `max(0.05, min(1.0, velocity / 127)) * 0.25`. */
  function Amp(velocity: int): (r: real)
    ensures 0.0125 <= r <= 0.25
  {
    MaxR(0.05, MinR(1.0, velocity as real / 127.0)) * 0.25
  }

  /** The envelope `k` samples after the window's start and `r` samples before its end. */
  function Envelope(k: int, r: int, rate: int): real
  {
    var attack := Trunc(0.01 * rate as real);
    var release := Trunc(0.03 * rate as real);
    var rise := if k < attack then k as real / Max(1, attack) as real else 1.0;
    if r < release then MinR(rise, r as real / Max(1, release) as real) else rise
  }

  /** Inside a window the envelope lies in [0, 1]. */
  lemma EnvelopeBounds(k: int, r: int, rate: int)
    requires k >= 0 && r >= 1 && rate > 0
    ensures 0.0 <= Envelope(k, r, rate) <= 1.0
  {
    var attack := Trunc(0.01 * rate as real);
    var release := Trunc(0.03 * rate as real);
    if k < attack {
      assert k as real / Max(1, attack) as real <= 1.0;
    }
    if r < release {
      assert r as real / Max(1, release) as real <= 1.0;
    }
  }

  /** Note `n`'s tone at sample `i` of the window `[st, en)`. */
  function Tone(n: NoteEvent, i: int, st: int, en: int, rate: int, osc: (int, real) -> real): real
    requires rate > 0
  {
    Voice(osc(n.midiPitch, (i - st) as real / rate as real), Amp(n.velocity), Envelope(i - st, en - i, rate))
  }

  /** `s * amp * env`: the oscillator's value at its amplitude and envelope. */
  function Voice(s: real, amp: real, env: real): real
  {
    s * amp * env
  }

  /** What note `n` adds to sample `i`: its tone inside its window, nothing outside. */
  function Contribution(n: NoteEvent, i: int, start0: real, rate: int, size: int, osc: (int, real) -> real): real
    requires rate > 0
  {
    var w := Window(n, start0, rate, size);
    if w.0 <= i < w.1 then Tone(n, i, w.0, w.1, rate, osc) else 0.0
  }

  /** A real in [-1, 1] times a non-negative real is at most that real in magnitude. */
  lemma ScaledUnitBound(s: real, a: real)
    requires -1.0 <= s <= 1.0 && a >= 0.0
    ensures Abs(s * a) <= a
  {
    if s >= 0.0 {
      MulMonotone(0.0, s, a);
      MulMonotone(s, 1.0, a);
    } else {
      MulMonotone(s, 0.0, a);
      MulMonotone(-s, 1.0, a);
      assert Abs(s * a) == (-s) * a;
    }
  }

  /** Sample `i` of the buffer after the notes `notes` have been added. */
  function Mix(notes: seq<NoteEvent>, i: int, start0: real, rate: int, size: int, osc: (int, real) -> real): real
    requires rate > 0
  {
    if |notes| == 0 then 0.0
    else Mix(notes[..|notes| - 1], i, start0, rate, size, osc) + Contribution(notes[|notes| - 1], i, start0, rate, size, osc)
  }

  /** A sample that lies in no note's window stays silent. */
  lemma {:induction false} SilenceOutsideWindows(notes: seq<NoteEvent>, i: int, start0: real, rate: int, size: int, osc: (int, real) -> real)
    requires rate > 0
    requires forall k :: 0 <= k < |notes| ==>
      !(Window(notes[k], start0, rate, size).0 <= i < Window(notes[k], start0, rate, size).1)
    ensures Mix(notes, i, start0, rate, size, osc) == 0.0
    decreases |notes|
  {
    if |notes| > 0 {
      var init := notes[..|notes| - 1];
      assert forall k :: 0 <= k < |init| ==> init[k] == notes[k];
      SilenceOutsideWindows(init, i, start0, rate, size, osc);
    }
  }

  /** Scaling by a factor in [0, 1] never grows a magnitude. */
  lemma ShrinkBound(x: real, e: real)
    requires 0.0 <= e <= 1.0
    ensures Abs(x * e) <= Abs(x)
  {
    if x >= 0.0 {
      MulMonotone(0.0, e, x);
      MulMonotone(e, 1.0, x);
    } else {
      MulMonotone(0.0, e, -x);
      MulMonotone(e, 1.0, -x);
      assert Abs(x * e) == e * (-x);
    }
  }

  /** An oscillator value in [-1, 1] at amplitude `a` under an envelope in [0, 1] is at most `a` in magnitude. */
  lemma VoiceBound(s: real, a: real, env: real)
    requires -1.0 <= s <= 1.0 && a >= 0.0 && 0.0 <= env <= 1.0
    ensures Abs(Voice(s, a, env)) <= a
  {
    var p := s * a;
    ScaledUnitBound(s, a);
    ShrinkBound(p, env);
    assert Voice(s, a, env) == p * env;
  }

  /** Inside its window a tone is at most its amplitude when the oscillator stays in [-1, 1]. */
  lemma ToneBound(n: NoteEvent, i: int, st: int, en: int, rate: int, osc: (int, real) -> real)
    requires rate > 0 && st <= i < en
    requires -1.0 <= osc(n.midiPitch, (i - st) as real / rate as real) <= 1.0
    ensures Abs(Tone(n, i, st, en, rate, osc)) <= Amp(n.velocity)
  {
    EnvelopeBounds(i - st, en - i, rate);
    VoiceBound(osc(n.midiPitch, (i - st) as real / rate as real), Amp(n.velocity), Envelope(i - st, en - i, rate));
  }

  /** A note's contribution is at most its amplitude when the oscillator stays in [-1, 1]. */
  lemma ContributionBound(n: NoteEvent, i: int, start0: real, rate: int, size: int, osc: (int, real) -> real)
    requires rate > 0
    requires forall p, t :: -1.0 <= osc(p, t) <= 1.0
    ensures Abs(Contribution(n, i, start0, rate, size, osc)) <= Amp(n.velocity)
  {
    var w := Window(n, start0, rate, size);
    if w.0 <= i < w.1 {
      ToneBound(n, i, w.0, w.1, rate, osc);
    }
  }

  /** The largest magnitude in the buffer: `max(abs(x) for x in buf)`. */
  function MaxAbs(xs: seq<real>): (r: real)
    requires |xs| > 0
    ensures forall i :: 0 <= i < |xs| ==> Abs(xs[i]) <= r
  {
    if |xs| == 1 then Abs(xs[0])
    else
      var rest := MaxAbs(xs[1..]);
      assert forall i :: 1 <= i < |xs| ==> xs[i] == xs[1..][i - 1];
      MaxR(Abs(xs[0]), rest)
  }

  /** The largest magnitude is some sample's. */
  lemma {:induction false} MaxAbsAttained(xs: seq<real>)
    requires |xs| > 0
    ensures exists i :: 0 <= i < |xs| && MaxAbs(xs) == Abs(xs[i])
  {
    if |xs| > 1 {
      MaxAbsAttained(xs[1..]);
      var k :| 0 <= k < |xs[1..]| && MaxAbs(xs[1..]) == Abs(xs[1..][k]);
      assert xs[1..][k] == xs[k + 1];
      if MaxAbs(xs) == Abs(xs[0]) {
        assert 0 <= 0 < |xs| && MaxAbs(xs) == Abs(xs[0]);
      } else {
        assert 0 <= k + 1 < |xs| && MaxAbs(xs) == Abs(xs[k + 1]);
      }
    } else {
      assert MaxAbs(xs) == Abs(xs[0]);
    }
  }

  /** `max(1e-9, max(abs(x) for x in buf))`. */
  function Peak(xs: seq<real>): real
    requires |xs| > 0
  {
    MaxR(0.000000001, MaxAbs(xs))
  }

  /** `0.95 / peak`. */
  function Norm(xs: seq<real>): real
    requires |xs| > 0
  {
    0.95 / Peak(xs)
  }

  /** The peak is positive, bounds every sample's magnitude, and `Norm` divides by it. */
  lemma PeakBounds(xs: seq<real>, i: int)
    requires 0 <= i < |xs|
    ensures 0.0 < Peak(xs) && Abs(xs[i]) <= Peak(xs)
    ensures Norm(xs) == 0.95 / Peak(xs)
  {
  }

  /** `int(max(-32767, min(32767, x * norm * 32767)))`. */
  function PcmSample(x: real, norm: real): (r: int)
    ensures -32767 <= r <= 32767
  {
    Trunc(ClampR(x * norm * 32767.0, -32767.0, 32767.0))
  }

  /** Dividing by a bound of a value's magnitude and scaling by 0.95 gives at most 0.95. */
  lemma ScaleBound(x: real, peak: real, q: real)
    requires 0.0 < peak && Abs(x) <= peak && q == 0.95 / peak
    ensures Abs(x * q) <= 0.95
  {
    assert q > 0.0;
    if x >= 0.0 {
      MulMonotone(0.0, x, q);
    } else {
      MulMonotone(x, 0.0, q);
    }
    assert Abs(x * q) == Abs(x) * q;
    MulMonotone(Abs(x), peak, q);
    assert peak * q == 0.95;
  }

  /** A value of magnitude at most 0.95, scaled to 16 bits, needs no clamp. */
  lemma NoClamp(y: real)
    requires Abs(y) <= 0.95
    ensures -32767.0 <= y * 32767.0 <= 32767.0
  {
    MulMonotone(y, 0.95, 32767.0);
    MulMonotone(-0.95, y, 32767.0);
  }

  /** After normalisation no sample exceeds 0.95 in magnitude. */
  lemma Normalised(xs: seq<real>, i: int)
    requires 0 <= i < |xs|
    ensures Abs(xs[i] * Norm(xs)) <= 0.95
  {
    PeakBounds(xs, i);
    ScaleBound(xs[i], Peak(xs), Norm(xs));
  }

  /** So the clamp to 16 bits never cuts: `PcmSample` only truncates the scaled sample. */
  lemma NeverClamped(xs: seq<real>, i: int)
    requires 0 <= i < |xs|
    ensures ClampR(xs[i] * Norm(xs) * 32767.0, -32767.0, 32767.0) == xs[i] * Norm(xs) * 32767.0
  {
    Normalised(xs, i);
    NoClamp(xs[i] * Norm(xs));
  }

  /** The frames written for a non-empty buffer. */
  function PcmFrames(xs: seq<real>): (r: seq<int>)
    requires |xs| > 0
    ensures |r| == |xs|
    ensures forall i :: 0 <= i < |xs| ==> -32767 <= r[i] <= 32767
  {
    seq(|xs|, i requires 0 <= i < |xs| => PcmSample(xs[i], Norm(xs)))
  }

  /** The WAV `render_preview_wav(notes, out_path, sr)` writes, or the error it raises. */
  function PreviewWav(notes: seq<NoteEvent>, sr: int, osc: (int, real) -> real): Result<Wav>
  {
    var rate := EffectiveRate(sr);
    if |notes| == 0 then Ok(Wav(1, 2, rate, seq(Trunc(rate as real * 0.1), _ => 0)))
    else
      var size := SampleCount(notes, rate);
      var start0 := MinStart(notes);
      if size == 0 then Err(EmptyBuffer)
      else Ok(Wav(1, 2, rate, PcmFrames(seq(size, i => Mix(notes, i, start0, rate, size, osc)))))
  }

  /** The inner loop: add note `n`'s tone into its window of `buf`. */
  method AddNote(buf: array<real>, n: NoteEvent, start0: real, rate: int, osc: (int, real) -> real)
    requires rate > 0
    modifies buf
    ensures forall i :: 0 <= i < buf.Length ==>
      buf[i] == old(buf[i]) + Contribution(n, i, start0, rate, buf.Length, osc)
  {
    var w := Window(n, start0, rate, buf.Length);
    var st, en := w.0, w.1;
    if en <= st {
      return;
    }
    var amp := Amp(n.velocity);
    var attack := Trunc(0.01 * rate as real);
    var release := Trunc(0.03 * rate as real);
    for i := st to en
      invariant forall j :: 0 <= j < buf.Length && !(st <= j < i) ==> buf[j] == old(buf[j])
      invariant forall j :: st <= j < i ==> buf[j] == old(buf[j]) + Tone(n, j, st, en, rate, osc)
    {
      var t := (i - st) as real / rate as real;
      var s := osc(n.midiPitch, t);
      var env := 1.0;
      if i - st < attack {
        env := (i - st) as real / Max(1, attack) as real;
      }
      if en - i < release {
        env := MinR(env, (en - i) as real / Max(1, release) as real);
      }
      assert env == Envelope(i - st, en - i, rate);
      assert s == osc(n.midiPitch, (i - st) as real / rate as real);
      buf[i] := buf[i] + Voice(s, amp, env);
    }
  }

  /** The loop over the notes: afterwards every sample holds the sum of the notes' contributions. */
  method MixNotes(buf: array<real>, notes: seq<NoteEvent>, start0: real, rate: int, osc: (int, real) -> real)
    requires rate > 0
    requires forall i :: 0 <= i < buf.Length ==> buf[i] == 0.0
    modifies buf
    ensures forall i :: 0 <= i < buf.Length ==> buf[i] == Mix(notes, i, start0, rate, buf.Length, osc)
  {
    for k := 0 to |notes|
      invariant forall i :: 0 <= i < buf.Length ==> buf[i] == Mix(notes[..k], i, start0, rate, buf.Length, osc)
    {
      AddNote(buf, notes[k], start0, rate, osc);
      assert notes[..k + 1][..k] == notes[..k];
    }
    assert notes[..|notes|] == notes;
  }

  /** The value the conversion loop computes for one sample is `PcmSample`'s. */
  lemma PcmSampleIs(x: real, norm: real, v: int)
    requires v == Trunc(ClampR(x * norm * 32767.0, -32767.0, 32767.0))
    ensures v == PcmSample(x, norm)
  {
  }

  /** The conversion loop: one clamped 16-bit value per sample, appended in order. */
  method ToPcm(xs: seq<real>) returns (pcm: seq<int>)
    requires |xs| > 0
    ensures pcm == PcmFrames(xs)
  {
    var norm := Norm(xs);
    pcm := [];
    for i := 0 to |xs|
      invariant |pcm| == i
      invariant forall j :: 0 <= j < i ==> pcm[j] == PcmSample(xs[j], norm)
    {
      var x := xs[i];
      var v := Trunc(ClampR(x * norm * 32767.0, -32767.0, 32767.0));
      PcmSampleIs(x, norm, v);
      pcm := pcm + [v];
    }
  }

  /** `render_preview_wav`: size the buffer, add every note, normalise and convert to 16-bit frames. */
  method RenderPreviewWav(notes: seq<NoteEvent>, sr: int, osc: (int, real) -> real) returns (r: Result<Wav>)
    ensures r == PreviewWav(notes, sr, osc)
  {
    var rate := if sr <= 0 then DefaultRate else sr;
    if |notes| == 0 {
      return Ok(Wav(1, 2, rate, seq(Trunc(rate as real * 0.1), _ => 0)));
    }
    var start0 := MinStart(notes);
    var end1 := MaxEnd(notes);
    var length := MaxR(0.1, end1 - start0);
    var size := Samples(length, rate);
    assert size == SampleCount(notes, rate);
    var xs := MixBuffer(notes, start0, rate, size, osc);
    if size == 0 {
      return Err(EmptyBuffer);
    }
    var pcm := ToPcm(xs);
    r := Ok(Wav(1, 2, rate, pcm));
  }

  /** A zeroed buffer of `size` samples with every note mixed in. */
  method MixBuffer(notes: seq<NoteEvent>, start0: real, rate: int, size: nat, osc: (int, real) -> real) returns (xs: seq<real>)
    requires rate > 0
    ensures xs == seq(size, i => Mix(notes, i, start0, rate, size, osc))
  {
    var buf := new real[size](_ => 0.0);
    MixNotes(buf, notes, start0, rate, osc);
    xs := buf[..];
  }

  /** An empty note list gives a tenth of a second of silence, at 44100 Hz when the rate is not positive. */
  lemma EmptyPreview(sr: int, osc: (int, real) -> real)
    ensures PreviewWav([], sr, osc).Ok?
    ensures var w := PreviewWav([], sr, osc).value;
      w.channels == 1 && w.sampleWidth == 2 && w.rate == EffectiveRate(sr) &&
      |w.frames| == Trunc(EffectiveRate(sr) as real * 0.1) &&
      forall i :: 0 <= i < |w.frames| ==> w.frames[i] == 0
  {
  }

  /** A non-empty preview has one 16-bit mono frame per buffer sample, each within ±32767,
      silent wherever no note sounds. */
  lemma PreviewFrames(notes: seq<NoteEvent>, sr: int, osc: (int, real) -> real, i: int)
    requires |notes| > 0
    requires PreviewWav(notes, sr, osc).Ok?
    requires 0 <= i < SampleCount(notes, EffectiveRate(sr))
    ensures var w := PreviewWav(notes, sr, osc).value;
      w.channels == 1 && w.sampleWidth == 2 && w.rate == EffectiveRate(sr) &&
      |w.frames| == SampleCount(notes, EffectiveRate(sr)) &&
      -32767 <= w.frames[i] <= 32767
    ensures var rate := EffectiveRate(sr);
      (forall k :: 0 <= k < |notes| ==>
        !(Window(notes[k], MinStart(notes), rate, SampleCount(notes, rate)).0 <= i <
          Window(notes[k], MinStart(notes), rate, SampleCount(notes, rate)).1))
      ==> PreviewWav(notes, sr, osc).value.frames[i] == 0
  {
    var rate := EffectiveRate(sr);
    var size := SampleCount(notes, rate);
    var start0 := MinStart(notes);
    var xs := seq(size, j => Mix(notes, j, start0, rate, size, osc));
    if forall k :: 0 <= k < |notes| ==>
        !(Window(notes[k], start0, rate, size).0 <= i < Window(notes[k], start0, rate, size).1) {
      SilenceOutsideWindows(notes, i, start0, rate, size, osc);
      assert xs[i] == 0.0;
      assert PcmSample(0.0, Norm(xs)) == 0;
    }
  }

  /** The rendering fails exactly when there are notes and `int(max(0.1, span) * rate)` is 0, so the buffer is empty; since the span is at least 0.1 s, that needs a rate below 10 Hz. */
  lemma PreviewFailsOnlyOnEmptyBuffer(notes: seq<NoteEvent>, sr: int, osc: (int, real) -> real)
    ensures PreviewWav(notes, sr, osc).Err? <==> |notes| > 0 && SampleCount(notes, EffectiveRate(sr)) == 0
    ensures |notes| > 0 && EffectiveRate(sr) >= 10 ==> PreviewWav(notes, sr, osc).Ok?
  {
    if |notes| > 0 && EffectiveRate(sr) >= 10 {
      var rate := EffectiveRate(sr);
      var length := MaxR(0.1, MaxEnd(notes) - MinStart(notes));
      MulMonotone(0.1, length, rate as real);
      assert length * rate as real >= 1.0;
    }
  }
}
