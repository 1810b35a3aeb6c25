/** The procedural audio engine: sample generators, the processing chain that every
    synthesised sound goes through, the chiptune composer, the sound cache and the
    music/volume state. A buffer is a sequence of real-valued samples. */
module AudioEngine {
  import opened Common

  ghost predicate Sane(m: MathLib)
  {
    IsTanh(m.tanh) && IsSqrt(m.sqrt)
  }

  const DefaultSampleRate: nat := 22050
  const InitialVolume: real := 0.25
  const DitherAmount: real := 0.0001
  const NoiseGateThreshold: real := 0.01
  const VibratoRate: real := 6.0
  const VibratoDepth: real := 0.02
  const Pulse1Volume: real := 0.4
  const Pulse2Volume: real := 0.3
  const TriangleVolume: real := 0.5

  // ---------------------------------------------------------------------------
  // Element-wise array arithmetic (numpy broadcasting)
  // ---------------------------------------------------------------------------

  /** `wave * c`. */
  function Scale(w: seq<real>, c: real): (r: seq<real>)
    ensures |r| == |w|
  {
    seq(|w|, i requires 0 <= i < |w| => w[i] * c)
  }

  /** `wave * gains` for two arrays of equal length. */
  function Product(wave: seq<real>, gains: seq<real>): (r: seq<real>)
    requires |wave| == |gains|
    ensures |r| == |wave|
  {
    seq(|wave|, i requires 0 <= i < |wave| => Gained(wave[i], gains[i]))
  }

  function Sum(w: seq<real>): real
  {
    if w == [] then 0.0 else Sum(w[..|w| - 1]) + w[|w| - 1]
  }

  /** `np.max(np.abs(w))`, taken as 0 for an empty buffer. */
  function MaxAbs(w: seq<real>): (m: real)
    ensures m >= 0.0
    ensures forall i :: 0 <= i < |w| ==> AbsR(w[i]) <= m
    ensures |w| > 0 ==> exists i :: 0 <= i < |w| && AbsR(w[i]) == m
  {
    if w == [] then 0.0
    else
      var rest := MaxAbs(w[1..]);
      assert forall i :: 1 <= i < |w| ==> w[i] == w[1..][i - 1];
      if AbsR(w[0]) >= rest then AbsR(w[0]) else rest
  }

  /** `np.linspace(start, stop, n)`: n evenly spaced values from start to stop inclusive. */
  function Linspace(start: real, stop: real, n: nat): (r: seq<real>)
    ensures |r| == n
    ensures n >= 1 ==> r[0] == start
    ensures n >= 2 ==> r[n - 1] == stop
  {
    if n == 0 then []
    else if n == 1 then [start]
    else
      var r := seq(n, k requires 0 <= k < n => Lerp(k as real / (n - 1) as real, start, stop));
      assert (n - 1) as real / (n - 1) as real == 1.0;
      r
  }

  /** Every value of a linspace lies between its end points. */
  lemma LinspaceBetween(start: real, stop: real, n: nat, lo: real, hi: real)
    requires lo <= start <= hi && lo <= stop <= hi
    ensures forall k :: 0 <= k < n ==> lo <= Linspace(start, stop, n)[k] <= hi
  {
    if n >= 2 {
      forall k | 0 <= k < n
        ensures lo <= Linspace(start, stop, n)[k] <= hi
      {
        LerpBetween(k as real / (n - 1) as real, start, stop, lo, hi);
      }
    }
  }

  // ---------------------------------------------------------------------------
  // Sample generators (audio_engine.py:117-136, 564-589)
  // ---------------------------------------------------------------------------

  /** `int(duration * sample_rate)`, the sample count every generator allocates. */
  function FrameCount(duration: real, sampleRate: nat): int
  {
    Trunc(duration * sampleRate as real)
  }

  function Sign(x: real): real
  {
    if x > 0.0 then 1.0 else if x < 0.0 then -1.0 else 0.0
  }

  /** One sample of `generate_wave` at time t; an unrecognised wave type contributes 0. */
  function WaveSample(waveType: string, amplitude: real, frequency: real, t: real,
                      lib: MathLib, noise: real): real
  {
    if waveType == "sine" then amplitude * lib.sin(2.0 * lib.pi * frequency * t)
    else if waveType == "square" then amplitude * Sign(lib.sin(2.0 * lib.pi * frequency * t))
    else if waveType == "sawtooth" then
      amplitude * (2.0 * (t * frequency - (t * frequency + 0.5).Floor as real))
    else if waveType == "triangle" then
      amplitude * (2.0 * AbsR(2.0 * (t * frequency - (t * frequency + 0.5).Floor as real)) - 1.0)
    else if waveType == "noise" then amplitude * noise
    else 0.0
  }

  /** An unrecognised wave type yields silence. */
  lemma UnknownWaveIsSilent(waveType: string, amplitude: real, frequency: real, t: real,
                            lib: MathLib, noise: real)
    requires waveType !in {"sine", "square", "sawtooth", "triangle", "noise"}
    ensures WaveSample(waveType, amplitude, frequency, t, lib, noise) == 0.0
  {
  }

  /** `generate_wave`: fills `int(duration*sample_rate)` samples one by one; `noise(i)` is the
      `random.uniform(-1, 1)` draw for sample i. */
  method GenerateWave(frequency: real, duration: real, waveType: string, amplitude: real,
                      sampleRate: nat, lib: MathLib, noise: nat -> real)
    returns (wave: seq<real>)
    requires sampleRate > 0 && FrameCount(duration, sampleRate) >= 0
    ensures |wave| == FrameCount(duration, sampleRate)
    ensures forall i :: 0 <= i < |wave| ==>
      wave[i] == WaveSample(waveType, amplitude, frequency, i as real / sampleRate as real, lib, noise(i))
  {
    var frames := FrameCount(duration, sampleRate);
    var arr := new real[frames](_ => 0.0);
    for i := 0 to frames
      invariant forall k :: 0 <= k < i ==>
        arr[k] == WaveSample(waveType, amplitude, frequency, k as real / sampleRate as real, lib, noise(k))
    {
      var t := i as real / sampleRate as real;
      arr[i] := WaveSample(waveType, amplitude, frequency, t, lib, noise(i));
    }
    wave := arr[..];
  }

  /** Every sample of a wave of unrecognised type is zero. */
  lemma UnknownWaveBufferIsSilent(wave: seq<real>, frequency: real, waveType: string,
                                  amplitude: real, sampleRate: nat, lib: MathLib, noise: nat -> real)
    requires sampleRate > 0
    requires waveType !in {"sine", "square", "sawtooth", "triangle", "noise"}
    requires forall i :: 0 <= i < |wave| ==>
      wave[i] == WaveSample(waveType, amplitude, frequency, i as real / sampleRate as real, lib, noise(i))
    ensures forall i :: 0 <= i < |wave| ==> wave[i] == 0.0
  {
  }

  /** The raw ±1 value of the pulse generator before its final `* 0.5`. */
  function PulseLevel(frequency: real, t: real, duty: real): real
  {
    if Frac(frequency * t) < duty then 1.0 else -1.0
  }

  /** The raw value of the triangle generator before its final `* 0.7`. */
  function TriangleLevel(frequency: real, t: real): (v: real)
    ensures -1.0 <= v <= 1.0
  {
    var phase := Frac(frequency * t);
    if phase < 0.5 then 4.0 * phase - 1.0 else 3.0 - 4.0 * phase
  }

  /** The buffer `generate_pulse_wave` returns. */
  function PulseWave(frequency: real, duration: real, duty: real, sampleRate: nat): (r: seq<real>)
    requires sampleRate > 0 && FrameCount(duration, sampleRate) >= 0
    ensures |r| == FrameCount(duration, sampleRate)
    ensures forall i :: 0 <= i < |r| ==> r[i] == 0.5 || r[i] == -0.5
  {
    seq(FrameCount(duration, sampleRate),
        i requires 0 <= i => 0.5 * PulseLevel(frequency, i as real / sampleRate as real, duty))
  }

  /** `generate_pulse_wave`: every sample is exactly +0.5 or -0.5. */
  method GeneratePulseWave(frequency: real, duration: real, duty: real, sampleRate: nat)
    returns (wave: seq<real>)
    requires sampleRate > 0 && FrameCount(duration, sampleRate) >= 0
    ensures wave == PulseWave(frequency, duration, duty, sampleRate)
    ensures |wave| == FrameCount(duration, sampleRate)
    ensures forall i :: 0 <= i < |wave| ==> wave[i] == 0.5 || wave[i] == -0.5
  {
    var frames := FrameCount(duration, sampleRate);
    var arr := new real[frames](_ => 0.0);
    for i := 0 to frames
      invariant forall k :: 0 <= k < i ==> arr[k] == PulseLevel(frequency, k as real / sampleRate as real, duty)
    {
      arr[i] := PulseLevel(frequency, i as real / sampleRate as real, duty);
    }
    wave := Scale(arr[..], 0.5);
  }

  /** The buffer `generate_triangle_wave` returns. */
  function TriangleWave(frequency: real, duration: real, sampleRate: nat): (r: seq<real>)
    requires sampleRate > 0 && FrameCount(duration, sampleRate) >= 0
    ensures |r| == FrameCount(duration, sampleRate)
    ensures forall i :: 0 <= i < |r| ==> -0.7 <= r[i] <= 0.7
  {
    seq(FrameCount(duration, sampleRate),
        i requires 0 <= i => 0.7 * TriangleLevel(frequency, i as real / sampleRate as real))
  }

  /** `generate_triangle_wave`: every sample lies in [-0.7, 0.7]. */
  method GenerateTriangleWave(frequency: real, duration: real, sampleRate: nat)
    returns (wave: seq<real>)
    requires sampleRate > 0 && FrameCount(duration, sampleRate) >= 0
    ensures wave == TriangleWave(frequency, duration, sampleRate)
    ensures |wave| == FrameCount(duration, sampleRate)
    ensures forall i :: 0 <= i < |wave| ==> -0.7 <= wave[i] <= 0.7
  {
    var frames := FrameCount(duration, sampleRate);
    var arr := new real[frames](_ => 0.0);
    for i := 0 to frames
      invariant forall k :: 0 <= k < i ==> arr[k] == TriangleLevel(frequency, k as real / sampleRate as real)
    {
      arr[i] := TriangleLevel(frequency, i as real / sampleRate as real);
    }
    wave := Scale(arr[..], 0.7);
  }

  // ---------------------------------------------------------------------------
  // ADSR envelope (audio_engine.py:138-169)
  // ---------------------------------------------------------------------------

  function Square(x: real): real { x * x }

  /** The envelope's segment boundaries for a buffer of n samples. */
  datatype EnvelopeBounds = EnvelopeBounds(n: nat, attackEnd: int, decayLen: int, sustainEnd: int, releaseLen: int)

  function Bounds(n: nat, attack: real, decay: real, release: real): (b: EnvelopeBounds)
    requires 0.0 <= attack <= 1.0 && decay >= 0.0 && release >= 0.0
    ensures 0 <= b.attackEnd <= n && b.decayLen >= 0 && b.releaseLen >= 0
    ensures b.releaseLen > 0 ==> n > 0
  {
    var a := Trunc(attack * n as real);
    MulUnit(attack, n as real);
    var d := Trunc(decay * n as real);
    MulLe(decay, 0.0, n as real);
    var r := Trunc(release * n as real);
    MulLe(release, 0.0, n as real);
    EnvelopeBounds(n, a, d, MaxI(a + d, n - r), r)
  }

  /** The gain at sample j after the attack slice `envelope[:a] = linspace(0, 1, a) ** 0.5`. */
  function AttackGain(b: EnvelopeBounds, sqrt: real -> real, j: int): real
    requires 0 <= b.attackEnd <= b.n && 0 <= j < b.n
  {
    if j < b.attackEnd then sqrt(Linspace(0.0, 1.0, b.attackEnd)[j]) else 1.0
  }

  /** The gain at sample j after the decay slice, which squares a ramp from 1 to the sustain level. */
  function DecayGain(b: EnvelopeBounds, sustain: real, sqrt: real -> real, j: int): real
    requires 0 <= b.attackEnd <= b.n && b.decayLen >= 0 && 0 <= j < b.n
  {
    var a, d := b.attackEnd, b.decayLen;
    if d > 0 && a <= j < MinI(a + d, b.n) then Square(Linspace(1.0, sustain, MinI(a + d, b.n) - a)[j - a])
    else AttackGain(b, sqrt, j)
  }

  /** The gain at sample j once the attack, decay and sustain slices have been written. */
  function PreReleaseGain(b: EnvelopeBounds, sustain: real, sqrt: real -> real, j: int): real
    requires 0 <= b.attackEnd <= b.n && b.decayLen >= 0 && 0 <= j < b.n
  {
    if b.attackEnd + b.decayLen <= j < b.sustainEnd then sustain else DecayGain(b, sustain, sqrt, j)
  }

  /** The final gain at sample j: the release slice fades from the gain found at its first
      sample down to 0, squared. */
  function EnvelopeGain(b: EnvelopeBounds, sustain: real, sqrt: real -> real, j: int): real
    requires 0 <= b.attackEnd <= b.n && b.decayLen >= 0 && b.releaseLen >= 0 && 0 <= j < b.n
  {
    var start := MaxI(0, b.n - b.releaseLen);
    if b.releaseLen > 0 && j >= start then
      Square(Linspace(PreReleaseGain(b, sustain, sqrt, start), 0.0, b.n - start)[j - start])
    else PreReleaseGain(b, sustain, sqrt, j)
  }

  /** A square of a value in [0, 1] lies in [0, 1]. */
  lemma SquareUnit(x: real)
    requires 0.0 <= x <= 1.0
    ensures 0.0 <= Square(x) <= 1.0
  {
    MulUnit(x, x);
  }

  lemma PreReleaseGainUnit(b: EnvelopeBounds, sustain: real, sqrt: real -> real, j: int)
    requires 0 <= b.attackEnd <= b.n && b.decayLen >= 0 && 0 <= j < b.n
    requires 0.0 <= sustain <= 1.0 && IsSqrt(sqrt)
    ensures 0.0 <= PreReleaseGain(b, sustain, sqrt, j) <= 1.0
  {
    var a, d := b.attackEnd, b.decayLen;
    if a + d <= j < b.sustainEnd {
    } else if d > 0 && a <= j < MinI(a + d, b.n) {
      var k := MinI(a + d, b.n) - a;
      LinspaceBetween(1.0, sustain, k, 0.0, 1.0);
      SquareUnit(Linspace(1.0, sustain, k)[j - a]);
    } else if j < a {
      LinspaceBetween(0.0, 1.0, a, 0.0, 1.0);
      SqrtUnit(sqrt, Linspace(0.0, 1.0, a)[j]);
    }
  }

  /** With a sustain level in [0, 1] every envelope gain lies in [0, 1]. */
  lemma EnvelopeGainUnit(b: EnvelopeBounds, sustain: real, sqrt: real -> real, j: int)
    requires 0 <= b.attackEnd <= b.n && b.decayLen >= 0 && b.releaseLen >= 0 && 0 <= j < b.n
    requires 0.0 <= sustain <= 1.0 && IsSqrt(sqrt)
    ensures 0.0 <= EnvelopeGain(b, sustain, sqrt, j) <= 1.0
  {
    var start := MaxI(0, b.n - b.releaseLen);
    if b.releaseLen > 0 && j >= start {
      var v := PreReleaseGain(b, sustain, sqrt, start);
      PreReleaseGainUnit(b, sustain, sqrt, start);
      var curve := Linspace(v, 0.0, b.n - start);
      LinspaceBetween(v, 0.0, b.n - start, 0.0, 1.0);
      ReleaseGainAt(b, sustain, sqrt, curve, j);
      SquareUnit(curve[j - start]);
    } else {
      PreReleaseGainUnit(b, sustain, sqrt, j);
    }
  }

  /** The envelope array of `apply_envelope`: ones, then the attack, decay, sustain and release
      slices written in that order. */
  method BuildEnvelope(n: nat, attack: real, decay: real, sustain: real, release: real, sqrt: real -> real)
    returns (envelope: array<real>)
    requires 0.0 <= attack <= 1.0 && decay >= 0.0 && release >= 0.0
    ensures fresh(envelope) && envelope.Length == n
    ensures forall j :: 0 <= j < n ==>
      envelope[j] == EnvelopeGain(Bounds(n, attack, decay, release), sustain, sqrt, j)
  {
    var b := Bounds(n, attack, decay, release);
    envelope := new real[n](_ => 1.0);
    WriteAttack(envelope, b, sqrt);
    WriteDecay(envelope, b, sustain, sqrt);
    WriteSustain(envelope, b, sustain, sqrt);
    WriteRelease(envelope, b, sustain, sqrt);
  }

  method WriteAttack(envelope: array<real>, b: EnvelopeBounds, sqrt: real -> real)
    requires 0 <= b.attackEnd <= b.n == envelope.Length
    requires forall k :: 0 <= k < b.n ==> envelope[k] == 1.0
    modifies envelope
    ensures forall k :: 0 <= k < b.n ==> envelope[k] == AttackGain(b, sqrt, k)
  {
    if b.attackEnd > 0 {
      var curve := Linspace(0.0, 1.0, b.attackEnd);
      for j := 0 to b.attackEnd
        invariant forall k :: 0 <= k < b.n ==> envelope[k] == (if k < j then sqrt(curve[k]) else 1.0)
      {
        envelope[j] := sqrt(curve[j]);
      }
    }
  }

  method WriteDecay(envelope: array<real>, b: EnvelopeBounds, sustain: real, sqrt: real -> real)
    requires 0 <= b.attackEnd <= b.n == envelope.Length && b.decayLen >= 0
    requires forall k :: 0 <= k < b.n ==> envelope[k] == AttackGain(b, sqrt, k)
    modifies envelope
    ensures forall k :: 0 <= k < b.n ==> envelope[k] == DecayGain(b, sustain, sqrt, k)
  {
    var a := b.attackEnd;
    if b.decayLen > 0 {
      var endIdx := MinI(a + b.decayLen, b.n);
      var curve := Linspace(1.0, sustain, endIdx - a);
      for j := a to endIdx
        invariant forall k :: 0 <= k < b.n ==>
          envelope[k] == (if a <= k < j then Square(curve[k - a]) else AttackGain(b, sqrt, k))
      {
        envelope[j] := Square(curve[j - a]);
      }
    }
  }

  method WriteSustain(envelope: array<real>, b: EnvelopeBounds, sustain: real, sqrt: real -> real)
    requires 0 <= b.attackEnd <= b.n == envelope.Length && b.decayLen >= 0
    requires forall k :: 0 <= k < b.n ==> envelope[k] == DecayGain(b, sustain, sqrt, k)
    modifies envelope
    ensures forall k :: 0 <= k < b.n ==> envelope[k] == PreReleaseGain(b, sustain, sqrt, k)
  {
    // Slicing clips both bounds to the array, as numpy does.
    var lo := MinI(b.attackEnd + b.decayLen, b.n);
    var hi := MaxI(lo, MinI(b.sustainEnd, b.n));
    for j := lo to hi
      invariant forall k :: 0 <= k < b.n ==>
        envelope[k] == (if lo <= k < j then sustain else DecayGain(b, sustain, sqrt, k))
    {
      envelope[j] := sustain;
    }
  }

  method WriteRelease(envelope: array<real>, b: EnvelopeBounds, sustain: real, sqrt: real -> real)
    requires 0 <= b.attackEnd <= b.n == envelope.Length && b.decayLen >= 0 && b.releaseLen >= 0
    requires b.releaseLen > 0 ==> b.n > 0
    requires forall k :: 0 <= k < b.n ==> envelope[k] == PreReleaseGain(b, sustain, sqrt, k)
    modifies envelope
    ensures forall k :: 0 <= k < b.n ==> envelope[k] == EnvelopeGain(b, sustain, sqrt, k)
  {
    if b.releaseLen > 0 {
      var start := MaxI(0, b.n - b.releaseLen);
      var curve := Linspace(envelope[start], 0.0, b.n - start);
      assert curve == Linspace(PreReleaseGain(b, sustain, sqrt, start), 0.0, b.n - start);
      ghost var pre := envelope[..];
      for j := start to b.n
        invariant forall k :: start <= k < j ==> envelope[k] == Square(curve[k - start])
        invariant forall k :: 0 <= k < start || j <= k < b.n ==> envelope[k] == pre[k]
      {
        envelope[j] := Square(curve[j - start]);
      }
      forall k | 0 <= k < b.n
        ensures envelope[k] == EnvelopeGain(b, sustain, sqrt, k)
      {
        ReleaseGainAt(b, sustain, sqrt, curve, k);
      }
    }
  }

  lemma ReleaseGainAt(b: EnvelopeBounds, sustain: real, sqrt: real -> real, curve: seq<real>, k: int)
    requires 0 <= b.attackEnd <= b.n && b.decayLen >= 0 && b.releaseLen > 0 && 0 <= k < b.n
    requires curve == Linspace(PreReleaseGain(b, sustain, sqrt, MaxI(0, b.n - b.releaseLen)), 0.0, b.n - MaxI(0, b.n - b.releaseLen))
    ensures |curve| == b.n - MaxI(0, b.n - b.releaseLen)
    ensures EnvelopeGain(b, sustain, sqrt, k) ==
      if k >= MaxI(0, b.n - b.releaseLen) then Square(curve[k - MaxI(0, b.n - b.releaseLen)])
      else PreReleaseGain(b, sustain, sqrt, k)
  {
  }

  /** The buffer `apply_envelope` returns: each sample scaled by its envelope gain. */
  function Enveloped(wave: seq<real>, attack: real, decay: real, sustain: real, release: real,
                     sqrt: real -> real): (r: seq<real>)
    requires 0.0 <= attack <= 1.0 && decay >= 0.0 && release >= 0.0
    ensures |r| == |wave|
  {
    var b := Bounds(|wave|, attack, decay, release);
    seq(|wave|, j requires 0 <= j < |wave| => Gained(wave[j], EnvelopeGain(b, sustain, sqrt, j)))
  }

  /** `apply_envelope`: the wave multiplied sample by sample by the envelope array. */
  method ApplyEnvelope(wave: seq<real>, attack: real, decay: real, sustain: real, release: real,
                       sqrt: real -> real)
    returns (shaped: seq<real>)
    requires 0.0 <= attack <= 1.0 && decay >= 0.0 && release >= 0.0
    ensures shaped == Enveloped(wave, attack, decay, sustain, release, sqrt)
  {
    var envelope := BuildEnvelope(|wave|, attack, decay, sustain, release, sqrt);
    shaped := Product(wave, envelope[..]);
  }

  /** A sample scaled by a gain. */
  function Gained(x: real, g: real): real
  {
    x * g
  }

  /** Scaling by a gain in [0, 1] never increases a sample's magnitude. The sign cases are
      separate lemmas so that each solver query holds a single product fact. */
  lemma GainShrinks(x: real, g: real)
    requires 0.0 <= g <= 1.0
    ensures AbsR(Gained(x, g)) <= AbsR(x)
  {
    if x >= 0.0 {
      GainedNonNegative(x, g);
      GainedBelow(x, g);
    } else {
      GainShrinksNegative(x, g);
    }
  }

  lemma GainedNonNegative(x: real, g: real)
    requires 0.0 <= x && 0.0 <= g
    ensures 0.0 <= Gained(x, g)
  {
    MulLe(x, 0.0, g);
  }

  lemma GainedBelow(x: real, g: real)
    requires 0.0 <= x && g <= 1.0
    ensures Gained(x, g) <= x
  {
    MulLe(x, g, 1.0);
  }

  lemma GainShrinksNegative(x: real, g: real)
    requires x < 0.0 && 0.0 <= g <= 1.0
    ensures x <= Gained(x, g) <= 0.0
  {
    MulLe(-x, g, 1.0);
    MulLe(-x, 0.0, g);
    assert -x * g == -(x * g);
  }

  /** With a sustain level in [0, 1], the envelope never makes a sample louder. */
  lemma EnvelopeNeverAmplifies(wave: seq<real>, attack: real, decay: real,
                               sustain: real, release: real, sqrt: real -> real)
    requires 0.0 <= attack <= 1.0 && decay >= 0.0 && release >= 0.0
    requires 0.0 <= sustain <= 1.0 && IsSqrt(sqrt)
    ensures forall j :: 0 <= j < |wave| ==>
      AbsR(Enveloped(wave, attack, decay, sustain, release, sqrt)[j]) <= AbsR(wave[j])
  {
    var b := Bounds(|wave|, attack, decay, release);
    forall j | 0 <= j < |wave|
      ensures AbsR(Enveloped(wave, attack, decay, sustain, release, sqrt)[j]) <= AbsR(wave[j])
    {
      EnvelopeGainUnit(b, sustain, sqrt, j);
      GainShrinks(wave[j], EnvelopeGain(b, sustain, sqrt, j));
    }
  }

  // ---------------------------------------------------------------------------
  // Whole-array processing (audio_engine.py:171-261)
  // ---------------------------------------------------------------------------

  /** `wave - c`. */
  function Shift(w: seq<real>, c: real): (r: seq<real>)
    ensures |r| == |w|
  {
    seq(|w|, i requires 0 <= i < |w| => w[i] - c)
  }

  lemma {:induction false} SumShift(w: seq<real>, c: real)
    ensures Sum(Shift(w, c)) == Sum(w) - |w| as real * c
    decreases |w|
  {
    if w != [] {
      var n := |w|;
      SumShift(w[..n - 1], c);
      assert Shift(w, c)[..n - 1] == Shift(w[..n - 1], c);
    }
  }

  lemma MeanTimesCount(s: real, n: nat)
    requires n > 0
    ensures n as real * (s / n as real) == s
  {
  }

  /** `np.mean`. */
  function Mean(w: seq<real>): real
    requires |w| > 0
  {
    Sum(w) / |w| as real
  }

  /** `remove_dc_offset`: an empty buffer is returned as it is; otherwise the mean is
      subtracted, which leaves a buffer whose samples sum to zero. */
  function RemoveDcOffset(w: seq<real>): (r: seq<real>)
    ensures |r| == |w|
    ensures |w| == 0 ==> r == w
    ensures |w| > 0 ==> Sum(r) == 0.0 && Mean(r) == 0.0
  {
    if |w| > 0 then
      SumShift(w, Mean(w));
      MeanTimesCount(Sum(w), |w|);
      Shift(w, Mean(w))
    else w
  }

  /** One sample of `wave / max_val * target_amplitude`. */
  function Normalized(x: real, peak: real, target: real): real
    requires peak > 0.0
  {
    x / peak * target
  }

  /** `normalize_wave`. numpy's `max` rejects an empty array, hence the precondition. */
  function NormalizeWave(w: seq<real>, target: real): (r: seq<real>)
    requires |w| > 0
    ensures |r| == |w|
    ensures MaxAbs(w) == 0.0 ==> r == w
  {
    var peak := MaxAbs(w);
    if peak > 0.0 then seq(|w|, i requires 0 <= i < |w| => Normalized(w[i], peak, target)) else w
  }

  lemma NormalizedWithin(x: real, peak: real, t: real)
    requires peak > 0.0 && AbsR(x) <= peak && t >= 0.0
    ensures AbsR(Normalized(x, peak, t)) <= t
  {
    if x >= 0.0 {
      NormalizedWithinNonNegative(x, peak, t);
    } else {
      NormalizedWithinNonNegative(-x, peak, t);
      assert -x / peak * t == -(x / peak * t);
    }
  }

  lemma NormalizedWithinNonNegative(x: real, peak: real, t: real)
    requires peak > 0.0 && 0.0 <= x <= peak && t >= 0.0
    ensures 0.0 <= Normalized(x, peak, t) <= t
  {
    assert 0.0 <= x / peak <= 1.0;
    MulUnit(x / peak, t);
  }

  lemma NormalizedAtPeak(x: real, peak: real, t: real)
    requires peak > 0.0 && AbsR(x) == peak && t >= 0.0
    ensures AbsR(Normalized(x, peak, t)) == t
  {
    if x >= 0.0 {
      assert x / peak == 1.0;
    } else {
      assert x / peak == -1.0;
    }
  }

  lemma MaxAbsIs(w: seq<real>, t: real, k: int)
    requires 0 <= k < |w| && AbsR(w[k]) == t
    requires forall i :: 0 <= i < |w| ==> AbsR(w[i]) <= t
    ensures MaxAbs(w) == t
  {
  }

  /** Normalising a buffer that is not silent makes its peak magnitude exactly the target. */
  lemma NormalizeReachesTarget(w: seq<real>, target: real)
    requires |w| > 0 && target >= 0.0 && MaxAbs(w) > 0.0
    ensures MaxAbs(NormalizeWave(w, target)) == target
  {
    NormalizedBounded(w, target);
    var k := NormalizedPeak(w, target);
    MaxAbsIs(NormalizeWave(w, target), target, k);
  }

  lemma NormalizedBounded(w: seq<real>, target: real)
    requires |w| > 0 && target >= 0.0 && MaxAbs(w) > 0.0
    ensures forall i :: 0 <= i < |w| ==> AbsR(NormalizeWave(w, target)[i]) <= target
  {
    forall i | 0 <= i < |w|
      ensures AbsR(NormalizeWave(w, target)[i]) <= target
    {
      NormalizedWithin(w[i], MaxAbs(w), target);
    }
  }

  lemma NormalizedPeak(w: seq<real>, target: real) returns (k: int)
    requires |w| > 0 && target >= 0.0 && MaxAbs(w) > 0.0
    ensures 0 <= k < |w| && AbsR(NormalizeWave(w, target)[k]) == target
  {
    var peak := MaxAbs(w);
    k :| 0 <= k < |w| && AbsR(w[k]) == peak;
    NormalizedAtPeak(w[k], peak, target);
  }

  /** One sample of `apply_soft_clipping`: a sample beyond the threshold is bent back below it
      with `sign(x) * threshold * tanh(|x| / threshold)`. */
  function ClipSample(x: real, threshold: real, tanh: real -> real): real
    requires threshold > 0.0
  {
    if AbsR(x) > threshold then Sign(x) * threshold * tanh(AbsR(x) / threshold) else x
  }

  function SoftClip(w: seq<real>, threshold: real, tanh: real -> real): (r: seq<real>)
    requires threshold > 0.0
    ensures |r| == |w|
  {
    seq(|w|, i requires 0 <= i < |w| => ClipSample(w[i], threshold, tanh))
  }

  /** A clipped sample stays strictly inside the threshold; a sample within it is untouched. */
  lemma ClipSampleBound(x: real, threshold: real, tanh: real -> real)
    requires threshold > 0.0 && IsTanh(tanh)
    ensures AbsR(x) <= threshold ==> ClipSample(x, threshold, tanh) == x
    ensures AbsR(x) > threshold ==> AbsR(ClipSample(x, threshold, tanh)) < threshold
  {
    if AbsR(x) > threshold {
      var u := AbsR(x) / threshold;
      assert u > 0.0;
      var t := tanh(u);
      assert 0.0 <= t < 1.0;
      ClipMagnitude(Sign(x), threshold, t);
    }
  }

  lemma ClipMagnitude(sign: real, threshold: real, t: real)
    requires sign == 1.0 || sign == -1.0
    requires threshold > 0.0 && 0.0 <= t < 1.0
    ensures AbsR(sign * threshold * t) < threshold
  {
    MulLt(threshold, t, 1.0);
    MulLe(threshold, 0.0, t);
    if sign == 1.0 {
      assert sign * threshold * t == threshold * t;
    } else {
      assert sign * threshold * t == -(threshold * t);
    }
  }

  /** Soft clipping never makes a sample louder and leaves samples within the threshold alone. */
  lemma SoftClipNeverAmplifies(w: seq<real>, threshold: real, tanh: real -> real)
    requires threshold > 0.0 && IsTanh(tanh)
    ensures forall i :: 0 <= i < |w| ==> AbsR(SoftClip(w, threshold, tanh)[i]) <= AbsR(w[i])
    ensures forall i :: 0 <= i < |w| && AbsR(w[i]) <= threshold ==> SoftClip(w, threshold, tanh)[i] == w[i]
  {
    forall i | 0 <= i < |w|
      ensures AbsR(SoftClip(w, threshold, tanh)[i]) <= AbsR(w[i])
      ensures AbsR(w[i]) <= threshold ==> SoftClip(w, threshold, tanh)[i] == w[i]
    {
      ClipSampleBound(w[i], threshold, tanh);
    }
  }

  /** `apply_dithering`: `noise` is the `np.random.uniform(-amount, amount, len(wave))` draw. */
  function ApplyDithering(w: seq<real>, amount: real, noise: seq<real>): (r: seq<real>)
    requires |noise| == |w|
    requires forall i :: 0 <= i < |noise| ==> -amount <= noise[i] <= amount
    ensures |r| == |w|
    ensures forall i :: 0 <= i < |w| ==> AbsR(r[i] - w[i]) <= AbsR(amount)
  {
    if amount > 0.0 then seq(|w|, i requires 0 <= i < |w| => w[i] + noise[i]) else w
  }

  // ---------------------------------------------------------------------------
  // One-pole low-pass filter (audio_engine.py:239-254)
  // ---------------------------------------------------------------------------

  /** The first output sample, `x[0] * alpha`. */
  function PoleStart(alpha: real, x: real): real
  {
    x * alpha
  }

  /** One step of the recurrence `alpha * x + (1 - alpha) * previous`. */
  function PoleStep(alpha: real, x: real, previous: real): real
  {
    alpha * x + (1.0 - alpha) * previous
  }

  /** The filter's output as a function of its input: `y[0] = x[0] * alpha`, then one
      `PoleStep` per further sample. */
  function OnePole(x: seq<real>, alpha: real): (y: seq<real>)
    ensures |y| == |x|
    decreases |x|
  {
    if |x| == 0 then []
    else if |x| == 1 then [PoleStart(alpha, x[0])]
    else
      var p := OnePole(x[..|x| - 1], alpha);
      p + [PoleStep(alpha, x[|x| - 1], p[|p| - 1])]
  }

  /** The recurrence, stated index by index. */
  lemma {:induction false} OnePoleRecurrence(x: seq<real>, alpha: real)
    ensures |x| > 0 ==> OnePole(x, alpha)[0] == PoleStart(alpha, x[0])
    ensures forall i :: 1 <= i < |x| ==>
      OnePole(x, alpha)[i] == PoleStep(alpha, x[i], OnePole(x, alpha)[i - 1])
    decreases |x|
  {
    if |x| > 1 {
      var n := |x|;
      OnePoleRecurrence(x[..n - 1], alpha);
      assert OnePole(x, alpha)[..n - 1] == OnePole(x[..n - 1], alpha);
      forall i | 1 <= i < n - 1
        ensures OnePole(x, alpha)[i] == PoleStep(alpha, x[i], OnePole(x, alpha)[i - 1])
      {
        assert x[..n - 1][i] == x[i];
      }
    }
  }

  /** `alpha * x + (1 - alpha) * p` is the interpolation from p towards x. */
  lemma PoleStepIsLerp(alpha: real, x: real, p: real)
    ensures PoleStep(alpha, x, p) == Lerp(alpha, p, x)
  {
  }

  /** For 0 < alpha <= 1 the filter never leaves the input's amplitude bound. */
  lemma {:induction false} OnePoleBounded(x: seq<real>, alpha: real, bound: real)
    requires 0.0 < alpha <= 1.0
    requires forall i :: 0 <= i < |x| ==> AbsR(x[i]) <= bound
    ensures forall i :: 0 <= i < |x| ==> AbsR(OnePole(x, alpha)[i]) <= bound
    decreases |x|
  {
    var n := |x|;
    if n == 1 {
      GainShrinks(x[0], alpha);
    } else if n > 1 {
      var p := OnePole(x[..n - 1], alpha);
      OnePoleBounded(x[..n - 1], alpha, bound);
      PoleStepIsLerp(alpha, x[n - 1], p[n - 2]);
      LerpBetween(alpha, p[n - 2], x[n - 1], -bound, bound);
      assert OnePole(x, alpha) == p + [PoleStep(alpha, x[n - 1], p[n - 2])];
    }
  }

  function Nyquist(sampleRate: nat): real
  {
    sampleRate as real / 2.0
  }

  /** `cutoff / (cutoff + nyquist)`. */
  function FilterAlpha(cutoff: real, sampleRate: nat): real
    requires cutoff + Nyquist(sampleRate) != 0.0
  {
    cutoff / (cutoff + Nyquist(sampleRate))
  }

  /** A cutoff strictly between 0 and the Nyquist frequency gives a coefficient in (0, 1/2). */
  lemma FilterAlphaRange(cutoff: real, sampleRate: nat)
    requires 0.0 < cutoff < Nyquist(sampleRate)
    ensures 0.0 < FilterAlpha(cutoff, sampleRate) < 0.5
  {
    RatioPositive(cutoff, cutoff + Nyquist(sampleRate));
    RatioBelowHalf(cutoff, cutoff + Nyquist(sampleRate));
  }

  lemma RatioPositive(c: real, s: real)
    requires 0.0 < c && 0.0 < s
    ensures 0.0 < c / s
  {
  }

  lemma RatioBelowHalf(c: real, s: real)
    requires 0.0 < c && 2.0 * c < s
    ensures c / s < 0.5
  {
    var q := c / s;
    assert q * s == c;
    if q >= 0.5 {
      MulLe(s, 0.5, q);
    }
  }

  /** `apply_low_pass_filter`: the identity at or above the Nyquist frequency, otherwise the
      one-pole recurrence computed sample by sample. */
  method ApplyLowPassFilter(wave: seq<real>, cutoff: real, sampleRate: nat) returns (filtered: seq<real>)
    requires cutoff >= Nyquist(sampleRate) || cutoff + Nyquist(sampleRate) != 0.0
    ensures cutoff >= Nyquist(sampleRate) ==> filtered == wave
    ensures cutoff < Nyquist(sampleRate) ==> filtered == OnePole(wave, FilterAlpha(cutoff, sampleRate))
  {
    if cutoff >= Nyquist(sampleRate) {
      return wave;
    }
    filtered := OnePoleFilter(wave, FilterAlpha(cutoff, sampleRate));
  }

  /** The loop of `apply_low_pass_filter` for a given coefficient. */
  method OnePoleFilter(wave: seq<real>, alpha: real) returns (filtered: seq<real>)
    ensures filtered == OnePole(wave, alpha)
  {
    var y := new real[|wave|](_ => 0.0);
    if |wave| > 0 {
      y[0] := PoleStart(alpha, wave[0]);
      assert wave[..1] == [wave[0]];
      for i := 1 to |wave|
        invariant y[..i] == OnePole(wave[..i], alpha)
      {
        y[i] := PoleStep(alpha, wave[i], y[i - 1]);
        assert wave[..i + 1][..i] == wave[..i];
      }
    }
    assert wave[..|wave|] == wave;
    filtered := y[..];
  }

  /** Below the Nyquist frequency with a positive cutoff, a filtered buffer is bounded by the
      input's peak. */
  lemma LowPassBounded(wave: seq<real>, cutoff: real, sampleRate: nat, bound: real)
    requires 0.0 < cutoff < Nyquist(sampleRate)
    requires forall i :: 0 <= i < |wave| ==> AbsR(wave[i]) <= bound
    ensures forall i :: 0 <= i < |wave| ==> AbsR(OnePole(wave, FilterAlpha(cutoff, sampleRate))[i]) <= bound
  {
    FilterAlphaRange(cutoff, sampleRate);
    OnePoleBounded(wave, FilterAlpha(cutoff, sampleRate), bound);
  }

  // ---------------------------------------------------------------------------
  // Delay-line reverb (audio_engine.py:263-279)
  // ---------------------------------------------------------------------------

  /** The closed form of `add_reverb`: the dry sample plus one echo `d` samples back, scaled
      by `mix * feedback`. */
  function ReverbSample(wave: seq<real>, d: nat, feedback: real, mix: real, i: int): real
    requires 0 <= i < |wave|
  {
    if i >= d then wave[i] + mix * Echo(wave[i - d], feedback) else wave[i]
  }

  /** Mixing a delayed sample `dry + echo` back into the dry signal leaves `mix` of the echo. */
  lemma MixSample(w: real, r: real, echo: real, mix: real)
    requires r == w + echo
    ensures w * (1.0 - mix) + r * mix == w + mix * echo
  {
  }

  /** `int(delay * sample_rate)`, the delay in samples. */
  function DelaySamples(delay: real, sampleRate: nat): (d: nat)
    requires delay >= 0.0
    ensures d as real <= delay * sampleRate as real
  {
    MulLe(delay, 0.0, sampleRate as real);
    Trunc(delay * sampleRate as real)
  }

  /** `add_reverb`: a delay buffer `len + d` long receives the echoes, the dry and wet signals
      are mixed, and the result is cut back to the input's length. */
  method AddReverb(wave: seq<real>, delay: real, feedback: real, mix: real, sampleRate: nat)
    returns (out: seq<real>)
    requires delay >= 0.0
    ensures |out| == |wave|
    ensures forall i :: 0 <= i < |wave| ==>
      out[i] == ReverbSample(wave, DelaySamples(delay, sampleRate), feedback, mix, i)
  {
    var d := DelaySamples(delay, sampleRate);
    var reverb := DelayLine(wave, d, feedback);
    var final := MixDryWet(wave, reverb, mix);
    out := final[..|wave|];
    forall i | 0 <= i < |wave|
      ensures out[i] == ReverbSample(wave, d, feedback, mix, i)
    {
      if i >= d {
        MixSample(wave[i], reverb[i], Echo(wave[i - d], feedback), mix);
      } else {
        MixSample(wave[i], reverb[i], 0.0, mix);
      }
    }
  }

  /** One echo, `wave[i] * feedback`. */
  function Echo(x: real, feedback: real): real
  {
    x * feedback
  }

  /** The delay line: the dry signal followed by `d` zeros, with `wave[i] * feedback` added
      at index `i + d`. */
  method DelayLine(wave: seq<real>, d: nat, feedback: real) returns (reverb: array<real>)
    ensures fresh(reverb) && reverb.Length == |wave| + d
    ensures forall k {:trigger reverb[k]} :: 0 <= k < |wave| + d ==>
      reverb[k] == (if k < |wave| then wave[k] else 0.0) + (if d <= k then Echo(wave[k - d], feedback) else 0.0)
  {
    var n := |wave|;
    reverb := new real[n + d](k requires 0 <= k => if k < n then wave[k] else 0.0);
    for i := 0 to n
      invariant forall k {:trigger reverb[k]} :: 0 <= k < n + d ==>
        reverb[k] == (if k < n then wave[k] else 0.0) + (if d <= k < i + d then Echo(wave[k - d], feedback) else 0.0)
    {
      if i + d < n + d {
        reverb[i + d] := reverb[i + d] + Echo(wave[i], feedback);
      }
    }
  }

  /** `final[:len] = wave * (1 - mix)` followed by `final += reverb * mix`. */
  method MixDryWet(wave: seq<real>, reverb: array<real>, mix: real) returns (final: seq<real>)
    requires reverb.Length >= |wave|
    ensures |final| == reverb.Length
    ensures forall k :: 0 <= k < |wave| ==> final[k] == wave[k] * (1.0 - mix) + reverb[k] * mix
  {
    var out := new real[reverb.Length](_ => 0.0);
    for i := 0 to reverb.Length
      invariant forall k :: 0 <= k < i ==>
        out[k] == (if k < |wave| then wave[k] * (1.0 - mix) else 0.0) + reverb[k] * mix
    {
      out[i] := (if i < |wave| then wave[i] * (1.0 - mix) else 0.0) + reverb[i] * mix;
    }
    final := out[..];
  }

  // ---------------------------------------------------------------------------
  // Noise gate (audio_engine.py:178-199)
  // ---------------------------------------------------------------------------

  /** `int(0.01 * sample_rate)`, the gate's window length in samples. */
  function GateWindow(sampleRate: nat): nat
  {
    Trunc(0.01 * sampleRate as real)
  }

  /** `window ** 2`. */
  function Squares(w: seq<real>): (r: seq<real>)
    ensures |r| == |w|
  {
    seq(|w|, i requires 0 <= i < |w| => Square(w[i]))
  }

  /** `np.sqrt(np.mean(window ** 2))`. */
  function Rms(w: seq<real>, sqrt: real -> real): real
    requires |w| > 0
  {
    sqrt(Mean(Squares(w)))
  }

  /** The start of the window that holds sample j: the largest multiple of w not above j. */
  function WindowStart(j: nat, w: nat): (s: nat)
    requires w > 0
    ensures s <= j < s + w
  {
    DivBounds(j, w);
    (j / w) * w
  }

  lemma DivBounds(j: nat, w: nat)
    requires w > 0
    ensures 0 <= (j / w) * w <= j < (j / w) * w + w
  {
    assert j == (j / w) * w + j % w;
    MulLeInt(w, 0, j / w);
  }

  lemma MulLeInt(a: int, x: int, m: int)
    requires a >= 0 && x <= m
    ensures x * a <= m * a
  {
    assert m * a - x * a == (m - x) * a;
  }

  /** Every sample of the window that starts at `q * w` has that start as its window start. */
  lemma WindowStartOf(j: nat, q: nat, w: nat)
    requires w > 0 && q * w <= j < q * w + w
    ensures WindowStart(j, w) == q * w
  {
    var p := j / w;
    DivBounds(j, w);
    if p < q {
      MulLeInt(w, p + 1, q);
    } else if p > q {
      MulLeInt(w, q + 1, p);
    }
  }

  /** Samples at or after the window start `q * w` have their window start there or later. */
  lemma WindowStartAfter(j: nat, q: nat, w: nat)
    requires w > 0 && q * w <= j
    ensures q * w <= WindowStart(j, w)
  {
    var p := j / w;
    DivBounds(j, w);
    if p < q {
      MulLeInt(w, p + 1, q);
    }
  }

  /** The value a sample takes when the window starting at s is examined: if the window's RMS
      is below the threshold, the first `w // 4` samples fade from 1 to 0 and the rest of the
      window becomes silence; a window of fewer than four samples has no fade and is kept. */
  function WindowSample(wave: seq<real>, s: nat, w: nat, threshold: real, sqrt: real -> real, j: int): real
    requires w > 0 && s + w <= |wave| && s <= j < s + w
  {
    var fade := w / 4;
    if Rms(wave[s..s + w], sqrt) < threshold && fade > 0 then
      (if j - s < fade then Gained(wave[j], Linspace(1.0, 0.0, fade)[j - s]) else 0.0)
    else wave[j]
  }

  /** The gated value of sample j: only windows that start before `len(wave) - w` are
      examined (the range of the source's loop), so the tail is never gated. */
  function GatedSample(wave: seq<real>, w: nat, threshold: real, sqrt: real -> real, j: nat): real
    requires w > 0 && j < |wave|
  {
    var s := WindowStart(j, w);
    if s < |wave| - w then WindowSample(wave, s, w, threshold, sqrt, j) else wave[j]
  }

  function NoiseGate(wave: seq<real>, w: nat, threshold: real, sqrt: real -> real): (r: seq<real>)
    requires w > 0
    ensures |r| == |wave|
  {
    seq(|wave|, j requires 0 <= j < |wave| => GatedSample(wave, w, threshold, sqrt, j))
  }

  /** `apply_noise_gate`: walks the non-overlapping windows `range(0, len - w, w)` over a copy
      of the wave. A window length of 0 makes Python's `range` reject its step, hence the
      precondition. */
  method ApplyNoiseGate(wave: seq<real>, threshold: real, sampleRate: nat, sqrt: real -> real)
    returns (gated: seq<real>)
    requires GateWindow(sampleRate) > 0
    ensures gated == NoiseGate(wave, GateWindow(sampleRate), threshold, sqrt)
  {
    var w := GateWindow(sampleRate);
    var g := new real[|wave|](k requires 0 <= k < |wave| => wave[k]);
    var i := 0;
    ghost var q := 0;
    while i < |wave| - w
      invariant 0 <= i <= |wave| && i == q * w
      invariant forall j :: 0 <= j < i ==> g[j] == GatedSample(wave, w, threshold, sqrt, j)
      invariant forall j :: i <= j < |wave| ==> g[j] == wave[j]
      decreases |wave| - i
    {
      GateOneWindow(g, wave, i, w, threshold, sqrt);
      forall j | i <= j < i + w
        ensures g[j] == GatedSample(wave, w, threshold, sqrt, j)
      {
        GatedInWindow(wave, w, threshold, sqrt, q, j);
      }
      i := i + w;
      q := q + 1;
    }
    forall j | i <= j < |wave|
      ensures g[j] == GatedSample(wave, w, threshold, sqrt, j)
    {
      GatedInTail(wave, w, threshold, sqrt, q, j);
    }
    gated := g[..];
  }

  /** A sample of an examined window takes the value that window gives it. */
  lemma GatedInWindow(wave: seq<real>, w: nat, threshold: real, sqrt: real -> real, q: nat, j: nat)
    requires w > 0 && q * w <= j < q * w + w && q * w < |wave| - w
    ensures GatedSample(wave, w, threshold, sqrt, j) == WindowSample(wave, q * w, w, threshold, sqrt, j)
  {
    WindowStartOf(j, q, w);
  }

  /** Past the last examined window every sample keeps its value. */
  lemma GatedInTail(wave: seq<real>, w: nat, threshold: real, sqrt: real -> real, q: nat, j: nat)
    requires w > 0 && q * w <= j < |wave| && !(q * w < |wave| - w)
    ensures GatedSample(wave, w, threshold, sqrt, j) == wave[j]
  {
    WindowStartAfter(j, q, w);
  }

  /** One iteration of the gate's loop: the window `[i, i + w)` of the copy is faded and
      silenced when its RMS is below the threshold. */
  method GateOneWindow(g: array<real>, wave: seq<real>, i: nat, w: nat, threshold: real, sqrt: real -> real)
    requires g.Length == |wave| && w > 0 && i + w < |wave|
    requires forall j :: i <= j < i + w ==> g[j] == wave[j]
    modifies g
    ensures forall j :: 0 <= j < g.Length && !(i <= j < i + w) ==> g[j] == old(g[j])
    ensures forall j :: i <= j < i + w ==> g[j] == WindowSample(wave, i, w, threshold, sqrt, j)
  {
    var window := wave[i..i + w];
    var rms := Rms(window, sqrt);
    if rms < threshold {
      // `len(gated_wave) - i` exceeds w here, so the minimum is always `w // 4`.
      var fadeSamples := MinI(w / 4, g.Length - i);
      if fadeSamples > 0 {
        FadeWindow(g, wave, i, w, fadeSamples);
        forall j | i <= j < i + w
          ensures g[j] == WindowSample(wave, i, w, threshold, sqrt, j)
        {
          WindowSampleQuiet(wave, i, w, threshold, sqrt, j);
        }
        return;
      }
    }
    forall j | i <= j < i + w
      ensures g[j] == WindowSample(wave, i, w, threshold, sqrt, j)
    {
      WindowSampleKept(wave, i, w, threshold, sqrt, j);
    }
  }

  /** In a quiet window of at least four samples, the fade and then silence. */
  lemma WindowSampleQuiet(wave: seq<real>, s: nat, w: nat, threshold: real, sqrt: real -> real, j: int)
    requires w > 0 && s + w <= |wave| && s <= j < s + w
    requires Rms(wave[s..s + w], sqrt) < threshold && w / 4 > 0
    ensures WindowSample(wave, s, w, threshold, sqrt, j)
      == if j - s < w / 4 then Gained(wave[j], Linspace(1.0, 0.0, w / 4)[j - s]) else 0.0
  {
  }

  /** A loud window, or one of fewer than four samples, keeps its samples. */
  lemma WindowSampleKept(wave: seq<real>, s: nat, w: nat, threshold: real, sqrt: real -> real, j: int)
    requires w > 0 && s + w <= |wave| && s <= j < s + w
    requires !(Rms(wave[s..s + w], sqrt) < threshold) || w / 4 == 0
    ensures WindowSample(wave, s, w, threshold, sqrt, j) == wave[j]
  {
  }

  /** The faded and silenced window: `gated_wave[i:i + f] *= np.linspace(1, 0, f)`, then
      `gated_wave[i + f:i + w] = 0`. */
  method FadeWindow(g: array<real>, wave: seq<real>, i: nat, w: nat, f: nat)
    requires g.Length == |wave| && 0 < f <= w && i + w < |wave|
    requires forall j :: i <= j < i + w ==> g[j] == wave[j]
    modifies g
    ensures forall j :: 0 <= j < g.Length && !(i <= j < i + w) ==> g[j] == old(g[j])
    ensures forall j :: i <= j < i + w ==>
      g[j] == (if j - i < f then Gained(wave[j], Linspace(1.0, 0.0, f)[j - i]) else 0.0)
  {
    var fade := Linspace(1.0, 0.0, f);
    FadeSlice(g, wave, i, fade);
    SilenceSlice(g, i + f, i + w);
  }

  /** `gated_wave[i:i + len(fade)] *= fade` on a slice that still holds the input. */
  method FadeSlice(g: array<real>, wave: seq<real>, i: nat, fade: seq<real>)
    requires g.Length == |wave| && i + |fade| <= |wave|
    requires forall j :: i <= j < i + |fade| ==> g[j] == wave[j]
    modifies g
    ensures forall j :: 0 <= j < g.Length && !(i <= j < i + |fade|) ==> g[j] == old(g[j])
    ensures forall j :: i <= j < i + |fade| ==> g[j] == Gained(wave[j], fade[j - i])
  {
    for k := 0 to |fade|
      invariant forall j :: 0 <= j < g.Length && !(i <= j < i + k) ==> g[j] == old(g[j])
      invariant forall j :: i <= j < i + k ==> g[j] == Gained(wave[j], fade[j - i])
    {
      g[i + k] := Gained(g[i + k], fade[k]);
    }
  }

  /** `gated_wave[lo:hi] = 0`. */
  method SilenceSlice(g: array<real>, lo: nat, hi: nat)
    requires lo <= hi <= g.Length
    modifies g
    ensures forall j :: 0 <= j < g.Length && !(lo <= j < hi) ==> g[j] == old(g[j])
    ensures forall j :: lo <= j < hi ==> g[j] == 0.0
  {
    for k := lo to hi
      invariant forall j :: 0 <= j < g.Length && !(lo <= j < k) ==> g[j] == old(g[j])
      invariant forall j :: lo <= j < k ==> g[j] == 0.0
    {
      g[k] := 0.0;
    }
  }

  /** The gate never makes a sample louder: it keeps it, scales it by a fade factor in [0, 1],
      or silences it. */
  lemma NoiseGateNeverAmplifies(wave: seq<real>, w: nat, threshold: real, sqrt: real -> real)
    requires w > 0
    ensures forall j :: 0 <= j < |wave| ==> AbsR(NoiseGate(wave, w, threshold, sqrt)[j]) <= AbsR(wave[j])
  {
    forall j | 0 <= j < |wave|
      ensures AbsR(NoiseGate(wave, w, threshold, sqrt)[j]) <= AbsR(wave[j])
    {
      var s := WindowStart(j, w);
      var fade := w / 4;
      if s < |wave| - w && fade > 0 && j - s < fade {
        LinspaceBetween(1.0, 0.0, fade, 0.0, 1.0);
        GainShrinks(wave[j], Linspace(1.0, 0.0, fade)[j - s]);
      }
    }
  }

  /** A window whose RMS reaches the threshold passes through the gate untouched. */
  lemma LoudWindowPasses(wave: seq<real>, w: nat, threshold: real, sqrt: real -> real, j: nat)
    requires w > 0 && j < |wave|
    requires WindowStart(j, w) < |wave| - w
    requires Rms(wave[WindowStart(j, w)..WindowStart(j, w) + w], sqrt) >= threshold
    ensures NoiseGate(wave, w, threshold, sqrt)[j] == wave[j]
  {
  }

  // ---------------------------------------------------------------------------
  // The processing chain every synthesised buffer goes through (audio_engine.py:215-237)
  // ---------------------------------------------------------------------------

  /** The buffer `apply_low_pass_filter` returns. */
  function LowPass(wave: seq<real>, cutoff: real, sampleRate: nat): (r: seq<real>)
    requires cutoff >= 0.0
    ensures |r| == |wave|
  {
    if cutoff >= Nyquist(sampleRate) then wave else OnePole(wave, FilterAlpha(cutoff, sampleRate))
  }

  /** The dither draws are bounded by the dither amount. */
  ghost predicate DitherDraws(noise: seq<real>)
  {
    forall i :: 0 <= i < |noise| ==> -DitherAmount <= noise[i] <= DitherAmount
  }

  /** `apply_professional_processing` (DC removal is switched on in the engine): DC removal,
      low-pass at 8000 Hz, soft clipping at 0.9, the noise gate, dithering and normalisation
      to 0.7. `dither` is the uniform draw for the dithering step. */
  function Processed(wave: seq<real>, sampleRate: nat, lib: MathLib, dither: seq<real>): (r: seq<real>)
    requires |wave| > 0 && GateWindow(sampleRate) > 0
    requires |dither| == |wave| && DitherDraws(dither)
    ensures |r| == |wave|
  {
    var centred := RemoveDcOffset(wave);
    var filtered := LowPass(centred, 8000.0, sampleRate);
    var clipped := SoftClip(filtered, 0.9, lib.tanh);
    var gated := NoiseGate(clipped, GateWindow(sampleRate), NoiseGateThreshold, lib.sqrt);
    var dithered := ApplyDithering(gated, DitherAmount, dither);
    NormalizeWave(dithered, 0.7)
  }

  method ApplyProfessionalProcessing(wave: seq<real>, sampleRate: nat, lib: MathLib, dither: seq<real>)
    returns (out: seq<real>)
    requires |wave| > 0 && GateWindow(sampleRate) > 0
    requires |dither| == |wave| && DitherDraws(dither)
    ensures out == Processed(wave, sampleRate, lib, dither)
  {
    var w := RemoveDcOffset(wave);
    w := ApplyLowPassFilter(w, 8000.0, sampleRate);
    w := SoftClip(w, 0.9, lib.tanh);
    w := ApplyNoiseGate(w, NoiseGateThreshold, sampleRate, lib.sqrt);
    w := ApplyDithering(w, DitherAmount, dither);
    out := NormalizeWave(w, 0.7);
  }

  /** A processed buffer either peaks at exactly 0.7 or is silent. */
  lemma ProcessedPeak(wave: seq<real>, sampleRate: nat, lib: MathLib, dither: seq<real>)
    requires |wave| > 0 && GateWindow(sampleRate) > 0
    requires |dither| == |wave| && DitherDraws(dither)
    ensures MaxAbs(Processed(wave, sampleRate, lib, dither)) == 0.7
         || MaxAbs(Processed(wave, sampleRate, lib, dither)) == 0.0
  {
    var centred := RemoveDcOffset(wave);
    var filtered := LowPass(centred, 8000.0, sampleRate);
    var clipped := SoftClip(filtered, 0.9, lib.tanh);
    var gated := NoiseGate(clipped, GateWindow(sampleRate), NoiseGateThreshold, lib.sqrt);
    var dithered := ApplyDithering(gated, DitherAmount, dither);
    if MaxAbs(dithered) > 0.0 {
      NormalizeReachesTarget(dithered, 0.7);
    }
  }

  // ---------------------------------------------------------------------------
  // Chiptune composer (audio_engine.py:440-562)
  // ---------------------------------------------------------------------------

  /** A musical scale: seven note frequencies. */
  type NoteScale = seq<real>

  datatype Progression = Progression(name: string, chords: seq<string>, melodyPattern: seq<nat>,
                                     bassPattern: seq<nat>, tempo: nat)

  /** The five chord progressions of the engine, in order. */
  const Progressions: seq<Progression> := [
    Progression("Classic Arcade", ["C", "Am", "F", "G"], [0, 2, 4, 2, 0, 4, 2, 0], [0, 0, 0, 0, 2, 2, 0, 0], 140),
    Progression("Heroic Battle", ["Am", "F", "C", "G"], [0, 3, 2, 4, 3, 1, 2, 0], [0, 0, 2, 2, 0, 0, 1, 1], 160),
    Progression("Adventure Theme", ["C", "G", "Am", "F"], [0, 2, 4, 5, 4, 2, 1, 0], [0, 4, 0, 2, 0, 4, 0, 2], 120),
    Progression("Dark Underground", ["Dm", "Bb", "F", "C"], [0, 1, 3, 2, 4, 3, 1, 0], [0, 0, 0, 0, 3, 3, 0, 0], 110),
    Progression("Retro Fun", ["C", "E", "Am", "F"], [0, 4, 2, 3, 1, 2, 4, 0], [0, 2, 0, 1, 0, 2, 0, 1], 180)
  ]

  /** `len(progressions)`. */
  const ProgressionCount: nat := 5

  /** The chiptune scales, keyed by chord name. */
  const ChiptuneScales: map<string, NoteScale> := map[
    "C" := [261.63, 293.66, 329.63, 349.23, 392.00, 440.00, 493.88],
    "Am" := [220.00, 246.94, 261.63, 293.66, 329.63, 349.23, 392.00],
    "F" := [174.61, 196.00, 220.00, 233.08, 261.63, 293.66, 329.63],
    "G" := [196.00, 220.00, 246.94, 261.63, 293.66, 329.63, 369.99],
    "Dm" := [146.83, 164.81, 174.61, 196.00, 220.00, 233.08, 261.63],
    "Bb" := [116.54, 130.81, 146.83, 155.56, 174.61, 196.00, 220.00],
    "Em" := [164.81, 185.00, 196.00, 220.00, 246.94, 261.63, 293.66],
    "D" := [146.83, 164.81, 185.00, 196.00, 220.00, 246.94, 277.18],
    "E" := [164.81, 185.00, 207.65, 220.00, 246.94, 277.18, 311.13]
  ]

  const HarmonyPattern: seq<nat> := [2, 4, 1, 3]
  const BassRhythm: seq<real> := [1.0, 0.5, 1.0, 0.5, 1.0, 0.5, 1.0, 1.0]
  const TrackDuration: real := 16.0

  /** The tables the composer indexes: every progression has chords that name a scale, and its
      bass pattern indexes a scale directly (without `%`), so it must stay below seven. */
  ghost predicate WellFormed(p: Progression)
  {
    |p.chords| > 0 && |p.melodyPattern| > 0 && |p.bassPattern| > 0
    && (forall c :: c in p.chords ==> c in ChiptuneScales && |ChiptuneScales[c]| == 7)
    && (forall b :: b in p.bassPattern ==> b < 7)
  }

  lemma ProgressionsWellFormed()
    ensures forall k :: 0 <= k < |Progressions| ==> WellFormed(Progressions[k])
  {
    forall k | 0 <= k < |Progressions|
      ensures WellFormed(Progressions[k])
    {
      ProgressionWellFormed(k);
    }
  }

  lemma ProgressionWellFormed(k: nat)
    requires k < |Progressions|
    ensures WellFormed(Progressions[k])
  {
    var p := Progressions[k];
    forall c | c in p.chords
      ensures c in ChiptuneScales && |ChiptuneScales[c]| == 7
    {
      ScaleOf(c);
    }
  }

  lemma ScaleOf(c: string)
    requires c in {"C", "Am", "F", "G", "Dm", "Bb", "E"}
    ensures c in ChiptuneScales && |ChiptuneScales[c]| == 7
  {
  }

  /** `np.sin(np.linspace(0, rate * 2 * pi, n)) * depth`. */
  function Vibrato(lib: MathLib, n: nat): (r: seq<real>)
    ensures |r| == n
  {
    var phases := Linspace(0.0, VibratoRate * 2.0 * lib.pi, n);
    seq(n, i requires 0 <= i < n => lib.sin(phases[i]) * VibratoDepth)
  }

  /** `int(d * sample_rate)` is non-negative for a non-negative duration. */
  lemma FrameCountNonNegative(duration: real, sampleRate: nat)
    requires duration >= 0.0
    ensures FrameCount(duration, sampleRate) >= 0
  {
    MulLe(duration, 0.0, sampleRate as real);
  }

  /** One melody note: a 25% pulse with vibrato `note * (1 + vibrato)` and a short envelope. */
  function MelodyNote(frequency: real, noteDuration: real, sampleRate: nat, lib: MathLib): (r: seq<real>)
    requires sampleRate > 0 && noteDuration >= 0.0
    ensures |r| == FrameCount(noteDuration, sampleRate)
  {
    FrameCountNonNegative(noteDuration, sampleRate);
    var pulse := PulseWave(frequency, noteDuration, 0.25, sampleRate);
    var vibrato := Vibrato(lib, FrameCount(noteDuration, sampleRate));
    var shaped := Product(pulse, seq(|vibrato|, i requires 0 <= i < |vibrato| => 1.0 + vibrato[i]));
    Enveloped(shaped, 0.001, 0.05, 0.8, 0.1, lib.sqrt)
  }

  /** The melody of one chord: the notes of `pattern`, each looked up as
      `scale[index % len(scale)]`, one after another. */
  function Melody(scale: NoteScale, pattern: seq<nat>, noteDuration: real, sampleRate: nat, lib: MathLib): seq<real>
    requires |scale| > 0 && sampleRate > 0 && noteDuration >= 0.0
  {
    if pattern == [] then []
    else
      var k := |pattern| - 1;
      Melody(scale, pattern[..k], noteDuration, sampleRate, lib)
        + MelodyNote(scale[pattern[k] % |scale|], noteDuration, sampleRate, lib)
  }

  /** `create_chiptune_melody`. */
  method CreateChiptuneMelody(scale: NoteScale, pattern: seq<nat>, duration: real, sampleRate: nat, lib: MathLib)
    returns (melody: seq<real>)
    requires |scale| > 0 && |pattern| > 0 && sampleRate > 0 && duration >= 0.0
    ensures melody == Melody(scale, pattern, duration / |pattern| as real, sampleRate, lib)
  {
    var noteDuration := duration / |pattern| as real;
    FrameCountNonNegative(noteDuration, sampleRate);
    melody := [];
    for k := 0 to |pattern|
      invariant melody == Melody(scale, pattern[..k], noteDuration, sampleRate, lib)
    {
      var frequency := scale[pattern[k] % |scale|];
      var note := GeneratePulseWave(frequency, noteDuration, 0.25, sampleRate);
      var vibrato := Vibrato(lib, FrameCount(noteDuration, sampleRate));
      note := Product(note, seq(|vibrato|, i requires 0 <= i < |vibrato| => 1.0 + vibrato[i]));
      note := ApplyEnvelope(note, 0.001, 0.05, 0.8, 0.1, lib.sqrt);
      assert pattern[..k + 1][..k] == pattern[..k];
      melody := melody + note;
    }
    assert pattern[..|pattern|] == pattern;
  }

  /** One harmony note: a 12.5% pulse with a more sustained envelope. */
  function HarmonyNote(frequency: real, noteDuration: real, sampleRate: nat, sqrt: real -> real): (r: seq<real>)
    requires sampleRate > 0 && noteDuration >= 0.0
    ensures |r| == FrameCount(noteDuration, sampleRate)
  {
    FrameCountNonNegative(noteDuration, sampleRate);
    Enveloped(PulseWave(frequency, noteDuration, 0.125, sampleRate), 0.01, 0.1, 0.6, 0.2, sqrt)
  }

  function Harmony(scale: NoteScale, pattern: seq<nat>, noteDuration: real, sampleRate: nat, sqrt: real -> real): seq<real>
    requires |scale| > 0 && sampleRate > 0 && noteDuration >= 0.0
  {
    if pattern == [] then []
    else
      var k := |pattern| - 1;
      Harmony(scale, pattern[..k], noteDuration, sampleRate, sqrt)
        + HarmonyNote(scale[pattern[k] % |scale|], noteDuration, sampleRate, sqrt)
  }

  /** `create_chiptune_harmony`: the fixed pattern [2, 4, 1, 3] over the scale. */
  method CreateChiptuneHarmony(scale: NoteScale, duration: real, sampleRate: nat, sqrt: real -> real)
    returns (harmony: seq<real>)
    requires |scale| > 0 && sampleRate > 0 && duration >= 0.0
    ensures harmony == Harmony(scale, HarmonyPattern, duration / 4.0, sampleRate, sqrt)
  {
    var noteDuration := duration / |HarmonyPattern| as real;
    harmony := [];
    for k := 0 to |HarmonyPattern|
      invariant harmony == Harmony(scale, HarmonyPattern[..k], noteDuration, sampleRate, sqrt)
    {
      var frequency := scale[HarmonyPattern[k] % |scale|];
      FrameCountNonNegative(noteDuration, sampleRate);
      var note := GeneratePulseWave(frequency, noteDuration, 0.125, sampleRate);
      note := ApplyEnvelope(note, 0.01, 0.1, 0.6, 0.2, sqrt);
      assert HarmonyPattern[..k + 1][..k] == HarmonyPattern[..k];
      harmony := harmony + note;
    }
    assert HarmonyPattern[..|HarmonyPattern|] == HarmonyPattern;
  }

  /** One bass beat: a triangle scaled by the beat's amplitude with a percussive envelope, or
      silence for a zero amplitude. */
  function BassBeat(frequency: real, beatDuration: real, amplitude: real, sampleRate: nat, sqrt: real -> real): (r: seq<real>)
    requires sampleRate > 0 && beatDuration >= 0.0
    ensures |r| == FrameCount(beatDuration, sampleRate)
  {
    FrameCountNonNegative(beatDuration, sampleRate);
    if amplitude > 0.0 then
      Enveloped(Scale(TriangleWave(frequency, beatDuration, sampleRate), amplitude), 0.001, 0.02, 0.7, 0.1, sqrt)
    else seq(FrameCount(beatDuration, sampleRate), _ => 0.0)
  }

  function Bass(frequency: real, rhythm: seq<real>, beatDuration: real, sampleRate: nat, sqrt: real -> real): seq<real>
    requires sampleRate > 0 && beatDuration >= 0.0
  {
    if rhythm == [] then []
    else
      var k := |rhythm| - 1;
      Bass(frequency, rhythm[..k], beatDuration, sampleRate, sqrt)
        + BassBeat(frequency, beatDuration, rhythm[k], sampleRate, sqrt)
  }

  /** `create_chiptune_bass`: eight beats of the rhythm [1, .5, 1, .5, 1, .5, 1, 1]. */
  method CreateChiptuneBass(frequency: real, duration: real, sampleRate: nat, sqrt: real -> real)
    returns (bass: seq<real>)
    requires sampleRate > 0 && duration >= 0.0
    ensures bass == Bass(frequency, BassRhythm, duration / 8.0, sampleRate, sqrt)
  {
    var beatDuration := duration / |BassRhythm| as real;
    FrameCountNonNegative(beatDuration, sampleRate);
    bass := [];
    for k := 0 to |BassRhythm|
      invariant bass == Bass(frequency, BassRhythm[..k], beatDuration, sampleRate, sqrt)
    {
      var amplitude := BassRhythm[k];
      var beat;
      if amplitude > 0.0 {
        beat := GenerateTriangleWave(frequency, beatDuration, sampleRate);
        beat := Scale(beat, amplitude);
        beat := ApplyEnvelope(beat, 0.001, 0.02, 0.7, 0.1, sqrt);
      } else {
        beat := seq(FrameCount(beatDuration, sampleRate), _ => 0.0);
      }
      assert BassRhythm[..k + 1][..k] == BassRhythm[..k];
      bass := bass + beat;
    }
    assert BassRhythm[..|BassRhythm|] == BassRhythm;
  }

  /** Every note of a melody, harmony or bass line has the same length, so a line of n notes
      is n times that long. */
  lemma {:induction false} MelodyLength(scale: NoteScale, pattern: seq<nat>, noteDuration: real, sampleRate: nat, lib: MathLib)
    requires |scale| > 0 && sampleRate > 0 && noteDuration >= 0.0
    ensures |Melody(scale, pattern, noteDuration, sampleRate, lib)| == |pattern| * FrameCount(noteDuration, sampleRate)
    decreases |pattern|
  {
    if pattern != [] {
      var k := |pattern| - 1;
      MelodyLength(scale, pattern[..k], noteDuration, sampleRate, lib);
      AddOneTimes(k, FrameCount(noteDuration, sampleRate));
    }
  }

  lemma {:induction false} HarmonyLength(scale: NoteScale, pattern: seq<nat>, noteDuration: real, sampleRate: nat, sqrt: real -> real)
    requires |scale| > 0 && sampleRate > 0 && noteDuration >= 0.0
    ensures |Harmony(scale, pattern, noteDuration, sampleRate, sqrt)| == |pattern| * FrameCount(noteDuration, sampleRate)
    decreases |pattern|
  {
    if pattern != [] {
      var k := |pattern| - 1;
      HarmonyLength(scale, pattern[..k], noteDuration, sampleRate, sqrt);
      AddOneTimes(k, FrameCount(noteDuration, sampleRate));
    }
  }

  lemma {:induction false} BassLength(frequency: real, rhythm: seq<real>, beatDuration: real, sampleRate: nat, sqrt: real -> real)
    requires sampleRate > 0 && beatDuration >= 0.0
    ensures |Bass(frequency, rhythm, beatDuration, sampleRate, sqrt)| == |rhythm| * FrameCount(beatDuration, sampleRate)
    decreases |rhythm|
  {
    if rhythm != [] {
      var k := |rhythm| - 1;
      BassLength(frequency, rhythm[..k], beatDuration, sampleRate, sqrt);
      AddOneTimes(k, FrameCount(beatDuration, sampleRate));
    }
  }

  lemma AddOneTimes(k: nat, f: int)
    ensures (k + 1) * f == k * f + f
  {
  }

  /** The three channels of a segment cut to their common length and mixed with the NES-style
      channel volumes 0.4, 0.3 and 0.5. */
  function MixChannels(melody: seq<real>, harmony: seq<real>, bass: seq<real>): (r: seq<real>)
    ensures |r| == MinI(MinI(|melody|, |harmony|), |bass|)
    ensures forall i :: 0 <= i < |r| ==>
      r[i] == melody[i] * Pulse1Volume + harmony[i] * Pulse2Volume + bass[i] * TriangleVolume
  {
    var n := MinI(MinI(|melody|, |harmony|), |bass|);
    seq(n, i requires 0 <= i < n => melody[i] * Pulse1Volume + harmony[i] * Pulse2Volume + bass[i] * TriangleVolume)
  }

  /** The length of each chord, `duration / len(chord_progression)`. */
  function ChordDuration(p: Progression): (d: real)
    requires |p.chords| > 0
    ensures d > 0.0
  {
    TrackDuration / |p.chords| as real
  }

  function ChordScale(p: Progression, i: nat): (scale: NoteScale)
    requires WellFormed(p) && i < |p.chords|
    ensures |scale| == 7
  {
    assert p.chords[i] in p.chords;
    ChiptuneScales[p.chords[i]]
  }

  /** The bass frequency for chord i: `scale[bass_pattern[i % len(bass_pattern)]]`. */
  function BassFrequency(p: Progression, i: nat): real
    requires WellFormed(p) && i < |p.chords|
  {
    assert p.bassPattern[i % |p.bassPattern|] in p.bassPattern;
    ChordScale(p, i)[p.bassPattern[i % |p.bassPattern|]]
  }

  /** The three channels of one chord, cut to their common length and mixed. */
  function MixedChord(scale: NoteScale, melodyPattern: seq<nat>, chordDuration: real, bassFrequency: real,
                      sampleRate: nat, lib: MathLib): seq<real>
    requires |scale| > 0 && |melodyPattern| > 0 && chordDuration >= 0.0 && sampleRate > 0
  {
    MixChannels(
      Melody(scale, melodyPattern, chordDuration / |melodyPattern| as real, sampleRate, lib),
      Harmony(scale, HarmonyPattern, chordDuration / 4.0, sampleRate, lib.sqrt),
      Bass(bassFrequency, BassRhythm, chordDuration / 8.0, sampleRate, lib.sqrt))
  }

  /** The mixed segment for chord `i` of a progression. */
  function Segment(p: Progression, i: nat, sampleRate: nat, lib: MathLib): seq<real>
    requires WellFormed(p) && i < |p.chords| && sampleRate > 0
  {
    MixedChord(ChordScale(p, i), p.melodyPattern, ChordDuration(p), BassFrequency(p, i), sampleRate, lib)
  }

  /** One iteration of `create_background_music`'s loop: the three channels for chord i, cut
      to their common length and mixed. */
  method ComposeSegment(p: Progression, i: nat, sampleRate: nat, lib: MathLib) returns (segment: seq<real>)
    requires WellFormed(p) && i < |p.chords| && sampleRate > 0
    ensures segment == Segment(p, i, sampleRate, lib)
  {
    var chordDuration := ChordDuration(p);
    var scale := ChordScale(p, i);
    var bassFrequency := BassFrequency(p, i);
    var melody := CreateChiptuneMelody(scale, p.melodyPattern, chordDuration, sampleRate, lib);
    var harmony := CreateChiptuneHarmony(scale, chordDuration, sampleRate, lib.sqrt);
    var bass := CreateChiptuneBass(bassFrequency, chordDuration, sampleRate, lib.sqrt);
    segment := MixChannels(melody, harmony, bass);
    MixedChordOf(scale, p.melodyPattern, chordDuration, bassFrequency, sampleRate, lib, melody, harmony, bass);
  }

  lemma MixedChordOf(scale: NoteScale, melodyPattern: seq<nat>, chordDuration: real, bassFrequency: real,
                     sampleRate: nat, lib: MathLib, melody: seq<real>, harmony: seq<real>, bass: seq<real>)
    requires |scale| > 0 && |melodyPattern| > 0 && chordDuration >= 0.0 && sampleRate > 0
    requires melody == Melody(scale, melodyPattern, chordDuration / |melodyPattern| as real, sampleRate, lib)
    requires harmony == Harmony(scale, HarmonyPattern, chordDuration / 4.0, sampleRate, lib.sqrt)
    requires bass == Bass(bassFrequency, BassRhythm, chordDuration / 8.0, sampleRate, lib.sqrt)
    ensures MixedChord(scale, melodyPattern, chordDuration, bassFrequency, sampleRate, lib) == MixChannels(melody, harmony, bass)
  {
  }

  /** The first `k` segments of a progression, concatenated. */
  function Track(p: Progression, k: nat, sampleRate: nat, lib: MathLib): seq<real>
    requires WellFormed(p) && k <= |p.chords| && sampleRate > 0
  {
    if k == 0 then [] else Track(p, k - 1, sampleRate, lib) + Segment(p, k - 1, sampleRate, lib)
  }

  /** `track_number % len(progressions)`: Python's modulo, non-negative for any track number. */
  function ProgressionIndex(trackNumber: int): (k: nat)
    ensures k < ProgressionCount
  {
    trackNumber % ProgressionCount
  }

  /** The progression a track number selects. */
  function ProgressionFor(trackNumber: int): (p: Progression)
    ensures WellFormed(p)
  {
    ProgressionsWellFormed();
    assert |Progressions| == ProgressionCount;
    Progressions[ProgressionIndex(trackNumber)]
  }

  /** The first n dithering draws. */
  function DitherSamples(dither: nat -> real, n: nat): (noise: seq<real>)
    requires forall i: nat :: -DitherAmount <= dither(i) <= DitherAmount
    ensures |noise| == n && DitherDraws(noise)
  {
    seq(n, i requires 0 <= i => dither(i))
  }

  /** The buffer `create_background_music` hands to the mixer: the full track, processed and
      scaled by 0.25 when it is not silent. `dither` is the dithering draw. */
  function BackgroundMusic(trackNumber: int, sampleRate: nat, lib: MathLib, dither: nat -> real): seq<real>
    requires GateWindow(sampleRate) > 0
    requires forall i: nat :: -DitherAmount <= dither(i) <= DitherAmount
  {
    var p := ProgressionFor(trackNumber);
    var full := Track(p, |p.chords|, sampleRate, lib);
    if MaxAbs(full) > 0.0 then Scale(ProcessedTrack(trackNumber, sampleRate, lib, dither), 0.25) else full
  }

  /** The full track after `apply_professional_processing`, which runs only when the track is
      not silent, before the background volume. */
  function ProcessedTrack(trackNumber: int, sampleRate: nat, lib: MathLib, dither: nat -> real): (r: seq<real>)
    requires GateWindow(sampleRate) > 0
    requires forall i: nat :: -DitherAmount <= dither(i) <= DitherAmount
    ensures MaxAbs(r) == 0.7 || MaxAbs(r) == 0.0
  {
    var p := ProgressionFor(trackNumber);
    var full := Track(p, |p.chords|, sampleRate, lib);
    if MaxAbs(full) > 0.0 then
      var noise := DitherSamples(dither, |full|);
      ProcessedPeak(full, sampleRate, lib, noise);
      Processed(full, sampleRate, lib, noise)
    else full
  }

  /** `create_background_music` without the final conversion to a mixer sound. */
  method CreateBackgroundMusic(trackNumber: int, sampleRate: nat, lib: MathLib, dither: nat -> real)
    returns (track: seq<real>)
    requires GateWindow(sampleRate) > 0
    requires forall i: nat :: -DitherAmount <= dither(i) <= DitherAmount
    ensures track == BackgroundMusic(trackNumber, sampleRate, lib, dither)
  {
    var p := ProgressionFor(trackNumber);
    track := [];
    for i := 0 to |p.chords|
      invariant track == Track(p, i, sampleRate, lib)
    {
      var segment := ComposeSegment(p, i, sampleRate, lib);
      track := track + segment;
    }
    if MaxAbs(track) > 0.0 {
      var processed := ApplyProfessionalProcessing(track, sampleRate, lib, DitherSamples(dither, |track|));
      track := Scale(processed, 0.25);
    }
  }

  /** `create_background_music` with the division of `wave_to_pygame_sound`: the track as
      the mixer receives it, at full scale. */
  method BackgroundSound(trackNumber: int, sampleRate: nat, lib: MathLib, dither: nat -> real)
    returns (sound: seq<real>)
    requires GateWindow(sampleRate) > 0
    requires forall i: nat :: -DitherAmount <= dither(i) <= DitherAmount
    ensures sound == PeakScaled(BackgroundMusic(trackNumber, sampleRate, lib, dither))
  {
    var track := CreateBackgroundMusic(trackNumber, sampleRate, lib, dither);
    sound := PeakScaled(track);
  }

  /** The background music, before its conversion to a mixer sound, either peaks at exactly
      0.7 * 0.25 or is silent. */
  lemma BackgroundMusicPeak(trackNumber: int, sampleRate: nat, lib: MathLib, dither: nat -> real)
    requires GateWindow(sampleRate) > 0
    requires forall i: nat :: -DitherAmount <= dither(i) <= DitherAmount
    ensures MaxAbs(BackgroundMusic(trackNumber, sampleRate, lib, dither)) == 0.175
         || MaxAbs(BackgroundMusic(trackNumber, sampleRate, lib, dither)) == 0.0
  {
    var p := ProgressionFor(trackNumber);
    var full := Track(p, |p.chords|, sampleRate, lib);
    if MaxAbs(full) > 0.0 {
      MaxAbsQuarter(ProcessedTrack(trackNumber, sampleRate, lib, dither));
    }
  }

  /** Scaling by the background volume 0.25 scales the peak by 0.25. */
  lemma MaxAbsQuarter(w: seq<real>)
    ensures MaxAbs(Scale(w, 0.25)) == 0.25 * MaxAbs(w)
  {
    if |w| > 0 {
      var m := MaxAbs(w);
      var k :| 0 <= k < |w| && AbsR(w[k]) == m;
      MaxAbsIs(Scale(w, 0.25), 0.25 * m, k);
    } else {
      assert Scale(w, 0.25) == [];
    }
  }

  /** The division of `wave_to_pygame_sound`: a buffer that is not silent is divided by its
      peak magnitude, so the mixer always receives it at full scale. */
  function PeakScaled(w: seq<real>): (r: seq<real>)
    ensures |r| == |w|
    ensures MaxAbs(w) == 0.0 ==> r == w
  {
    var peak := MaxAbs(w);
    if peak > 0.0 then seq(|w|, i requires 0 <= i < |w| => w[i] / peak) else w
  }

  /** After the division a buffer either peaks at exactly 1 or was silent and is unchanged. */
  lemma PeakScaledPeak(w: seq<real>)
    ensures MaxAbs(PeakScaled(w)) == 1.0 || (MaxAbs(w) == 0.0 && PeakScaled(w) == w)
  {
    if MaxAbs(w) > 0.0 {
      assert |w| > 0;
      assert PeakScaled(w) == NormalizeWave(w, 1.0) by {
        forall i | 0 <= i < |w|
          ensures PeakScaled(w)[i] == NormalizeWave(w, 1.0)[i]
        {
        }
      }
      NormalizeReachesTarget(w, 1.0);
    }
  }

  /** The division undoes any positive gain applied before it: scaling a buffer that is not
      silent by 0.25 leaves what the mixer receives unchanged. */
  lemma QuarterUndone(w: seq<real>)
    requires MaxAbs(w) > 0.0
    ensures PeakScaled(Scale(w, 0.25)) == PeakScaled(w)
  {
    MaxAbsQuarter(w);
    var m := MaxAbs(w);
    var q := Scale(w, 0.25);
    assert MaxAbs(q) == 0.25 * m;
    forall i | 0 <= i < |w|
      ensures PeakScaled(q)[i] == PeakScaled(w)[i]
    {
      calc {
        PeakScaled(q)[i];
        q[i] / (0.25 * m);
        (w[i] * 0.25) / (0.25 * m);
        { QuarterCancels(w[i], m); }
        w[i] / m;
        PeakScaled(w)[i];
      }
    }
  }

  lemma QuarterCancels(x: real, m: real)
    requires m > 0.0
    ensures (x * 0.25) / (0.25 * m) == x / m
  {
    var a := x / m;
    assert x == a * m;
    assert x * 0.25 == a * (0.25 * m);
  }

  /** `(wave_array * 32767).astype(np.int16)`: each sample scaled to 16 bits and truncated
      toward zero; a buffer within [-1, 1] never leaves the 16-bit range. */
  function Int16Samples(w: seq<real>): (r: seq<int>)
    ensures |r| == |w|
    ensures MaxAbs(w) <= 1.0 ==> forall i :: 0 <= i < |r| ==> -32767 <= r[i] <= 32767
  {
    seq(|w|, i requires 0 <= i < |w| => Trunc(w[i] * 32767.0))
  }

  /** `wave_to_pygame_sound` up to the stereo copy: the samples of the sound made from a
      buffer, always within the 16-bit range, with a sample at 32767 or -32767 unless the
      buffer is silent. */
  function WaveToSound(w: seq<real>): (r: seq<int>)
    ensures |r| == |w|
    ensures forall i :: 0 <= i < |r| ==> -32767 <= r[i] <= 32767
  {
    PeakScaledPeak(w);
    Int16Samples(PeakScaled(w))
  }

  /** What the mixer plays for `create_background_music`: the track at full scale whenever it
      is not silent, the same buffer as the processed track without the 0.25 background
      volume. */
  lemma BackgroundSoundPeak(trackNumber: int, sampleRate: nat, lib: MathLib, dither: nat -> real)
    requires GateWindow(sampleRate) > 0
    requires forall i: nat :: -DitherAmount <= dither(i) <= DitherAmount
    ensures MaxAbs(PeakScaled(BackgroundMusic(trackNumber, sampleRate, lib, dither))) == 1.0
         || MaxAbs(BackgroundMusic(trackNumber, sampleRate, lib, dither)) == 0.0
    ensures PeakScaled(BackgroundMusic(trackNumber, sampleRate, lib, dither))
         == PeakScaled(ProcessedTrack(trackNumber, sampleRate, lib, dither))
  {
    var music := BackgroundMusic(trackNumber, sampleRate, lib, dither);
    var processed := ProcessedTrack(trackNumber, sampleRate, lib, dither);
    PeakScaledPeak(music);
    var p := ProgressionFor(trackNumber);
    var full := Track(p, |p.chords|, sampleRate, lib);
    if MaxAbs(full) > 0.0 {
      assert music == Scale(processed, 0.25);
      if MaxAbs(processed) > 0.0 {
        QuarterUndone(processed);
      } else {
        SilentScale(processed, 0.25);
      }
    } else {
      assert music == full && processed == full;
    }
  }

  /** Scaling a silent buffer leaves it as it is. */
  lemma SilentScale(w: seq<real>, c: real)
    requires MaxAbs(w) == 0.0
    ensures Scale(w, c) == w
  {
    forall i | 0 <= i < |w|
      ensures Scale(w, c)[i] == w[i]
    {
      assert AbsR(w[i]) <= 0.0;
    }
  }

  // ---------------------------------------------------------------------------
  // Engine state: sound cache, channels, volume and track rotation
  // (audio_engine.py:8-40, 608-666)
  // ---------------------------------------------------------------------------

  /** A mixer channel as the engine sees it: its volume, the buffer it last started (None once
      stopped) and the loop count it was started with (-1 loops forever). */
  datatype Channel = Channel(gain: real, playing: Option<seq<real>>, loops: int)

  const IdleChannel: Channel := Channel(1.0, None, 0)

  /** The names `play_sound` knows how to synthesise. */
  const KnownSounds: set<string> := {"laser", "explosion", "enemy_hit", "powerup", "engine"}

  /** The sound cache after `play_sound(name)`: a known name that is not cached yet is
      synthesised once; everything else leaves the cache as it was. */
  function Cached(cache: map<string, seq<real>>, name: string, synth: string -> seq<real>): (r: map<string, seq<real>>)
    ensures name in KnownSounds ==> name in r
    ensures name in cache ==> r == cache
    ensures name !in KnownSounds ==> r == cache
  {
    if name !in cache && name in KnownSounds then cache[name := synth(name)] else cache
  }

  /** A cached sound is never synthesised again: a second `play_sound` of the same name keeps
      the buffer of the first, whatever the synthesiser would produce now. */
  lemma CachedAtMostOnce(cache: map<string, seq<real>>, name: string, first: string -> seq<real>,
                         second: string -> seq<real>)
    ensures Cached(Cached(cache, name, first), name, second) == Cached(cache, name, first)
  {
  }

  /** Only the five known names ever enter the cache. */
  lemma CachedKeysKnown(cache: map<string, seq<real>>, name: string, synth: string -> seq<real>)
    requires cache.Keys <= KnownSounds
    ensures Cached(cache, name, synth).Keys <= KnownSounds
  {
  }

  /** `(current_track + 1) % len(progressions)`. */
  function NextTrack(track: int): (r: nat)
    ensures r < ProgressionCount
  {
    (track + 1) % ProgressionCount
  }

  /** After n iterations of the music loop from track t the current track is `(t + n) % 5`,
      so five iterations play every progression once and come back to t. */
  lemma {:induction false} TrackRotation(t: nat, n: nat)
    requires t < ProgressionCount
    ensures Iterate(t, n) == (t + n) % ProgressionCount
    decreases n
  {
    if n > 0 {
      TrackRotation(t, n - 1);
      ModStep(t + n - 1);
    }
  }

  /** The current track after n iterations of the music loop. */
  function Iterate(t: nat, n: nat): nat
  {
    if n == 0 then t else NextTrack(Iterate(t, n - 1))
  }

  lemma ModStep(k: nat)
    ensures (k % ProgressionCount + 1) % ProgressionCount == (k + 1) % ProgressionCount
  {
  }

  class AudioEngine {
    const sampleRate: nat
    const channels: nat
    var volume: real
    var musicChannel: Channel
    var sfxChannel: Channel
    var ambientChannel: Channel
    var currentTrack: nat
    var soundCache: map<string, seq<real>>
    var musicRunning: bool

    ghost predicate Valid()
      reads this
    {
      0.0 <= volume <= 1.0 && currentTrack < ProgressionCount && soundCache.Keys <= KnownSounds
    }

    /** `AudioEngine.__init__`; the mixer initialisation itself is outside the model. */
    constructor (sampleRate: nat, channels: nat)
      ensures Valid()
      ensures this.sampleRate == sampleRate && this.channels == channels
      ensures volume == InitialVolume && currentTrack == 0 && soundCache == map[] && !musicRunning
      ensures musicChannel == IdleChannel && sfxChannel == IdleChannel && ambientChannel == IdleChannel
    {
      this.sampleRate := sampleRate;
      this.channels := channels;
      volume := InitialVolume;
      musicChannel := IdleChannel;
      sfxChannel := IdleChannel;
      ambientChannel := IdleChannel;
      currentTrack := 0;
      soundCache := map[];
      musicRunning := false;
    }

    /** `play_sound`: `synth` stands for the `create_*_sound` synthesiser of each known name.
        The engine loop plays on the ambient channel forever; every other sound plays once on
        the sfx channel; an unknown name does nothing. */
    method PlaySound(name: string, synth: string -> seq<real>)
      requires Valid()
      modifies this
      ensures Valid()
      ensures soundCache == Cached(old(soundCache), name, synth)
      ensures name !in soundCache ==> sfxChannel == old(sfxChannel) && ambientChannel == old(ambientChannel)
      ensures name in soundCache && name == "engine" ==>
        ambientChannel == old(ambientChannel).(playing := Some(soundCache[name]), loops := -1)
        && sfxChannel == old(sfxChannel)
      ensures name in soundCache && name != "engine" ==>
        sfxChannel == old(sfxChannel).(playing := Some(soundCache[name]), loops := 0)
        && ambientChannel == old(ambientChannel)
      ensures volume == old(volume) && musicChannel == old(musicChannel)
      ensures currentTrack == old(currentTrack) && musicRunning == old(musicRunning)
    {
      if name !in soundCache {
        if name == "laser" || name == "explosion" || name == "enemy_hit" || name == "powerup" || name == "engine" {
          soundCache := soundCache[name := synth(name)];
        }
      }
      if name in soundCache {
        if name == "engine" {
          ambientChannel := ambientChannel.(playing := Some(soundCache[name]), loops := -1);
        } else {
          sfxChannel := sfxChannel.(playing := Some(soundCache[name]), loops := 0);
        }
      }
    }

    /** `set_volume`: clamps to [0, 1], then sets the music, sfx and ambient channel volumes
        to 0.3, 0.7 and 0.2 of it. */
    method SetVolume(v: real)
      requires Valid()
      modifies this
      ensures Valid()
      ensures volume == ClampR(v, 0.0, 1.0)
      ensures musicChannel == old(musicChannel).(gain := volume * 0.3)
      ensures sfxChannel == old(sfxChannel).(gain := volume * 0.7)
      ensures ambientChannel == old(ambientChannel).(gain := volume * 0.2)
      ensures 0.0 <= musicChannel.gain <= 0.3 && 0.0 <= sfxChannel.gain <= 0.7 && 0.0 <= ambientChannel.gain <= 0.2
      ensures soundCache == old(soundCache) && currentTrack == old(currentTrack) && musicRunning == old(musicRunning)
    {
      volume := MaxR(0.0, MinR(1.0, v));
      musicChannel := musicChannel.(gain := volume * 0.3);
      sfxChannel := sfxChannel.(gain := volume * 0.7);
      ambientChannel := ambientChannel.(gain := volume * 0.2);
    }

    /** `start_background_music`: sets the running flag unless it is set already (the music
        thread it starts is modelled by `MusicLoopStep`). */
    method StartBackgroundMusic()
      requires Valid()
      modifies this
      ensures Valid()
      ensures musicRunning
      ensures volume == old(volume) && soundCache == old(soundCache) && currentTrack == old(currentTrack)
      ensures musicChannel == old(musicChannel) && sfxChannel == old(sfxChannel) && ambientChannel == old(ambientChannel)
    {
      if !musicRunning {
        musicRunning := true;
      }
    }

    /** `stop_background_music`: clears the flag and stops the music channel. */
    method StopBackgroundMusic()
      requires Valid()
      modifies this
      ensures Valid()
      ensures !musicRunning && musicChannel == old(musicChannel).(playing := None)
      ensures volume == old(volume) && soundCache == old(soundCache) && currentTrack == old(currentTrack)
      ensures sfxChannel == old(sfxChannel) && ambientChannel == old(ambientChannel)
    {
      musicRunning := false;
      musicChannel := musicChannel.(playing := None);
    }

    /** One iteration of `_music_loop` while the flag is set: the current track is composed,
        turned into a sound by `wave_to_pygame_sound` (which divides it by its peak) and started
        on the music channel, and the loop moves on to the next progression. The channel holds
        the sound's samples at full scale, before the 16-bit conversion. The wait for the
        channel to finish is not modelled. */
    method MusicLoopStep(lib: MathLib, dither: nat -> real)
      requires Valid() && musicRunning && GateWindow(sampleRate) > 0
      requires forall i: nat :: -DitherAmount <= dither(i) <= DitherAmount
      modifies this`musicChannel, this`currentTrack
      ensures Valid()
      ensures musicChannel.playing == Some(PeakScaled(BackgroundMusic(old(currentTrack), sampleRate, lib, dither)))
      ensures musicChannel.loops == 0 && musicChannel.gain == old(musicChannel.gain)
      ensures currentTrack == NextTrack(old(currentTrack))
      ensures volume == old(volume) && soundCache == old(soundCache) && musicRunning == old(musicRunning)
      ensures sfxChannel == old(sfxChannel) && ambientChannel == old(ambientChannel)
    {
      var sound := BackgroundSound(currentTrack, sampleRate, lib, dither);
      musicChannel := musicChannel.(playing := Some(sound), loops := 0);
      currentTrack := NextTrack(currentTrack);
    }
  }
}
