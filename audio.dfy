// The audio signal pipeline of effects/audioAnalyzer/AudioAnalyzer.js: the
// 32-band averaging of the analyser's byte spectrum, the bass-driven beat rule
// with its 200 ms cooldown, the capped beat history of the BeatDetector, and
// the clamped setters and normalised level getters. The Web Audio graph is not
// modelled: the spectrum the analyser would write and the current time are
// passed in.
module Audio {
  import opened Wrappers
  import Arith

  /** One entry of a Uint8Array. */
  type Byte = b: int | 0 <= b < 256

  /** The analyser's frequency data: `frequencyBinCount` bytes, never empty. */
  type Spectrum = s: seq<Byte> | |s| > 0 witness [0]

  const FrequencyBands: nat := 32
  const BeatCooldown: int := 200
  const HistoryLimit: nat := 10
  const DefaultBeatThreshold: real := 0.3

  function Min(a: real, b: real): real { if a <= b then a else b }
  function Max(a: real, b: real): real { if a >= b then a else b }


  /** Sum of a sequence, taken from the left as `reduce` and the `for` loops do. */
  function Sum(s: seq<int>): int
  {
    if s == [] then 0 else Sum(s[..|s| - 1]) + s[|s| - 1]
  }

  lemma {:induction false} SumBounds(s: seq<Byte>)
    ensures 0 <= Sum(s) <= 255 * |s|
  {
    if s != [] {
      SumBounds(s[..|s| - 1]);
    }
  }

  lemma SumOfFour(s: seq<int>)
    requires |s| == 4
    ensures Sum(s) == s[0] + s[1] + s[2] + s[3]
  {
    assert s[..1][..0] == [] && s[..2][..1] == s[..1] && s[..3][..2] == s[..2] && s[..3] == s[..|s| - 1];
    assert Sum(s[..1]) == s[0];
    assert Sum(s[..2]) == Sum(s[..1]) + s[1];
    assert Sum(s[..3]) == Sum(s[..2]) + s[2];
  }

  lemma SumAppend(s: seq<int>, x: int)
    ensures Sum(s + [x]) == Sum(s) + x
  {
    assert (s + [x])[..|s|] == s;
  }

  /** The Uint8Array store of a non-negative number: the integer part, modulo 256. */
  function ToUint8(x: real): (b: Byte)
    requires x >= 0.0
    ensures x < 256.0 ==> b == x.Floor
  {
    x.Floor % 256
  }

  lemma FloorOfQuotient(a: int, c: int)
    requires c > 0
    ensures (a as real / c as real).Floor == a / c
  {
    var q, m := a / c, a % c;
    var cr := c as real;
    assert (a as real) == (q as real) * cr + (m as real);
    assert (q as real) * cr <= a as real < ((q + 1) as real) * cr;
    Arith.RealDivBounds(q as real, a as real, (q + 1) as real, cr);
  }

  /** `Math.floor(bufferLength / frequencyBands)` */
  function BandSize(len: nat): nat
  {
    len / FrequencyBands
  }

  /** First bin of band i. */
  function BandStart(len: nat, i: nat): nat
  {
    i * BandSize(len)
  }

  /** `Math.min(start + bandSize, bufferLength)`: one past the last bin of band i. */
  function BandEnd(len: nat, i: nat): (end: nat)
    requires i < FrequencyBands
    ensures BandStart(len, i) <= end <= len
  {
    var bs := BandSize(len);
    Arith.MulLe(bs, i, FrequencyBands - 1);
    if i * bs + bs <= len then i * bs + bs else len
  }

  /** Storing `sum / count` into a byte keeps the floor of the mean. */
  lemma MeanByte(sum: int, count: nat)
    requires count > 0 && 0 <= sum <= 255 * count
    ensures ToUint8(sum as real / count as real) == sum / count
    ensures (sum / count) * count <= sum < (sum / count + 1) * count
  {
    FloorOfQuotient(sum, count);
    Arith.DivMonotone(sum, 255 * count, count);
    assert (255 * count) / count == 255;
  }

  /**
   * Band i: the mean of the bytes over [BandStart, BandEnd) stored into a
   * byte. With fewer than 32 bytes the band is empty and its mean, NaN, is
   * stored as 0.
   */
  function Band(data: seq<Byte>, i: nat): (b: Byte)
    requires i < FrequencyBands
    ensures var start, end := BandStart(|data|, i), BandEnd(|data|, i);
            (start == end ==> b == 0)
            && (start < end ==> b * (end - start) <= Sum(data[start..end]) < (b + 1) * (end - start))
  {
    var start, end := BandStart(|data|, i), BandEnd(|data|, i);
    if start == end then 0
    else
      var slice := data[start..end];
      SumBounds(slice);
      MeanByte(Sum(slice), end - start);
      ToUint8(Sum(slice) as real / (end - start) as real)
  }

  /** The 32 band values computed from one spectrum. */
  function Bands(data: seq<Byte>): (bands: seq<Byte>)
    ensures |bands| == FrequencyBands
    ensures forall i :: 0 <= i < FrequencyBands ==> bands[i] == Band(data, i)
  {
    seq(FrequencyBands, i requires 0 <= i < FrequencyBands => Band(data, i))
  }

  /** Every full band of a spectrum of n * 32 bytes covers exactly n bins. */
  lemma BandsPartitionSpectrum(data: seq<Byte>, i: nat)
    requires |data| % FrequencyBands == 0 && i < FrequencyBands
    ensures BandSize(|data|) * FrequencyBands == |data|
    ensures i * BandSize(|data|) + BandSize(|data|) <= |data|
  {
    Arith.MulLe(BandSize(|data|), i + 1, FrequencyBands);
  }

  /** A flat spectrum of at least 32 bins gives the same flat value in every band. */
  lemma FlatSpectrumBands(data: seq<Byte>, v: Byte, i: nat)
    requires |data| >= FrequencyBands && i < FrequencyBands
    requires forall k :: 0 <= k < |data| ==> data[k] == v
    ensures Band(data, i) == v
  {
    var start, end := BandStart(|data|, i), BandEnd(|data|, i);
    var bs := BandSize(|data|);
    assert bs >= 1;
    Arith.MulLe(bs, i + 1, FrequencyBands);
    assert i * bs + bs <= |data|;
    assert end - start == bs;
    FlatSum(data[start..end], v);
    var b := Band(data, i);
    assert b * bs <= v * bs < (b + 1) * bs;
    Arith.MulSandwich(b, v, bs);
  }

  lemma {:induction false} FlatSum(s: seq<int>, v: int)
    requires forall k :: 0 <= k < |s| ==> s[k] == v
    ensures Sum(s) == v * |s|
  {
    if s != [] {
      FlatSum(s[..|s| - 1], v);
    }
  }

  /** `bassSum / 4`: the mean of the first four bands. */
  function BassAverage(bands: seq<Byte>): (avg: real)
    requires |bands| >= 4
    ensures 0.0 <= avg <= 255.0
  {
    SumBounds(bands[..4]);
    Sum(bands[..4]) as real / 4.0
  }

  /** The beat rule: the bass mean exceeds the threshold and more than 200 ms have passed. */
  predicate IsBeat(avg: real, threshold: real, now: int, lastBeatTime: int)
  {
    avg > threshold && now - lastBeatTime > BeatCooldown
  }

  /**
   * The bass mean is a byte mean (0..255) while the threshold is kept in
   * [0, 1]: any first-four-band sum of at least 5 passes the level test,
   * whatever the threshold is set to.
   */
  lemma ThresholdIsBelowOneByte(bands: seq<Byte>, threshold: real, now: int, last: int)
    requires |bands| >= 4 && 0.0 <= threshold <= 1.0
    requires Sum(bands[..4]) >= 5 && now - last > BeatCooldown
    ensures IsBeat(BassAverage(bands), threshold, now, last)
  {
  }

  datatype Beat = Beat(time: int, intensity: real)

  /**
   * A beat history as the analyser's beat rule leaves it: consecutive
   * beats are more than the cooldown apart, and the newest one happened at
   * `last`, the analyser's last beat time.
   */
  ghost predicate Spaced(history: seq<Beat>, last: int)
  {
    && (forall k :: 0 < k < |history| ==> history[k].time > history[k - 1].time + BeatCooldown)
    && (|history| > 0 ==> history[|history| - 1].time == last)
  }

  /** A beat the rule lets through keeps the history spaced: it comes more than 200 ms after the newest one. */
  lemma BeatsStaySpaced(history: seq<Beat>, last: int, avg: real, threshold: real, now: int)
    requires |history| <= HistoryLimit && Spaced(history, last)
    requires IsBeat(avg, threshold, now, last)
    ensures Spaced(PushBeat(history, Beat(now, avg)), now)
  {
    var pushed := history + [Beat(now, avg)];
    assert Spaced(pushed, now) by {
      forall k | 0 < k < |pushed|
        ensures pushed[k].time > pushed[k - 1].time + BeatCooldown
      {
        if k < |history| {
          assert pushed[k] == history[k] && pushed[k - 1] == history[k - 1];
        }
      }
    }
    if |pushed| > HistoryLimit {
      var h := pushed[1..];
      forall k | 0 < k < |h|
        ensures h[k].time > h[k - 1].time + BeatCooldown
      {
        assert h[k] == pushed[k + 1] && h[k - 1] == pushed[k];
      }
    }
  }

  datatype BeatInfo = BeatInfo(isBeat: bool, intensity: real, timeSinceLastBeat: int)

  /** `push` then, past ten entries, `shift`: the newest ten beats, oldest first. */
  function PushBeat(history: seq<Beat>, b: Beat): (h: seq<Beat>)
    requires |history| <= HistoryLimit
    ensures |h| == if |history| < HistoryLimit then |history| + 1 else HistoryLimit
    ensures h[|h| - 1] == b
    ensures h[..|h| - 1] == history[|history| + 1 - |h|..]
  {
    var pushed := history + [b];
    if |pushed| > HistoryLimit then pushed[1..] else pushed
  }

  /** Intensity of the latest beat, or 0 when there is none. */
  function LatestIntensity(history: seq<Beat>): real
  {
    if |history| > 0 then history[|history| - 1].intensity else 0.0
  }

  /** Any run of beats keeps the history within ten entries and ends with the last beat. */
  lemma {:induction false} HistoryRunBounded(history: seq<Beat>, beats: seq<Beat>)
    requires |history| <= HistoryLimit
    ensures |PushAll(history, beats)| <= HistoryLimit
    ensures beats != [] ==> LatestIntensity(PushAll(history, beats)) == beats[|beats| - 1].intensity
    decreases |beats|
  {
    if beats != [] {
      HistoryRunBounded(history, beats[..|beats| - 1]);
    }
  }

  function PushAll(history: seq<Beat>, beats: seq<Beat>): seq<Beat>
    requires |history| <= HistoryLimit
    decreases |beats|
  {
    if beats == [] then history
    else
      var before := PushAll(history, beats[..|beats| - 1]);
      if |before| <= HistoryLimit then PushBeat(before, beats[|beats| - 1]) else before
  }

  /** The simple beat detector kept by the analyser. */
  class BeatDetector {
    var beatHistory: seq<Beat>
    var beatThreshold: real
    var lastBeatTime: int
    var isBeat: bool

    predicate Valid()
      reads this`beatHistory
    {
      |beatHistory| <= HistoryLimit
    }

    constructor ()
      ensures Valid()
      ensures beatHistory == [] && beatThreshold == DefaultBeatThreshold
      ensures lastBeatTime == 0 && !isBeat
    {
      beatHistory := [];
      beatThreshold := DefaultBeatThreshold;
      lastBeatTime := 0;
      isBeat := false;
    }

    method OnBeat(intensity: real, now: int)
      requires Valid()
      modifies this
      ensures Valid()
      ensures isBeat && lastBeatTime == now
      ensures beatHistory == PushBeat(old(beatHistory), Beat(now, intensity))
      ensures beatThreshold == old(beatThreshold)
    {
      isBeat := true;
      lastBeatTime := now;
      beatHistory := beatHistory + [Beat(lastBeatTime, intensity)];
      if |beatHistory| > HistoryLimit {
        beatHistory := beatHistory[1..];
      }
    }

    /** Read and reset: reports the flag, then clears it. */
    method GetBeat(now: int) returns (info: BeatInfo)
      modifies this`isBeat
      ensures info == BeatInfo(old(isBeat), LatestIntensity(beatHistory), now - lastBeatTime)
      ensures !isBeat
      ensures beatHistory == old(beatHistory) && lastBeatTime == old(lastBeatTime)
      ensures beatThreshold == old(beatThreshold)
    {
      info := BeatInfo(isBeat, LatestIntensity(beatHistory), now - lastBeatTime);
      isBeat := false;
    }
  }

  /** The HTML audio element's settable properties. */
  class MediaElement {
    var volume: real
    var currentTime: real

    constructor ()
      ensures volume == 1.0 && currentTime == 0.0
    {
      volume := 1.0;
      currentTime := 0.0;
    }
  }

  /** The analyser, as a set: empty when none is attached. */
  function Attached(a: AudioAnalyzer?): set<AudioAnalyzer>
  {
    if a == null then {} else {a}
  }

  /** The beat detector of the attached analyser, as a set. */
  function DetectorOf(a: AudioAnalyzer?): set<BeatDetector>
  {
    if a == null then {} else {a.beatDetector}
  }

  class AudioAnalyzer {
    /** Whether `initialize` created the analyser node. */
    var analyserReady: bool
    var audioElement: MediaElement?
    var frequencyData: Option<Spectrum>
    var lastBeatTime: int
    var beatThreshold: real
    var isPlaying: bool
    var volume: real
    var currentTime: real
    var duration: real
    const beatDetector: BeatDetector
    const frequencyDataArray: array<Byte>

    predicate Valid()
      reads this`analyserReady, this`frequencyData, beatDetector`beatHistory
    {
      frequencyDataArray.Length == FrequencyBands
      && (analyserReady ==> frequencyData.Some?)
      && beatDetector.Valid()
    }

    constructor ()
      ensures Valid() && fresh(beatDetector) && fresh(frequencyDataArray)
      ensures !analyserReady && audioElement == null && frequencyData == None
      ensures lastBeatTime == 0 && beatThreshold == DefaultBeatThreshold
      ensures !isPlaying && volume == 1.0 && currentTime == 0.0 && duration == 0.0
      ensures frequencyDataArray[..] == seq(FrequencyBands, _ => 0)
      ensures beatDetector.beatHistory == [] && !beatDetector.isBeat
    {
      analyserReady := false;
      audioElement := null;
      frequencyData := None;
      lastBeatTime := 0;
      beatThreshold := DefaultBeatThreshold;
      isPlaying := false;
      volume := 1.0;
      currentTime := 0.0;
      duration := 0.0;
      beatDetector := new BeatDetector();
      frequencyDataArray := new Byte[FrequencyBands](_ => 0);
    }

    method SetVolume(v: real)
      modifies this`volume, audioElement
      ensures volume == Arith.Clamp(0.0, 1.0, v)
      ensures audioElement != null ==>
        audioElement.volume == volume && audioElement.currentTime == old(audioElement.currentTime)
    {
      volume := Max(0.0, Min(1.0, v));
      if audioElement != null {
        audioElement.volume := volume;
      }
    }

    /** Seeks within [0, duration]; without an audio element nothing happens. */
    method SeekTo(time: real)
      modifies audioElement
      ensures audioElement != null ==>
        audioElement.currentTime == Max(0.0, Min(duration, time))
        && audioElement.volume == old(audioElement.volume)
      ensures audioElement != null && duration >= 0.0 ==>
        0.0 <= audioElement.currentTime <= duration
    {
      if audioElement != null {
        audioElement.currentTime := Max(0.0, Min(duration, time));
      }
    }

    method SetBeatThreshold(threshold: real)
      modifies this`beatThreshold
      ensures beatThreshold == Arith.Clamp(0.0, 1.0, threshold)
    {
      beatThreshold := Max(0.0, Min(1.0, threshold));
    }

    /**
     * One analysis frame. Without an analyser or while not playing nothing
     * changes; otherwise the analyser's spectrum is taken, the bands are
     * recomputed and the beat rule is applied.
     */
    method Update(now: int, spectrum: Spectrum)
      requires Valid()
      requires analyserReady ==> |spectrum| == |frequencyData.value|
      modifies this, frequencyDataArray, beatDetector
      ensures Valid()
      ensures !(analyserReady && old(isPlaying)) ==>
        unchanged(this) && unchanged(frequencyDataArray) && unchanged(beatDetector)
      ensures analyserReady && old(isPlaying) ==>
        frequencyData == Some(spectrum) && frequencyDataArray[..] == Bands(spectrum)
        && var avg := BassAverage(Bands(spectrum));
           if IsBeat(avg, beatThreshold, now, old(lastBeatTime)) then
             lastBeatTime == now
             && beatDetector.isBeat && beatDetector.lastBeatTime == now
             && beatDetector.beatHistory == PushBeat(old(beatDetector.beatHistory), Beat(now, avg))
           else
             lastBeatTime == old(lastBeatTime) && unchanged(beatDetector)
      ensures analyserReady == old(analyserReady) && isPlaying == old(isPlaying)
      ensures beatThreshold == old(beatThreshold) && audioElement == old(audioElement)
      ensures volume == old(volume) && currentTime == old(currentTime) && duration == old(duration)
      ensures beatDetector.beatThreshold == old(beatDetector.beatThreshold)
      ensures old(Spaced(beatDetector.beatHistory, lastBeatTime)) ==> Spaced(beatDetector.beatHistory, lastBeatTime)
    {
      if !analyserReady || !isPlaying {
        return;
      }
      frequencyData := Some(spectrum);
      UpdateFrequencyBands();
      ghost var history, last := beatDetector.beatHistory, lastBeatTime;
      UpdateBeatDetection(now);
      if Spaced(history, last) && IsBeat(BassAverage(frequencyDataArray[..]), beatThreshold, now, last) {
        BeatsStaySpaced(history, last, BassAverage(frequencyDataArray[..]), beatThreshold, now);
      }
    }

    /** Rewrites the 32 bands from the current spectrum, one band per iteration. */
    method UpdateFrequencyBands()
      requires frequencyDataArray.Length == FrequencyBands && frequencyData.Some?
      modifies frequencyDataArray
      ensures frequencyDataArray[..] == Bands(frequencyData.value)
    {
      var data := frequencyData.value;
      var len := |data|;
      for i := 0 to FrequencyBands
        invariant forall k :: 0 <= k < i ==> frequencyDataArray[k] == Band(data, k)
      {
        var start, end := BandStart(len, i), BandEnd(len, i);
        var sum := SumRange(data, start, end);
        if start == end {
          frequencyDataArray[i] := 0;
        } else {
          SumBounds(data[start..end]);
          frequencyDataArray[i] := ToUint8(sum as real / (end - start) as real);
        }
      }
    }

    /** The inner loop of updateFrequencyBands: the sum of the bins in [start, end). */
    static method SumRange(data: seq<Byte>, start: nat, end: nat) returns (sum: int)
      requires start <= end <= |data|
      ensures sum == Sum(data[start..end])
    {
      sum := 0;
      for j := start to end
        invariant sum == Sum(data[start..j])
      {
        assert data[start..j + 1] == data[start..j] + [data[j]];
        SumAppend(data[start..j], data[j]);
        sum := sum + data[j];
      }
    }

    method UpdateBeatDetection(now: int)
      requires Valid()
      modifies this`lastBeatTime, beatDetector
      ensures Valid()
      ensures beatThreshold == old(beatThreshold) && beatDetector.beatThreshold == old(beatDetector.beatThreshold)
      ensures var avg := BassAverage(frequencyDataArray[..]);
        if IsBeat(avg, beatThreshold, now, old(lastBeatTime)) then
          lastBeatTime == now && beatDetector.isBeat && beatDetector.lastBeatTime == now
          && beatDetector.beatHistory == PushBeat(old(beatDetector.beatHistory), Beat(now, avg))
        else
          lastBeatTime == old(lastBeatTime) && unchanged(beatDetector)
    {
      var bassSum := frequencyDataArray[0] as int + frequencyDataArray[1] as int
                     + frequencyDataArray[2] as int + frequencyDataArray[3] as int;
      SumOfFour(frequencyDataArray[..][..4]);
      var bassAverage := bassSum as real / 4.0;
      if bassAverage > beatThreshold && now - lastBeatTime > BeatCooldown {
        lastBeatTime := now;
        beatDetector.OnBeat(bassAverage, now);
      }
    }

    method GetBeat(now: int) returns (info: BeatInfo)
      modifies beatDetector`isBeat
      ensures info == BeatInfo(old(beatDetector.isBeat), LatestIntensity(beatDetector.beatHistory),
                               now - beatDetector.lastBeatTime)
      ensures !beatDetector.isBeat && beatDetector.beatHistory == old(beatDetector.beatHistory)
      ensures beatDetector.lastBeatTime == old(beatDetector.lastBeatTime)
      ensures beatDetector.beatThreshold == old(beatDetector.beatThreshold)
    {
      info := beatDetector.GetBeat(now);
    }

    /** getVolumeLevel: the mean spectrum byte over 255, 0 before initialisation. */
    function VolumeLevel(): (level: real)
      reads this`frequencyData
    {
      match frequencyData
      case None => 0.0
      case Some(data) => Level(data)
    }

    function BassLevel(): (level: real)
      requires Valid()
      reads this`analyserReady, this`frequencyData, beatDetector`beatHistory, frequencyDataArray
    {
      BassOf(frequencyDataArray[..])
    }

    function TrebleLevel(): (level: real)
      requires Valid()
      reads this`analyserReady, this`frequencyData, beatDetector`beatHistory, frequencyDataArray
    {
      TrebleOf(frequencyDataArray[..])
    }
  }

  /** `sum / length / 255` over a spectrum. */
  function Level(data: Spectrum): (level: real)
    ensures 0.0 <= level <= 1.0
    ensures level == 0.0 <==> forall k :: 0 <= k < |data| ==> data[k] == 0
    ensures level == 1.0 <==> forall k :: 0 <= k < |data| ==> data[k] == 255
  {
    SumBounds(data);
    ExtremeSums(data);
    var n := |data| as real;
    var s := Sum(data) as real;
    Arith.RealDivAtMost(s, 255.0, n);
    s / n / 255.0
  }

  /** The sum is 0 exactly when every byte is 0, and 255 per byte exactly when every byte is 255. */
  lemma {:induction false} ExtremeSums(s: seq<Byte>)
    ensures Sum(s) == 0 <==> forall k :: 0 <= k < |s| ==> s[k] == 0
    ensures Sum(s) == 255 * |s| <==> forall k :: 0 <= k < |s| ==> s[k] == 255
  {
    if s != [] {
      var init := s[..|s| - 1];
      ExtremeSums(init);
      SumBounds(init);
      assert forall k :: 0 <= k < |init| ==> init[k] == s[k];
    }
  }

  /** getBassLevel: the mean of the first four bands over 255. */
  function BassOf(bands: seq<Byte>): (level: real)
    requires |bands| == FrequencyBands
    ensures 0.0 <= level <= 1.0
    ensures level == BassAverage(bands) / 255.0
  {
    SumBounds(bands[..4]);
    Sum(bands[..4]) as real / 4.0 / 255.0
  }

  /** getTrebleLevel: the mean of the last eight bands over 255. */
  function TrebleOf(bands: seq<Byte>): (level: real)
    requires |bands| == FrequencyBands
    ensures 0.0 <= level <= 1.0
  {
    SumBounds(bands[FrequencyBands - 8..]);
    Sum(bands[FrequencyBands - 8..]) as real / 8.0 / 255.0
  }

  /** Bass and treble read disjoint bands: changing a treble band leaves the bass level alone. */
  lemma BassIgnoresTreble(bands: seq<Byte>, k: nat, v: Byte)
    requires |bands| == FrequencyBands && 4 <= k < FrequencyBands
    ensures BassOf(bands[k := v]) == BassOf(bands)
  {
    assert bands[k := v][..4] == bands[..4];
  }

  /** ... and changing a bass band leaves the treble level alone. */
  lemma TrebleIgnoresBass(bands: seq<Byte>, k: nat, v: Byte)
    requires |bands| == FrequencyBands && k < FrequencyBands - 8
    ensures TrebleOf(bands[k := v]) == TrebleOf(bands)
  {
    assert bands[k := v][FrequencyBands - 8..] == bands[FrequencyBands - 8..];
  }
}
