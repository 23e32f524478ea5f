/**
 * One iteration of the main loop of emoLamp.py, made sequential: the analyzer reads the
 * committed clip (`work.wav`), the recorder fills the staging clip (`sound.wav`), the staging
 * clip is renamed onto the committed one, and the button decides whether the next recording
 * is longer.
 */
module Pipeline {
  import opened Wrappers
  import opened Params
  import opened Mapping
  import opened Bulb

  const RATE := 44100  // samples per second
  const CHUNK := 1024  // samples per stream read

  /** The bytes of one `stream.read(CHUNK)`. */
  type Chunk = seq<bv8>

  /** A recorded clip: the chunks in the order they were read. */
  type Clip = seq<Chunk>

  /** `int(RATE / CHUNK * sample_time)`: the whole chunks that fit in the sample time,
      so a clip never covers more than sample_time seconds. */
  function ChunkCount(sampleTime: real): (n: int)
    ensures sampleTime >= 0.0 ==>
      n >= 0 && (n * CHUNK) as real <= RATE as real * sampleTime < ((n + 1) * CHUNK) as real
  {
    Trunc(RATE as real / CHUNK as real * sampleTime)
  }

  /** One second of recording is 43 chunks, 44032 samples: fewer than 44100. */
  lemma OneSecondIs43Chunks()
    ensures ChunkCount(RECORD_SECONDS) == 43
    ensures ChunkCount(RECORD_SECONDS) * CHUNK < RATE
  {
  }

  /** A longer sample time never records fewer chunks. */
  lemma ChunkCountMonotone(t1: real, t2: real)
    requires 0.0 <= t1 <= t2
    ensures ChunkCount(t1) <= ChunkCount(t2)
  {
  }

  /** The number of iterations of `range(0, ChunkCount(sampleTime))`. */
  function Reads(sampleTime: real): nat {
    if ChunkCount(sampleTime) > 0 then ChunkCount(sampleTime) else 0
  }

  /** The clip made of the first n chunks the microphone delivers. */
  function Capture(mic: nat -> Chunk, n: nat): (clip: Clip)
    ensures |clip| == n
    ensures forall i :: 0 <= i < n ==> clip[i] == mic(i)
  {
    if n == 0 then [] else Capture(mic, n - 1) + [mic(n - 1)]
  }

  /** The loop of `record`: reads `int(RATE / CHUNK * sample_time)` chunks, in order. */
  method ReadFrames(mic: nat -> Chunk, sampleTime: real) returns (frames: seq<Chunk>)
    ensures |frames| == Reads(sampleTime)
    ensures forall i :: 0 <= i < |frames| ==> frames[i] == mic(i)
  {
    frames := [];
    var n := ChunkCount(sampleTime);
    var i := 0;
    while i < n
      invariant 0 <= i
      invariant n <= 0 ==> i == 0
      invariant n > 0 ==> i <= n
      invariant |frames| == i
      invariant forall k :: 0 <= k < i ==> frames[k] == mic(k)
    {
      frames := frames + [mic(i)];
      i := i + 1;
    }
  }

  /** The classifier's answer for a clip: `quality.valid` and the emotion scores. */
  datatype Reading = Reading(valid: bool, scores: Scores)

  /** A clip's loudness in dBFS as pydub reports it: a finite value, or minus infinity for
      a clip whose samples are all zero. */
  datatype Loudness = Finite(db: real) | MinusInfinity

  /** What the analyzer would send to `set_color` for a clip, given the classifier (applied
      to the normalised clip), the clip's loudness, and `math.sqrt`; `None` when the analysis
      raises before reaching `set_color`: `show` raises OverflowError on a loudness of minus
      infinity, and `get_color` raises ValueError on a negative winning score. */
  function Analysis(clip: Clip, classify: Clip -> Reading, dbfs: Clip -> Loudness, sqrt: real -> real): Option<Color> {
    var reading := classify(clip);
    match dbfs(clip)
    case MinusInfinity => None
    case Finite(decibel) => GetColor(Gate(reading.valid, reading.scores, decibel), DISCRETE, RELATIVE, sqrt)
  }

  /** The lamp state after the analyzer ran with `committed` on disk. */
  function AnalyzeEffect(s: LampState, committed: Option<Clip>, classify: Clip -> Reading,
                         dbfs: Clip -> Loudness, sqrt: real -> real): LampState
  {
    match committed
    case None => s
    case Some(clip) =>
      match Analysis(clip, classify, dbfs, sqrt)
      case None => s
      case Some(col) => SetColorEffect(s, col)
  }

  /** A clip whose reading is invalid or whose finite loudness is at most -40 dBFS maps, under
      the configured DISCRETE and RELATIVE flags with a true square root, to black; the lamp
      then takes the effect of a black input, which dims a bound `prev_col` to a quarter. */
  lemma QuietClipMapsToBlack(s: LampState, clip: Clip, classify: Clip -> Reading, dbfs: Clip -> Loudness, sqrt: real -> real)
    requires dbfs(clip).Finite?
    requires !classify(clip).valid || dbfs(clip).db <= -40.0
    requires sqrt(0.0) == 0.0
    ensures Analysis(clip, classify, dbfs, sqrt) == Some(Black)
    ensures AnalyzeEffect(s, Some(clip), classify, dbfs, sqrt) == SetColorEffect(s, Black)
    ensures s.prevCol.Some? ==> AnalyzeEffect(s, Some(clip), classify, dbfs, sqrt).prevCol == Some(Dimmed(s.prevCol.value))
  {
    TiesGoToNeutrality(Silence);
  }

  /** A digitally silent clip changes nothing: `show` raises OverflowError, which the analyzer
      thread does not catch, before `set_color` is reached. */
  lemma SilentClipChangesNothing(s: LampState, clip: Clip, classify: Clip -> Reading, dbfs: Clip -> Loudness, sqrt: real -> real)
    requires dbfs(clip) == MinusInfinity
    ensures AnalyzeEffect(s, Some(clip), classify, dbfs, sqrt) == s
  {
  }

  /** `sample_time` after a run in which the button read the given levels, one per cycle. */
  function SampleTimeAfter(t: real, levels: seq<bool>): real
    decreases |levels|
  {
    if levels == [] then t
    else SampleTimeAfter(t, levels[..|levels| - 1]) + (if levels[|levels| - 1] then 0.0 else 0.1)
  }

  /** The low readings among the button levels. */
  function Lows(levels: seq<bool>): nat
    decreases |levels|
  {
    if levels == [] then 0 else Lows(levels[..|levels| - 1]) + (if levels[|levels| - 1] then 0 else 1)
  }

  /** Sample time grows by 0.1 per low reading and by nothing else, so it never decreases. */
  lemma {:induction false} SampleTimeGrowth(t: real, levels: seq<bool>)
    ensures SampleTimeAfter(t, levels) == t + 0.1 * Lows(levels) as real
    ensures SampleTimeAfter(t, levels) >= t
    decreases |levels|
  {
    if levels != [] {
      SampleTimeGrowth(t, levels[..|levels| - 1]);
    }
  }

  /** The main loop's state: the staging clip `sound.wav`, the committed clip `work.wav`,
      `sample_time`, the lamp, and (for the proof only) the clips recorded so far. */
  class EmoLamp {
    var staging: Option<Clip>
    var committed: Option<Clip>
    var sampleTime: real
    const lamp: Lamp
    ghost var recorded: seq<Clip>

    /** Between cycles nothing is staged, the committed clip is the one recorded last, and the
        sample time has not fallen below its start value. */
    ghost predicate Valid()
      reads this, lamp, lamp.leds
    {
      && lamp.Valid()
      && sampleTime >= RECORD_SECONDS
      && staging == None
      && committed == (if recorded == [] then None else Some(recorded[|recorded| - 1]))
    }

    constructor ()
      ensures Valid() && fresh(lamp) && fresh(lamp.leds)
      ensures recorded == [] && sampleTime == RECORD_SECONDS
      ensures lamp.prevCol == None && lamp.bulbLog == []
    {
      staging := None;
      committed := None;
      sampleTime := RECORD_SECONDS;
      recorded := [];
      lamp := new Lamp();
    }

    /** The analyzer thread: analyse the committed clip if there is one. */
    method Analyze(classify: Clip -> Reading, dbfs: Clip -> Loudness, sqrt: real -> real) returns (seen: Option<Clip>)
      requires lamp.Valid()
      modifies lamp, lamp.leds
      ensures lamp.Valid()
      ensures seen == committed
      ensures lamp.State() == AnalyzeEffect(old(lamp.State()), committed, classify, dbfs, sqrt)
    {
      seen := committed;
      if committed.Some? {
        var col := Analysis(committed.value, classify, dbfs, sqrt);
        if col.Some? {
          var sent := lamp.SetColor(col.value);
        }
      }
    }

    /** The recorder thread: record a clip of the current sample time into the staging slot. */
    method Record(mic: nat -> Chunk)
      modifies this`staging, this`recorded
      ensures staging == Some(Capture(mic, Reads(sampleTime)))
      ensures recorded == old(recorded) + [Capture(mic, Reads(sampleTime))]
    {
      var frames := ReadFrames(mic, sampleTime);
      assert frames == Capture(mic, Reads(sampleTime));
      staging := Some(frames);
      recorded := recorded + [frames];
    }

    /** `os.rename(WAVE_FILENAME, WORK_FILENAME)`, done only if the staging clip exists. */
    method Commit()
      modifies this`staging, this`committed
      ensures old(staging).Some? ==> committed == old(staging) && staging == None
      ensures old(staging).None? ==> committed == old(committed) && staging == None
    {
      if staging.Some? {
        committed := staging;
        staging := None;
      }
    }

    /** `if not GPIO.input(BUTTON): sample_time += 0.1` */
    method PollButton(level: bool)
      modifies this`sampleTime
      ensures sampleTime == old(sampleTime) + (if level then 0.0 else 0.1)
    {
      if !level {
        sampleTime := sampleTime + 0.1;
      }
    }

    /** One cycle: the analyzer sees the clip recorded in the previous cycle (nothing on the
        first), the new clip becomes the committed one, and the sample time grows by 0.1
        exactly when the button reads low. */
    method Cycle(mic: nat -> Chunk, classify: Clip -> Reading, dbfs: Clip -> Loudness,
                 sqrt: real -> real, level: bool) returns (seen: Option<Clip>)
      requires Valid()
      modifies this, lamp, lamp.leds
      ensures Valid()
      ensures seen == if old(recorded) == [] then None else Some(old(recorded)[|old(recorded)| - 1])
      ensures recorded == old(recorded) + [Capture(mic, Reads(old(sampleTime)))]
      ensures committed == Some(Capture(mic, Reads(old(sampleTime))))
      ensures sampleTime == old(sampleTime) + (if level then 0.0 else 0.1)
      ensures lamp.State() == AnalyzeEffect(old(lamp.State()), seen, classify, dbfs, sqrt)
    {
      seen := Analyze(classify, dbfs, sqrt);
      Record(mic);
      Commit();
      PollButton(level);
    }

    /** `while True:` cut to as many cycles as there are inputs, cycle i using the microphone
        `mics[i]` and the button level `levels[i]`. The analyzer of every cycle after the
        first sees the clip recorded in the cycle before, and `sample_time` ends as
        `SampleTimeAfter` says, never below where it started. */
    method Run(mics: seq<nat -> Chunk>, classify: Clip -> Reading, dbfs: Clip -> Loudness,
               sqrt: real -> real, levels: seq<bool>) returns (seen: seq<Option<Clip>>, ghost clips: seq<Clip>)
      requires Valid()
      requires |mics| == |levels|
      modifies this, lamp, lamp.leds
      ensures Valid()
      ensures recorded == old(recorded) + clips && |clips| == |levels|
      ensures |seen| == |levels|
      ensures |levels| > 0 ==> seen[0] == old(committed)
      ensures forall i :: 0 < i < |levels| ==> seen[i] == Some(clips[i - 1])
      ensures sampleTime == SampleTimeAfter(old(sampleTime), levels) >= old(sampleTime)
    {
      seen, clips := [], [];
      ghost var r0 := recorded;
      ghost var t0 := sampleTime;
      for n := 0 to |levels|
        invariant Valid()
        invariant recorded == r0 + clips && |clips| == n
        invariant |seen| == n
        invariant n > 0 ==> seen[0] == old(committed)
        invariant forall i :: 0 < i < n ==> seen[i] == Some(clips[i - 1])
        invariant sampleTime == SampleTimeAfter(t0, levels[..n])
      {
        var s := Cycle(mics[n], classify, dbfs, sqrt, levels[n]);
        assert levels[..n + 1][..n] == levels[..n];
        seen := seen + [s];
        clips := clips + [recorded[|recorded| - 1]];
      }
      assert levels[..|levels|] == levels;
      SampleTimeGrowth(t0, levels);
    }
  }
}
