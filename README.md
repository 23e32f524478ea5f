# emotionLamp: a Dafny model of the mood lamp's core

The lamp records short audio clips, asks a voice-affect classifier for five emotion scores
(neutrality, happiness, sadness, anger, fear), and turns those scores into an RGB colour. It
sends the colour to a Bluetooth bulb and shows a dimmer copy on a three-pixel LED strip. This
project models the parts of `emoLamp.py` and `params.py` that decide what is shown:

- **Params** (`params.dfy`): the configuration constants. Each one has its documented range
  as a subset type: `MIN_LOUDNESS` in [0..100], `NEO_PIXELS` in [0..3], `MAX_NEO_VALUE` in
  [0..255], `RECORD_SECONDS` positive. The five base colours are byte-range, non-black triples.
- **Mapping** (`mapping.dfy`): `get_color` and the loudness gate of `analyze`.
  - Discrete mode takes a strict-`>` running maximum, so the earliest emotion wins ties. It
    returns the winner's base colour, scaled channel by channel by `int(sqrt(m) * base[ch])`
    when RELATIVE is set.
  - Continuous mode truncates `Σ score_i * base_i[ch]`.
  - Python's `int()` on a float is `Trunc`, truncation toward zero. `math.sqrt` is a
    parameter. Lemmas that depend on it require only that it give the non-negative root at
    the point where it is used.
- **Bulb** (`bulb.dfy`): `set_color`, as the class `Lamp`. It holds `prev_col`, the log of
  colours sent to the bulb, and the LED strip as an array. A black colour is replaced by the
  previous colour divided by four, and the dispatched colour becomes `prev_col`. The first
  `NEO_PIXELS` pixels get `int(MAX_NEO_VALUE / 255 * col[ch])`.
- **Pipeline** (`pipeline.dfy`): one iteration of the main loop, as the class `EmoLamp`. Its
  fields are the staging clip (`sound.wav`), the committed clip (`work.wav`) and `sample_time`.
  - The analyzer reads the committed clip.
  - The recorder reads `int(RATE / CHUNK * sample_time)` chunks into the staging slot.
  - The rename commits staging onto committed, and only if staging exists.
  - A low button reading adds 0.1 s to `sample_time`.

Behaviour of the code worth knowing, all of it modelled as written:

- **Ties.** Every comparison in `get_color` is strict `>`, so on equal scores the earliest
  emotion in the order neutrality, happiness, sadness, anger, fear wins
  (`Mapping.Winner`, `Mapping.TiesGoToNeutrality`).
- **Clip length.** The chunk count `int(RATE / CHUNK * sample_time)` is truncated, so a clip
  never covers more than `sample_time`: one second is 43 chunks, 44032 samples, fewer than
  44100 (`Pipeline.OneSecondIs43Chunks`).
- **Fallback dimming.** A black colour dims `prev_col`, which is the last colour dispatched
  and may itself be a dimmed colour. So repeated black inputs divide the light by four each
  time until it is black (`Bulb.RepeatedBlacksReachBlack`).
- **`prev_col` start-up.** The global is initialised under the name `prev_color`
  (emoLamp.py:238) but read as `prev_col`. A black colour that arrives before any non-black
  one raises NameError, which the analyzer thread swallows, so nothing is dispatched. The
  model holds `prev_col` as an `Option` that is `None` until the first dispatch
  (`Bulb.Dispatch`, `Bulb.UnboundStaysUnbound`).
- **Bulb health.** The only connection handling is `MagicHue.check`, which reconnects at
  most once (it reads `test_connection` without calling it, emoLamp.py:59); it is part of
  the bulb link and not modelled.
- **Negative scores.** With RELATIVE set, a negative winning score makes `math.sqrt` raise
  ValueError. The thread does not catch it (only RuntimeError, TypeError and NameError are
  caught), so that cycle sends no colour. `GetColor` returns `None` in this case
  (`Mapping.DiscreteRelativeDomain`).
- **Silent clips.** A clip whose samples are all zero has a loudness of minus infinity.
  `show` runs before `set_color` and rounds `60 * min(100, 120 + decibel) / 100`, which
  raises OverflowError on minus infinity; the thread does not catch it, so the lamp does not
  change (`Pipeline.SilentClipChangesNothing`). A finite loudness of at most -40 dBFS
  instead maps to black, which dims the lamp (`Pipeline.QuietClipMapsToBlack`).
- **Division.** The model reads `/` as Python 3 true division (`int(x / 4)`,
  `MAX_NEO_VALUE / 255`, `RATE / CHUNK`). Under Python 2 the last two would be integer
  divisions: the LEDs would never light and the chunk count would differ.

## Model

| member | source | states |
|---|---|---|
| `Params.Base` | params.py:19-24 | every base colour has all three channels in [0,255] and none is black |
| `Mapping.Trunc` | emoLamp.py:208-210 | `int()` truncates toward zero: for x ≥ 0 the result is the floor, for x ≤ 0 the ceiling |
| `Mapping.Winner` | emoLamp.py:190-204 | the selected emotion's score is ≥ every score, and every emotion earlier in the order neutrality, happiness, sadness, anger, fear scores strictly less (ties go to the earliest) |
| `Mapping.WinnerIsFirstMaximum` | emoLamp.py:191-204 | the selected emotion is exactly the first emotion that attains the maximum (both directions) |
| `Mapping.TiesGoToNeutrality` | emoLamp.py:191-204 | equal scores, all-zero included, select neutrality |
| `Mapping.DiscreteAbsoluteIsBase` | emoLamp.py:205 | without RELATIVE, discrete mode returns the winner's base colour unchanged, which is never black |
| `Mapping.SilenceShowsGreen` | emoLamp.py:191-205 | an all-zero reading in discrete mode without RELATIVE shows neutrality's green [0,255,0], not black |
| `Mapping.DiscreteRelativeBounds` | emoLamp.py:206-210 | with RELATIVE, each channel is `int(sqrt(m) * base[ch])` for the winning score m; for m in [0,1] it lies between 0 and the base channel |
| `Mapping.DiscreteRelativeEndpoints` | emoLamp.py:206-210 | with RELATIVE, a winning score of 0 gives black and a winning score of 1 gives the base colour |
| `Mapping.DiscreteRelativeDomain` | emoLamp.py:207 | with RELATIVE, the mapper fails (ValueError from `math.sqrt`) exactly when the winning score is negative, so never for non-negative scores |
| `Mapping.ContinuousColor` | emoLamp.py:211-230 | continuous mode: channel ch is the truncation of Σ score_i · base_i[ch] over the five emotions |
| `Mapping.ContinuousIsWeightedSum` | emoLamp.py:211-230 | the channel-by-channel sums of the source equal the reference sum of score_e · Base(e)[ch] over the five emotions in order, so each channel is its truncation |
| `Mapping.ContinuousIgnoresRelative` | emoLamp.py:190-230 | in continuous mode RELATIVE has no effect and the mapper never fails |
| `Mapping.ContinuousInByteRange` | emoLamp.py:213-230 | non-negative scores summing to at most 1 give every channel in [0,255] |
| `Mapping.ContinuousSilenceIsBlack` | emoLamp.py:213-230 | all-zero scores blend to [0,0,0] |
| `Mapping.Gate` | emoLamp.py:132-133 | the classifier's scores pass when the quality is valid and the loudness exceeds -40 dBFS (103 + dB > 63); otherwise all five are zero |
| `Mapping.GatePassesExactly` | emoLamp.py:132-133 | for a reading that is not all zero, the scores pass through iff the quality is valid and 103 + dB > MIN_LOUDNESS |
| `Bulb.Quarter` | emoLamp.py:176-178 | `int(x / 4)` is x div 4 for non-negative x and rounds toward zero for negative x |
| `Bulb.Dispatch` | emoLamp.py:174-179 | a non-black colour is sent unchanged; a black one is replaced by the previous colour at a quarter; nothing is sent (NameError) exactly when the colour is black and `prev_col` is unbound |
| `Bulb.DimsToAQuarter` | emoLamp.py:174-178 | previous colour [200,0,0] and a black input dispatch [50,0,0] |
| `Bulb.BlackAfterBlackStaysBlack` | emoLamp.py:174-179 | a black input with a black `prev_col` dispatches black |
| `Bulb.LedColor` | emoLamp.py:182-184 | for a byte-range colour every LED channel lies in [0, MAX_NEO_VALUE] |
| `Bulb.Painted` | emoLamp.py:183-184 | pixels 0..NEO_PIXELS-1 get the scaled colour and every other pixel keeps its value |
| `Bulb.SetColorKeepsConsistent` | emoLamp.py:179 | after a dispatch `prev_col` is the dispatched colour, which is appended to the bulb log; a NameError leaves the state unchanged; `prev_col` stays bound exactly when something has been sent |
| `Bulb.RepeatedBlacksReachBlack` | emoLamp.py:174-179 | after n black inputs a colour whose channels are below 4^n in magnitude has decayed to black |
| `Bulb.ByteColorBlackAfterFour` | emoLamp.py:174-179 | any byte-range previous colour is black after four black inputs |
| `Bulb.UnboundStaysUnbound` | emoLamp.py:171-179 | while `prev_col` is unbound, black inputs never dispatch anything |
| `Bulb.Lamp.constructor` | emoLamp.py:238-244 | `prev_col` starts unbound, nothing has been sent, and the strip shows the start-up pattern (1,0,0), (0,1,0), (0,0,1) |
| `Bulb.Lamp.SetColor` | emoLamp.py:169-185 | reports whether a colour was sent, and moves the lamp state (`prev_col`, bulb log, strip buffer, shown frame) exactly as `Bulb.SetColorEffect` says, keeping the lamp consistent |
| `Pipeline.ChunkCount` | emoLamp.py:95 | for a non-negative sample time, the count is the number of whole chunks that fit: count·CHUNK ≤ RATE·t < (count+1)·CHUNK |
| `Pipeline.OneSecondIs43Chunks` | emoLamp.py:95 | one second records 43 chunks, fewer samples than RATE |
| `Pipeline.ChunkCountMonotone` | emoLamp.py:95 | a longer sample time never records fewer chunks |
| `Pipeline.Capture` | emoLamp.py:94-97 | the clip of n chunks holds the microphone's chunks 0..n-1 in order |
| `Pipeline.ReadFrames` | emoLamp.py:91-97 | the recording loop returns exactly `int(RATE/CHUNK*sample_time)` chunks (none if that is negative), in the order read |
| `Pipeline.QuietClipMapsToBlack` | emoLamp.py:132-135 | with the configured flags and a finite loudness, an invalid or too quiet clip maps to black, the lamp takes the effect of a black input, and a bound `prev_col` is dimmed to a quarter |
| `Pipeline.SilentClipChangesNothing` | emoLamp.py:134-156 | a clip of loudness minus infinity leaves the lamp unchanged, because `show` raises OverflowError before `set_color` |
| `Pipeline.SampleTimeGrowth` | emoLamp.py:272-274 | over any run, `sample_time` is its start value plus 0.1 per low button reading, so it never decreases |
| `Pipeline.EmoLamp.constructor` | emoLamp.py:237-238 | `sample_time` starts at RECORD_SECONDS, both clip slots are empty, `prev_col` is unbound |
| `Pipeline.EmoLamp.Analyze` | emoLamp.py:82-88 | the analyzer reads the committed clip and changes the lamp only if a clip exists and mapping and dispatch succeed |
| `Pipeline.EmoLamp.Record` | emoLamp.py:91-104 | the staging slot holds the clip of `int(RATE/CHUNK*sample_time)` chunks just read |
| `Pipeline.EmoLamp.Commit` | emoLamp.py:270-271 | staging moves onto committed only if staging exists; afterwards staging is empty |
| `Pipeline.EmoLamp.PollButton` | emoLamp.py:272-274 | `sample_time` grows by 0.1 exactly when the button reads low |
| `Pipeline.EmoLamp.Run` | emoLamp.py:263-274 | over any number of cycles: every clip recorded is appended once; the first analyzer sees what was committed before the run, and every later one sees the previous cycle's clip; `sample_time` ends as `SampleTimeAfter` of the button levels and never below its start |
| `Pipeline.EmoLamp.Cycle` | emoLamp.py:263-274 | the analyzer of cycle n sees the clip recorded in cycle n-1 (nothing on cycle 1); the new clip becomes the committed one; `sample_time` grows by 0.1 exactly on a low reading; the lamp changes as the analysis of the seen clip says |

## Left out

- Audio capture and file formats (PyAudio reads, `wave` writing, `scipy.io.wavfile` reading): these are I/O. A chunk is an abstract byte sequence, the microphone is a function from read index to chunk, and a clip file is its sequence of chunks.
- Loudness normalisation with pydub: the clip's dBFS is an input function, either a finite real or minus infinity for an all-zero clip.
- The Vokaturi classifier, with its library loading and float scaling: it is a foreign call, so its answer (validity and five scores) is an input function of the committed clip.
- The MagicBlue bulb and `MagicHue` (connect, `check`, reconnect) and the start-up retry loop at emoLamp.py:255-261: they sit on a Bluetooth library whose API is not visible. The bulb is modelled as the log of colours sent to it, and a failing `hue.set_color` is not modelled.
- GPIO and apa102 drivers: the button is a boolean input per cycle. `dev.show()` is modelled as a snapshot of the pixel buffer. Of the two button reads at emoLamp.py:272-273, the model uses the second, which decides the branch; the first is stored and never used.
- Threads: each cycle is sequential, with the analyzer reading the committed clip before recording and commit. The two threads touch disjoint state until they are joined. The fatal-error exit and stream cleanup at emoLamp.py:275-278 are not modelled.
- Terminal output (`progress`, `show`, the debug print at emoLamp.py:212): this is UI. The one effect of `show` that is modelled is its OverflowError on a loudness of minus infinity.
- Floating point: scores, loudness and `sample_time` are exact reals. Repeated `+= 0.1` drifts in IEEE-754, so chunk counts of later cycles may differ from the model by float rounding.
- In-place mutation and aliasing of `col` in `set_color`: colours are values. `get_color` always returns a fresh list, so the list that `prev_col` aliases is never written again.
- The endless main loop: `Pipeline.EmoLamp.Run` covers any finite number of cycles.
- Pipeline.EmoLamp.Run: it states the one-clip lag and the sample time over the whole run but not each clip's contents; `Pipeline.EmoLamp.Cycle` states those cycle by cycle.
- Files left over from an earlier process run: the model starts with both clip slots empty.
- Bulb and configuration settings `MAC_ADDRESS` and `BULB_VERSION`: these belong to the bulb link, which is not modelled.
