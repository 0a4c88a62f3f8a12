# Multitrack timeline engine — Dafny model

This is a model of the sequential core of a browser multitrack recorder. It has two parts.

- **`AudioEngine`** (audioEngine.js) holds an ordered list of tracks. Each track is a sample buffer placed at a start time on a shared timeline. The engine:
  - splits a track in two at a sample-frame boundary (`cutTrackAtTime`);
  - moves tracks (`moveTrack`);
  - reports track and timeline durations;
  - drives a play / pause / resume / stop transport over all tracks;
  - sets per-track and master volume;
  - encodes a buffer as a canonical 16-bit PCM RIFF/WAVE file (`audioBufferToWav`, `writeString`).
- **`TimelineRenderer`** (timelineRenderer.js) keeps the playhead and play flags. It maps canvas rows to tracks and pixels to seconds, computes the display duration, and advances the playhead once per animation frame.

The project has four modules.

- `Tracks` (tracks.dfy): the value types and the pure rules shared by the engine:
  - sample buffers, tracks and playback sources;
  - the total duration;
  - the cut, expressed as a function on the track list;
  - the per-track start, stop and move rules.
- `Wav` (wav.dfy): the WAV encoder. It writes through a byte array standing in for the `DataView`, with the `writeString` and `setUint16`/`setUint32`/`setInt16` loops. It also has a reader for the header, used to state round trips.
- `Engine` (engine.dfy): the `AudioEngine` class. It has the track list and the transport fields, and its methods change them in place. Each method's contract ties the new state to the `Tracks` functions.
- `Timeline` (timeline.dfy): the `TimelineRenderer` class (playhead, flags, last frame time) and the row and pixel geometry.

How the browser's values are represented:

- JavaScript numbers are `real`.
- Frame counts are `Math.floor` of a real, i.e. `.Floor`.
- A buffer is one `seq<real>` per channel, with a length and a sample rate, and its duration is `length / sampleRate`.
- Every buffer the engine holds runs at the audio context's rate. That is the engine's invariant `Valid()`, because the cut creates its pieces at the context's rate.
- `Valid()` also says that the transport is never playing and paused at once. Every transport method (`playAll`, `pauseAll`, `resumeAll`, `stopAll`) keeps this.
- The context's `currentTime` (for the engine) and the frame `timestamp` (for the renderer) are parameters.
- A playback source is a record: the context time for which its start is scheduled, its offset, and whether `start` was called at all.
- `playTrack` as written passes `audioContext.currentTime` as that start time (audioEngine.js:88), so a track that begins after the playback position sounds too early (see "## Findings"). `Tracks.PlayedAsWritten` is that rule. The engine class uses the corrected rule `Tracks.Played`, which schedules the start `max(0, startTime − startFrom)` seconds later; `Tracks.PlayRulesDiffer` shows the two rules differ in that start time only.

The second guard of `cutTrackAtTime` (audioEngine.js:166-170) can never fire. The first guard already ensures `startTime < cutTime < startTime + duration`. `Tracks.Cut` keeps that branch, and its contract `r.outcome != InvalidSegment` states that the branch is never taken.

`setMasterVolume` ignores out-of-range values instead of clamping them. `setTrackVolume` clamps. A recorded track has no gain node, so `setTrackVolume` on it throws a TypeError. The model reports that case as the outcome `NoGainNode`.

## Model

| member | source | states |
|---|---|---|
| Tracks.Duration | audioEngine.js:236-239 | a buffer's duration is non-negative and duration × sample rate equals its frame count |
| Tracks.TotalDuration | audioEngine.js:241-249 | 0 for no tracks; otherwise non-negative, at least the end time of every track, and equal to some track's end time (or 0 when every end is ≤ 0) |
| Tracks.TotalDurationAttained | audioEngine.js:241-249 | for a valid, non-empty track list the total duration is exactly the end time of some track |
| Tracks.Segment | audioEngine.js:173-201 | a piece of a buffer: `n` frames of every channel starting at `from`, with the same channel count, at the given rate |
| Tracks.Frames | audioEngine.js:175 | `Math.floor(d * rate)`: the largest whole frame count not exceeding `d * rate` |
| Tracks.FloorOfSum | audioEngine.js:191-200 | flooring two non-negative parts of a whole number `n` gives `n - 1` or `n` frames together |
| Tracks.CutFrames | audioEngine.js:163-201 | the two piece lengths of a cut add up to the original length or one less, so every copy reads inside the original buffer |
| Tracks.Cut | audioEngine.js:152-224 | an invalid index gives NoTrack; the cut happens iff the index is valid and `startTime < cutTime < startTime + duration`; the second guard's InvalidSegment is never reported; every other outcome leaves the list unchanged; the engine invariant is kept |
| Tracks.CutReplaces | audioEngine.js:205-223 | a successful cut grows the list by exactly one and replaces track i by [left, right], starting at the old start and at `cutTime`, both without a source and with the original's channel count; tracks before and after keep their order and contents |
| Tracks.CutSamples | audioEngine.js:173-201 | the left piece is the first floor((cutTime − start)·rate) frames of every channel; the right piece has floor((end − cutTime)·rate) frames with `right[j] = orig[j + leftLen]`; the two lengths sum to the original length or one less |
| Tracks.CutTwoSecondsInHalf | audioEngine.js:152-224 | a 88200-frame buffer at 44100 Hz cut one second after its start splits into 44100 + 44100 frames |
| Tracks.Offset | audioEngine.js:86 | `max(0, startFrom − startTime)`: never negative, never below `startFrom − startTime`, and 0 for a track starting at or after `startFrom` |
| Tracks.ReachedIffStartable | audioEngine.js:112 | `playAll` plays a track iff its offset lies before the end of its buffer (so its source is started) or the track lies wholly after `startFrom` |
| Tracks.PlayedAsWritten | audioEngine.js:74-95 | `playTrack` as written: the track gets a source and is playing, its buffer, start and gain are kept, the source is scheduled for `now`, and the offset is non-negative and below the duration when started |
| Tracks.Played | audioEngine.js:74-95 | the corrected play rule: as above, except that the source is scheduled for `now + max(0, startTime − startFrom)`, with offset `max(0, startFrom − startTime)`; so it is never scheduled before `now`, and for `now` exactly when the track begins at or before `startFrom` |
| Tracks.PlayRulesDiffer | audioEngine.js:86-89 | the corrected rule equals the rule as written with only the source's start time moved to `now + max(0, startTime − startFrom)`, and the two agree iff `startTime ≤ startFrom` |
| Tracks.PlayedOffset | audioEngine.js:86-89 | a track whose end lies after `from` gets offset `max(0, from − startTime)`, which is ≥ 0; it is started iff its buffer is non-empty, and then the offset is below the duration |
| Tracks.PlayedInLockstep | audioEngine.js:74-95 | with the corrected start time, whenever a started source emits buffer position p, the transport is at the track's timeline position `startTime + p` |
| Tracks.PlayedAsWrittenStartsEarly | audioEngine.js:86-89 | as written, a track at 5 s played from 0 s emits its first sample while the transport is at 0 s |
| Tracks.PlayedFrom | audioEngine.js:111-115 | the corrected `playAll` loop on the list (the list form of the corrected `Played`): the length is kept; a track whose end is not after `from` is unchanged; every other track keeps buffer, start and gain, is playing, and gets a source with offset `max(0, from − startTime)`, scheduled `max(0, startTime − from)` after `now`, started iff its buffer is non-empty, and then with the offset below the duration |
| Tracks.Stopped | audioEngine.js:124-128 | one track stopped: no source afterwards, buffer, start and gain kept, no longer playing if it had a source, and untouched if it had none |
| Tracks.StoppedAll | audioEngine.js:123-129 | the length is kept; afterwards no track has a source, a track that had one is no longer playing, a track that had none is untouched, and buffer, start time and gain are kept |
| Tracks.TransportKeepsValid | audioEngine.js:106-150 | playing and stopping keep the engine invariant (well-formed buffers at the context rate, non-negative start times) |
| Tracks.Moved | audioEngine.js:229 | the new start time is `max(0, t)`: never negative, never below `t`, and the rest of the track is untouched |
| Tracks.Clamp01 | audioEngine.js:378 | `Math.max(0, Math.min(1, v))` lies in [0, 1], keeps values already in range, and maps values below and above to 0 and 1 |
| Wav.Le16 | audioEngine.js:292-297 | a 16-bit little-endian store is two bytes |
| Wav.Le32 | audioEngine.js:288-299 | a 32-bit little-endian store is four bytes |
| Wav.Ascii | audioEngine.js:319-323 | `writeString` stores one byte per UTF-16 code unit, its low 8 bits; a Dafny character is one code unit throughout the Basic Multilingual Plane |
| Wav.AsciiKeepsCodes | audioEngine.js:319-323 | a character whose code is below 256 is stored as exactly its code |
| Wav.ChunkTags | audioEngine.js:287-298 | the four tags are the bytes `52 49 46 46` (RIFF), `57 41 56 45` (WAVE), `66 6d 74 20` (fmt ) and `64 61 74 61` (data) |
| Wav.ReadU16OfLe16 | audioEngine.js:292-297 | a 16-bit store reads back as its value modulo 2^16 |
| Wav.ReadU32OfLe32 | audioEngine.js:288-299 | a 32-bit store reads back as its value modulo 2^32 |
| Wav.ReadI16OfLe16 | audioEngine.js:312 | every value in [−32768, 32767] survives the 16-bit store and the signed read |
| Wav.ClampSample | audioEngine.js:310 | the sample is clamped to [−1, 1], and values already in range are kept |
| Wav.Trunc | audioEngine.js:312 | `setInt16` truncates its number toward zero |
| Wav.Quantize | audioEngine.js:310-312 | the 16-bit value is in [−32768, 32767]: the clamped sample times 32768 if it is negative, or times 32767 otherwise, truncated toward zero; samples at or beyond ±1 saturate |
| Wav.QuantizeError | audioEngine.js:310-312 | the stored value, read back as a fraction of full scale, is within 1/32767 of the clamped sample |
| Wav.SampleOffsetBefore | audioEngine.js:308-314 | samples are laid out in frame-then-channel order, and no two of them overlap |
| Wav.FrameFits | audioEngine.js:283-312 | all of frame i's bytes, `44 + i·blockAlign` up to `44 + (i+1)·blockAlign`, lie inside the `44 + length·blockAlign` byte file |
| Wav.SetBytes | audioEngine.js:288-299 | a little-endian field store puts its bytes at the offset and changes nothing else |
| Wav.WriteString | audioEngine.js:319-323 | `writeString` puts the tag's bytes at the offset and changes nothing else |
| Wav.SetInt16 | audioEngine.js:312 | `setInt16` puts the truncated value's two bytes at the offset and changes nothing else |
| Wav.WriteHeader | audioEngine.js:286-299 | after the header writes, bytes 0-43 hold the RIFF/WAVE/fmt/data layout with all derived fields, and the bytes after 44 are untouched |
| Wav.WriteSample | audioEngine.js:310-312 | one inner-loop step stores the converted sample's two bytes at its offset and changes nothing else |
| Wav.WriteFrame | audioEngine.js:309-313 | the channel loop for frame i stores every channel's converted sample at `44 + i·blockAlign + 2c`, and leaves every byte before the frame unchanged |
| Wav.FramesKept | audioEngine.js:308-314 | writing frame i leaves every earlier frame intact, because earlier frames lie wholly below it |
| Wav.WriteSamples | audioEngine.js:301-314 | after the frame × channel loop, every sample (frame i, channel c) sits at `44 + i·blockAlign + 2c` as its converted 16-bit value, and the header bytes are untouched |
| Wav.AudioBufferToWav | audioEngine.js:274-317 | the output is `44 + length·blockAlign` bytes; the tags sit at 0/8/12/36; the header holds RIFF size `36 + dataBytes`, fmt size 16, format 1, the channel count, the rate, `rate·blockAlign`, `blockAlign = 2·channels`, 16 bits and `length·blockAlign`; every converted sample sits at its offset |
| Wav.WriteWav | audioEngine.js:286-314 | into a view of `44 + length·blockAlign` bytes, the header writes and then the sample loop produce the whole file layout |
| Wav.HeaderLayoutOfPrefix | audioEngine.js:283-299 | the header depends only on the first 44 bytes, so writing the samples after it cannot disturb it |
| Wav.HeaderRoundTrip | audioEngine.js:286-299 | a header written with values that fit their 16- and 32-bit fields reads back with every field intact: RIFF size `36 + dataBytes`, 16, 1, channels, rate, byte rate, block align, 16, data size |
| Wav.SampleRoundTrip | audioEngine.js:308-314 | each sample reads back from its offset as exactly its converted 16-bit value, with no wrap-around |
| Engine.CopyFrames | audioEngine.js:193-201 | the inner copy loop yields exactly `data[from..from+n]` |
| Engine.SplitBuffer | audioEngine.js:173-202 | the channel loop produces the two segments of the cut, `Segment(b, 0, ℓ)` and `Segment(b, ℓ, r)` |
| Engine.AudioEngine.constructor | audioEngine.js:2-15 | the engine starts with no tracks, both flags clear, `startTime = pausedAt = 0` and master gain 1 |
| Engine.AudioEngine.AddRecordedTrack | audioEngine.js:47-56 | a recording is appended at time 0, not playing, without source or gain node, and its index is the old length |
| Engine.AudioEngine.PlayTrack | audioEngine.js:74-95 | a missing index changes nothing; otherwise only that track changes, by the corrected play rule `Played` (offset `max(0, startFrom − startTime)`, started iff before the end) |
| Engine.AudioEngine.StopTrack | audioEngine.js:97-104 | only the given track's source is dropped, and only if it has one |
| Engine.AudioEngine.PlayAll | audioEngine.js:106-116 | `isPlaying`, not `isPaused`, `startTime = now − from`, and the track list becomes `PlayedFrom(old tracks)` |
| Engine.AudioEngine.PauseAll | audioEngine.js:118-130 | `isPaused`, not `isPlaying`, `pausedAt = now − startTime`, every source is dropped |
| Engine.AudioEngine.ResumeAll | audioEngine.js:132-136 | when not paused, nothing changes; otherwise it plays from `pausedAt` |
| Engine.AudioEngine.StopAll | audioEngine.js:138-150 | both flags are cleared, `pausedAt = 0`, every source is dropped, and `startTime` is left as it was |
| Engine.AudioEngine.StopSources | audioEngine.js:118-150 | the shared `forEach` applies the stop rule to every track and changes nothing else |
| Engine.AudioEngine.CutTrackAtTime | audioEngine.js:152-224 | the outcome and the new list are exactly those of `Tracks.Cut`, and the transport fields are untouched |
| Engine.AudioEngine.MoveTrack | audioEngine.js:226-234 | `onTrackModified` is due to fire (when a handler is set) iff the index is valid; then only that track's start time changes, to `max(0, t)` |
| Engine.AudioEngine.GetTrackDuration | audioEngine.js:236-239 | the track's duration (duration × rate = frame count), or 0 for a missing index |
| Engine.AudioEngine.SetTrackVolume | audioEngine.js:376-380 | an out-of-range index is ignored; a track without gain node throws; otherwise only that track's gain changes, to the volume clamped to [0, 1] |
| Engine.AudioEngine.SetMasterVolume | audioEngine.js:382-386 | the master gain takes the volume iff it lies in [0, 1], so it never leaves [0, 1] |
| Engine.PlayPauseResume | audioEngine.js:106-136 | play from t at time t0, pause at t1, resume at t2: `pausedAt = t + (t1 − t0)` and playback resumes from exactly there |
| Engine.StopFromAnyState | audioEngine.js:138-150 | from any state, stopping leaves both flags clear, `pausedAt = 0` and no track with a source |
| Timeline.RowsDisjoint | timelineRenderer.js:138-141 | no y coordinate lies in two track rows |
| Timeline.GapHitsNoRow | timelineRenderer.js:138-144 | a y in the 20 px gap below a row belongs to no row |
| Timeline.TimeToX | timelineRenderer.js:147-149 | the x of a time is the value that, divided by 100 px per second, gives the time back; x is non-negative iff the time is |
| Timeline.XToTime | timelineRenderer.js:151-153 | the time of an x is the value that, times 100 px per second, gives x back; the time is non-negative iff x is |
| Timeline.PixelsRoundTrip | timelineRenderer.js:147-153 | `xToTime(timeToX(t)) = t` and `timeToX(xToTime(x)) = x` at 100 px per second, and both preserve order |
| Timeline.DisplayDuration | timelineRenderer.js:155-165 | 10 for no tracks; otherwise at least 10, at least `currentTime + 5`, at least every track's end, and equal to one of the three terms |
| Timeline.CompletionNeedsNoTracks | timelineRenderer.js:155-165 | the end test `currentTime >= duration` can hold only when there are no tracks |
| Timeline.TimelineRenderer.constructor | timelineRenderer.js:2-21 | the playhead at 0, both flags clear, no previous frame |
| Timeline.TimelineRenderer.FindTrackAtPosition | timelineRenderer.js:134-145 | returns i exactly when i is a track index and `i·100 ≤ y < i·100 + 80`; returns null iff no track's row contains y; x is ignored |
| Timeline.TimelineRenderer.GetTotalDuration | timelineRenderer.js:155-165 | the renderer's duration for the engine's current tracks and its playhead: 10 with no tracks; otherwise at least 10, at least `currentTime + 5` and at least every track's end, and equal to one of the three terms |
| Timeline.TimelineRenderer.SetIsPlaying | timelineRenderer.js:167-174 | `isPlaying = p`, `isPaused = !p && !reset`, the playhead goes to 0 exactly when `reset` holds and otherwise is unchanged |
| Timeline.TimelineRenderer.AnimationFrame | timelineRenderer.js:217-236 | when playing with a previous frame, the playhead advances by `(ts − last)/1000`, and completion (playhead reset to 0, not playing, and `onPlaybackComplete` due to fire when a handler is set) happens iff the advanced time reaches the display duration; otherwise the playhead and flag are unchanged; the last frame time becomes `ts` when playing and 0 otherwise; completion implies there are no tracks |
| Timeline.TwoFramesWithTracks | timelineRenderer.js:217-236 | with tracks present, two frames add up the elapsed times and playback keeps going |

## Left out

- Recording is not modelled: `getUserMedia`, `MediaRecorder` and its chunk callbacks, and decoding (audioEngine.js:29-72). These are asynchronous browser I/O. Only the track a finished recording adds is modelled, as `AddRecordedTrack`.
- `initialize`, the Web Audio graph, the connections from gain nodes to the master node, and the effect of `source.start`/`source.stop` on sound output are not modelled. A source is a record of its start request, and a gain is a number.
- `onended` (audioEngine.js:91-94) is not modelled. It is an event the browser fires later, so tracks keep their source until they are paused or stopped.
- `stop()` on a source whose `start` was never called throws in browsers. That is a Web Audio rule, and it is not modelled.
- `createBuffer` with a length of 0 throws in browsers. The cut's arithmetic allows a zero-frame piece (a cut less than one frame after the start, or before the end), and the model keeps such a piece as an empty buffer.
- `exportToWav` (audioEngine.js:251-272) is not modelled; it renders through an offline audio context, which is a foreign mixer. Only the encoding of a given buffer (`audioBufferToWav`) is modelled.
- Project storage is not modelled: `saveProject`, `loadProject`, `listProjects` and `deleteProject` (audioEngine.js:325-374) wrap `localStorage`, JSON and a decoder.
- The renderer's drawing, event listeners, mouse handlers, `requestAnimationFrame` scheduling and `generateWaveformData` (timelineRenderer.js:23-132, 192-214, 242-391) are UI, and are not modelled.
- `getCurrentTime`, `setCutMode`, `getSelectedTrack` and `clearSelection` are not modelled. They are single-field accessors with nothing to state.
- app.js, test.js and server.py are not part of this model. They are button wiring, a timer-driven console script and a static file server.
- Numbers are reals, not IEEE doubles. The model has no rounding in `cutTime − startTime`, in `d·rate` before flooring, or in the frame advance. It has no NaN or infinities (NaN samples and NaN volumes are not modelled), and channel data is not rounded to Float32.
- Tracks are values in a sequence, not shared objects. Aliasing of a track object held elsewhere (for example by the `onended` closure) is not modelled.
- Tracks.PlayedFrom: it is the list form of the corrected `Tracks.Played`, so every reached source's scheduled start is `now + max(0, startTime − from)`, not the `now` of audioEngine.js:88.
- Wav.Ascii: a Dafny `char` is a Unicode scalar value, while `charCodeAt` returns UTF-16 code units; for a character above U+FFFF the source stores two bytes and the model one. The ASCII tags the encoder writes are unaffected.
- Engine.AudioEngine.PlayTrack: the source is scheduled by the corrected rule of "## Findings" (`now + max(0, startTime − startFrom)`), not for `audioContext.currentTime` as audioEngine.js:88 does; `Tracks.PlayRulesDiffer` states that this start time is the only difference.
- Engine.AudioEngine.PlayAll: plays through the corrected `PlayTrack`, so every source's scheduled start is the corrected one of "## Findings", not the `currentTime` of audioEngine.js:88; everything else matches audioEngine.js:106-116.
- Engine.AudioEngine.ResumeAll: replays through the corrected `PlayAll`, with the same difference in the sources' scheduled start.
- Engine.PlayPauseResume: its track list is built with the corrected `Played`, so the sources' scheduled start differs from audioEngine.js:88 as above.
- Wav.HeaderRoundTrip: stated only for field values that fit their 16- and 32-bit fields. For a larger buffer the encoder model writes the wrapped value, as the `DataView` setters do, and the reader then sees that wrapped value.

## Findings

| source | as written | input that shows it | evidently intended | confidence | as-written member | corrected member |
|---|---|---|---|---|---|---|
| audioEngine.js:86-89 | `source.start(audioContext.currentTime, offset)` starts every reached track at once, whatever its start time | a track at startTime 5 s, `playAll(0)`: offset is 0 and the source emits its first sample while the transport is at 0 s (lemma `Tracks.PlayedAsWrittenStartsEarly`) | start at `currentTime + max(0, startTime − startFrom)`, so that each track sounds when the playhead reaches it (lemma `Tracks.PlayedInLockstep`) | high; not executed | Tracks.PlayedAsWritten | Tracks.Played |
