/** Values the audio engine works on: sample buffers, tracks placed on the
    timeline, and the pure rules behind splitting a track and starting,
    pausing or stopping playback. The engine class (module Engine) keeps a
    sequence of these tracks and changes it with the functions defined here. */
module Tracks {

  datatype Option<T> = None | Some(value: T)

  /** A sample rate in Hz; the audio context never reports zero. */
  type Rate = r: nat | r > 0 witness 1

  /** A Web Audio buffer: one sample sequence per channel, `length` frames. */
  datatype AudioBuffer = AudioBuffer(channels: seq<seq<real>>, length: nat, sampleRate: Rate)

  /** Every channel holds exactly `length` frames. */
  predicate WellFormed(b: AudioBuffer)
  {
    forall c :: 0 <= c < |b.channels| ==> |b.channels[c]| == b.length
  }

  /** `buffer.duration`, in seconds. */
  function Duration(b: AudioBuffer): (d: real)
    ensures d >= 0.0
    ensures d * b.sampleRate as real == b.length as real
  {
    b.length as real / b.sampleRate as real
  }

  /** A playback source handle: absent, or created to emit from `offset`
      seconds into the buffer at context time `when` (emitting only when
      `started`, since source.start is skipped for an offset past the end). */
  datatype Source = NoSource | Source(when: real, offset: real, started: bool)

  /** A track record; `gain` is the value of its gain node, if it has one
      (tracks created by recording have none, tracks created by a cut do). */
  datatype Track = Track(buffer: AudioBuffer, startTime: real, isPlaying: bool, source: Source, gain: Option<real>)

  /** The time at which a track's extent ends on the timeline. */
  function End(t: Track): real
  {
    t.startTime + Duration(t.buffer)
  }

  /** The engine invariant: buffers are well formed, were made at the audio
      context's rate, and tracks never start before time 0. */
  predicate TracksValid(ts: seq<Track>, rate: Rate)
  {
    forall k :: 0 <= k < |ts| ==>
      WellFormed(ts[k].buffer) && ts[k].buffer.sampleRate == rate && ts[k].startTime >= 0.0
  }

  function Max(a: real, b: real): real
  {
    if a >= b then a else b
  }

  function Min(a: real, b: real): real
  {
    if a <= b then a else b
  }

  /** `getTotalDuration`: the largest end time over all tracks, and 0 when
      there are none (`Math.max(...ends, 0)`). */
  function TotalDuration(ts: seq<Track>): (r: real)
    ensures r >= 0.0
    ensures ts == [] ==> r == 0.0
    ensures forall k :: 0 <= k < |ts| ==> End(ts[k]) <= r
    ensures (exists k :: 0 <= k < |ts| && r == End(ts[k])) || (r == 0.0 && forall k :: 0 <= k < |ts| ==> End(ts[k]) <= 0.0)
  {
    if ts == [] then 0.0 else Max(TotalDuration(ts[..|ts| - 1]), End(ts[|ts| - 1]))
  }

  /** With at least one track and no negative start, the total duration is
      attained by some track. */
  lemma TotalDurationAttained(ts: seq<Track>, rate: Rate)
    requires TracksValid(ts, rate) && ts != []
    ensures exists k :: 0 <= k < |ts| && TotalDuration(ts) == End(ts[k])
  {
    assert End(ts[0]) >= 0.0;
  }

  // ---------------------------------------------------------------------
  // Splitting a track

  /** Frames [from, from + n) of every channel, as a new buffer at `rate`. */
  function Segment(b: AudioBuffer, from: nat, n: nat, rate: Rate): (r: AudioBuffer)
    requires WellFormed(b) && from + n <= b.length
    ensures WellFormed(r) && r.length == n && r.sampleRate == rate
    ensures |r.channels| == |b.channels|
    ensures forall c, j :: 0 <= c < |b.channels| && 0 <= j < n ==> r.channels[c][j] == b.channels[c][from + j]
  {
    AudioBuffer(seq(|b.channels|, c requires 0 <= c < |b.channels| => b.channels[c][from..from + n]), n, rate)
  }

  /** A track made by a cut: no source yet and a fresh gain node (gain 1). */
  function CutPiece(b: AudioBuffer, startTime: real): Track
  {
    Track(b, startTime, false, NoSource, Some(1.0))
  }

  /** What `cutTrackAtTime` reports (its early returns and console messages). */
  datatype CutOutcome = NoTrack | OutsideBounds | InvalidSegment | Split

  datatype CutResult = CutResult(outcome: CutOutcome, tracks: seq<Track>)

  /** `Math.floor(d * sampleRate)`: the number of frames of a segment that
      lasts `d` seconds. */
  function Frames(d: real, rate: Rate): (n: nat)
    requires d >= 0.0
    ensures n as real <= d * rate as real < n as real + 1.0
  {
    (d * rate as real).Floor
  }

  /** Flooring two non-negative parts loses at most one frame of their sum. */
  lemma FloorOfSum(a: real, b: real, n: nat)
    requires a >= 0.0 && b >= 0.0 && a + b == n as real
    ensures n - 1 <= a.Floor + b.Floor <= n
  {
  }

  /** The two frame counts of a cut: they never exceed the original length. */
  lemma CutFrames(t: Track, cutTime: real, rate: Rate)
    requires t.buffer.sampleRate == rate
    requires t.startTime < cutTime < End(t)
    ensures var l := Frames(cutTime - t.startTime, rate);
            var r := Frames(End(t) - cutTime, rate);
            t.buffer.length - 1 <= l + r <= t.buffer.length
  {
    var rr := rate as real;
    var a := (cutTime - t.startTime) * rr;
    var b := (End(t) - cutTime) * rr;
    calc {
      a + b;
      (End(t) - t.startTime) * rr;
      Duration(t.buffer) * rr;
      t.buffer.length as real;
    }
    FloorOfSum(a, b, t.buffer.length);
  }

  /** `cutTrackAtTime(i, cutTime)` on the track list `ts`, the audio context
      running at `rate`: on success, track i is replaced in place by its part
      before `cutTime` and its part after. */
  function Cut(ts: seq<Track>, i: int, cutTime: real, rate: Rate): (r: CutResult)
    requires TracksValid(ts, rate)
    ensures r.outcome == NoTrack <==> !(0 <= i < |ts|)
    ensures r.outcome == Split <==> 0 <= i < |ts| && ts[i].startTime < cutTime < End(ts[i])
    ensures r.outcome != Split ==> r.tracks == ts
    ensures r.outcome != InvalidSegment
    ensures TracksValid(r.tracks, rate)
  {
    if !(0 <= i < |ts|) then CutResult(NoTrack, ts)
    else
      var t := ts[i];
      if cutTime <= t.startTime || cutTime >= End(t) then CutResult(OutsideBounds, ts)
      else
        var first := cutTime - t.startTime;
        var second := End(t) - cutTime;
        if first <= 0.0 || second <= 0.0 then CutResult(InvalidSegment, ts)
        else
          var leftLen := Frames(first, rate);
          var rightLen := Frames(second, rate);
          CutFrames(t, cutTime, rate);
          var left := CutPiece(Segment(t.buffer, 0, leftLen, rate), t.startTime);
          var right := CutPiece(Segment(t.buffer, leftLen, rightLen, rate), cutTime);
          var ts' := ts[..i] + [left, right] + ts[i + 1..];
          assert forall k :: 0 <= k < |ts'| ==> ts'[k] == (if k < i then ts[k] else if k == i then left else if k == i + 1 then right else ts[k - 1]);
          CutResult(Split, ts')
  }

  /** A successful cut grows the list by one: track i becomes the left and
      right pieces, starting at the old start and at `cutTime`, and every
      other track keeps its place and contents. */
  lemma CutReplaces(ts: seq<Track>, i: int, cutTime: real, rate: Rate)
    requires TracksValid(ts, rate)
    requires Cut(ts, i, cutTime, rate).outcome == Split
    ensures var r := Cut(ts, i, cutTime, rate).tracks;
            && |r| == |ts| + 1
            && r[..i] == ts[..i]
            && r[i + 2..] == ts[i + 1..]
            && r[i].startTime == ts[i].startTime
            && r[i + 1].startTime == cutTime
            && r[i].source == NoSource && r[i + 1].source == NoSource
            && |r[i].buffer.channels| == |r[i + 1].buffer.channels| == |ts[i].buffer.channels|
  {
    var r := Cut(ts, i, cutTime, rate).tracks;
    assert r == ts[..i] + [r[i], r[i + 1]] + ts[i + 1..];
    assert r[..i] == ts[..i];
    assert r[i + 2..] == ts[i + 1..];
  }

  /** The samples of a cut: the left piece is the first
      floor((cutTime - start) * rate) frames of every channel, the right
      piece the next floor((end - cutTime) * rate) frames, and together they
      hold the original frames, or all but the last one. */
  lemma CutSamples(ts: seq<Track>, i: int, cutTime: real, rate: Rate)
    requires TracksValid(ts, rate)
    requires Cut(ts, i, cutTime, rate).outcome == Split
    ensures var r := Cut(ts, i, cutTime, rate).tracks;
            var orig := ts[i].buffer;
            var left := r[i].buffer;
            var right := r[i + 1].buffer;
            && left.length == Frames(cutTime - ts[i].startTime, rate)
            && right.length == Frames(End(ts[i]) - cutTime, rate)
            && orig.length - 1 <= left.length + right.length <= orig.length
            && (forall c, j :: 0 <= c < |orig.channels| && 0 <= j < left.length ==> left.channels[c][j] == orig.channels[c][j])
            && (forall c, j :: 0 <= c < |orig.channels| && 0 <= j < right.length ==> right.channels[c][j] == orig.channels[c][j + left.length])
  {
    CutFrames(ts[i], cutTime, rate);
  }

  /** Cutting a 2-second buffer at 44100 Hz one second after its start yields
      two pieces of 44100 frames each. */
  lemma CutTwoSecondsInHalf(ts: seq<Track>, i: nat)
    requires TracksValid(ts, 44100) && i < |ts|
    requires ts[i].buffer.length == 88200 && ts[i].startTime == 0.0
    ensures var r := Cut(ts, i, 1.0, 44100);
            r.outcome == Split && r.tracks[i].buffer.length == 44100 && r.tracks[i + 1].buffer.length == 44100
  {
    assert Duration(ts[i].buffer) == 2.0;
    var r := Cut(ts, i, 1.0, 44100);
    CutSamples(ts, i, 1.0, 44100);
    assert Frames(1.0, 44100) == 44100;
  }

  // ---------------------------------------------------------------------
  // Transport rules applied to tracks

  /** Seconds into the track at which playback from timeline time `from`
      begins: `Math.max(0, startFrom - track.startTime)`. */
  function Offset(t: Track, from: real): (o: real)
    ensures o >= 0.0 && o >= from - t.startTime
    ensures from >= t.startTime ==> o == from - t.startTime
    ensures from <= t.startTime ==> o == 0.0
  {
    Max(0.0, from - t.startTime)
  }

  /** `playAll`'s test for starting a track: its extent has not ended. */
  predicate Reaches(t: Track, from: real)
  {
    from < End(t)
  }

  /** A track `playAll(from)` plays is one whose source will actually be
      started (its offset lies before its end) or one that lies wholly
      ahead of `from`; every other track is left alone. */
  lemma ReachedIffStartable(t: Track, from: real)
    ensures Reaches(t, from) <==> Offset(t, from) < Duration(t.buffer) || from < t.startTime
  {
  }

  /** `playTrack` exactly as written: the source is started at the context's
      current time `now`, whatever the track's own start time. */
  function PlayedAsWritten(t: Track, from: real, now: real): (r: Track)
    ensures r.source.Source? && r.isPlaying
    ensures r.buffer == t.buffer && r.startTime == t.startTime && r.gain == t.gain
    ensures r.source.when == now
    ensures r.source.offset >= 0.0 && (r.source.started ==> r.source.offset < Duration(t.buffer))
  {
    t.(source := Source(now, Offset(t, from), Offset(t, from) < Duration(t.buffer)), isPlaying := true)
  }

  /** `playTrack` with the start delayed until the playhead reaches the
      track: `when = now + max(0, startTime - from)`. */
  function Played(t: Track, from: real, now: real): (r: Track)
    ensures r.source.Source? && r.isPlaying
    ensures r.buffer == t.buffer && r.startTime == t.startTime && r.gain == t.gain
    ensures r.source.when == now + Max(0.0, t.startTime - from)
    ensures r.source.offset == Max(0.0, from - t.startTime)
    ensures r.source.when >= now && (r.source.when == now <==> t.startTime <= from)
    ensures r.source.offset >= 0.0 && (r.source.started ==> r.source.offset < Duration(t.buffer))
  {
    t.(source := Source(now + Max(0.0, t.startTime - from), Offset(t, from), Offset(t, from) < Duration(t.buffer)), isPlaying := true)
  }

  /** The timeline position that sounds at context time `w` once the
      transport was started at `now` from position `from`
      (`this.startTime = now - from`). */
  function TimelineAt(w: real, now: real, from: real): real
  {
    w - (now - from)
  }

  /** The position, in seconds into the buffer, that a started source emits
      at context time `w`. */
  function EmittedAt(s: Source, w: real): real
    requires s.Source?
  {
    s.offset + (w - s.when)
  }

  /** With the delayed start, every track plays in lockstep with the
      transport: whenever the source emits buffer position `p`, the
      transport is at the track's timeline position `startTime + p`. */
  lemma PlayedInLockstep(t: Track, from: real, now: real, w: real)
    requires Reaches(t, from)
    ensures var s := Played(t, from, now).source;
            s.Source? && TimelineAt(w, now, from) == t.startTime + EmittedAt(s, w)
  {
  }

  /** As written, a track that starts after `from` sounds its first sample
      at once, while the transport is still at `from`: a track at 5 s
      played from 0 s starts 5 s early. */
  lemma PlayedAsWrittenStartsEarly(t: Track, now: real)
    requires t.startTime == 5.0 && t.buffer.length > 0
    ensures var s := PlayedAsWritten(t, 0.0, now).source;
            s.Source? && s.started && EmittedAt(s, now) == 0.0
            && TimelineAt(now, now, 0.0) == 0.0 != t.startTime + EmittedAt(s, now)
  {
    assert Duration(t.buffer) > 0.0;
  }

  /** The two start rules agree on everything but the source's start time,
      and agree on that too exactly when the track begins at or before
      `from`. */
  lemma PlayRulesDiffer(t: Track, from: real, now: real)
    ensures var written := PlayedAsWritten(t, from, now);
            Played(t, from, now) == written.(source := written.source.(when := now + Max(0.0, t.startTime - from)))
    ensures Played(t, from, now) == PlayedAsWritten(t, from, now) <==> t.startTime <= from
  {
  }

  /** Every track `playAll(from)` starts gets `max(0, from - startTime)` as
      its offset, which lies in [0, duration) unless the buffer is empty;
      a non-empty track whose extent has not ended is always started. */
  lemma PlayedOffset(t: Track, from: real, now: real)
    requires Reaches(t, from)
    ensures var s := Played(t, from, now).source;
            && s.Source?
            && 0.0 <= s.offset
            && (s.started <==> Duration(t.buffer) > 0.0)
            && (s.started ==> s.offset < Duration(t.buffer))
            && (from >= t.startTime ==> s.offset == from - t.startTime && s.when == now)
            && (from < t.startTime ==> s.offset == 0.0 && s.when == now + (t.startTime - from))
  {
  }

  /** `playAll(from)` applied to every track. */
  function PlayedFrom(ts: seq<Track>, from: real, now: real): (r: seq<Track>)
    ensures |r| == |ts|
    ensures forall k :: 0 <= k < |ts| && !Reaches(ts[k], from) ==> r[k] == ts[k]
    ensures forall k :: 0 <= k < |ts| && Reaches(ts[k], from) ==>
              && r[k].isPlaying && r[k].source.Source?
              && r[k].buffer == ts[k].buffer && r[k].startTime == ts[k].startTime && r[k].gain == ts[k].gain
              && r[k].source.offset == Max(0.0, from - ts[k].startTime)
              && r[k].source.when == now + Max(0.0, ts[k].startTime - from)
              && (r[k].source.started <==> Duration(ts[k].buffer) > 0.0)
              && (r[k].source.started ==> r[k].source.offset < Duration(ts[k].buffer))
  {
    seq(|ts|, k requires 0 <= k < |ts| => if Reaches(ts[k], from) then Played(ts[k], from, now) else ts[k])
  }

  /** The per-track step of `pauseAll` and `stopAll`: stop and drop a source
      that is present, leave a track without one alone. */
  function Stopped(t: Track): (r: Track)
    ensures r.source == NoSource
    ensures r.buffer == t.buffer && r.startTime == t.startTime && r.gain == t.gain
    ensures t.source == NoSource ==> r == t
    ensures t.source.Source? ==> !r.isPlaying
  {
    if t.source.Source? then t.(isPlaying := false, source := NoSource) else t
  }

  /** The `forEach` of `pauseAll` and `stopAll`: afterwards no track has a
      source, a track that had one is no longer playing, a track that had
      none is untouched, and buffer, start time and gain are kept. */
  function StoppedAll(ts: seq<Track>): (r: seq<Track>)
    ensures |r| == |ts|
    ensures forall k :: 0 <= k < |ts| ==>
              && r[k].source == NoSource
              && r[k].buffer == ts[k].buffer && r[k].startTime == ts[k].startTime && r[k].gain == ts[k].gain
              && (ts[k].source == NoSource ==> r[k] == ts[k])
              && (ts[k].source.Source? ==> !r[k].isPlaying)
  {
    seq(|ts|, k requires 0 <= k < |ts| => Stopped(ts[k]))
  }

  /** The transport rules keep the engine invariant. */
  lemma TransportKeepsValid(ts: seq<Track>, rate: Rate, from: real, now: real)
    requires TracksValid(ts, rate)
    ensures TracksValid(PlayedFrom(ts, from, now), rate)
    ensures TracksValid(StoppedAll(ts), rate)
  {
  }

  // ---------------------------------------------------------------------
  // Editing a single track

  /** `moveTrack`: the new start time is clamped at 0. */
  function Moved(t: Track, newStartTime: real): (r: Track)
    ensures r.startTime >= 0.0 && r.startTime >= newStartTime
    ensures r.startTime == newStartTime || r.startTime == 0.0
    ensures r.buffer == t.buffer && r.source == t.source && r.gain == t.gain && r.isPlaying == t.isPlaying
  {
    t.(startTime := Max(0.0, newStartTime))
  }

  /** `Math.max(0, Math.min(1, v))`. */
  function Clamp01(v: real): (r: real)
    ensures 0.0 <= r <= 1.0
    ensures 0.0 <= v <= 1.0 ==> r == v
    ensures v < 0.0 ==> r == 0.0
    ensures v > 1.0 ==> r == 1.0
  {
    Max(0.0, Min(1.0, v))
  }
}
