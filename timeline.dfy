/** The non-drawing state of `TimelineRenderer`: the playhead time, the two
    play flags, the previous animation-frame timestamp, and the pure
    geometry (rows of 80 px with 20 px gaps, 100 px per second) that the
    mouse handlers and the drawing code rely on. */
module Timeline {
  import opened Tracks
  import Engine

  const PixelsPerSecond: real := 100.0
  const TrackHeight: nat := 80
  const TrackGap: nat := 20

  /** Canvas row `i` covers `y` in [i * (height + gap), i * (height + gap) + height). */
  predicate InRow(i: nat, y: real)
  {
    (i * (TrackHeight + TrackGap)) as real <= y < (i * (TrackHeight + TrackGap) + TrackHeight) as real
  }

  /** No `y` lies in two rows. */
  lemma RowsDisjoint(i: nat, j: nat, y: real)
    requires InRow(i, y) && InRow(j, y)
    ensures i == j
  {
    assert i * 100 < j * 100 + 100 && j * 100 < i * 100 + 100;
  }

  /** A `y` in the 20 px gap below row `i` is in no row at all. */
  lemma GapHitsNoRow(i: nat, j: nat, y: real)
    requires (i * (TrackHeight + TrackGap) + TrackHeight) as real <= y < ((i + 1) * (TrackHeight + TrackGap)) as real
    ensures !InRow(j, y)
  {
    if j <= i {
      assert j * 100 + 80 <= i * 100 + 80;
    } else {
      assert (i + 1) * 100 <= j * 100;
    }
  }

  /** `timeToX`: 100 px per second, so the x of time 0 is 0 and later
      times lie to the right. */
  function TimeToX(time: real): (x: real)
    ensures x / PixelsPerSecond == time
    ensures time >= 0.0 <==> x >= 0.0
  {
    time * PixelsPerSecond
  }

  /** `xToTime`: the time under canvas position `x`. */
  function XToTime(x: real): (time: real)
    ensures time * PixelsPerSecond == x
    ensures time >= 0.0 <==> x >= 0.0
  {
    x / PixelsPerSecond
  }

  /** The two conversions are inverse to each other and order-preserving. */
  lemma PixelsRoundTrip(time: real, x: real)
    ensures XToTime(TimeToX(time)) == time
    ensures TimeToX(XToTime(x)) == x
    ensures TimeToX(time) <= x <==> time <= XToTime(x)
  {
  }

  /** The renderer's `getTotalDuration` given the engine's tracks and the
      playhead time: at least 10 s, and with tracks present at least 5 s
      past the playhead and past the end of every track. */
  function DisplayDuration(ts: seq<Track>, currentTime: real): (d: real)
    ensures d >= 10.0
    ensures ts == [] ==> d == 10.0
    ensures ts != [] ==> d >= currentTime + 5.0 && forall k :: 0 <= k < |ts| ==> End(ts[k]) <= d
    ensures ts != [] ==> d == TotalDuration(ts) || d == currentTime + 5.0 || d == 10.0
  {
    if |ts| == 0 then 10.0 else Max(Max(TotalDuration(ts), currentTime + 5.0), 10.0)
  }

  /** With at least one track the display duration stays ahead of the
      playhead, so the end-of-playback test `currentTime >= duration` can
      hold only when there are no tracks. */
  lemma CompletionNeedsNoTracks(ts: seq<Track>, currentTime: real)
    requires currentTime >= DisplayDuration(ts, currentTime)
    ensures ts == [] && currentTime >= 10.0
  {
  }

  class TimelineRenderer {
    const engine: Engine.AudioEngine
    var currentTime: real
    var isPlaying: bool
    var isPaused: bool
    /** Timestamp of the previous animation frame, 0 when there is none. */
    var lastFrameTime: real

    constructor (engine: Engine.AudioEngine)
      ensures this.engine == engine
      ensures currentTime == 0.0 && !isPlaying && !isPaused && lastFrameTime == 0.0
    {
      this.engine := engine;
      currentTime := 0.0;
      isPlaying := false;
      isPaused := false;
      lastFrameTime := 0.0;
    }

    /** `findTrackAtPosition(x, y)`: the index of the row containing `y`,
        if that row holds a track; `x` plays no part. */
    method FindTrackAtPosition(x: real, y: real) returns (r: Option<nat>)
      ensures forall i: nat :: r == Some(i) <==> i < |engine.tracks| && InRow(i, y)
      ensures r.None? <==> forall i: nat :: i < |engine.tracks| ==> !InRow(i, y)
    {
      var i: nat := 0;
      while i < |engine.tracks|
        invariant i <= |engine.tracks|
        invariant forall k: nat :: k < i ==> !InRow(k, y)
      {
        var trackY := (i * (TrackHeight + TrackGap)) as real;
        if y >= trackY && y < trackY + TrackHeight as real {
          forall j: nat | j < |engine.tracks| && InRow(j, y)
            ensures j == i
          {
            RowsDisjoint(i, j, y);
          }
          return Some(i);
        }
        i := i + 1;
      }
      return None;
    }

    /** `getTotalDuration` of the renderer. */
    function GetTotalDuration(): (d: real)
      reads this, engine
      ensures d >= 10.0
      ensures |engine.tracks| == 0 ==> d == 10.0
      ensures |engine.tracks| > 0 ==> d >= currentTime + 5.0 && forall k :: 0 <= k < |engine.tracks| ==> End(engine.tracks[k]) <= d
      ensures |engine.tracks| > 0 ==> d == TotalDuration(engine.tracks) || d == currentTime + 5.0 || d == 10.0
    {
      DisplayDuration(engine.tracks, currentTime)
    }

    /** `setIsPlaying(isPlaying, resetTime)`: paused means stopped without
        a reset; the playhead goes to 0 exactly when `resetTime` holds. */
    method SetIsPlaying(isPlaying: bool, resetTime: bool)
      modifies this
      ensures this.isPlaying == isPlaying
      ensures isPaused <==> !isPlaying && !resetTime
      ensures currentTime == if resetTime then 0.0 else old(currentTime)
      ensures lastFrameTime == old(lastFrameTime)
    {
      this.isPlaying := isPlaying;
      isPaused := !isPlaying && !resetTime;
      if resetTime {
        currentTime := 0.0;
      }
    }

    /** One call of `animationLoop(timestamp)` minus the drawing and the
        rescheduling; `completed` tells whether `onPlaybackComplete` is due to fire
        (when a handler is set). */
    method AnimationFrame(timestamp: real) returns (completed: bool)
      modifies this
      ensures old(isPlaying) && old(lastFrameTime) != 0.0 ==>
                var advanced := old(currentTime) + (timestamp - old(lastFrameTime)) / 1000.0;
                && (completed <==> advanced >= DisplayDuration(engine.tracks, advanced))
                && (completed ==> currentTime == 0.0 && !isPlaying)
                && (!completed ==> currentTime == advanced && isPlaying)
      ensures !(old(isPlaying) && old(lastFrameTime) != 0.0) ==>
                !completed && currentTime == old(currentTime) && isPlaying == old(isPlaying)
      ensures lastFrameTime == if old(isPlaying) then timestamp else 0.0
      ensures isPaused == old(isPaused)
      ensures completed ==> |engine.tracks| == 0
    {
      completed := false;
      if isPlaying {
        if lastFrameTime != 0.0 {
          var deltaTime := (timestamp - lastFrameTime) / 1000.0;
          currentTime := currentTime + deltaTime;
          if currentTime >= GetTotalDuration() {
            CompletionNeedsNoTracks(engine.tracks, currentTime);
            currentTime := 0.0;
            isPlaying := false;
            completed := true;
          }
        }
        lastFrameTime := timestamp;
      } else {
        lastFrameTime := 0.0;
      }
    }
  }

  /** While any track exists, successive frames only ever move the playhead
      forward by the elapsed time and never stop playback on their own. */
  method TwoFramesWithTracks(renderer: TimelineRenderer, t1: real, t2: real)
    requires |renderer.engine.tracks| > 0 && renderer.isPlaying && renderer.lastFrameTime != 0.0
    requires t1 != 0.0
    modifies renderer
    ensures renderer.isPlaying && renderer.lastFrameTime == t2
    ensures renderer.currentTime == old(renderer.currentTime) + (t1 - old(renderer.lastFrameTime)) / 1000.0 + (t2 - t1) / 1000.0
  {
    var done1 := renderer.AnimationFrame(t1);
    var done2 := renderer.AnimationFrame(t2);
  }
}
