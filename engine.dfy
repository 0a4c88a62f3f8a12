/** The `AudioEngine` object: its ordered track list and its transport
    fields, changed in place by its methods. The audio context is reduced to
    its sample rate and to the time `now` that methods reading
    `audioContext.currentTime` take as a parameter; playback sources are the
    `Source` records of module Tracks. */
module Engine {
  import opened Tracks

  /** What `setTrackVolume` does with its arguments. A track that came from
      a recording has no gain node, and writing its gain throws a
      TypeError; tracks produced by a cut have one. */
  datatype VolumeOutcome = IndexIgnored | NoGainNode | VolumeSet

  /** The inner copy loop of `cutTrackAtTime`: `n` samples of `data` from
      `from` on, into a fresh Float32Array. */
  method CopyFrames(data: seq<real>, from: nat, n: nat) returns (out: seq<real>)
    requires from + n <= |data|
    ensures out == data[from..from + n]
  {
    var segmentData := new real[n];
    for i := 0 to n
      invariant forall k :: 0 <= k < i ==> segmentData[k] == data[from + k]
    {
      segmentData[i] := data[i + from];
    }
    out := segmentData[..];
  }

  /** The channel loop of `cutTrackAtTime`: each channel's first `firstLen`
      samples go to the first buffer, the next `secondLen` to the second. */
  method SplitBuffer(buffer: AudioBuffer, firstLen: nat, secondLen: nat, rate: Rate)
    returns (first: AudioBuffer, second: AudioBuffer)
    requires WellFormed(buffer) && firstLen + secondLen <= buffer.length
    ensures first == Segment(buffer, 0, firstLen, rate)
    ensures second == Segment(buffer, firstLen, secondLen, rate)
  {
    var firstChannels: seq<seq<real>> := [];
    var secondChannels: seq<seq<real>> := [];
    for channel := 0 to |buffer.channels|
      invariant |firstChannels| == channel && |secondChannels| == channel
      invariant forall c :: 0 <= c < channel ==> firstChannels[c] == buffer.channels[c][0..firstLen]
      invariant forall c :: 0 <= c < channel ==> secondChannels[c] == buffer.channels[c][firstLen..firstLen + secondLen]
    {
      var originalData := buffer.channels[channel];
      var firstSegmentData := CopyFrames(originalData, 0, firstLen);
      var secondSegmentData := CopyFrames(originalData, firstLen, secondLen);
      firstChannels := firstChannels + [firstSegmentData];
      secondChannels := secondChannels + [secondSegmentData];
    }
    first := AudioBuffer(firstChannels, firstLen, rate);
    second := AudioBuffer(secondChannels, secondLen, rate);
  }

  class AudioEngine {
    /** `audioContext.sampleRate`, the rate of every buffer the engine makes. */
    const sampleRate: Rate
    var tracks: seq<Track>
    /** Context time at which timeline position 0 would have played. */
    var startTime: real
    var isPlaying: bool
    var isPaused: bool
    var pausedAt: real
    /** The master gain node's value. */
    var masterGain: real

    /** The tracks are valid, and the transport is never playing and
        paused at once. */
    ghost predicate Valid()
      reads this
    {
      TracksValid(tracks, sampleRate) && !(isPlaying && isPaused)
    }

    constructor (sampleRate: Rate)
      ensures Valid() && this.sampleRate == sampleRate
      ensures tracks == [] && startTime == 0.0 && !isPlaying && !isPaused && pausedAt == 0.0
      ensures masterGain == 1.0
    {
      this.sampleRate := sampleRate;
      tracks := [];
      startTime := 0.0;
      isPlaying := false;
      isPaused := false;
      pausedAt := 0.0;
      masterGain := 1.0;
    }

    /** The track a finished recording adds, at time 0 and without gain
        node; returns the index handed to `onTrackAdded`. */
    method AddRecordedTrack(buffer: AudioBuffer) returns (index: nat)
      requires Valid() && WellFormed(buffer) && buffer.sampleRate == sampleRate
      modifies this
      ensures Valid()
      ensures tracks == old(tracks) + [Track(buffer, 0.0, false, NoSource, None)]
      ensures index == |old(tracks)| && index < |tracks|
      ensures startTime == old(startTime) && isPlaying == old(isPlaying) && isPaused == old(isPaused)
      ensures pausedAt == old(pausedAt) && masterGain == old(masterGain)
    {
      tracks := tracks + [Track(buffer, 0.0, false, NoSource, None)];
      index := |tracks| - 1;
    }

    /** `playTrack(trackIndex, startFrom)`: give the track a source that
        emits from `max(0, startFrom - startTime)` seconds into its buffer;
        the source is started only when that offset is before the end. */
    method PlayTrack(trackIndex: int, startFrom: real, now: real)
      requires Valid()
      modifies this
      ensures Valid()
      ensures tracks == if 0 <= trackIndex < |old(tracks)|
                        then old(tracks)[trackIndex := Played(old(tracks)[trackIndex], startFrom, now)]
                        else old(tracks)
      ensures startTime == old(startTime) && isPlaying == old(isPlaying) && isPaused == old(isPaused)
      ensures pausedAt == old(pausedAt) && masterGain == old(masterGain)
    {
      if !(0 <= trackIndex < |tracks|) {
        return;
      }
      var track := tracks[trackIndex];
      var offset := Max(0.0, startFrom - track.startTime);
      var when := now + Max(0.0, track.startTime - startFrom);
      var source := Source(when, offset, offset < Duration(track.buffer));
      tracks := tracks[trackIndex := track.(source := source, isPlaying := true)];
    }

    /** `stopTrack(trackIndex)`: drop the track's source if it has one. */
    method StopTrack(trackIndex: int)
      requires Valid()
      modifies this
      ensures Valid()
      ensures tracks == if 0 <= trackIndex < |old(tracks)|
                        then old(tracks)[trackIndex := Stopped(old(tracks)[trackIndex])]
                        else old(tracks)
      ensures startTime == old(startTime) && isPlaying == old(isPlaying) && isPaused == old(isPaused)
      ensures pausedAt == old(pausedAt) && masterGain == old(masterGain)
    {
      if 0 <= trackIndex < |tracks| && tracks[trackIndex].source.Source? {
        var track := tracks[trackIndex];
        tracks := tracks[trackIndex := track.(isPlaying := false, source := NoSource)];
      }
    }

    /** `playAll(startFrom)`: start the transport at `startFrom` and play
        every track whose extent has not ended by then. */
    method PlayAll(startFrom: real, now: real)
      requires Valid()
      modifies this
      ensures Valid()
      ensures isPlaying && !isPaused && startTime == now - startFrom
      ensures tracks == PlayedFrom(old(tracks), startFrom, now)
      ensures pausedAt == old(pausedAt) && masterGain == old(masterGain)
    {
      isPlaying := true;
      isPaused := false;
      startTime := now - startFrom;
      var index := 0;
      while index < |tracks|
        invariant Valid() && |tracks| == |old(tracks)| && 0 <= index <= |tracks|
        invariant forall k :: 0 <= k < index ==>
                    tracks[k] == if Reaches(old(tracks)[k], startFrom) then Played(old(tracks)[k], startFrom, now) else old(tracks)[k]
        invariant forall k :: index <= k < |tracks| ==> tracks[k] == old(tracks)[k]
        invariant isPlaying && !isPaused && startTime == now - startFrom
        invariant pausedAt == old(pausedAt) && masterGain == old(masterGain)
      {
        if startFrom < tracks[index].startTime + Duration(tracks[index].buffer) {
          PlayTrack(index, startFrom, now);
        }
        index := index + 1;
      }
    }

    /** `pauseAll`: record how far the transport got and drop every source. */
    method PauseAll(now: real)
      requires Valid()
      modifies this
      ensures Valid()
      ensures isPaused && !isPlaying && pausedAt == now - old(startTime)
      ensures tracks == StoppedAll(old(tracks))
      ensures startTime == old(startTime) && masterGain == old(masterGain)
    {
      isPaused := true;
      isPlaying := false;
      pausedAt := now - startTime;
      StopSources();
    }

    /** `resumeAll`: play again from where the pause left off. */
    method ResumeAll(now: real)
      requires Valid()
      modifies this
      ensures Valid()
      ensures old(isPaused) ==> isPlaying && !isPaused && startTime == now - old(pausedAt)
                                && tracks == PlayedFrom(old(tracks), old(pausedAt), now)
      ensures !old(isPaused) ==> tracks == old(tracks) && startTime == old(startTime)
                                 && isPlaying == old(isPlaying) && !isPaused
      ensures pausedAt == old(pausedAt) && masterGain == old(masterGain)
    {
      if isPaused {
        PlayAll(pausedAt, now);
      }
    }

    /** `stopAll`: clear both flags and the pause position, drop every source. */
    method StopAll()
      requires Valid()
      modifies this
      ensures Valid()
      ensures !isPlaying && !isPaused && pausedAt == 0.0
      ensures tracks == StoppedAll(old(tracks))
      ensures startTime == old(startTime) && masterGain == old(masterGain)
    {
      isPlaying := false;
      isPaused := false;
      pausedAt := 0.0;
      StopSources();
    }

    /** The `forEach` shared by `pauseAll` and `stopAll`. */
    method StopSources()
      requires Valid()
      modifies this
      ensures Valid()
      ensures tracks == StoppedAll(old(tracks))
      ensures startTime == old(startTime) && isPlaying == old(isPlaying) && isPaused == old(isPaused)
      ensures pausedAt == old(pausedAt) && masterGain == old(masterGain)
    {
      var index := 0;
      while index < |tracks|
        invariant Valid() && |tracks| == |old(tracks)| && 0 <= index <= |tracks|
        invariant forall k :: 0 <= k < index ==> tracks[k] == Stopped(old(tracks)[k])
        invariant forall k :: index <= k < |tracks| ==> tracks[k] == old(tracks)[k]
        invariant startTime == old(startTime) && isPlaying == old(isPlaying) && isPaused == old(isPaused)
        invariant pausedAt == old(pausedAt) && masterGain == old(masterGain)
      {
        var track := tracks[index];
        if track.source.Source? {
          tracks := tracks[index := track.(isPlaying := false, source := NoSource)];
        }
        index := index + 1;
      }
    }

    /** `cutTrackAtTime(trackIndex, cutTime)`. */
    method CutTrackAtTime(trackIndex: int, cutTime: real) returns (outcome: CutOutcome)
      requires Valid()
      modifies this
      ensures Valid()
      ensures outcome == Cut(old(tracks), trackIndex, cutTime, sampleRate).outcome
      ensures tracks == Cut(old(tracks), trackIndex, cutTime, sampleRate).tracks
      ensures startTime == old(startTime) && isPlaying == old(isPlaying) && isPaused == old(isPaused)
      ensures pausedAt == old(pausedAt) && masterGain == old(masterGain)
    {
      if !(0 <= trackIndex < |tracks|) {
        return NoTrack;
      }
      var track := tracks[trackIndex];
      if cutTime <= track.startTime || cutTime >= track.startTime + Duration(track.buffer) {
        return OutsideBounds;
      }
      var firstSegmentDuration := cutTime - track.startTime;
      var secondSegmentDuration := (track.startTime + Duration(track.buffer)) - cutTime;
      if firstSegmentDuration <= 0.0 || secondSegmentDuration <= 0.0 {
        return InvalidSegment;
      }
      var firstSegmentSamples := Frames(firstSegmentDuration, sampleRate);
      var secondSegmentSamples := Frames(secondSegmentDuration, sampleRate);
      CutFrames(track, cutTime, sampleRate);
      var firstSegment, secondSegment := SplitBuffer(track.buffer, firstSegmentSamples, secondSegmentSamples, sampleRate);
      var firstTrack := CutPiece(firstSegment, track.startTime);
      var secondTrack := CutPiece(secondSegment, cutTime);
      tracks := tracks[..trackIndex] + [firstTrack, secondTrack] + tracks[trackIndex + 1..];
      outcome := Split;
    }

    /** `moveTrack(trackIndex, newStartTime)`; `notified` tells whether
        `onTrackModified` is due to be called (when a handler is set). */
    method MoveTrack(trackIndex: int, newStartTime: real) returns (notified: bool)
      requires Valid()
      modifies this
      ensures Valid()
      ensures notified <==> 0 <= trackIndex < |old(tracks)|
      ensures tracks == if notified then old(tracks)[trackIndex := Moved(old(tracks)[trackIndex], newStartTime)] else old(tracks)
      ensures startTime == old(startTime) && isPlaying == old(isPlaying) && isPaused == old(isPaused)
      ensures pausedAt == old(pausedAt) && masterGain == old(masterGain)
    {
      notified := 0 <= trackIndex < |tracks|;
      if notified {
        var track := tracks[trackIndex];
        tracks := tracks[trackIndex := track.(startTime := Max(0.0, newStartTime))];
      }
    }

    /** `getTrackDuration(trackIndex)`: the buffer's duration, or 0 when
        there is no such track. */
    function GetTrackDuration(trackIndex: int): (d: real)
      reads this
      ensures d >= 0.0
      ensures 0 <= trackIndex < |tracks| ==> d * tracks[trackIndex].buffer.sampleRate as real == tracks[trackIndex].buffer.length as real
      ensures !(0 <= trackIndex < |tracks|) ==> d == 0.0
    {
      if 0 <= trackIndex < |tracks| then Duration(tracks[trackIndex].buffer) else 0.0
    }

    /** `setTrackVolume(trackIndex, volume)`. */
    method SetTrackVolume(trackIndex: int, volume: real) returns (outcome: VolumeOutcome)
      requires Valid()
      modifies this
      ensures Valid()
      ensures outcome == if !(0 <= trackIndex < |old(tracks)|) then IndexIgnored
                         else if old(tracks)[trackIndex].gain.None? then NoGainNode
                         else VolumeSet
      ensures tracks == if outcome == VolumeSet
                        then old(tracks)[trackIndex := old(tracks)[trackIndex].(gain := Some(Clamp01(volume)))]
                        else old(tracks)
      ensures startTime == old(startTime) && isPlaying == old(isPlaying) && isPaused == old(isPaused)
      ensures pausedAt == old(pausedAt) && masterGain == old(masterGain)
    {
      if !(0 <= trackIndex < |tracks|) {
        return IndexIgnored;
      }
      var track := tracks[trackIndex];
      if track.gain.None? {
        return NoGainNode;
      }
      tracks := tracks[trackIndex := track.(gain := Some(Max(0.0, Min(1.0, volume))))];
      outcome := VolumeSet;
    }

    /** `setMasterVolume(volume)`: a value outside [0, 1] is ignored, not
        clamped. */
    method SetMasterVolume(volume: real)
      modifies this
      ensures masterGain == if 0.0 <= volume <= 1.0 then volume else old(masterGain)
      ensures 0.0 <= old(masterGain) <= 1.0 ==> 0.0 <= masterGain <= 1.0
      ensures tracks == old(tracks) && startTime == old(startTime) && isPlaying == old(isPlaying)
      ensures isPaused == old(isPaused) && pausedAt == old(pausedAt)
    {
      if volume >= 0.0 && volume <= 1.0 {
        masterGain := volume;
      }
    }
  }

  /** Play from `from` at context time t0, pause at t1, resume at t2: the
      pause records `from` plus the time played, and the resume carries on
      from exactly there. */
  method PlayPauseResume(engine: AudioEngine, from: real, t0: real, t1: real, t2: real)
    requires engine.Valid()
    modifies engine
    ensures engine.Valid()
    ensures engine.pausedAt == from + (t1 - t0)
    ensures engine.isPlaying && !engine.isPaused
    ensures engine.startTime == t2 - (from + (t1 - t0))
    ensures engine.tracks == PlayedFrom(StoppedAll(PlayedFrom(old(engine.tracks), from, t0)), from + (t1 - t0), t2)
  {
    engine.PlayAll(from, t0);
    engine.PauseAll(t1);
    engine.ResumeAll(t2);
  }

  /** Whatever the transport was doing, stopping it leaves it idle with the
      pause position at 0 and no track holding a source. */
  method StopFromAnyState(engine: AudioEngine)
    requires engine.Valid()
    modifies engine
    ensures engine.Valid()
    ensures !engine.isPlaying && !engine.isPaused && engine.pausedAt == 0.0
    ensures forall k :: 0 <= k < |engine.tracks| ==> engine.tracks[k].source == NoSource
  {
    engine.StopAll();
  }
}
