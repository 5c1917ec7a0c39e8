/**
  An abstract model of the media library the video service drives.
  A clip is known only by how it was built and by its duration in seconds;
  frames and samples are not modelled. Each library call the service makes
  is a function below whose contract is the law that call obeys on durations.
*/
module Media {

  /** A non-negative length of time, in seconds. */
  type Seconds = r: real | r >= 0.0

  datatype Clip =
    | Source(path: string, length: Seconds)        // AudioFileClip(path), VideoFileClip(path)
    | Gain(inner: Clip, factor: real)              // clip.volumex(factor)
    | Looped(inner: Clip, times: nat)              // video_clip.loop(n=times)
    | Concatenated(parts: seq<Clip>)               // concatenate_audioclips(parts)
    | Trimmed(inner: Clip, start: real, end: real) // clip.subclip(start, end)
    | Composite(tracks: seq<Clip>)                 // CompositeAudioClip(tracks)
    | WithAudio(video: Clip, audio: Clip)          // video_clip.set_audio(audio)

  /** The duration of a clip, as the library computes it. */
  function Duration(c: Clip): real {
    match c
    case Source(_, length) => length
    case Gain(inner, _) => Duration(inner)
    case Looped(inner, n) => n as real * Duration(inner)
    case Concatenated(parts) => TotalDuration(parts)
    case Trimmed(_, start, end) => end - start
    case Composite(tracks) => LongestDuration(tracks)
    case WithAudio(video, _) => Duration(video)
  }

  /** Clips played one after the other last as long as their durations added up. */
  function TotalDuration(parts: seq<Clip>): real {
    if parts == [] then 0.0 else Duration(parts[0]) + TotalDuration(parts[1..])
  }

  /** Tracks mixed together, all starting at 0, last as long as the longest one. */
  function LongestDuration(tracks: seq<Clip>): real {
    if tracks == [] then 0.0
    else if |tracks| == 1 then Duration(tracks[0])
    else
      var rest := LongestDuration(tracks[1..]);
      if Duration(tracks[0]) >= rest then Duration(tracks[0]) else rest
  }

  /** Every cut in the clip lies within the clip it cuts. */
  ghost predicate WellFormed(c: Clip) {
    match c
    case Source(_, _) => true
    case Gain(inner, _) => WellFormed(inner)
    case Looped(inner, _) => WellFormed(inner)
    case Concatenated(parts) => forall i :: 0 <= i < |parts| ==> WellFormed(parts[i])
    case Trimmed(inner, start, end) => WellFormed(inner) && 0.0 <= start <= end <= Duration(inner)
    case Composite(tracks) => forall i :: 0 <= i < |tracks| ==> WellFormed(tracks[i])
    case WithAudio(video, audio) => WellFormed(video) && WellFormed(audio)
  }

  /** A well-formed clip never has a negative duration. */
  lemma {:induction false} DurationNonNegative(c: Clip)
    requires WellFormed(c)
    ensures Duration(c) >= 0.0
  {
    match c
    case Source(_, _) =>
    case Gain(inner, _) => DurationNonNegative(inner);
    case Looped(inner, _) => DurationNonNegative(inner);
    case Concatenated(parts) => TotalDurationNonNegative(parts);
    case Trimmed(_, _, _) =>
    case Composite(tracks) => LongestDurationNonNegative(tracks);
    case WithAudio(video, _) => DurationNonNegative(video);
  }

  lemma {:induction false} TotalDurationNonNegative(parts: seq<Clip>)
    requires forall i :: 0 <= i < |parts| ==> WellFormed(parts[i])
    ensures TotalDuration(parts) >= 0.0
  {
    if parts != [] {
      DurationNonNegative(parts[0]);
      TotalDurationNonNegative(parts[1..]);
    }
  }

  lemma {:induction false} LongestDurationNonNegative(tracks: seq<Clip>)
    requires forall i :: 0 <= i < |tracks| ==> WellFormed(tracks[i])
    ensures LongestDuration(tracks) >= 0.0
  {
    if tracks != [] {
      DurationNonNegative(tracks[0]);
      LongestDurationNonNegative(tracks[1..]);
    }
  }

  /** The mix is exactly as long as its longest track: no track is longer, and some track is that long. */
  lemma {:induction false} LongestDurationIsMaximum(tracks: seq<Clip>)
    ensures forall i :: 0 <= i < |tracks| ==> Duration(tracks[i]) <= LongestDuration(tracks)
    ensures tracks != [] ==> exists i :: 0 <= i < |tracks| && Duration(tracks[i]) == LongestDuration(tracks)
  {
    if |tracks| > 1 {
      var rest := tracks[1..];
      LongestDurationIsMaximum(rest);
      forall i | 0 <= i < |tracks| ensures Duration(tracks[i]) <= LongestDuration(tracks) {
        if i > 0 { assert tracks[i] == rest[i - 1]; }
      }
      if Duration(tracks[0]) < LongestDuration(rest) {
        var j :| 0 <= j < |rest| && Duration(rest[j]) == LongestDuration(rest);
        assert tracks[j + 1] == rest[j];
      } else {
        assert Duration(tracks[0]) == LongestDuration(tracks);
      }
    } else if |tracks| == 1 {
      assert Duration(tracks[0]) == LongestDuration(tracks);
    }
  }

  /** `[clip] * n`: the list of n references to the same clip. */
  function Repeat(c: Clip, n: nat): (r: seq<Clip>)
    ensures |r| == n
    ensures forall i :: 0 <= i < n ==> r[i] == c
  {
    if n == 0 then [] else [c] + Repeat(c, n - 1)
  }

  /** Playing n copies of a clip back to back lasts n times as long as the clip. */
  lemma {:induction false} RepeatDuration(c: Clip, n: nat)
    ensures TotalDuration(Repeat(c, n)) == n as real * Duration(c)
  {
    if n > 0 {
      assert Repeat(c, n)[1..] == Repeat(c, n - 1);
      RepeatDuration(c, n - 1);
      assert n as real * Duration(c) == Duration(c) + (n - 1) as real * Duration(c);
    }
  }

  // The library calls, each with the law it obeys on durations.

  /** `AudioFileClip(path)` / `VideoFileClip(path)` for a file the decoder reads as `length` seconds long. */
  function Open(path: string, length: Seconds): (r: Clip)
    ensures WellFormed(r) && Duration(r) == length
  {
    Source(path, length)
  }

  /** `clip.volumex(factor)`: scales the samples, keeps the duration. */
  function VolumeX(c: Clip, factor: real): (r: Clip)
    ensures WellFormed(r) == WellFormed(c)
    ensures Duration(r) == Duration(c)
  {
    Gain(c, factor)
  }

  /** `clip.loop(n=n)`: n copies back to back. */
  function Loop(c: Clip, n: nat): (r: Clip)
    ensures WellFormed(r) == WellFormed(c)
    ensures Duration(r) == n as real * Duration(c)
  {
    Looped(c, n)
  }

  /** `concatenate_audioclips([clip] * n)`: n copies back to back, like `Loop`. */
  function ConcatenateRepeated(c: Clip, n: nat): (r: Clip)
    requires WellFormed(c)
    ensures WellFormed(r)
    ensures Duration(r) == n as real * Duration(c)
  {
    RepeatDuration(c, n);
    Concatenated(Repeat(c, n))
  }

  /** `clip.subclip(start, end)`: the window [start, end) of a clip that long or longer. */
  function Subclip(c: Clip, start: real, end: real): (r: Clip)
    requires WellFormed(c)
    requires 0.0 <= start <= end <= Duration(c)
    ensures WellFormed(r)
    ensures Duration(r) == end - start
  {
    Trimmed(c, start, end)
  }

  /** `CompositeAudioClip(tracks)`: the tracks mixed from time 0; as long as the longest. */
  function CompositeAudio(tracks: seq<Clip>): (r: Clip)
    requires forall i :: 0 <= i < |tracks| ==> WellFormed(tracks[i])
    ensures WellFormed(r)
    ensures forall i :: 0 <= i < |tracks| ==> Duration(tracks[i]) <= Duration(r)
    ensures tracks != [] ==> exists i :: 0 <= i < |tracks| && Duration(tracks[i]) == Duration(r)
  {
    LongestDurationIsMaximum(tracks);
    Composite(tracks)
  }

  /** `video_clip.set_audio(audio)`: the video's pictures with `audio` as its sound; as long as the video. */
  function SetAudio(video: Clip, audio: Clip): (r: Clip)
    requires WellFormed(video) && WellFormed(audio)
    ensures WellFormed(r)
    ensures Duration(r) == Duration(video)
    ensures r.WithAudio? && r.video == video && r.audio == audio
  {
    WithAudio(video, audio)
  }
}
