/**
  The video composition service: it checks the narration and the template,
  optionally mixes a looped and trimmed music bed under the narration, loops
  and trims the template to the narration's length, attaches the audio,
  writes the file and reports the narration's duration.

  The file system and the media decoders and encoder are given as an `Env`:
  which paths exist, what the audio decoder and the video decoder make of
  each path, and whether the encoder can write a given output path.
*/
module VideoService {
  import opened Wrappers
  import opened Media
  import opened VideoModel

  /** The gain `volumex` applies to the background music. */
  const MusicGain: real := 0.1

  const DefaultResourcesDir: string := "/app/ressources"
  const TemplateSubdirectory: string := "video-template"
  const FailurePrefix: string := "Error generating video: "
  const AudioNotFoundPrefix: string := "Audio file not found: "
  const TemplateNotFoundPrefix: string := "Video template not found: "
  const SuccessPrefix: string := "Video generated successfully at "

  /** What a decoder makes of one file: a clip of some length, or an exception's message. */
  datatype Probe = Decoded(length: Seconds) | Undecodable(reason: string)

  /** The world outside the service. */
  datatype Env = Env(
    files: set<string>,                // paths for which os.path.exists holds
    probeAudio: string -> Probe,       // AudioFileClip on a path
    probeVideo: string -> Probe,       // VideoFileClip on a path
    write: string -> Option<string>)   // makedirs + write_videofile: None, or the exception's message

  /** Why a render failed. */
  datatype Cause =
    | AudioNotFound(path: string)
    | TemplatePathRequired
    | TemplateNotFound(path: string)
    | DecodeFailed(reason: string)
    | ZeroDivision                     // int(D / 0.0) on an empty clip
    | EncodeFailed(reason: string)
  {
    /** `str(e)` of the exception raised for this cause; a library exception's own message is kept as it is. */
    function Message(): (m: string)
      ensures AudioNotFound? ==>
        |m| == |AudioNotFoundPrefix| + |path| && m[..|AudioNotFoundPrefix|] == AudioNotFoundPrefix && m[|AudioNotFoundPrefix|..] == path
      ensures TemplateNotFound? ==>
        |m| == |TemplateNotFoundPrefix| + |path| && m[..|TemplateNotFoundPrefix|] == TemplateNotFoundPrefix && m[|TemplateNotFoundPrefix|..] == path
      ensures DecodeFailed? ==> m == reason
      ensures EncodeFailed? ==> m == reason
      ensures TemplatePathRequired? ==> m == "Video template path is required"
      ensures ZeroDivision? ==> m == "float division by zero"
    {
      match this
      case AudioNotFound(path) => AudioNotFoundPrefix + path
      case TemplatePathRequired => "Video template path is required"
      case TemplateNotFound(path) => TemplateNotFoundPrefix + path
      case DecodeFailed(reason) => reason
      case ZeroDivision => "float division by zero"
      case EncodeFailed(reason) => reason
    }
  }

  /** The ValueError `render_video` raises, wrapping whatever went wrong. */
  datatype GenerationError = GenerationError(cause: Cause) {
    function Message(): (m: string)
      ensures |m| >= |FailurePrefix| && m[..|FailurePrefix|] == FailurePrefix
      ensures m[|FailurePrefix|..] == cause.Message()
    {
      FailurePrefix + cause.Message()
    }
  }

  /** The file the encoder leaves at `path`. */
  datatype OutputFile = OutputFile(path: string, clip: Clip, fps: Option<int>)

  // ---------------------------------------------------------------------
  // VideoService.__init__

  datatype ServiceConfig = ServiceConfig(resourcesDir: string, templateDir: string)

  /** `os.path.join(a, b)` for a relative `b`. */
  function PathJoin(a: string, b: string): (r: string)
    ensures |r| >= |a| + |b|
    ensures r[..|a|] == a && r[|r| - |b|..] == b
  {
    if a == [] || a[|a| - 1] == '/' then a + b else a + "/" + b
  }

  /** The directories the service is built with, from the RESOURCES_DIR variable if set. */
  function NewVideoService(resourcesDirVariable: Option<string>): (s: ServiceConfig)
    ensures resourcesDirVariable.Some? ==> s.resourcesDir == resourcesDirVariable.value
    ensures resourcesDirVariable.None? ==> s.resourcesDir == "/app/ressources"
    ensures |s.templateDir| >= |s.resourcesDir| + |TemplateSubdirectory|
    ensures s.templateDir[..|s.resourcesDir|] == s.resourcesDir
    ensures s.templateDir[|s.templateDir| - |TemplateSubdirectory|..] == "video-template"
  {
    var dir := if resourcesDirVariable.Some? then resourcesDirVariable.value else DefaultResourcesDir;
    ServiceConfig(dir, PathJoin(dir, TemplateSubdirectory))
  }

  /** Without the variable, templates are looked for in /app/ressources/video-template. */
  lemma DefaultTemplateDir()
    ensures NewVideoService(None).templateDir == "/app/ressources/video-template"
  {
  }

  // ---------------------------------------------------------------------
  // VideoService._validate_template_path

  /** The template path must be set, non-empty and exist; it is returned unchanged. */
  function ValidateTemplatePath(templatePath: Option<string>, files: set<string>): (r: Result<string, Cause>)
    ensures (templatePath == None || templatePath == Some("")) ==> r == Failure(TemplatePathRequired)
    ensures templatePath.Some? && templatePath.value != "" && templatePath.value !in files ==>
      r == Failure(TemplateNotFound(templatePath.value))
    ensures r.Success? <==> templatePath.Some? && templatePath.value != "" && templatePath.value in files
    ensures r.Success? ==> r.value == templatePath.value
  {
    if templatePath.None? || templatePath.value == "" then Failure(TemplatePathRequired)
    else if templatePath.value !in files then Failure(TemplateNotFound(templatePath.value))
    else Success(templatePath.value)
  }

  // ---------------------------------------------------------------------
  // Loop arithmetic: n_loops = int(target / length) + 1

  /** `int(target / length) + 1`; `int` truncates, which is the floor for a quotient that is not negative. */
  function LoopCount(target: real, length: real): (n: nat)
    requires target >= 0.0 && length > 0.0
    ensures n >= 1
    ensures (n - 1) as real <= target / length < n as real
  {
    LoopQuotientNonNegative(target, length);
    (target / length).Floor + 1
  }

  lemma LoopQuotientNonNegative(target: real, length: real)
    requires target >= 0.0 && length > 0.0
    ensures (target / length).Floor >= 0
  {
  }

  /** n copies of a clip of `length` run strictly past `target`, and n is the fewest that do. */
  lemma LoopCountCovers(target: real, length: real)
    requires target >= 0.0 && length > 0.0
    ensures LoopCount(target, length) as real * length > target
    ensures (LoopCount(target, length) - 1) as real * length <= target
    ensures length < target ==> LoopCount(target, length) >= 2
  {
    var q := target / length;
    var n := LoopCount(target, length);
    assert q * length == target;
    Scaled(q, n as real, length);
    assert n as real * length > target;
    Scaled((n - 1) as real, q, length);
    assert (n - 1) as real * length <= target;
    if length < target && q <= 1.0 {
      Scaled(q, 1.0, length);
      assert false;
    }
  }

  /** Scaling by a positive length keeps the order of two quotients. */
  lemma Scaled(a: real, b: real, length: real)
    requires length > 0.0 && a <= b
    ensures a * length <= b * length
    ensures a < b ==> a * length < b * length
  {
  }

  /** Whether the loop step can run: when a clip is shorter than the target, dividing by its length must not fail. */
  predicate LoopDefined(target: real, length: real) {
    length < target ==> length > 0.0
  }

  /** `base` stretched to cover `target` by `loop`: looped when shorter than `target`, untouched otherwise. */
  ghost predicate TemplateCovering(covered: Clip, base: Clip, target: real) {
    if Duration(base) < target
    then Duration(base) > 0.0 && covered == Looped(base, LoopCount(target, Duration(base)))
    else covered == base
  }

  /** The same rule for the music, which is repeated with `concatenate_audioclips`. */
  ghost predicate MusicCovering(covered: Clip, base: Clip, target: real) {
    if Duration(base) < target
    then Duration(base) > 0.0 && covered == Concatenated(Repeat(base, LoopCount(target, Duration(base))))
    else covered == base
  }

  /** A cut to exactly [0, target) of a clip at least that long. */
  ghost predicate CutTo(c: Clip, target: real) {
    c.Trimmed? && c.start == 0.0 && c.end == target && WellFormed(c) && Duration(c) == target
  }

  /** A background-music bed built from `path` as the service builds it, for a narration of `target` seconds. */
  ghost predicate MusicBed(bed: Clip, path: string, length: Seconds, target: real) {
    CutTo(bed, target) && MusicCovering(bed.inner, Gain(Source(path, length), MusicGain), target)
  }

  // ---------------------------------------------------------------------
  // VideoService._add_background_music

  /** Mixes the music at `musicPath`, quietened, looped and cut to the narration's length, under the narration. */
  method AddBackgroundMusic(audioClip: Clip, musicPath: string, env: Env) returns (r: Result<Clip, Cause>)
    requires WellFormed(audioClip)
    ensures env.probeAudio(musicPath).Undecodable? ==> r == Failure(DecodeFailed(env.probeAudio(musicPath).reason))
    ensures r.Success? <==>
      env.probeAudio(musicPath).Decoded? && LoopDefined(Duration(audioClip), env.probeAudio(musicPath).length)
    ensures r.Failure? && env.probeAudio(musicPath).Decoded? ==> r == Failure(ZeroDivision)
    ensures r.Success? ==>
      && WellFormed(r.value)
      && Duration(r.value) == Duration(audioClip)
      && r.value.Composite? && |r.value.tracks| == 2
      && r.value.tracks[0] == audioClip
      && MusicBed(r.value.tracks[1], musicPath, env.probeAudio(musicPath).length, Duration(audioClip))
  {
    var decoded := env.probeAudio(musicPath);
    if decoded.Undecodable? {
      return Failure(DecodeFailed(decoded.reason));
    }
    var backgroundMusicClip := Open(musicPath, decoded.length);
    backgroundMusicClip := VolumeX(backgroundMusicClip, MusicGain);
    var base := backgroundMusicClip;

    DurationNonNegative(audioClip);
    var audioDurationSec: Seconds := Duration(audioClip);

    if Duration(backgroundMusicClip) < audioDurationSec {
      if Duration(backgroundMusicClip) == 0.0 {
        return Failure(ZeroDivision);
      }
      var nLoops := LoopCount(audioDurationSec, Duration(backgroundMusicClip));
      LoopCountCovers(audioDurationSec, Duration(backgroundMusicClip));
      backgroundMusicClip := ConcatenateRepeated(backgroundMusicClip, nLoops);
    }
    assert MusicCovering(backgroundMusicClip, base, audioDurationSec);

    backgroundMusicClip := Subclip(backgroundMusicClip, 0.0, audioDurationSec);

    var finalAudio := CompositeAudio([audioClip, backgroundMusicClip]);
    assert Duration(finalAudio) == audioDurationSec by {
      var tracks := [audioClip, backgroundMusicClip];
      assert Duration(tracks[0]) <= Duration(finalAudio) && Duration(tracks[1]) <= Duration(finalAudio);
      var i :| 0 <= i < |tracks| && Duration(tracks[i]) == Duration(finalAudio);
    }
    r := Success(finalAudio);
  }

  // ---------------------------------------------------------------------
  // VideoService.render_video

  /** `if request.background_music:` -- set and not empty. */
  predicate MusicRequested(req: VideoGenerationRequest) {
    req.backgroundMusic.Some? && req.backgroundMusic.value != ""
  }

  /** The music is mixed in only when it is requested and its file exists; otherwise it is skipped without error. */
  predicate MusicApplied(req: VideoGenerationRequest, env: Env) {
    MusicRequested(req) && req.backgroundMusic.value in env.files
  }

  /** The narration exists and the template path is valid: every check made before a file is opened. */
  predicate InputsResolved(req: VideoGenerationRequest, env: Env) {
    req.audioPath in env.files && ValidateTemplatePath(req.videoTemplatePath, env.files).Success?
  }

  /** The inputs are resolved and the narration decodes. */
  ghost predicate NarrationLoaded(req: VideoGenerationRequest, env: Env) {
    InputsResolved(req, env) && env.probeAudio(req.audioPath).Decoded?
  }

  /** The narration is loaded and the music, if it is mixed in, decodes and can be looped to the narration's length. */
  ghost predicate AudioReady(req: VideoGenerationRequest, env: Env) {
    && NarrationLoaded(req, env)
    && (MusicApplied(req, env) ==>
          && env.probeAudio(req.backgroundMusic.value).Decoded?
          && LoopDefined(env.probeAudio(req.audioPath).length, env.probeAudio(req.backgroundMusic.value).length))
  }

  /** The audio is ready and the template decodes and can be looped to the narration's length. */
  ghost predicate VideoReady(req: VideoGenerationRequest, env: Env) {
    && AudioReady(req, env)
    && env.probeVideo(req.videoTemplatePath.value).Decoded?
    && LoopDefined(env.probeAudio(req.audioPath).length, env.probeVideo(req.videoTemplatePath.value).length)
  }

  /** Every stage of a render can go through: the conditions under which `render_video` returns a response. */
  ghost predicate Renderable(req: VideoGenerationRequest, env: Env) {
    VideoReady(req, env) && env.write(req.videoAbsolutePath).None?
  }

  /** The files a render that reaches the template opens, in order: narration, music if mixed in, template. */
  function LoadOrder(req: VideoGenerationRequest, env: Env): (paths: seq<string>)
    requires InputsResolved(req, env)
    ensures |paths| == if MusicApplied(req, env) then 3 else 2
    ensures paths[0] == req.audioPath && paths[|paths| - 1] == req.videoTemplatePath.value
    ensures MusicApplied(req, env) ==> paths[1] == req.backgroundMusic.value
  {
    [req.audioPath] + (if MusicApplied(req, env) then [req.backgroundMusic.value] else []) + [req.videoTemplatePath.value]
  }

  /** The response of a successful render of `req` whose narration lasts `duration` seconds. */
  function SuccessResponse(req: VideoGenerationRequest, duration: real): (r: VideoGenerationResponse)
    ensures r.videoUrl == req.videoRelativePath && r.thumbnail == "" && r.duration == duration
    ensures r.status == StatusDefault
    ensures r.message.Some? && |r.message.value| == |SuccessPrefix| + |req.videoAbsolutePath|
    ensures r.message.Some? && r.message.value[..|SuccessPrefix|] == SuccessPrefix
    ensures r.message.Some? && r.message.value[|SuccessPrefix|..] == req.videoAbsolutePath
  {
    VideoGenerationResponse(req.videoRelativePath, "", duration, "success",
      Some(SuccessPrefix + req.videoAbsolutePath))
  }

  /**
    Renders `req`. Besides the response or the error it gives the paths the
    decoders loaded, in order, and the file the encoder wrote.
  */
  method RenderVideo(req: VideoGenerationRequest, env: Env)
    returns (result: Result<VideoGenerationResponse, GenerationError>, loaded: seq<string>, written: Option<OutputFile>)
    // the audio check comes first, before the template is validated and any file is loaded
    ensures req.audioPath !in env.files ==>
      result == Failure(GenerationError(AudioNotFound(req.audioPath))) && loaded == [] && written == None
    ensures req.audioPath in env.files && ValidateTemplatePath(req.videoTemplatePath, env.files).Failure? ==>
      result == Failure(GenerationError(ValidateTemplatePath(req.videoTemplatePath, env.files).error))
      && loaded == [] && written == None
    // then each later stage, in order, raises its own error
    ensures InputsResolved(req, env) && env.probeAudio(req.audioPath).Undecodable? ==>
      result == Failure(GenerationError(DecodeFailed(env.probeAudio(req.audioPath).reason)))
      && loaded == [req.audioPath] && written == None
    ensures NarrationLoaded(req, env) && MusicApplied(req, env) && env.probeAudio(req.backgroundMusic.value).Undecodable? ==>
      result == Failure(GenerationError(DecodeFailed(env.probeAudio(req.backgroundMusic.value).reason)))
      && loaded == [req.audioPath, req.backgroundMusic.value] && written == None
    ensures && NarrationLoaded(req, env) && MusicApplied(req, env) && env.probeAudio(req.backgroundMusic.value).Decoded?
            && !LoopDefined(env.probeAudio(req.audioPath).length, env.probeAudio(req.backgroundMusic.value).length) ==>
      result == Failure(GenerationError(ZeroDivision))
      && loaded == [req.audioPath, req.backgroundMusic.value] && written == None
    ensures AudioReady(req, env) && env.probeVideo(req.videoTemplatePath.value).Undecodable? ==>
      result == Failure(GenerationError(DecodeFailed(env.probeVideo(req.videoTemplatePath.value).reason)))
      && loaded == LoadOrder(req, env) && written == None
    ensures && AudioReady(req, env) && env.probeVideo(req.videoTemplatePath.value).Decoded?
            && !LoopDefined(env.probeAudio(req.audioPath).length, env.probeVideo(req.videoTemplatePath.value).length) ==>
      result == Failure(GenerationError(ZeroDivision))
      && loaded == LoadOrder(req, env) && written == None
    ensures VideoReady(req, env) && env.write(req.videoAbsolutePath).Some? ==>
      result == Failure(GenerationError(EncodeFailed(env.write(req.videoAbsolutePath).value)))
      && loaded == LoadOrder(req, env) && written == None
    ensures result.Failure? ==> written == None
    // when and how it succeeds
    ensures result.Success? <==> Renderable(req, env)
    ensures result.Success? ==>
      var d := env.probeAudio(req.audioPath).length;
      var template := req.videoTemplatePath.value;
      && result.value == SuccessResponse(req, d)
      && loaded == LoadOrder(req, env)
      && written.Some?
      && written.value.path == req.videoAbsolutePath
      && written.value.fps == req.fps
      && WellFormed(written.value.clip)
      && written.value.clip.WithAudio?
      && Duration(written.value.clip) == d
      // the picture: the template looped as needed, cut to exactly the narration
      && CutTo(written.value.clip.video, d)
      && TemplateCovering(written.value.clip.video.inner, Source(template, env.probeVideo(template).length), d)
      // the sound: exactly as long as the narration too
      && Duration(written.value.clip.audio) == d
      && (!MusicApplied(req, env) ==> written.value.clip.audio == Source(req.audioPath, d))
      && (MusicApplied(req, env) ==>
            var music := req.backgroundMusic.value;
            && written.value.clip.audio.Composite?
            && |written.value.clip.audio.tracks| == 2
            && written.value.clip.audio.tracks[0] == Source(req.audioPath, d)
            && MusicBed(written.value.clip.audio.tracks[1], music, env.probeAudio(music).length, d))
  {
    loaded, written := [], None;

    if req.audioPath !in env.files {
      return Failure(GenerationError(AudioNotFound(req.audioPath))), loaded, written;
    }

    var validated := ValidateTemplatePath(req.videoTemplatePath, env.files);
    if validated.Failure? {
      return Failure(GenerationError(validated.error)), loaded, written;
    }
    var templatePath := validated.value;
    assert InputsResolved(req, env);

    loaded := loaded + [req.audioPath];
    var audioDecoded := env.probeAudio(req.audioPath);
    if audioDecoded.Undecodable? {
      return Failure(GenerationError(DecodeFailed(audioDecoded.reason))), loaded, written;
    }
    assert NarrationLoaded(req, env);
    var audioClip := Open(req.audioPath, audioDecoded.length);
    var audioDurationSec: Seconds := audioDecoded.length;

    var finalAudio := audioClip;
    if MusicRequested(req) {
      if req.backgroundMusic.value in env.files {
        loaded := loaded + [req.backgroundMusic.value];
        var mixed := AddBackgroundMusic(audioClip, req.backgroundMusic.value, env);
        if mixed.Failure? {
          return Failure(GenerationError(mixed.error)), loaded, written;
        }
        finalAudio := mixed.value;
      }
    }
    assert AudioReady(req, env);

    loaded := loaded + [templatePath];
    assert loaded == LoadOrder(req, env);
    var templateDecoded := env.probeVideo(templatePath);
    if templateDecoded.Undecodable? {
      return Failure(GenerationError(DecodeFailed(templateDecoded.reason))), loaded, written;
    }
    var videoClip := Open(templatePath, templateDecoded.length);
    var template := videoClip;

    if Duration(videoClip) < audioDurationSec {
      if Duration(videoClip) == 0.0 {
        return Failure(GenerationError(ZeroDivision)), loaded, written;
      }
      var nLoops := LoopCount(audioDurationSec, Duration(videoClip));
      LoopCountCovers(audioDurationSec, Duration(videoClip));
      videoClip := Loop(videoClip, nLoops);
    }
    assert TemplateCovering(videoClip, template, audioDurationSec);

    videoClip := Subclip(videoClip, 0.0, audioDurationSec);
    var finalVideo := SetAudio(videoClip, finalAudio);
    assert VideoReady(req, env);

    var writeFailure := env.write(req.videoAbsolutePath);
    if writeFailure.Some? {
      return Failure(GenerationError(EncodeFailed(writeFailure.value))), loaded, written;
    }
    written := Some(OutputFile(req.videoAbsolutePath, finalVideo, req.fps));

    var body := RawResponse(
      Given(req.videoRelativePath), Given(""), Given(audioDurationSec as real), Given("success"),
      Given(SuccessPrefix + req.videoAbsolutePath));
    result := Success(ValidateResponse(body).value);
  }
}

/** What callers of the service can conclude from its contracts alone. */
module VideoServiceClients {
  import opened Wrappers
  import opened Media
  import opened VideoModel
  import opened VideoService

  /** A 12 s narration over a 5 s template with 4 s of music takes 3 template copies and 4 music copies. */
  lemma ScenarioLoopCounts()
    ensures LoopCount(12.0, 5.0) == 3
    ensures LoopCount(12.0, 4.0) == 4
  {
  }

  /** In that scenario the picture is 3 template copies cut to 12 s, the music bed 4 music copies cut to 12 s. */
  lemma ScenarioShapes(video: Clip, bed: Clip)
    requires CutTo(video, 12.0) && TemplateCovering(video.inner, Source("/res/template.mp4", 5.0), 12.0)
    requires MusicBed(bed, "/res/music.mp3", 4.0, 12.0)
    ensures video == Trimmed(Looped(Source("/res/template.mp4", 5.0), 3), 0.0, 12.0)
    ensures bed == Trimmed(Concatenated(Repeat(Gain(Source("/res/music.mp3", 4.0), MusicGain), 4)), 0.0, 12.0)
  {
    ScenarioLoopCounts();
  }

  /** Renders that scenario: the result lasts the narration's 12 s, not the template's 5 s or the music's 4 s. */
  method RenderScenario(env: Env) returns (result: Result<VideoGenerationResponse, GenerationError>, written: Option<OutputFile>)
    requires "/res/voice.mp3" in env.files && "/res/template.mp4" in env.files && "/res/music.mp3" in env.files
    requires env.probeAudio("/res/voice.mp3") == Decoded(12.0)
    requires env.probeVideo("/res/template.mp4") == Decoded(5.0)
    requires env.probeAudio("/res/music.mp3") == Decoded(4.0)
    requires env.write("/res/videos/out.mp4") == None
    ensures result.Success? && result.value.duration == 12.0 && result.value.status == "success"
    ensures written.Some? && Duration(written.value.clip) == 12.0
    ensures written.Some? && written.value.clip.WithAudio? &&
      written.value.clip.video == Trimmed(Looped(Source("/res/template.mp4", 5.0), 3), 0.0, 12.0)
    ensures written.Some? && written.value.clip.audio.Composite? && |written.value.clip.audio.tracks| == 2 &&
      written.value.clip.audio.tracks[1] ==
        Trimmed(Concatenated(Repeat(Gain(Source("/res/music.mp3", 4.0), MusicGain), 4)), 0.0, 12.0)
  {
    var req := VideoGenerationRequest(
      "/res/voice.mp3", "/res/videos/out.mp4", "videos/out.mp4",
      Some([]), Some("1080p"), Some(30), Some("/res/template.mp4"), Some("/res/music.mp3"));
    ScenarioLoopCounts();
    assert MusicApplied(req, env);
    assert Renderable(req, env);
    var loaded;
    result, loaded, written := RenderVideo(req, env);
    ScenarioShapes(written.value.clip.video, written.value.clip.audio.tracks[1]);
  }

  /**
    Music that is not set, is empty, or names a missing file is skipped without error:
    the render then succeeds exactly when narration and template do, and its sound is
    the narration alone.
  */
  method RenderIgnoresMusic(req: VideoGenerationRequest, env: Env)
    returns (result: Result<VideoGenerationResponse, GenerationError>, loaded: seq<string>, written: Option<OutputFile>)
    requires req.backgroundMusic == None || req.backgroundMusic == Some("") || req.backgroundMusic.value !in env.files
    ensures result.Success? <==>
      && req.audioPath in env.files
      && ValidateTemplatePath(req.videoTemplatePath, env.files).Success?
      && env.probeAudio(req.audioPath).Decoded?
      && env.probeVideo(req.videoTemplatePath.value).Decoded?
      && LoopDefined(env.probeAudio(req.audioPath).length, env.probeVideo(req.videoTemplatePath.value).length)
      && env.write(req.videoAbsolutePath).None?
    ensures result.Success? ==>
      && written.Some?
      && written.value.clip.WithAudio?
      && written.value.clip.audio == Source(req.audioPath, env.probeAudio(req.audioPath).length)
    ensures result.Success? ==> loaded == [req.audioPath, req.videoTemplatePath.value]
  {
    result, loaded, written := RenderVideo(req, env);
  }

  /** A request whose body leaves out `video_template_path` never renders: it fails on the audio or on the template. */
  method RenderWithoutTemplate(raw: RawRequest, env: Env)
    returns (result: Result<VideoGenerationResponse, GenerationError>, loaded: seq<string>, written: Option<OutputFile>)
    requires raw.videoTemplatePath.Absent? && ValidateRequest(raw).Success?
    ensures result.Failure? && loaded == [] && written == None
    ensures result.error.cause ==
      if raw.audioPath.value in env.files then TemplatePathRequired else AudioNotFound(raw.audioPath.value)
  {
    var req := ValidateRequest(raw).value;
    RequestDefaults(raw);
    result, loaded, written := RenderVideo(req, env);
  }
}
