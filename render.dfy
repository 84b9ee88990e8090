/** `render_video`: the timeline, the progress reports, the audio track and
    the encoder call.

    The entries are made into clips in order, a progress value being
    reported after each one; the clips are concatenated; the audio file,
    when there is one, is trimmed, looped, scaled in volume and cut to the
    video; and the result is written. Durations are exact reals. Clip
    creation may raise, which ends the render with that error; the progress
    already reported stays reported. */
module Render {
  import opened Outcomes
  import opened Images
  import opened Clips

  /** `project_data['audio']`. An absent `loop` is false. */
  datatype AudioConfig = AudioConfig(path: Option<string>, startTime: Option<real>,
                                     endTime: Option<real>, loop: bool, volume: Option<real>)

  datatype Project = Project(images: seq<ImageData>, settings: Settings, audio: AudioConfig)

  /** The audio track as the video carries it: the file, where it starts,
      how long it plays, its gain, and whether it was looped. */
  datatype Audio = Audio(path: string, start: real, duration: real, gain: real, looped: bool)

  /** The concatenated video: its clips, its duration and its audio. */
  datatype Video = Video(clips: seq<Clip>, duration: real, audio: Option<Audio>)

  /** What `write_videofile` is called with. */
  datatype Output = Output(path: string, video: Video, fps: real, codec: string,
                           audioCodec: string, preset: string, threads: nat)

  const NoImages := "No images to render"
  const DefaultFps := 30.0

  // ---------------------------------------------------------------------
  // The clips

  /** The clips made before the first failure, and that failure if there
      was one. */
  datatype Built = Built(clips: seq<Clip>, error: Option<Error>)

  /** The loop over the entries, stopping at the first clip that raises;
      `make` is how one entry becomes a clip. */
  function Build(make: ImageData -> Result<Clip>, images: seq<ImageData>): (r: Built)
    ensures |r.clips| <= |images|
    ensures forall i :: 0 <= i < |r.clips| ==> make(images[i]) == Ok(r.clips[i])
    ensures r.error.None? ==> |r.clips| == |images|
    ensures r.error.Some? ==> |r.clips| < |images| && make(images[|r.clips|]) == Err(r.error.value)
    decreases |images|
  {
    if |images| == 0 then Built([], None)
    else
      var prev := Build(make, images[..|images| - 1]);
      if prev.error.Some? then prev
      else
        match make(images[|images| - 1])
        case Err(e) => Built(prev.clips, Some(e))
        case Ok(c) => Built(prev.clips + [c], None)
  }

  /** `create_clip_from_data` with the project's settings. */
  function Make(b: Backend, s: Settings): ImageData -> Result<Clip>
  {
    data => CreateClip(b, data, s)
  }

  /** `(idx + 1) / len(images) * 0.5` for the first k entries. */
  function Progress(k: nat, n: nat): (p: seq<real>)
    requires n > 0
    ensures |p| == k
  {
    seq(k, i => (i + 1) as real / n as real * 0.5)
  }

  /** The values the callback receives: none when there is no callback. */
  function Reported(callback: bool, k: nat, n: nat): seq<real>
    requires n > 0
  {
    if callback then Progress(k, n) else []
  }

  /** The duration of the concatenation: the sum of the clips'. */
  function TotalDuration(clips: seq<Clip>): real
  {
    if |clips| == 0 then 0.0 else TotalDuration(clips[..|clips| - 1]) + clips[|clips| - 1].duration
  }

  // ---------------------------------------------------------------------
  // The audio

  /** `end_time` as Python tests it: absent and zero are false. */
  predicate EndGiven(cfg: AudioConfig)
  {
    cfg.endTime.Some? && cfg.endTime.value != 0.0
  }

  /** How long the trimmed track plays: `end - start`, or from `start` to
      the end of the file. */
  function Trimmed(b: Backend, cfg: AudioConfig): real
    requires cfg.path.Some?
  {
    var start := GetOr(cfg.startTime, 0.0);
    if EndGiven(cfg) then cfg.endTime.value - start else b.audioDuration(cfg.path.value) - start
  }

  /** The audio track of a video of duration `v`, if the project has one. */
  function Soundtrack(b: Backend, cfg: AudioConfig, v: real): Option<Audio>
  {
    if cfg.path.None? || cfg.path.value == "" then None
    else
      var trimmed := Trimmed(b, cfg);
      var looped := trimmed < v && cfg.loop;
      var d := if looped then v else trimmed;
      Some(Audio(cfg.path.value, GetOr(cfg.startTime, 0.0), if d > v then v else d,
                 GetOr(cfg.volume, 1.0), looped))
  }

  /** The audio section as written: the loop is asked of the video effects
      module, which has no `audio_loop` (it is an audio effect), so a track
      that would be looped raises AttributeError instead. */
  function SoundtrackAsWritten(b: Backend, cfg: AudioConfig, v: real): Result<Option<Audio>>
  {
    if cfg.path.None? || cfg.path.value == "" then Ok(None)
    else
      var trimmed := Trimmed(b, cfg);
      if trimmed < v && cfg.loop then Err(AttributeError("vfx.audio_loop"))
      else
        var cut := if trimmed > v then v else trimmed;
        Ok(Some(Audio(cfg.path.value, GetOr(cfg.startTime, 0.0), cut, GetOr(cfg.volume, 1.0), false)))
  }

  /** The video written for the clips. */
  function Timeline(b: Backend, clips: seq<Clip>, cfg: AudioConfig): Video
  {
    var v := TotalDuration(clips);
    Video(clips, v, Soundtrack(b, cfg, v))
  }

  // ---------------------------------------------------------------------
  // The function

  /** `render_video(project_data, output_path, progress_callback)`. `r` is
      the string returned, or the error a clip raised; `reported` is the
      sequence of values passed to the callback; `written` is the call to
      the encoder, if it was made. */
  method RenderVideo(b: Backend, project: Project, outputPath: string, callback: bool)
    returns (r: Result<string>, reported: seq<real>, written: Option<Output>)
    ensures |project.images| == 0 ==> r == Ok(NoImages) && reported == [] && written == None
    ensures |project.images| > 0 ==>
              var n := |project.images|;
              var built := Build(Make(b, project.settings), project.images);
              reported == Reported(callback, |built.clips|, n) &&
              (built.error.Some? ==> r == Err(built.error.value) && written == None) &&
              (built.error.None? ==>
                 r == Ok(outputPath) &&
                 written == Some(Output(outputPath, Timeline(b, built.clips, project.audio),
                                        GetOr(project.settings.fps, DefaultFps), "libx264", "aac", "ultrafast", 4)))
  {
    var settings := project.settings;
    var images := project.images;
    if |images| == 0 {
      return Ok(NoImages), [], None;
    }
    var built;
    built, reported := MakeClips(Make(b, settings), images, callback);
    if built.error.Some? {
      return Err(built.error.value), reported, None;
    }
    var video := Video(built.clips, TotalDuration(built.clips), None);
    video := AddAudio(b, project.audio, video);
    written := Some(Output(outputPath, video, GetOr(settings.fps, DefaultFps), "libx264", "aac", "ultrafast", 4));
    r := Ok(outputPath);
  }

  /** The loop of `render_video`: one clip per entry, in order, with a
      progress report after each; a clip that raises ends the loop. */
  method MakeClips(make: ImageData -> Result<Clip>, images: seq<ImageData>, callback: bool)
    returns (built: Built, reported: seq<real>)
    requires |images| > 0
    ensures built == Build(make, images)
    ensures reported == Reported(callback, |built.clips|, |images|)
  {
    var clips: seq<Clip> := [];
    reported := [];
    var idx := 0;
    while idx < |images|
      invariant 0 <= idx <= |images|
      invariant Build(make, images[..idx]) == Built(clips, None)
      invariant reported == Reported(callback, idx, |images|)
    {
      var clip := make(images[idx]);
      assert images[..idx + 1][..idx] == images[..idx];
      if clip.Err? {
        BuildStops(make, images, idx + 1);
        return Built(clips, Some(clip.error)), reported;
      }
      clips := clips + [clip.value];
      if callback {
        reported := reported + [(idx + 1) as real / |images| as real * 0.5];
      }
      ReportStep(callback, idx, |images|);
      idx := idx + 1;
    }
    assert images[..idx] == images;
    built := Built(clips, None);
  }

  /** One turn of the loop adds one report, when there is a callback. */
  lemma ReportStep(callback: bool, k: nat, n: nat)
    requires k < n
    ensures Reported(callback, k + 1, n) ==
              Reported(callback, k, n) + (if callback then [(k + 1) as real / n as real * 0.5] else [])
  {
    if callback {
      assert Progress(k + 1, n) == Progress(k, n) + [(k + 1) as real / n as real * 0.5];
    }
  }

  /** The audio section of `render_video`: trim, loop, volume, then cut to
      the video; the video's own duration is left alone. */
  method AddAudio(b: Backend, config: AudioConfig, video: Video) returns (out: Video)
    requires video.audio.None?
    ensures out == video.(audio := Soundtrack(b, config, video.duration))
  {
    out := video;
    if config.path.Some? && config.path.value != "" {
      var path := config.path.value;
      var start := GetOr(config.startTime, 0.0);
      var audio: Audio;
      if EndGiven(config) {
        audio := Audio(path, start, config.endTime.value - start, 1.0, false);
      } else {
        audio := Audio(path, start, b.audioDuration(path) - start, 1.0, false);
      }
      if audio.duration < out.duration && config.loop {
        audio := audio.(duration := out.duration, looped := true);
      }
      audio := audio.(gain := audio.gain * GetOr(config.volume, 1.0));
      out := out.(audio := Some(audio));
      if audio.duration > out.duration {
        out := out.(audio := Some(audio.(duration := out.duration)));
      }
    }
  }

  /** Once a prefix has failed, every longer one fails the same way. */
  lemma {:induction false} BuildStops(make: ImageData -> Result<Clip>, images: seq<ImageData>, k: nat)
    requires k <= |images| && Build(make, images[..k]).error.Some?
    ensures Build(make, images) == Build(make, images[..k])
    decreases |images| - k
  {
    if k < |images| {
      assert images[..k + 1][..k] == images[..k];
      BuildStops(make, images, k + 1);
    } else {
      assert images[..k] == images;
    }
  }
}
