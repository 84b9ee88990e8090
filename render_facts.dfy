/** What `render_video` promises about the progress it reports, the length
    of the timeline and the audio track it lays under it. */
module RenderFacts {
  import opened Outcomes
  import opened Images
  import opened Clips
  import opened Render

  // ---------------------------------------------------------------------
  // Progress

  /** The n reports rise strictly, lie in (0, 0.5], and the last is 0.5:
      clip creation is the first half of the work. */
  lemma ProgressRises(n: nat)
    requires n > 0
    ensures var p := Progress(n, n);
            p[n - 1] == 0.5 &&
            (forall i :: 0 <= i < n ==> 0.0 < p[i] <= 0.5) &&
            (forall i, j :: 0 <= i < j < n ==> p[i] < p[j])
  {
    var p := Progress(n, n);
    forall i | 0 <= i < n
      ensures 0.0 < p[i] <= 0.5
    {
      assert (i + 1) as real <= n as real;
      assert (i + 1) as real / n as real <= 1.0;
    }
    forall i, j | 0 <= i < j < n
      ensures p[i] < p[j]
    {
      assert (i + 1) as real < (j + 1) as real;
      assert (i + 1) as real / n as real < (j + 1) as real / n as real;
    }
  }

  // ---------------------------------------------------------------------
  // The timeline

  /** The sum of the entries' durations, 3 seconds each by default. */
  function EntryDurations(images: seq<ImageData>): real
  {
    if |images| == 0 then 0.0
    else EntryDurations(images[..|images| - 1]) + GetOr(images[|images| - 1].duration, 3.0)
  }

  /** Concatenating two runs of clips adds their durations. */
  lemma {:induction false} TotalAppend(a: seq<Clip>, c: seq<Clip>)
    ensures TotalDuration(a + c) == TotalDuration(a) + TotalDuration(c)
    decreases |c|
  {
    if |c| > 0 {
      assert (a + c)[..|a + c| - 1] == a + c[..|c| - 1];
      TotalAppend(a, c[..|c| - 1]);
    } else {
      assert a + c == a;
    }
  }

  /** Clips carrying the entries' durations add up to the entries' total. */
  lemma {:induction false} ClipDurations(clips: seq<Clip>, images: seq<ImageData>)
    requires |clips| == |images|
    requires forall i :: 0 <= i < |clips| ==> clips[i].duration == GetOr(images[i].duration, 3.0)
    ensures TotalDuration(clips) == EntryDurations(images)
    decreases |clips|
  {
    if |clips| > 0 {
      var k := |clips| - 1;
      ClipDurations(clips[..k], images[..k]);
    }
  }

  /** When every clip is made, the video lasts exactly the sum of the
      entries' durations, whatever the audio. */
  lemma TimelineDuration(b: Backend, project: Project)
    requires Build(Make(b, project.settings), project.images).error.None?
    ensures var clips := Build(Make(b, project.settings), project.images).clips;
            Timeline(b, clips, project.audio).duration == EntryDurations(project.images)
  {
    var clips := Build(Make(b, project.settings), project.images).clips;
    forall i | 0 <= i < |clips|
      ensures clips[i].duration == GetOr(project.images[i].duration, 3.0)
    {
      assert Make(b, project.settings)(project.images[i]) == Ok(clips[i]);
      OverlayCondition(b, project.images[i], project.settings);
    }
    ClipDurations(clips, project.images);
  }

  // ---------------------------------------------------------------------
  // The audio

  /** There is a track exactly when the config names a file. It never
      outlasts the video; it is stretched to the video exactly when the
      trimmed track is shorter and looping is on; otherwise it is the
      trimmed length cut to the video. Its gain is the volume, 1.0 by
      default, and its start is `start_time`, 0 by default. */
  lemma SoundtrackLaw(b: Backend, cfg: AudioConfig, v: real)
    ensures Soundtrack(b, cfg, v).Some? <==> cfg.path.Some? && cfg.path.value != ""
    ensures Soundtrack(b, cfg, v).Some? ==>
              var a := Soundtrack(b, cfg, v).value;
              var t := Trimmed(b, cfg);
              a.duration <= v &&
              (a.looped <==> t < v && cfg.loop) &&
              (a.looped ==> a.duration == v) &&
              (!a.looped ==> a.duration == (if t < v then t else v)) &&
              a.gain == GetOr(cfg.volume, 1.0) && a.start == GetOr(cfg.startTime, 0.0)
  {
  }

  /** With looping on, the track always lasts exactly as long as the video:
      a shorter one is looped up to it, a longer one is cut down to it. */
  lemma LoopFillsVideo(b: Backend, cfg: AudioConfig, v: real)
    requires cfg.path.Some? && cfg.path.value != "" && cfg.loop
    ensures Soundtrack(b, cfg, v).Some? && Soundtrack(b, cfg, v).value.duration == v
  {
  }

  /** As written, the audio section raises exactly when the track would be
      looped; in every other case it lays down the same track as the
      intended one. */
  lemma LoopRaisesAsWritten(b: Backend, cfg: AudioConfig, v: real)
    ensures SoundtrackAsWritten(b, cfg, v).Err? <==>
              Soundtrack(b, cfg, v).Some? && Soundtrack(b, cfg, v).value.looped
    ensures SoundtrackAsWritten(b, cfg, v).Ok? ==> SoundtrackAsWritten(b, cfg, v).value == Soundtrack(b, cfg, v)
  {
  }

  /** For example, with the loop box ticked (its default), a 4-second
      track under 6.5 seconds of video raises as written, while the
      intended track is looped to 6.5 seconds. */
  lemma ShortTrackLoopRaises(b: Backend, path: string)
    requires path != "" && b.audioDuration(path) == 4.0
    ensures SoundtrackAsWritten(b, AudioConfig(Some(path), None, None, true, None), 6.5) ==
              Err(AttributeError("vfx.audio_loop"))
    ensures Soundtrack(b, AudioConfig(Some(path), None, None, true, None), 6.5).value.duration == 6.5
  {
  }

  /** The volume changes the gain and nothing else. */
  lemma VolumeOnlyGain(b: Backend, cfg: AudioConfig, v: real, volume: real)
    requires cfg.path.Some? && cfg.path.value != ""
    ensures var a := Soundtrack(b, cfg, v).value;
            var a2 := Soundtrack(b, cfg.(volume := Some(volume)), v).value;
            a2 == a.(gain := volume)
  {
  }

  // ---------------------------------------------------------------------
  // A worked timeline

  /** Entries of 2, 3 and 1.5 seconds make 6.5 seconds of video; a
      10-second track is cut to 6.5, a 4-second track is looped to 6.5, and
      without looping it stays at 4. */
  lemma WorkedTimeline(b: Backend, clips: seq<Clip>, path: string)
    requires |clips| == 3 && clips[0].duration == 2.0 && clips[1].duration == 3.0 && clips[2].duration == 1.5
    requires path != ""
    ensures TotalDuration(clips) == 6.5
    ensures b.audioDuration(path) == 10.0 ==>
              Soundtrack(b, AudioConfig(Some(path), None, None, false, None), 6.5).value.duration == 6.5
    ensures b.audioDuration(path) == 4.0 ==>
              Soundtrack(b, AudioConfig(Some(path), None, None, true, None), 6.5).value.duration == 6.5 &&
              Soundtrack(b, AudioConfig(Some(path), None, None, false, None), 6.5).value.duration == 4.0
  {
    assert clips[..2][..1] == clips[..1];
    assert TotalDuration(clips[..1]) == 2.0 by { assert clips[..1][..0] == []; }
    assert TotalDuration(clips[..2]) == 5.0;
  }
}
