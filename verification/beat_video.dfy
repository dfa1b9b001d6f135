/** The beat-video planner of video_processor.py: pick a short window of the
    first source around each beat, show each for a fixed time (zooming all
    but the first), speed up the second source and overlay a per-second
    MM:SS timer, concatenate beats then main, write the silent result and
    mux the background music into it with ffmpeg.

    The settings `VideoProcessor.__init__` fixes once (canvas size,
    transition and beat-frame durations) are module constants here; the
    processor has no other state, so its methods are plain methods. */
module BeatVideo {
  import opened Common

  const OutputWidth: int := 1920
  const OutputHeight: int := 1080
  /** Set by the constructor but never read by any operation. */
  const TransitionDuration: real := 0.5
  const BeatFrameDuration: real := 1.0
  /** A beat window opens this long before the beat ... */
  const BeatLead: real := 0.1
  /** ... and closes this long after it. */
  const BeatSpan: real := 0.5

  // -----------------------------------------------------------------------
  // Beat clips (`_create_beat_clips`)

  /** A clip cut from the first source around one beat. `index` is the
      beat's position in the caller's list, skipped beats included. */
  datatype BeatClip = BeatClip(index: nat, beat: real, start: real, end: real, clip: Clip, zoomed: bool)

  /** The clip made for the beat at position `i`: the window
      [max(0, b - 0.1), min(duration, b + 0.5)], shown for the beat-frame
      duration on the canvas, zoomed unless it is the first position. For a
      beat inside the source the window lies inside the source and contains
      the beat. */
  function BeatClipFor(source: Clip, b: real, i: nat): (c: BeatClip)
    ensures 0.0 <= b < source.duration ==> 0.0 <= c.start <= b < c.end <= source.duration
    ensures c.clip.duration == BeatFrameDuration
    ensures c.clip.width == OutputWidth && c.clip.height == OutputHeight
    ensures c.zoomed <==> i > 0
  {
    BeatClip(i, b, MaxReal(0.0, b - BeatLead), MinReal(source.duration, b + BeatSpan),
             Clip(BeatFrameDuration, OutputWidth, OutputHeight), i > 0)
  }

  /** The clips made for the first `n` beats: a beat at or past the end of
      the source is skipped. */
  function BeatClipsUpTo(source: Clip, beats: seq<real>, n: nat): seq<BeatClip>
    requires n <= |beats|
  {
    if n == 0 then []
    else BeatClipsUpTo(source, beats, n - 1) +
         (if beats[n - 1] < source.duration then [BeatClipFor(source, beats[n - 1], n - 1)] else [])
  }

  function BeatClipsOf(source: Clip, beats: seq<real>): seq<BeatClip>
  {
    BeatClipsUpTo(source, beats, |beats|)
  }

  /** Every clip in `r` is the clip of a beat inside the source, made for
      the beat's position among the first `n`. */
  predicate KeptFromBeats(source: Clip, beats: seq<real>, n: nat, r: seq<BeatClip>)
    requires n <= |beats|
  {
    forall k :: 0 <= k < |r| ==>
      r[k].index < n && beats[r[k].index] < source.duration &&
      r[k] == BeatClipFor(source, beats[r[k].index], r[k].index)
  }

  /** The clips of `r` keep the input order of their beats. */
  predicate InBeatOrder(r: seq<BeatClip>)
  {
    forall j, k :: 0 <= j < k < |r| ==> r[j].index < r[k].index
  }

  /** Every beat inside the source among the first `n` has a clip in `r`. */
  predicate CoversBeats(source: Clip, beats: seq<real>, n: nat, r: seq<BeatClip>)
    requires n <= |beats|
  {
    forall i :: 0 <= i < n && beats[i] < source.duration ==>
      exists k :: 0 <= k < |r| && r[k].index == i
  }

  lemma {:induction false} BeatClipsUpToMembers(source: Clip, beats: seq<real>, n: nat)
    requires n <= |beats|
    ensures KeptFromBeats(source, beats, n, BeatClipsUpTo(source, beats, n))
  {
    if n > 0 {
      BeatClipsUpToMembers(source, beats, n - 1);
      var prev := BeatClipsUpTo(source, beats, n - 1);
      var r := BeatClipsUpTo(source, beats, n);
      if beats[n - 1] < source.duration {
        var c := BeatClipFor(source, beats[n - 1], n - 1);
        assert r == prev + [c];
        forall k | 0 <= k < |r|
          ensures r[k].index < n && beats[r[k].index] < source.duration
          ensures r[k] == BeatClipFor(source, beats[r[k].index], r[k].index)
        {
          if k < |prev| {
            assert r[k] == prev[k];
          } else {
            assert r[k] == c;
          }
        }
      } else {
        assert r == prev;
      }
    }
  }

  lemma {:induction false} BeatClipsUpToOrdered(source: Clip, beats: seq<real>, n: nat)
    requires n <= |beats|
    ensures InBeatOrder(BeatClipsUpTo(source, beats, n))
  {
    if n > 0 {
      BeatClipsUpToOrdered(source, beats, n - 1);
      BeatClipsUpToMembers(source, beats, n - 1);
      var prev := BeatClipsUpTo(source, beats, n - 1);
      var r := BeatClipsUpTo(source, beats, n);
      if beats[n - 1] < source.duration {
        var c := BeatClipFor(source, beats[n - 1], n - 1);
        assert r == prev + [c];
        forall j, k | 0 <= j < k < |r|
          ensures r[j].index < r[k].index
        {
          assert r[j] == prev[j];
          if k < |prev| {
            assert r[k] == prev[k];
          } else {
            assert r[k] == c;
          }
        }
      } else {
        assert r == prev;
      }
    }
  }

  lemma {:induction false} BeatClipsUpToCovers(source: Clip, beats: seq<real>, n: nat)
    requires n <= |beats|
    ensures CoversBeats(source, beats, n, BeatClipsUpTo(source, beats, n))
  {
    if n > 0 {
      BeatClipsUpToCovers(source, beats, n - 1);
      var prev := BeatClipsUpTo(source, beats, n - 1);
      var r := BeatClipsUpTo(source, beats, n);
      if beats[n - 1] < source.duration {
        var c := BeatClipFor(source, beats[n - 1], n - 1);
        assert r == prev + [c];
        forall i | 0 <= i < n && beats[i] < source.duration
          ensures exists k :: 0 <= k < |r| && r[k].index == i
        {
          if i < n - 1 {
            var k :| 0 <= k < |prev| && prev[k].index == i;
            assert r[k] == prev[k];
          } else {
            assert r[|prev|] == c;
          }
        }
      } else {
        assert r == prev;
      }
    }
  }

  /** The beat filter as the planner promises it: a beat at or past the end
      of the source is skipped, every other beat gets a clip, the clips keep
      the input order, each shows for 1 s, and the zoom is applied exactly
      when the beat's position in the input list (skipped beats counted) is
      not the first. */
  lemma BeatClipsSelect(source: Clip, beats: seq<real>)
    ensures var r := BeatClipsOf(source, beats);
      && (forall k :: 0 <= k < |r| ==>
            r[k].index < |beats| && beats[r[k].index] < source.duration &&
            r[k].clip.duration == BeatFrameDuration && (r[k].zoomed <==> r[k].index > 0))
      && (forall j, k :: 0 <= j < k < |r| ==> r[j].index < r[k].index)
      && (forall i :: 0 <= i < |beats| ==>
            (beats[i] < source.duration <==> exists k :: 0 <= k < |r| && r[k].index == i))
  {
    BeatClipsUpToMembers(source, beats, |beats|);
    BeatClipsUpToOrdered(source, beats, |beats|);
    BeatClipsUpToCovers(source, beats, |beats|);
  }

  /** `_create_beat_clips(video, beat_times)`. */
  method CreateBeatClips(source: Clip, beats: seq<real>) returns (clips: seq<BeatClip>)
    ensures clips == BeatClipsOf(source, beats)
  {
    clips := [];
    for i := 0 to |beats|
      invariant clips == BeatClipsUpTo(source, beats, i)
    {
      var b := beats[i];
      if b >= source.duration {
        continue;
      }
      var start := MaxReal(0.0, b - BeatLead);
      var end := MinReal(source.duration, b + BeatSpan);
      var frame := Clip(end - start, source.width, source.height);
      frame := Resized(frame, OutputWidth, OutputHeight);
      frame := frame.(duration := BeatFrameDuration);
      clips := clips + [BeatClip(i, b, start, end, frame, i > 0)];
    }
  }

  function ClipsOf(beats: seq<BeatClip>): (r: seq<Clip>)
    ensures |r| == |beats| && forall k :: 0 <= k < |r| ==> r[k] == beats[k].clip
  {
    seq(|beats|, k requires 0 <= k < |beats| => beats[k].clip)
  }

  // -----------------------------------------------------------------------
  // Timer (`_add_timer_to_video`)

  /** `f"{t // 60:02d}:{t % 60:02d}"`. */
  function TimerLabel(t: nat): string
  {
    Pad2(t / 60) + ":" + Pad2(t % 60)
  }

  /** Reads a five-character `MM:SS` label back into seconds. */
  function ParseTimerLabel(s: string): Option<nat>
  {
    if |s| == 5 && s[2] == ':' && IsDigit(s[0]) && IsDigit(s[1]) && IsDigit(s[3]) && IsDigit(s[4])
    then Some(60 * (10 * DigitValue(s[0]) + DigitValue(s[1])) + 10 * DigitValue(s[3]) + DigitValue(s[4]))
    else None
  }

  predicate IsDigit(c: char) { '0' <= c <= '9' }

  function DigitValue(c: char): nat
    requires IsDigit(c)
  {
    (c as int) - ('0' as int)
  }

  lemma Pad2TwoDigits(n: nat)
    requires n < 100
    ensures Pad2(n) == [DigitChar(n / 10), DigitChar(n % 10)]
  {
    if n >= 10 {
      assert DecimalString(n / 10) == [DigitChar(n / 10)];
    }
  }

  /** Below 100 minutes every label is `MM:SS` with a colon in the middle and
      seconds under 60, and it reads back as the second it labels. */
  lemma TimerLabelRoundTrip(t: nat)
    requires t < 6000
    ensures |TimerLabel(t)| == 5 && TimerLabel(t)[2] == ':'
    ensures 10 * DigitValue(TimerLabel(t)[3]) + DigitValue(TimerLabel(t)[4]) < 60
    ensures ParseTimerLabel(TimerLabel(t)) == Some(t)
  {
    Pad2TwoDigits(t / 60);
    Pad2TwoDigits(t % 60);
    var s := TimerLabel(t);
    assert s == [DigitChar(t / 60 / 10), DigitChar(t / 60 % 10), ':', DigitChar(t % 60 / 10), DigitChar(t % 60 % 10)];
  }

  /** The second source after the speed change: `with_speed_multiplier`
      divides the duration by the factor; a factor of exactly 1 is not
      applied. */
  function SpedDuration(d: real, speed: real): real
    requires speed > 0.0
  {
    if speed != 1.0 then d / speed else d
  }

  lemma SpedDurationNonNegative(d: real, speed: real)
    requires speed > 0.0 && d >= 0.0
    ensures SpedDuration(d, speed) >= 0.0
  {
    if speed != 1.0 {
      assert (d / speed) * speed == d;
    }
  }

  lemma FloorPlusOneExceeds(x: real)
    requires x >= 0.0
    ensures x.Floor >= 0 && (x.Floor + 1) as real > x
  {
  }

  /** The main clip as it enters the timeline: sped up, on the canvas. */
  function MainClip(video: Clip, speed: real): (c: Clip)
    requires speed > 0.0
    ensures c.width == OutputWidth && c.height == OutputHeight
  {
    Resized(video.(duration := SpedDuration(video.duration, speed)), OutputWidth, OutputHeight)
  }

  /** The main clip with its timer: one label per started second and the
      duration of the concatenated labels once trimmed. */
  datatype TimedMain = TimedMain(video: Clip, labels: seq<string>, timerDuration: real)

  /** `_add_timer_to_video(video, speed_factor, font_size)`: `int(d) + 1`
      one-second labels, 00:00 upwards; the joined timer always outlasts the
      video and is trimmed to it. */
  method AddTimer(video: Clip, speed: real) returns (t: TimedMain)
    requires speed > 0.0 && video.duration >= 0.0
    ensures t.video == MainClip(video, speed)
    ensures |t.labels| == t.video.duration.Floor + 1
    ensures forall k :: 0 <= k < |t.labels| ==> t.labels[k] == TimerLabel(k)
    ensures |t.labels| as real > t.video.duration
    ensures t.timerDuration == t.video.duration
  {
    var main := video;
    if speed != 1.0 {
      main := main.(duration := main.duration / speed);
    }
    main := Resized(main, OutputWidth, OutputHeight);
    assert main == MainClip(video, speed);
    SpedDurationNonNegative(video.duration, speed);
    var count := main.duration.Floor + 1;
    FloorPlusOneExceeds(main.duration);
    var labels: seq<string> := [];
    for k := 0 to count
      invariant |labels| == k
      invariant forall j :: 0 <= j < k ==> labels[j] == TimerLabel(j)
    {
      labels := labels + [Pad2(k / 60) + ":" + Pad2(k % 60)];
    }
    var timer := count as real * 1.0;
    if timer > main.duration {
      timer := main.duration;
    }
    t := TimedMain(main, labels, timer);
  }

  // -----------------------------------------------------------------------
  // Timeline (`_combine_clips`)

  function TotalDuration(clips: seq<Clip>): real
  {
    if |clips| == 0 then 0.0 else TotalDuration(clips[..|clips| - 1]) + clips[|clips| - 1].duration
  }

  /** Every beat clip resized to the canvas, then the main clip, in that
      order; the concatenation lasts as long as its parts together. */
  method CombineClips(beatClips: seq<Clip>, main: Clip) returns (all: seq<Clip>)
    ensures |all| == |beatClips| + 1
    ensures forall i :: 0 <= i < |beatClips| ==> all[i] == Resized(beatClips[i], OutputWidth, OutputHeight)
    ensures all[|beatClips|] == Resized(main, OutputWidth, OutputHeight)
    ensures TotalDuration(all) == TotalDuration(beatClips) + main.duration
  {
    all := [];
    for i := 0 to |beatClips|
      invariant |all| == i
      invariant forall j :: 0 <= j < i ==> all[j] == Resized(beatClips[j], OutputWidth, OutputHeight)
      invariant TotalDuration(all) == TotalDuration(beatClips[..i])
    {
      assert beatClips[..i + 1][..i] == beatClips[..i];
      var c := Resized(beatClips[i], OutputWidth, OutputHeight);
      assert (all + [c])[..i] == all;
      all := all + [c];
    }
    assert beatClips[..|beatClips|] == beatClips;
    var m := Resized(main, OutputWidth, OutputHeight);
    assert (all + [m])[..|all|] == all;
    all := all + [m];
  }

  /** The timeline `create_beat_video` renders: the beat clips, then the
      sped-up main clip, all on the canvas. */
  function Timeline(first: Clip, second: Clip, beats: seq<real>, speed: real): seq<Clip>
    requires speed > 0.0
  {
    var beatClips := ClipsOf(BeatClipsOf(first, beats));
    seq(|beatClips|, i requires 0 <= i < |beatClips| => Resized(beatClips[i], OutputWidth, OutputHeight))
      + [Resized(MainClip(second, speed), OutputWidth, OutputHeight)]
  }

  lemma {:induction false} BeatTimeTotal(beats: seq<BeatClip>)
    requires forall k :: 0 <= k < |beats| ==> beats[k].clip.duration == BeatFrameDuration
    ensures TotalDuration(ClipsOf(beats)) == |beats| as real * BeatFrameDuration
  {
    if |beats| > 0 {
      BeatTimeTotal(beats[..|beats| - 1]);
      assert ClipsOf(beats)[..|beats| - 1] == ClipsOf(beats[..|beats| - 1]);
    }
  }

  lemma {:induction false} ResizedTotal(clips: seq<Clip>, r: seq<Clip>)
    requires |r| == |clips|
    requires forall i :: 0 <= i < |clips| ==> r[i].duration == clips[i].duration
    ensures TotalDuration(r) == TotalDuration(clips)
  {
    if |clips| > 0 {
      ResizedTotal(clips[..|clips| - 1], r[..|r| - 1]);
    }
  }

  /** The rendered length is one beat-frame duration per beat inside the
      first source plus the sped-up length of the second source (no
      transitions are inserted). */
  lemma TimelineDuration(first: Clip, second: Clip, beats: seq<real>, speed: real)
    requires speed > 0.0
    ensures TotalDuration(Timeline(first, second, beats, speed)) ==
            |BeatClipsOf(first, beats)| as real * BeatFrameDuration + SpedDuration(second.duration, speed)
  {
    var kept := BeatClipsOf(first, beats);
    BeatClipsSelect(first, beats);
    var clips := ClipsOf(kept);
    var t := Timeline(first, second, beats, speed);
    var front := t[..|clips|];
    assert t[..|t| - 1] == front;
    ResizedTotal(clips, front);
    BeatTimeTotal(kept);
  }

  /** Two 12-second sources, beats at 1, 3 and 5 s, speed 2: three 1-second
      beat clips and a 6-second main clip, 9 seconds in all. */
  lemma TwelveSecondExample()
    ensures TotalDuration(Timeline(Clip(12.0, 640, 480), Clip(12.0, 640, 480), [1.0, 3.0, 5.0], 2.0)) == 9.0
  {
    var src := Clip(12.0, 640, 480);
    TimelineDuration(src, src, [1.0, 3.0, 5.0], 2.0);
    assert |BeatClipsOf(src, [1.0, 3.0, 5.0])| == 3 by {
      assert BeatClipsUpTo(src, [1.0, 3.0, 5.0], 0) == [];
    }
  }

  // -----------------------------------------------------------------------
  // Background music (`_add_background_music`, `_add_background_music_simple`)

  /** `str(Path(__file__).parent / "jiggy boogy.mp3")`. */
  function BundledMusic(moduleDir: string): string
  {
    moduleDir + "/jiggy boogy.mp3"
  }

  function MusicPathOr(musicPath: Option<string>, moduleDir: string): string
  {
    match musicPath case Some(p) => p case None => BundledMusic(moduleDir)
  }

  /** What happens to the soundtrack. `Looped` concatenates `copies` copies
      of the track (lasting `looped` seconds) and trims the result; `Trimmed`
      cuts the track; `UsedAsIs` keeps a shorter track whole; `Unchanged`
      returns the video without music. `audio` is the length the video's
      soundtrack ends up with. */
  datatype MusicPlan =
    | Unchanged
    | Looped(copies: nat, looped: real, audio: real)
    | Trimmed(audio: real)
    | UsedAsIs(audio: real)

  /** `_add_background_music(video_clip, music_path)`. A missing file leaves
      the video as it is; a track shorter than the video is repeated
      `int(v / a) + 1` times, which outlasts the video, then trimmed to
      exactly its length; a longer one is trimmed to the video. A silent
      zero-length track shorter than the video divides by zero, which the
      function catches and answers with the unchanged video. */
  method AddBackgroundMusic(video: Clip, musicPath: Option<string>, moduleDir: string,
                            files: set<string>, audioDuration: real) returns (plan: MusicPlan)
    requires video.duration >= 0.0 && audioDuration >= 0.0
    ensures plan.Unchanged? <==>
              MusicPathOr(musicPath, moduleDir) !in files || audioDuration == 0.0 < video.duration
    ensures plan.Looped? <==>
              MusicPathOr(musicPath, moduleDir) in files && 0.0 < audioDuration < video.duration
    ensures plan.Looped? ==>
              plan.looped == plan.copies as real * audioDuration > video.duration &&
              (plan.copies - 1) as real * audioDuration <= video.duration
    ensures !plan.Unchanged? ==> plan.Looped? || plan.Trimmed?
    ensures !plan.Unchanged? ==> plan.audio == video.duration
  {
    var path := MusicPathOr(musicPath, moduleDir);
    if path !in files {
      return Unchanged;
    }
    if audioDuration < video.duration {
      if audioDuration == 0.0 {
        return Unchanged;
      }
      var q := video.duration / audioDuration;
      var loops := q.Floor + 1;
      assert loops >= 1 by { assert q >= 0.0; }
      var copies: seq<real> := [];
      for i := 0 to loops
        invariant |copies| == i
        invariant forall j :: 0 <= j < i ==> copies[j] == audioDuration
      {
        copies := copies + [audioDuration];
      }
      var looped := SumOfCopies(copies, audioDuration);
      LoopsOutlast(video.duration, audioDuration, loops);
      plan := Looped(loops, looped, video.duration);
    } else {
      plan := Trimmed(video.duration);
    }
  }

  /** Length of the concatenation of equal-length copies. */
  function SumOfCopies(copies: seq<real>, a: real): (total: real)
    requires forall j :: 0 <= j < |copies| ==> copies[j] == a
    ensures total == |copies| as real * a
  {
    if |copies| == 0 then 0.0 else SumOfCopies(copies[1..], a) + copies[0]
  }

  /** `int(v / a) + 1` copies outlast the video, one fewer does not. */
  lemma LoopsOutlast(v: real, a: real, loops: int)
    requires a > 0.0 && v >= 0.0
    requires loops == (v / a).Floor + 1
    ensures loops as real * a > v
    ensures (loops - 1) as real * a <= v
  {
    var q := v / a;
    assert q * a == v;
    assert (loops - 1) as real <= q < loops as real;
    assert (loops - 1) as real * a <= q * a;
    assert q * a < loops as real * a;
  }

  /** `_add_background_music_simple`: only trims; a shorter track is used
      whole without looping. */
  function AddBackgroundMusicSimple(video: Clip, musicPath: Option<string>, moduleDir: string,
                                    files: set<string>, audioDuration: real): (plan: MusicPlan)
    ensures plan.Unchanged? <==> MusicPathOr(musicPath, moduleDir) !in files
    ensures !plan.Unchanged? ==> plan.audio == MinReal(audioDuration, video.duration)
    ensures plan.Trimmed? <==> MusicPathOr(musicPath, moduleDir) in files && audioDuration >= video.duration
    ensures !plan.Looped?
  {
    if MusicPathOr(musicPath, moduleDir) !in files then Unchanged
    else if audioDuration >= video.duration then Trimmed(video.duration)
    else UsedAsIs(audioDuration)
  }

  // -----------------------------------------------------------------------
  // Muxing (`_add_music_with_ffmpeg`)

  /** The fixed ffmpeg command line. */
  function MuxArgv(video: string, music: string, output: string): seq<string>
  {
    ["ffmpeg", "-i", video, "-i", music, "-c:v", "copy", "-c:a", "aac",
     "-map", "0:v:0", "-map", "1:a:0", "-shortest", "-y", output]
  }

  /** The operand of every `-i` option, in order, as ffmpeg reads them. */
  function InputsOf(argv: seq<string>): seq<string>
    decreases |argv|
  {
    if |argv| >= 2 && argv[0] == "-i" then [argv[1]] + InputsOf(argv[2..])
    else if |argv| == 0 then []
    else InputsOf(argv[1..])
  }

  /** Whatever the paths, the command reads the silent video as input 0 and
      the music as input 1, maps the video stream of the first and the audio
      stream of the second, and writes (overwriting) the output. */
  lemma MuxArgvReadsBack(video: string, music: string, output: string)
    ensures InputsOf(MuxArgv(video, music, output)) == [video, music]
    ensures MuxArgv(video, music, output)[|MuxArgv(video, music, output)| - 1] == output
    ensures MuxArgv(video, music, output)[9..13] == ["-map", "0:v:0", "-map", "1:a:0"]
  {
    var a := MuxArgv(video, music, output);
    NoInputOptions(a[5..]);
    assert a[3..][0] == "-i" && a[3..][1] == music && a[3..][2..] == a[5..];
    assert InputsOf(a[3..]) == [music];
    assert a[1..][0] == "-i" && a[1..][1] == video && a[1..][2..] == a[3..];
    assert InputsOf(a[1..]) == [video, music];
    assert a[0] != "-i";
  }

  /** Without an `-i` before the last word there are no inputs. */
  lemma {:induction false} NoInputOptions(argv: seq<string>)
    requires forall i :: 0 <= i < |argv| - 1 ==> argv[i] != "-i"
    ensures InputsOf(argv) == []
    decreases |argv|
  {
    if |argv| > 0 {
      NoInputOptions(argv[1..]);
    }
  }

  /** How the ffmpeg process ended. `Raised` is any other exception
      (e.g. the binary is missing). */
  datatype RunResult = Exited(code: int) | TimedOut | Raised

  /** The command that was run, if any, and the boolean the function
      returns. */
  datatype MuxCall = MuxCall(argv: Option<seq<string>>, ok: bool)

  /** `_add_music_with_ffmpeg(video_path, output_path, music_path)`: no
      command when the music file is missing; otherwise the fixed command,
      and success exactly on exit status 0 (a timeout or a non-zero status is
      a failure). */
  function AddMusicWithFfmpeg(videoPath: string, outputPath: string, musicPath: Option<string>,
                              moduleDir: string, files: set<string>, run: RunResult): (r: MuxCall)
    ensures r.argv.Some? <==> MusicPathOr(musicPath, moduleDir) in files
    ensures r.argv.Some? ==> r.argv.value == MuxArgv(videoPath, MusicPathOr(musicPath, moduleDir), outputPath)
    ensures r.ok <==> MusicPathOr(musicPath, moduleDir) in files && run == Exited(0)
  {
    var music := MusicPathOr(musicPath, moduleDir);
    if music !in files then MuxCall(None, false)
    else MuxCall(Some(MuxArgv(videoPath, music, outputPath)), run.Exited? && run.code == 0)
  }

  // -----------------------------------------------------------------------
  // The whole job (`create_beat_video`)

  /** `output_path.replace('.mp4', '_temp_no_audio.mp4')`. */
  function TempPath(outputPath: string): string
  {
    ReplaceAll(outputPath, ".mp4", "_temp_no_audio.mp4")
  }

  /** The temporary path differs from the output exactly when the output
      path mentions ".mp4"; otherwise both are the same file. */
  lemma TempPathDistinct(outputPath: string)
    ensures TempPath(outputPath) != outputPath <==> Occurs(outputPath, ".mp4")
  {
    ReplaceAllLengthens(outputPath, ".mp4", "_temp_no_audio.mp4");
    if !Occurs(outputPath, ".mp4") {
      ReplaceAllAbsent(outputPath, ".mp4", "_temp_no_audio.mp4");
    }
  }

  /** The files present after the job, as written: the silent video is
      written, ffmpeg adds the output on success, the silent video is
      removed, and only then is the fallback rename attempted, when the file
      it renames is already gone. */
  function BeatRenderFiles(files: set<string>, temp: string, output: string, ok: bool): set<string>
  {
    var written := files + {temp};
    var muxed := if ok then written + {output} else written;
    var cleaned := if temp in muxed then muxed - {temp} else muxed;
    if !ok && temp in cleaned then cleaned - {temp} + {output} else cleaned
  }

  /** As written, the fallback never fires: after a failed mux the output
      exists only if it existed before, and the silent video is gone. With no
      music file on disk the job leaves no video at all. */
  lemma SilentFallbackNeverFires(files: set<string>, temp: string, output: string)
    ensures temp !in BeatRenderFiles(files, temp, output, false)
    ensures output in BeatRenderFiles(files, temp, output, false) <==> output in files && output != temp
    ensures BeatRenderFiles({}, "out_temp_no_audio.mp4", "out.mp4", false) == {}
  {
  }

  /** The intended order: on a failed mux rename the silent video to the
      output before any clean-up, and remove the temporary file only when it
      is not the output itself. */
  function KeepSilentFiles(files: set<string>, temp: string, output: string, ok: bool): set<string>
  {
    var written := files + {temp};
    if !ok then written - {temp} + {output}
    else if temp != output then written + {output} - {temp}
    else written + {output}
  }

  /** With the intended order the output always exists, and the temporary
      file is gone whenever it is a separate file. */
  lemma KeepSilentAlwaysLeavesOutput(files: set<string>, temp: string, output: string, ok: bool)
    ensures output in KeepSilentFiles(files, temp, output, ok)
    ensures temp != output ==> temp !in KeepSilentFiles(files, temp, output, ok)
    ensures forall f :: f in files && f != temp ==> f in KeepSilentFiles(files, temp, output, ok)
  {
  }

  datatype RenderError = EncodeFailed

  /** Everything one run of `create_beat_video` decides. */
  datatype BeatRender = BeatRender(
    beatClips: seq<BeatClip>, main: TimedMain, timeline: seq<Clip>,
    tempPath: string, mux: MuxCall, files: set<string>)

  /** `create_beat_video(...)`. `files` is the set of paths on disk before
      the run; `encodeOk` says whether the engine wrote the silent video
      (its failure is re-raised); `run` is how the ffmpeg process ends. A
      mux failure is not reported: the call returns normally either way. */
  method CreateBeatVideo(first: Clip, second: Clip, beats: seq<real>, outputPath: string, speed: real,
                         musicPath: Option<string>, moduleDir: string, files: set<string>,
                         encodeOk: bool, run: RunResult) returns (r: Result<BeatRender, RenderError>)
    requires speed > 0.0 && second.duration >= 0.0
    ensures r.Err? <==> !encodeOk
    ensures r.Ok? ==> r.value.beatClips == BeatClipsOf(first, beats)
    ensures r.Ok? ==> r.value.timeline == Timeline(first, second, beats, speed)
    ensures r.Ok? ==> r.value.main.video == MainClip(second, speed)
    ensures r.Ok? ==> |r.value.main.labels| == r.value.main.video.duration.Floor + 1
    ensures r.Ok? ==> forall k :: 0 <= k < |r.value.main.labels| ==> r.value.main.labels[k] == TimerLabel(k)
    ensures r.Ok? ==> |r.value.main.labels| as real > r.value.main.video.duration
    ensures r.Ok? ==> r.value.main.timerDuration == r.value.main.video.duration
    ensures r.Ok? ==> r.value.tempPath == TempPath(outputPath)
    ensures r.Ok? ==> (r.value.mux ==
              AddMusicWithFfmpeg(TempPath(outputPath), outputPath, musicPath, moduleDir, files + {TempPath(outputPath)}, run))
    ensures r.Ok? ==> r.value.files == BeatRenderFiles(files, TempPath(outputPath), outputPath, r.value.mux.ok)
  {
    var beatClips := CreateBeatClips(first, beats);
    var timed := AddTimer(second, speed);
    var timeline := CombineClips(ClipsOf(beatClips), timed.video);
    assert timeline == Timeline(first, second, beats, speed);
    var temp := TempPath(outputPath);
    if !encodeOk {
      return Err(EncodeFailed);
    }
    var disk := files + {temp};
    var mux := AddMusicWithFfmpeg(temp, outputPath, musicPath, moduleDir, disk, run);
    if mux.ok {
      disk := disk + {outputPath};
    }
    if temp in disk {
      disk := disk - {temp};
    }
    if !mux.ok && temp in disk {
      disk := disk - {temp} + {outputPath};
    }
    r := Ok(BeatRender(beatClips, timed, timeline, temp, mux, disk));
  }

  // -----------------------------------------------------------------------
  // Preview (`preview_beat_points`)

  datatype PreviewLine = InRange(start: real, end: real) | OutOfRange

  /** One line per beat: the window of `previewDuration` centred on the beat
      and clamped to the source, or a note that the beat is past the end. */
  function PreviewBeatPoints(duration: real, beats: seq<real>, previewDuration: real): (lines: seq<PreviewLine>)
    ensures |lines| == |beats|
    ensures forall i :: 0 <= i < |beats| ==> (lines[i].InRange? <==> beats[i] < duration)
    ensures forall i :: 0 <= i < |beats| && 0.0 <= beats[i] < duration && previewDuration >= 0.0 ==>
              0.0 <= lines[i].start <= beats[i] <= lines[i].end <= duration
  {
    seq(|beats|, i requires 0 <= i < |beats| =>
      if beats[i] < duration
      then InRange(MaxReal(0.0, beats[i] - previewDuration / 2.0), MinReal(duration, beats[i] + previewDuration / 2.0))
      else OutOfRange)
  }
}
