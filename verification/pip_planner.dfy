/** The two-clip planner of video_process.py: the 10-second head of one
    clip joined to the 10-second tail of another, and the picture-in-picture
    composition of two clips trimmed to the shorter one, optionally with a
    score caption. Every ffmpeg invocation is reduced to the plan it is given
    (paths, segment bounds, overlay rectangle, caption); what the engine
    reports back (probed durations and sizes, whether a run failed) enters as
    parameters. */
module PipPlanner {
  import opened Common

  // -----------------------------------------------------------------------
  // Paths

  /** `os.path.join(dir, name)` for POSIX paths. */
  function Join(dir: string, name: string): string
  {
    if StartsWith(name, "/") then name
    else if |dir| == 0 || dir[|dir| - 1] == '/' then dir + name
    else dir + "/" + name
  }

  /** Two relative names in the same directory are distinct files. */
  lemma JoinDistinct(dir: string, a: string, b: string)
    requires !StartsWith(a, "/") && !StartsWith(b, "/") && a != b
    ensures Join(dir, a) != Join(dir, b)
  {
    var prefix := if |dir| == 0 || dir[|dir| - 1] == '/' then dir else dir + "/";
    assert Join(dir, a) == prefix + a && Join(dir, b) == prefix + b;
    assert (prefix + a)[|prefix|..] == a && (prefix + b)[|prefix|..] == b;
  }

  /** `Path(__file__).parent / "output"`. */
  function OutputDir(moduleDir: string): string
  {
    Join(moduleDir, "output")
  }

  /** A file name `<stem><id>.mp4`. */
  function Mp4Name(stem: string, id: string): string
  {
    stem + id + ".mp4"
  }

  lemma Mp4NamesDiffer(stem1: string, stem2: string, id: string)
    requires |stem1| != |stem2|
    ensures Mp4Name(stem1, id) != Mp4Name(stem2, id)
  {
  }

  lemma Mp4NameRelative(stem: string, id: string)
    requires |stem| > 0 && stem[0] != '/'
    ensures !StartsWith(Mp4Name(stem, id), "/")
  {
    assert Mp4Name(stem, id)[0] == stem[0];
  }

  /** The fixed list file `concat_list.txt` is never one of the per-job
      clips, whose names start with their stem. */
  lemma ListFileIsNoClip(dir: string, stem: string, id: string)
    requires |stem| > 0 && stem[0] != '/' && stem[0] != 'c'
    ensures Join(dir, "concat_list.txt") != Join(dir, Mp4Name(stem, id))
  {
    Mp4NameRelative(stem, id);
    assert Mp4Name(stem, id)[0] != "concat_list.txt"[0];
    JoinDistinct(dir, "concat_list.txt", Mp4Name(stem, id));
  }

  // -----------------------------------------------------------------------
  // Segments (`process_videos`)

  /** A cut of `length` seconds starting at `start` (`-ss start -t length`). */
  datatype Segment = Segment(start: real, length: real)

  const SegmentLimit: real := 10.0

  /** The opening of the first clip: from 0, `min(10, d)` seconds. */
  function HeadSegment(d: real): (s: Segment)
    ensures s.start == 0.0 && s.length <= SegmentLimit && s.length <= d
    ensures s.length == SegmentLimit || s.length == d
  {
    Segment(0.0, MinReal(SegmentLimit, d))
  }

  /** The ending of the second clip: `length = min(10, d)` and
      `start = max(0, d - length)`, so the cut never starts before the clip
      and ends exactly where the clip ends. */
  function TailSegment(d: real): (s: Segment)
    ensures s.start >= 0.0 && s.length <= SegmentLimit
    ensures s.length == SegmentLimit || s.length == d
    ensures d >= 0.0 ==> s.start + s.length == d
  {
    var length := MinReal(SegmentLimit, d);
    Segment(MaxReal(0.0, d - length), length)
  }

  /** A clip no longer than the limit is used whole at both ends; a longer
      one contributes exactly 10 seconds from each end. */
  lemma SegmentsOfShortAndLongClips(d: real)
    requires d >= 0.0
    ensures d <= SegmentLimit ==> HeadSegment(d) == Segment(0.0, d) && TailSegment(d) == Segment(0.0, d)
    ensures d > SegmentLimit ==> HeadSegment(d).length == SegmentLimit && TailSegment(d).start == d - SegmentLimit
  {
  }

  // -----------------------------------------------------------------------
  // Concat list (`concatenate_videos`)

  /** The list file handed to ffmpeg's concat demuxer: two lines, first clip
      then second, each `file '<path>'`. */
  function ConcatListText(path1: string, path2: string): string
  {
    "file '" + path1 + "'\n" + "file '" + path2 + "'\n"
  }

  function FirstIndexOf(s: string, c: char): (i: nat)
    requires c in s
    ensures i < |s| && s[i] == c && c !in s[..i]
  {
    if s[0] == c then 0
    else
      var j := FirstIndexOf(s[1..], c);
      assert s[1..][..j] == s[1..j + 1];
      j + 1
  }

  /** `s.split(c)`. */
  function Split(s: string, c: char): seq<string>
    decreases |s|
  {
    if c in s then
      var i := FirstIndexOf(s, c);
      [s[..i]] + Split(s[i + 1..], c)
    else [s]
  }

  lemma SplitAfter(a: string, c: char, rest: string)
    requires c !in a
    ensures Split(a + [c] + rest, c) == [a] + Split(rest, c)
  {
    var s := a + [c] + rest;
    assert s[|a|] == c;
    var i := FirstIndexOf(s, c);
    assert i == |a| by {
      assert s[..|a|] == a;
      assert forall k :: 0 <= k < |a| ==> s[k] != c;
    }
    assert s[..i] == a;
    assert s[i + 1..] == rest;
  }

  /** The path on one `file '<path>'` line. */
  function FileOfLine(line: string): Option<string>
  {
    if |line| >= 7 && line[..6] == "file '" && line[|line| - 1] == '\'' then Some(line[6..|line| - 1])
    else None
  }

  /** Reads a list file back: exactly two lines and a final newline. */
  function ParseConcatList(text: string): Option<(string, string)>
  {
    var lines := Split(text, '\n');
    if |lines| == 3 && lines[2] == "" then
      match (FileOfLine(lines[0]), FileOfLine(lines[1]))
      case (Some(p1), Some(p2)) => Some((p1, p2))
      case _ => None
    else None
  }

  /** One `file '<path>'` line holds no newline when the path holds none,
      and gives its path back. */
  lemma FileLineRoundTrip(path: string)
    requires '\n' !in path
    ensures '\n' !in "file '" + path + "'"
    ensures FileOfLine("file '" + path + "'") == Some(path)
  {
    var l := "file '" + path + "'";
    forall k | 0 <= k < |l| ensures l[k] != '\n' {
      if 6 <= k < 6 + |path| { assert l[k] == path[k - 6]; }
    }
    assert l[..6] == "file '";
    assert l[6..|l| - 1] == path;
  }

  /** For paths without a newline the list holds exactly two lines, which
      name the first and the second clip in that order. */
  lemma ConcatListRoundTrip(path1: string, path2: string)
    requires '\n' !in path1 && '\n' !in path2
    ensures |Split(ConcatListText(path1, path2), '\n')| == 3
    ensures ParseConcatList(ConcatListText(path1, path2)) == Some((path1, path2))
  {
    var l1 := "file '" + path1 + "'";
    var l2 := "file '" + path2 + "'";
    FileLineRoundTrip(path1);
    FileLineRoundTrip(path2);
    assert ConcatListText(path1, path2) == l1 + ['\n'] + (l2 + ['\n'] + "");
    SplitAfter(l2, '\n', "");
    SplitAfter(l1, '\n', l2 + ['\n'] + "");
    assert Split("", '\n') == [""];
    assert Split(ConcatListText(path1, path2), '\n') == [l1, l2, ""];
  }

  // -----------------------------------------------------------------------
  // Picture in picture (`create_picture_in_picture`, `_with_score`)

  datatype Rect = Rect(x: int, y: int, width: int, height: int)

  const OverlayMargin: int := 10

  /** The overlay is a quarter of the main frame on each axis, placed at the
      top right: its right edge is 10 px inside the frame, its top 10 px
      below the frame's top. */
  function OverlayRect(mainWidth: nat, mainHeight: nat): (r: Rect)
    ensures r.width == mainWidth / 4 && r.height == mainHeight / 4
    ensures r.x + r.width == mainWidth - OverlayMargin && r.y == OverlayMargin
  {
    var w := mainWidth / 4;
    var h := mainHeight / 4;
    Rect(mainWidth - w - OverlayMargin, OverlayMargin, w, h)
  }

  predicate Inside(r: Rect, width: int, height: int)
  {
    0 <= r.x && r.x + r.width <= width && 0 <= r.y && r.y + r.height <= height
  }

  /** The overlay lies within the main frame exactly when both sides are at
      least 13 px; below that it sticks out on the left or bottom. */
  lemma OverlayInsideIff(mainWidth: nat, mainHeight: nat)
    ensures Inside(OverlayRect(mainWidth, mainHeight), mainWidth, mainHeight) <==>
            mainWidth >= 13 && mainHeight >= 13
  {
  }

  /** The score caption: `max(24, W // 40)` points, drawn at (20, 20). */
  datatype Caption = Caption(text: string, fontSize: int, x: int, y: int)

  function ScoreCaption(score: string, mainWidth: nat): (c: Caption)
    ensures c.text == score && c.x == 20 && c.y == 20
    ensures c.fontSize >= 24 && c.fontSize >= mainWidth / 40
    ensures c.fontSize == 24 || c.fontSize == mainWidth / 40
  {
    Caption(score, MaxInt(24, mainWidth / 40), 20, 20)
  }

  // -----------------------------------------------------------------------
  // The jobs

  datatype ProcessError = EmptyFirstVideo | EmptySecondVideo | BlankScore | MusicMissing | EngineFailed

  /** What a `process_*` call did: its result, and the temporary files it
      deleted on the way out (each only if present). */
  datatype Job<T> = Job(result: Result<T, ProcessError>, removed: seq<string>)

  /** The plan `process_videos` executes; `concatFile` is the list file
      the two segments are joined through. */
  datatype MergePlan = MergePlan(
    upload1: string, upload2: string,
    head: Segment, segment1: string, tail: Segment, segment2: string,
    concatFile: string, concatList: string, outputPath: string, outputName: string, withMusic: string)

  /** The plan a maozibi job executes: the paths fed to the overlay (the
      trimmed copies where a clip was cut), the cuts made, the overlay
      rectangle and the optional caption. */
  datatype PipPlan = PipPlan(
    upload0: string, upload1: string,
    cut0: Option<Segment>, cut1: Option<Segment>,
    main: string, overlay: string, rect: Rect, caption: Option<Caption>,
    pipPath: string, outputPath: string, outputName: string)

  /** The temporary files a maozibi job deletes when it succeeds: both
      uploads and the composed clip, then each trimmed copy that was made,
      clip 0's first. */
  function PipTempFiles(p: PipPlan): seq<string>
  {
    [p.upload0, p.upload1, p.pipPath]
      + (if p.cut0.Some? then [p.main] else [])
      + (if p.cut1.Some? then [p.overlay] else [])
  }

  /** Each clip is cut to the shorter duration exactly when it is strictly
      longer; so at most one clip is cut, and the cut starts at 0. */
  function TrimCut(d: real, other: real): (c: Option<Segment>)
    ensures c.Some? <==> d > other
    ensures c.Some? ==> c.value == Segment(0.0, MinReal(d, other))
  {
    if d > MinReal(d, other) then Some(Segment(0.0, MinReal(d, other))) else None
  }

  lemma AtMostOneCut(d0: real, d1: real)
    ensures !(TrimCut(d0, d1).Some? && TrimCut(d1, d0).Some?)
    ensures TrimCut(d0, d1).Some? ==> TrimCut(d0, d1).value.length == d1
    ensures TrimCut(d1, d0).Some? ==> TrimCut(d1, d0).value.length == d0
  {
  }

  /** The outcome of a maozibi job once both uploads are written to
      `video0_<id>.mp4` and `video1_<id>.mp4`: it succeeds exactly when the
      engine does and the second bundled track exists. On failure only the
      uploads are deleted. On success the longer clip (if either) is
      trimmed to the shorter one into its own copy, which replaces it as
      main picture or overlay; the overlay sits in the top-right quarter
      box; the caption is drawn exactly when a score is given; the result
      is `output/<outStem><id>.mp4`; and the deleted files are the uploads,
      the composed clip and each trimmed copy. */
  predicate PipComposed(tempDir: string, id: string, moduleDir: string, pipStem: string, outStem: string,
                        score: Option<string>, d0: real, d1: real, mainWidth: nat, mainHeight: nat,
                        musicExists: bool, engineOk: bool, job: Job<PipPlan>)
  {
    var upload0 := Join(tempDir, Mp4Name("video0_", id));
    var upload1 := Join(tempDir, Mp4Name("video1_", id));
    && (job.result.Ok? <==> engineOk && musicExists)
    && (job.result.Err? ==> job.removed == [upload0, upload1])
    && (job.result.Err? ==> job.result.error == (if engineOk then MusicMissing else EngineFailed))
    && (job.result.Ok? ==>
          var p := job.result.value;
          && p.upload0 == upload0 && p.upload1 == upload1
          && p.cut0 == TrimCut(d0, d1) && p.cut1 == TrimCut(d1, d0)
          && (p.main != upload0 <==> d0 > d1) && (p.overlay != upload1 <==> d1 > d0)
          && (p.main != upload0 ==> p.main == Join(tempDir, Mp4Name("trimmed_video0_", id)))
          && (p.overlay != upload1 ==> p.overlay == Join(tempDir, Mp4Name("trimmed_video1_", id)))
          && p.rect == OverlayRect(mainWidth, mainHeight)
          && (p.caption.Some? <==> score.Some?)
          && (score.Some? ==> p.caption == Some(ScoreCaption(score.value, mainWidth)))
          && p.pipPath == Join(tempDir, Mp4Name(pipStem, id))
          && p.outputName == Mp4Name(outStem, id)
          && p.outputPath == Join(OutputDir(moduleDir), p.outputName)
          && job.removed == PipTempFiles(p))
  }

  class VideoProcessor {
    /** `tempfile.mkdtemp()`: the directory all intermediate files go to. */
    const tempDir: string

    constructor (tempDir: string)
      ensures this.tempDir == tempDir
    {
      this.tempDir := tempDir;
    }

    /** `process_videos(video1_data, video2_data)`: empty uploads are
        refused before anything is written (first clip checked first);
        otherwise the head of clip 1 and the tail of clip 2 are cut, joined
        through the list file into `output/merged_<id>.mp4`, and given the
        looped bundled music. On success all four intermediate files are
        deleted, the list file is not; when an engine step fails only the
        two uploads are. */
    method ProcessVideos(video1: seq<byte>, video2: seq<byte>, id: string, moduleDir: string,
                         d1: real, d2: real, engineOk: bool) returns (job: Job<MergePlan>)
      ensures |video1| == 0 ==> job == Job(Err(EmptyFirstVideo), [])
      ensures |video1| > 0 && |video2| == 0 ==> job == Job(Err(EmptySecondVideo), [])
      ensures job.result.Ok? <==> |video1| > 0 && |video2| > 0 && engineOk
      ensures job.result.Err? && |video1| > 0 && |video2| > 0 ==>
                job.result.error == EngineFailed &&
                job.removed == [Join(tempDir, Mp4Name("video1_", id)), Join(tempDir, Mp4Name("video2_", id))]
      ensures job.result.Ok? ==>
                var p := job.result.value;
                && p.upload1 == Join(tempDir, Mp4Name("video1_", id))
                && p.upload2 == Join(tempDir, Mp4Name("video2_", id))
                && p.segment1 == Join(tempDir, Mp4Name("segment1_", id))
                && p.segment2 == Join(tempDir, Mp4Name("segment2_", id))
                && p.head == HeadSegment(d1) && p.tail == TailSegment(d2)
                && p.concatFile == Join(tempDir, "concat_list.txt")
                && p.concatList == ConcatListText(p.segment1, p.segment2)
                && p.outputName == Mp4Name("merged_", id)
                && p.outputPath == Join(OutputDir(moduleDir), p.outputName)
                && p.withMusic == Join(tempDir, Mp4Name("final_", id))
                && job.removed == [p.upload1, p.upload2, p.segment1, p.segment2]
                && p.concatFile !in job.removed
    {
      if |video1| == 0 {
        return Job(Err(EmptyFirstVideo), []);
      }
      if |video2| == 0 {
        return Job(Err(EmptySecondVideo), []);
      }
      var upload1 := Join(tempDir, Mp4Name("video1_", id));
      var upload2 := Join(tempDir, Mp4Name("video2_", id));
      if !engineOk {
        return Job(Err(EngineFailed), [upload1, upload2]);
      }
      var segment1 := Join(tempDir, Mp4Name("segment1_", id));
      var segment2 := Join(tempDir, Mp4Name("segment2_", id));
      var length1 := MinReal(SegmentLimit, d1);
      var head := Segment(0.0, length1);
      var length2 := MinReal(SegmentLimit, d2);
      var start2 := MaxReal(0.0, d2 - length2);
      var tail := Segment(start2, length2);
      var outputName := Mp4Name("merged_", id);
      var outputPath := Join(OutputDir(moduleDir), outputName);
      var concatFile := Join(tempDir, "concat_list.txt");
      var list := ConcatListText(segment1, segment2);
      var finalPath := Join(tempDir, Mp4Name("final_", id));
      var removed := [upload1, upload2, segment1, segment2];
      ListFileIsNoClip(tempDir, "video1_", id);
      ListFileIsNoClip(tempDir, "video2_", id);
      ListFileIsNoClip(tempDir, "segment1_", id);
      ListFileIsNoClip(tempDir, "segment2_", id);
      job := Job(Ok(MergePlan(upload1, upload2, head, segment1, tail, segment2, concatFile, list, outputPath, outputName, finalPath)), removed);
    }

    /** The part both maozibi jobs share, from the probed durations on:
        trim to the shorter clip, compose, add the second bundled track
        (refused when that file is missing), and collect the temporary
        files. */
    method ComposePip(upload0: string, upload1: string, id: string, moduleDir: string,
                      pipStem: string, outStem: string, score: Option<string>,
                      d0: real, d1: real, mainWidth: nat, mainHeight: nat,
                      musicExists: bool, engineOk: bool) returns (job: Job<PipPlan>)
      requires upload0 == Join(tempDir, Mp4Name("video0_", id))
      requires upload1 == Join(tempDir, Mp4Name("video1_", id))
      ensures PipComposed(tempDir, id, moduleDir, pipStem, outStem, score, d0, d1,
                          mainWidth, mainHeight, musicExists, engineOk, job)
    {
      if !engineOk {
        return Job(Err(EngineFailed), [upload0, upload1]);
      }
      var finalDuration := MinReal(d0, d1);
      var trimmed0 := upload0;
      var trimmed1 := upload1;
      var cut0: Option<Segment> := None;
      var cut1: Option<Segment> := None;
      Mp4NameRelative("video0_", id);
      Mp4NameRelative("video1_", id);
      Mp4NameRelative("trimmed_video0_", id);
      Mp4NameRelative("trimmed_video1_", id);
      if d0 > finalDuration {
        trimmed0 := Join(tempDir, Mp4Name("trimmed_video0_", id));
        cut0 := Some(Segment(0.0, finalDuration));
        Mp4NamesDiffer("video0_", "trimmed_video0_", id);
        JoinDistinct(tempDir, Mp4Name("video0_", id), Mp4Name("trimmed_video0_", id));
      }
      if d1 > finalDuration {
        trimmed1 := Join(tempDir, Mp4Name("trimmed_video1_", id));
        cut1 := Some(Segment(0.0, finalDuration));
        Mp4NamesDiffer("video1_", "trimmed_video1_", id);
        JoinDistinct(tempDir, Mp4Name("video1_", id), Mp4Name("trimmed_video1_", id));
      }
      var pipPath := Join(tempDir, Mp4Name(pipStem, id));
      var rect := OverlayRect(mainWidth, mainHeight);
      var caption := match score case Some(s) => Some(ScoreCaption(s, mainWidth)) case None => None;
      var outputName := Mp4Name(outStem, id);
      var outputPath := Join(OutputDir(moduleDir), outputName);
      if !musicExists {
        return Job(Err(MusicMissing), [upload0, upload1]);
      }
      var temps := [upload0, upload1, pipPath];
      if trimmed0 != upload0 {
        temps := temps + [trimmed0];
      }
      if trimmed1 != upload1 {
        temps := temps + [trimmed1];
      }
      var plan := PipPlan(upload0, upload1, cut0, cut1, trimmed0, trimmed1, rect, caption, pipPath, outputPath, outputName);
      job := Job(Ok(plan), temps);
    }

    /** `process_maozibi_videos(video0_data, video1_data)`: clip 0 is the
        main picture, clip 1 the overlay; the result is
        `output/maozibi_<id>.mp4`. */
    method ProcessMaozibiVideos(video0: seq<byte>, video1: seq<byte>, id: string, moduleDir: string,
                                d0: real, d1: real, mainWidth: nat, mainHeight: nat,
                                musicExists: bool, engineOk: bool) returns (job: Job<PipPlan>)
      ensures |video0| == 0 ==> job == Job(Err(EmptyFirstVideo), [])
      ensures |video0| > 0 && |video1| == 0 ==> job == Job(Err(EmptySecondVideo), [])
      ensures job.result.Ok? <==> |video0| > 0 && |video1| > 0 && engineOk && musicExists
      ensures |video0| > 0 && |video1| > 0 ==>
                PipComposed(tempDir, id, moduleDir, "pip_maozibi_", "maozibi_", None, d0, d1,
                            mainWidth, mainHeight, musicExists, engineOk, job)
      ensures job.result.Ok? ==> job.result.value.caption == None
      ensures job.result.Ok? ==> |job.removed| == 3 + (if d0 != d1 then 1 else 0)
    {
      if |video0| == 0 {
        return Job(Err(EmptyFirstVideo), []);
      }
      if |video1| == 0 {
        return Job(Err(EmptySecondVideo), []);
      }
      var upload0 := Join(tempDir, Mp4Name("video0_", id));
      var upload1 := Join(tempDir, Mp4Name("video1_", id));
      job := ComposePip(upload0, upload1, id, moduleDir, "pip_maozibi_", "maozibi_", None,
                        d0, d1, mainWidth, mainHeight, musicExists, engineOk);
      if job.result.Ok? {
        PipCleanupComplete(tempDir, id, job.result.value, d0, d1);
      }
    }

    /** `process_maozibi_score_videos(video0_data, video1_data, score)`: as
        above with the score drawn on the result; an empty or whitespace-only
        score is refused after the two uploads are checked. */
    method ProcessMaozibiScoreVideos(video0: seq<byte>, video1: seq<byte>, score: string, id: string, moduleDir: string,
                                     d0: real, d1: real, mainWidth: nat, mainHeight: nat,
                                     musicExists: bool, engineOk: bool) returns (job: Job<PipPlan>)
      ensures |video0| == 0 ==> job == Job(Err(EmptyFirstVideo), [])
      ensures |video0| > 0 && |video1| == 0 ==> job == Job(Err(EmptySecondVideo), [])
      ensures |video0| > 0 && |video1| > 0 && IsBlank(score) ==> job == Job(Err(BlankScore), [])
      ensures job.result.Ok? <==> |video0| > 0 && |video1| > 0 && !IsBlank(score) && engineOk && musicExists
      ensures |video0| > 0 && |video1| > 0 && !IsBlank(score) ==>
                PipComposed(tempDir, id, moduleDir, "pip_maozibi_score_", "maozibi_score_", Some(score), d0, d1,
                            mainWidth, mainHeight, musicExists, engineOk, job)
      ensures job.result.Ok? ==> job.result.value.caption == Some(ScoreCaption(score, mainWidth))
      ensures job.result.Ok? ==> |job.removed| == 3 + (if d0 != d1 then 1 else 0)
    {
      if |video0| == 0 {
        return Job(Err(EmptyFirstVideo), []);
      }
      if |video1| == 0 {
        return Job(Err(EmptySecondVideo), []);
      }
      if IsBlank(score) {
        return Job(Err(BlankScore), []);
      }
      var upload0 := Join(tempDir, Mp4Name("video0_", id));
      var upload1 := Join(tempDir, Mp4Name("video1_", id));
      job := ComposePip(upload0, upload1, id, moduleDir, "pip_maozibi_score_", "maozibi_score_", Some(score),
                        d0, d1, mainWidth, mainHeight, musicExists, engineOk);
      if job.result.Ok? {
        PipCleanupComplete(tempDir, id, job.result.value, d0, d1);
      }
    }
  }

  /** A successful maozibi job deletes every temporary file it created: both
      uploads, the composed clip and whichever trimmed copy was made, and no
      trimmed copy that was not. */
  lemma PipCleanupComplete(tempDir: string, id: string, p: PipPlan, d0: real, d1: real)
    requires p.upload0 == Join(tempDir, Mp4Name("video0_", id)) && p.upload1 == Join(tempDir, Mp4Name("video1_", id))
    requires p.cut0 == TrimCut(d0, d1) && p.cut1 == TrimCut(d1, d0)
    requires p.main != p.upload0 <==> d0 > d1
    requires p.overlay != p.upload1 <==> d1 > d0
    ensures |PipTempFiles(p)| == 3 + (if d0 != d1 then 1 else 0)
    ensures p.main in PipTempFiles(p) && p.overlay in PipTempFiles(p)
  {
  }

}
