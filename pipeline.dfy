/** The per-page bookkeeping of the converter as functions: what one page of
    `create_page_videos` produces, what a run over the zipped image/text
    pairs produces, the concat list of `merge_video` and its metadata. The
    converter class in module Converter is proved against these. */
module Pipeline {

  import opened Wrappers
  import opened Paths
  import opened Naming
  import opened Narration
  import opened Script

  /** One entry of `page_data`. The source stores `str(...)` of the image,
      audio and video paths; the record keeps the paths themselves, whose
      `PathString` is what gets stored. */
  datatype PageRecord = PageRecord(
    page: nat,
    image: Path,
    audio: Path,
    video: Path,
    duration: real,
    textPreview: string)

  /** Why processing a page raised, with the page's ordinal. */
  datatype PageError =
    | DurationUnbound(page: nat)   // the engine is not edge_tts: `duration` is never assigned
    | TextNotString(page: nat)     // `text.strip()` on a value that is not a string
    | NarrationFailed(page: nat)   // the speech backend or the duration probe raised

  /** What a page step depends on besides its image and text: the audio and
      video directories, whether the engine is edge_tts, and the external
      speech-then-probe result for an audio path (None when either raised). */
  datatype Env = Env(audioDir: Path, videoDir: Path, edgeTts: bool, probe: Path -> Option<real>)

  /** The outcome of a run over pages: the records appended, in order, and
      the error that stopped it, if any. */
  datatype Run = Run(records: seq<PageRecord>, failure: Option<PageError>)

  const EdgeTtsEngine: string := "edge_tts"

  function ImagePath(imagesDir: Path, i: nat): Path { Join(imagesDir, ImageName(i)) }

  function AudioPath(audioDir: Path, i: nat): Path { Join(audioDir, AudioName(i)) }

  function VideoPath(videoDir: Path, i: nat): Path { Join(videoDir, VideoName(i)) }

  /** The paths `extract_pages_as_images` saves `count` rendered pages under. */
  function ImagePaths(imagesDir: Path, count: nat): seq<Path>
  {
    seq(count, k requires 0 <= k < count => ImagePath(imagesDir, k + 1))
  }

  /** Python's `zip`: pairs by position, as long as the shorter list. */
  function Zip<A, B>(xs: seq<A>, ys: seq<B>): (pairs: seq<(A, B)>)
    ensures |pairs| == if |xs| <= |ys| then |xs| else |ys|
    ensures forall k :: 0 <= k < |pairs| ==> pairs[k] == (xs[k], ys[k])
  {
    if xs == [] || ys == [] then [] else [(xs[0], ys[0])] + Zip(xs[1..], ys[1..])
  }

  /** One iteration of the loop of `create_page_videos`, for page i. */
  function PageStep(env: Env, i: nat, img: Path, text: JsonValue): Result<PageRecord, PageError>
  {
    var audio := AudioPath(env.audioDir, i);
    if !env.edgeTts then Failure(DurationUnbound(i))
    else if !text.JString? then Failure(TextNotString(i))
    else
      match NarrationDuration(text.str, env.probe(audio))
      case None => Failure(NarrationFailed(i))
      case Some(d) => Success(PageRecord(i, img, audio, VideoPath(env.videoDir, i), d, Preview(text.str)))
  }

  /** The outcome of every page of the pairs, page k + 1 using pair k. Each
      is a function of its own page only, which is what lets the run below
      be taken over this sequence. */
  function Steps(env: Env, pairs: seq<(Path, JsonValue)>): seq<Result<PageRecord, PageError>>
  {
    seq(|pairs|, k requires 0 <= k < |pairs| => PageStep(env, k + 1, pairs[k].0, pairs[k].1))
  }

  /** Going through the outcomes in order: the records of the successes up
      to the first failure, and that failure. */
  function RunSteps(steps: seq<Result<PageRecord, PageError>>): Run
  {
    if steps == [] then Run([], None)
    else
      var prev := RunSteps(steps[..|steps| - 1]);
      if prev.failure.Some? then prev
      else
        match steps[|steps| - 1]
        case Success(rec) => Run(prev.records + [rec], None)
        case Failure(e) => Run(prev.records, Some(e))
  }

  /** The loop of `create_page_videos` over the given pairs: page k + 1 uses
      pair k; the run stops at the first page that raises. */
  function RunPages(env: Env, pairs: seq<(Path, JsonValue)>): Run
  {
    RunSteps(Steps(env, pairs))
  }

  /** The video paths of the records, in order. */
  function VideoPaths(records: seq<PageRecord>): seq<Path>
  {
    seq(|records|, k requires 0 <= k < |records| => records[k].video)
  }

  /** `sum(p['duration'] for p in page_data)`. */
  function TotalDuration(records: seq<PageRecord>): real
  {
    if records == [] then 0.0
    else TotalDuration(records[..|records| - 1]) + records[|records| - 1].duration
  }

  /** One line of the concat list: `file '<absolute path>'` and a newline. */
  function ConcatLine(p: Path, cwd: seq<string>): string
  {
    "file '" + PathString(Absolute(p, cwd)) + "'\n"
  }

  /** The lines `merge_video` writes, one per video, in order. */
  function ConcatLines(videos: seq<Path>, cwd: seq<string>): seq<string>
  {
    seq(|videos|, k requires 0 <= k < |videos| => ConcatLine(videos[k], cwd))
  }

  /** The strings written one after the other. */
  function Concat(lines: seq<string>): string
  {
    if lines == [] then "" else Concat(lines[..|lines| - 1]) + lines[|lines| - 1]
  }

  /** The text `merge_video` writes to `concat_list.txt`. */
  function ConcatList(videos: seq<Path>, cwd: seq<string>): string
  {
    Concat(ConcatLines(videos, cwd))
  }

  /** The record `merge_video` dumps to `metadata.json`. */
  datatype Metadata = Metadata(
    pdfFile: Path,
    totalPages: nat,
    totalDuration: real,
    outputVideo: Path,
    pages: seq<PageRecord>)

  /** The metadata for a merge of `videos` into `output`, given `page_data`. */
  function MetadataOf(pdf: Path, videos: seq<Path>, output: Path, pageData: seq<PageRecord>): Metadata
  {
    Metadata(pdf, |videos|, TotalDuration(pageData), output, pageData)
  }

  // ----- Properties of a single page -----

  /** A page succeeds exactly when the engine is edge_tts, the text is a
      string, and the text is blank or the backend produced a duration; its
      record then has ordinal i, the given image, the page's audio and video
      paths, the narration duration and the text's preview. */
  lemma PageStepOutcome(env: Env, i: nat, img: Path, text: JsonValue)
    ensures PageStep(env, i, img, text).Success? <==>
              env.edgeTts && text.JString? &&
              (IsBlank(text.str) || env.probe(AudioPath(env.audioDir, i)).Some?)
    ensures PageStep(env, i, img, text).Success? ==>
              var rec := PageStep(env, i, img, text).value;
              rec.page == i && rec.image == img &&
              rec.audio == AudioPath(env.audioDir, i) && rec.video == VideoPath(env.videoDir, i) &&
              (IsBlank(text.str) ==> rec.duration == 2.0) &&
              (!IsBlank(text.str) ==> env.probe(rec.audio) == Some(rec.duration)) &&
              rec.textPreview == Preview(text.str)
    ensures PageStep(env, i, img, text).Failure? ==> PageStep(env, i, img, text).error.page == i
  {
    if text.JString? {
      StripEmptyIffBlank(text.str);
    }
  }

  // ----- Properties of a run -----

  /** The records of a run are the successes of the first steps, in order;
      a run without failure covers every step, and a failed run stops at the
      first failing step. */
  lemma {:induction false} RunStepsShape(steps: seq<Result<PageRecord, PageError>>)
    ensures var run := RunSteps(steps);
      |run.records| <= |steps| &&
      (forall k :: 0 <= k < |run.records| ==> steps[k] == Success(run.records[k])) &&
      (run.failure.None? ==> |run.records| == |steps|) &&
      (run.failure.Some? ==> |run.records| < |steps| && steps[|run.records|] == Failure(run.failure.value))
  {
    if steps != [] {
      var init := steps[..|steps| - 1];
      RunStepsShape(init);
      assert forall k :: 0 <= k < |init| ==> init[k] == steps[k];
    }
  }

  /** One more step after a prefix that has not failed: a success appends
      its record, a failure ends the run with it. */
  lemma RunStepsNext(steps: seq<Result<PageRecord, PageError>>, i: nat)
    requires i < |steps| && RunSteps(steps[..i]).failure.None?
    ensures RunSteps(steps[..i + 1]) ==
              match steps[i]
              case Success(rec) => Run(RunSteps(steps[..i]).records + [rec], None)
              case Failure(e) => Run(RunSteps(steps[..i]).records, Some(e))
  {
    assert steps[..i + 1][..i] == steps[..i];
  }

  /** Once a prefix of the steps fails, the whole run is that prefix's run. */
  lemma {:induction false} RunStepsStopsAtFailure(steps: seq<Result<PageRecord, PageError>>, j: nat)
    requires j <= |steps| && RunSteps(steps[..j]).failure.Some?
    ensures RunSteps(steps) == RunSteps(steps[..j])
    decreases |steps| - j
  {
    if j < |steps| {
      assert steps[..j + 1][..j] == steps[..j];
      RunStepsStopsAtFailure(steps, j + 1);
    } else {
      assert steps[..j] == steps;
    }
  }

  /** The records of a run are the successful steps of pages 1, 2, ... in
      order; a run without failure covers every pair, and a failed run stops
      at the first page whose step raised. */
  lemma RunPagesShape(env: Env, pairs: seq<(Path, JsonValue)>)
    ensures var run := RunPages(env, pairs);
      |run.records| <= |pairs| &&
      (forall k :: 0 <= k < |run.records| ==>
         PageStep(env, k + 1, pairs[k].0, pairs[k].1) == Success(run.records[k])) &&
      (run.failure.None? ==> |run.records| == |pairs|) &&
      (run.failure.Some? ==>
         |run.records| < |pairs| &&
         PageStep(env, |run.records| + 1, pairs[|run.records|].0, pairs[|run.records|].1)
           == Failure(run.failure.value))
  {
    RunStepsShape(Steps(env, pairs));
  }

  /** A successful `create_page_videos` processes min(|images|, |texts|)
      pages by position: record k is page k + 1 with image k, the page's
      audio and video paths, text k's duration and preview; the returned
      video paths are the pages' video paths in ascending page order. */
  lemma CreatePageVideosSuccess(env: Env, images: seq<Path>, texts: seq<JsonValue>)
    requires RunPages(env, Zip(images, texts)).failure.None?
    ensures var run := RunPages(env, Zip(images, texts));
      |run.records| == (if |images| <= |texts| then |images| else |texts|) &&
      forall k :: 0 <= k < |run.records| ==> PageOfRun(env, images, texts, run.records, k)
  {
    var pairs := Zip(images, texts);
    RunPagesShape(env, pairs);
    var run := RunPages(env, pairs);
    forall k | 0 <= k < |run.records|
      ensures PageOfRun(env, images, texts, run.records, k)
    {
      assert pairs[k] == (images[k], texts[k]);
      PageStepOutcome(env, k + 1, images[k], texts[k]);
    }
  }

  /** Record k of a run is page k + 1 made from image k and text k. */
  predicate PageOfRun(env: Env, images: seq<Path>, texts: seq<JsonValue>, records: seq<PageRecord>, k: nat)
    requires k < |records| && k < |images| && k < |texts|
  {
    var rec := records[k];
    texts[k].JString? &&
    rec.page == k + 1 && rec.image == images[k] &&
    rec.audio == AudioPath(env.audioDir, k + 1) &&
    rec.video == VideoPath(env.videoDir, k + 1) &&
    VideoPaths(records)[k] == VideoPath(env.videoDir, k + 1) &&
    (IsBlank(texts[k].str) ==> rec.duration == 2.0) &&
    (!IsBlank(texts[k].str) ==> env.probe(rec.audio) == Some(rec.duration)) &&
    rec.textPreview == Preview(texts[k].str)
  }

  /** Image, audio and video paths of distinct pages are distinct, and no image, audio or
      video path of one page equals another kind's path of any page. */
  lemma ArtifactPathsUnique(imagesDir: Path, audioDir: Path, videoDir: Path, i: nat, j: nat)
    ensures i != j ==> ImagePath(imagesDir, i) != ImagePath(imagesDir, j)
    ensures i != j ==> AudioPath(audioDir, i) != AudioPath(audioDir, j)
    ensures i != j ==> VideoPath(videoDir, i) != VideoPath(videoDir, j)
    ensures ImagePath(imagesDir, i) != AudioPath(audioDir, j)
    ensures ImagePath(imagesDir, i) != VideoPath(videoDir, j)
    ensures AudioPath(audioDir, i) != VideoPath(videoDir, j)
  {
    KindsDistinct(i, j);
    if i != j {
      if ImageName(i) == ImageName(j) { PageFileNameInjective(i, j, ImageSuffix); }
      if AudioName(i) == AudioName(j) { PageFileNameInjective(i, j, AudioSuffix); }
      if VideoName(i) == VideoName(j) { PageFileNameInjective(i, j, VideoSuffix); }
      if ImagePath(imagesDir, i) == ImagePath(imagesDir, j) { JoinLast(imagesDir, ImageName(i), imagesDir, ImageName(j)); }
      if AudioPath(audioDir, i) == AudioPath(audioDir, j) { JoinLast(audioDir, AudioName(i), audioDir, AudioName(j)); }
      if VideoPath(videoDir, i) == VideoPath(videoDir, j) { JoinLast(videoDir, VideoName(i), videoDir, VideoName(j)); }
    }
    if ImagePath(imagesDir, i) == AudioPath(audioDir, j) { JoinLast(imagesDir, ImageName(i), audioDir, AudioName(j)); }
    if ImagePath(imagesDir, i) == VideoPath(videoDir, j) { JoinLast(imagesDir, ImageName(i), videoDir, VideoName(j)); }
    if AudioPath(audioDir, i) == VideoPath(videoDir, j) { JoinLast(audioDir, AudioName(i), videoDir, VideoName(j)); }
  }

  /** With an engine other than edge_tts, the first page raises before any
      record is appended; only an empty pairing returns normally. */
  lemma OtherEngineFails(env: Env, pairs: seq<(Path, JsonValue)>)
    requires !env.edgeTts
    ensures RunPages(env, pairs) == if pairs == [] then Run([], None) else Run([], Some(DurationUnbound(1)))
  {
    RunPagesShape(env, pairs);
    var run := RunPages(env, pairs);
    if pairs != [] {
      assert PageStep(env, 1, pairs[0].0, pairs[0].1) == Failure(DurationUnbound(1));
      assert run.records == [];
    }
  }

  /** The pairing is positional and truncating: surplus images or surplus
      texts are never looked at. */
  lemma ZipIgnoresSurplus<A, B>(xs: seq<A>, ys: seq<B>, more: seq<A>)
    requires |ys| <= |xs|
    ensures Zip(xs + more, ys) == Zip(xs, ys)
    ensures Zip(ys, xs + more) == Zip(ys, xs)
  {
    ZipIgnoresSurplusLeft(xs, ys, more);
    ZipIgnoresSurplusRight(ys, xs, more);
  }

  lemma ZipIgnoresSurplusLeft<A, B>(xs: seq<A>, ys: seq<B>, more: seq<A>)
    requires |ys| <= |xs|
    ensures Zip(xs + more, ys) == Zip(xs, ys)
  {
    var l, r := Zip(xs + more, ys), Zip(xs, ys);
    forall k | 0 <= k < |l| ensures l[k] == r[k] { assert (xs + more)[k] == xs[k]; }
  }

  lemma ZipIgnoresSurplusRight<A, B>(ys: seq<B>, xs: seq<A>, more: seq<A>)
    requires |ys| <= |xs|
    ensures Zip(ys, xs + more) == Zip(ys, xs)
  {
    var l, r := Zip(ys, xs + more), Zip(ys, xs);
    forall k | 0 <= k < |l| ensures l[k] == r[k] { assert (xs + more)[k] == xs[k]; }
  }

  /** A count mismatch between rendered pages and script lines is not an
      error: when every text is blank and the engine is edge_tts, the run
      returns normally with min(|images|, |texts|) records of 2.0 s each,
      whatever the two counts are. */
  lemma CountMismatchNotFatal(env: Env, images: seq<Path>, texts: seq<JsonValue>)
    requires env.edgeTts
    requires forall k :: 0 <= k < |texts| ==> texts[k].JString? && IsBlank(texts[k].str)
    ensures var run := RunPages(env, Zip(images, texts));
      run.failure.None? &&
      |run.records| == (if |images| <= |texts| then |images| else |texts|) &&
      forall k :: 0 <= k < |run.records| ==> run.records[k].duration == 2.0
  {
    var pairs := Zip(images, texts);
    RunPagesShape(env, pairs);
    var run := RunPages(env, pairs);
    forall k | 0 <= k < |run.records| ensures run.records[k].duration == 2.0 {
      BlankPageSucceeds(env, k + 1, pairs[k].0, pairs[k].1);
    }
  }

  /** Under edge_tts a page with a non-blank text succeeds with the probed
      duration when the probe gives one. */
  lemma SpokenPageSucceeds(env: Env, i: nat, img: Path, text: string, d: real)
    requires env.edgeTts && !IsBlank(text) && env.probe(AudioPath(env.audioDir, i)) == Some(d)
    ensures PageStep(env, i, img, JString(text)).Success?
    ensures PageStep(env, i, img, JString(text)).value.duration == d
  {
  }

  /** Under edge_tts a blank page always succeeds, with the 2.0 s fallback. */
  lemma BlankPageSucceeds(env: Env, i: nat, img: Path, text: JsonValue)
    requires env.edgeTts && text.JString? && IsBlank(text.str)
    ensures PageStep(env, i, img, text).Success? && PageStep(env, i, img, text).value.duration == 2.0
  {
    StripEmptyIffBlank(text.str);
  }

  /** When every page's step succeeds, the run covers all pairs and record
      k is page k + 1's record. */
  lemma AllStepsSucceed(env: Env, pairs: seq<(Path, JsonValue)>)
    requires forall k :: 0 <= k < |pairs| ==> PageStep(env, k + 1, pairs[k].0, pairs[k].1).Success?
    ensures var run := RunPages(env, pairs);
      run.failure.None? && |run.records| == |pairs| &&
      forall k :: 0 <= k < |pairs| ==> run.records[k] == PageStep(env, k + 1, pairs[k].0, pairs[k].1).value
  {
    RunPagesShape(env, pairs);
  }

  /** Pages narrated from "Hello", "" and "World" get the probed duration,
      the 2.0 s fallback and the probed duration, and their total is the sum. */
  lemma ThreePageScenario(env: Env, images: seq<Path>, d1: real, d3: real)
    requires env.edgeTts && |images| == 3
    requires env.probe(AudioPath(env.audioDir, 1)) == Some(d1)
    requires env.probe(AudioPath(env.audioDir, 3)) == Some(d3)
    ensures var run := RunPages(env, Zip(images, [JString("Hello"), JString(""), JString("World")]));
      run.failure.None? && |run.records| == 3 &&
      run.records[0].duration == d1 && run.records[1].duration == 2.0 && run.records[2].duration == d3 &&
      TotalDuration(run.records) == d1 + 2.0 + d3
  {
    ThreePageDurations(env, images, d1, d3);
    TotalDurationOfThree(RunPages(env, Zip(images, [JString("Hello"), JString(""), JString("World")])).records);
  }

  lemma ThreePageDurations(env: Env, images: seq<Path>, d1: real, d3: real)
    requires env.edgeTts && |images| == 3
    requires env.probe(AudioPath(env.audioDir, 1)) == Some(d1)
    requires env.probe(AudioPath(env.audioDir, 3)) == Some(d3)
    ensures var run := RunPages(env, Zip(images, [JString("Hello"), JString(""), JString("World")]));
      run.failure.None? && |run.records| == 3 &&
      run.records[0].duration == d1 && run.records[1].duration == 2.0 && run.records[2].duration == d3
  {
    var texts := [JString("Hello"), JString(""), JString("World")];
    var pairs := Zip(images, texts);
    NotBlank("Hello");
    NotBlank("World");
    forall k | 0 <= k < |pairs|
      ensures PageStep(env, k + 1, pairs[k].0, pairs[k].1).Success?
      ensures PageStep(env, k + 1, pairs[k].0, pairs[k].1).value.duration == [d1, 2.0, d3][k]
    {
      assert pairs[k] == (images[k], texts[k]);
      if k == 0 {
        SpokenPageSucceeds(env, 1, images[0], "Hello", d1);
      } else if k == 1 {
        BlankPageSucceeds(env, 2, images[1], texts[1]);
      } else {
        SpokenPageSucceeds(env, 3, images[2], "World", d3);
      }
    }
    AllStepsSucceed(env, pairs);
  }

  /** A text that starts with a letter is not blank. */
  lemma NotBlank(text: string)
    requires |text| > 0 && ('A' <= text[0] <= 'Z' || 'a' <= text[0] <= 'z')
    ensures !IsBlank(text)
  {
    assert !IsSpace(text[0]);
  }

  lemma TotalDurationOfThree(r: seq<PageRecord>)
    requires |r| == 3
    ensures TotalDuration(r) == r[0].duration + r[1].duration + r[2].duration
  {
    var r2 := r[..2];
    var r1 := r2[..1];
    assert r1[..0] == [];
    assert TotalDuration(r1) == r[0].duration;
    assert TotalDuration(r2) == TotalDuration(r1) + r[1].duration;
    assert TotalDuration(r) == TotalDuration(r2) + r[2].duration;
  }

  /** A script of two string lines against three rendered pages is not
      rejected: two pages are processed and the third image is dropped. */
  lemma TwoLinesThreePages(env: Env, images: seq<Path>, t1: string, t2: string, d1: real, d2: real)
    requires env.edgeTts && |images| == 3
    requires env.probe(AudioPath(env.audioDir, 1)) == Some(d1)
    requires env.probe(AudioPath(env.audioDir, 2)) == Some(d2)
    ensures var run := RunPages(env, Zip(images, [JString(t1), JString(t2)]));
      run.failure.None? && |run.records| == 2 &&
      run.records[0].image == images[0] && run.records[1].image == images[1]
  {
    var texts := [JString(t1), JString(t2)];
    var pairs := Zip(images, texts);
    assert pairs[0] == (images[0], texts[0]) && pairs[1] == (images[1], texts[1]);
    PageStepOutcome(env, 1, images[0], texts[0]);
    PageStepOutcome(env, 2, images[1], texts[1]);
    AllStepsSucceed(env, pairs);
    PageStepOutcome(env, 1, images[0], texts[0]);
  }

  // ----- Aggregates -----

  lemma {:induction false} TotalDurationAppend(a: seq<PageRecord>, b: seq<PageRecord>)
    ensures TotalDuration(a + b) == TotalDuration(a) + TotalDuration(b)
    decreases |b|
  {
    if b == [] {
      assert a + b == a;
    } else {
      assert (a + b)[..|a + b| - 1] == a + b[..|b| - 1];
      TotalDurationAppend(a, b[..|b| - 1]);
    }
  }

  /** The metadata counts the pages merged, but sums the durations of all of
      `page_data`: records left from an earlier run on the same converter
      are included in the total and in the page list. */
  lemma MetadataCountsEarlierRecords(pdf: Path, output: Path, earlier: seq<PageRecord>, current: seq<PageRecord>)
    ensures var m := MetadataOf(pdf, VideoPaths(current), output, earlier + current);
      m.totalPages == |current| &&
      |m.pages| == |earlier| + |current| &&
      m.totalDuration == TotalDuration(earlier) + TotalDuration(current)
  {
    TotalDurationAppend(earlier, current);
  }

  lemma {:induction false} ConcatAppend(a: seq<string>, b: seq<string>)
    ensures Concat(a + b) == Concat(a) + Concat(b)
    decreases |b|
  {
    if b == [] {
      assert a + b == a;
    } else {
      var b', l := b[..|b| - 1], b[|b| - 1];
      assert (a + b)[..|a + b| - 1] == a + b' && (a + b)[|a + b| - 1] == l;
      ConcatAppend(a, b');
      var x, y := Concat(a), Concat(b');
      assert Concat(a + b) == (x + y) + l;
      assert (x + y) + l == x + (y + l);
    }
  }

  /** The concat list of a concatenation of video lists is the concatenation
      of their lists: the lines come in input order. */
  lemma ConcatListAppend(a: seq<Path>, b: seq<Path>, cwd: seq<string>)
    ensures ConcatList(a + b, cwd) == ConcatList(a, cwd) + ConcatList(b, cwd)
  {
    var l, r := ConcatLines(a + b, cwd), ConcatLines(a, cwd) + ConcatLines(b, cwd);
    forall k | 0 <= k < |l| ensures l[k] == r[k] {
      if k < |a| {
        assert (a + b)[k] == a[k];
      } else {
        assert (a + b)[k] == b[k - |a|];
      }
    }
    assert l == r;
    ConcatAppend(ConcatLines(a, cwd), ConcatLines(b, cwd));
  }

  /** The concat list for one video is its line. */
  lemma ConcatListSingle(p: Path, cwd: seq<string>)
    ensures ConcatList([p], cwd) == "file '" + PathString(Absolute(p, cwd)) + "'\n"
  {
    var line := ConcatLine(p, cwd);
    var lines := ConcatLines([p], cwd);
    assert lines == [line];
    assert lines[..0] == [];
    assert Concat(lines) == Concat([]) + line;
    assert "" + line == line;
  }

  /** Writing the line of video i after the lines of the videos before it
      gives the concat list of the first i + 1 videos. */
  lemma ConcatListNext(videos: seq<Path>, i: nat, cwd: seq<string>)
    requires i < |videos|
    ensures ConcatList(videos[..i + 1], cwd) == ConcatList(videos[..i], cwd) + ConcatLine(videos[i], cwd)
  {
    assert videos[..i + 1] == videos[..i] + [videos[i]];
    ConcatListAppend(videos[..i], [videos[i]], cwd);
    ConcatListSingle(videos[i], cwd);
  }

  /** One concat line holds exactly one newline, the final one, when
      neither the working directory nor the path contains one. */
  lemma ConcatLineNewlines(p: Path, cwd: seq<string>)
    requires forall k :: 0 <= k < |cwd| ==> NewlineCount(cwd[k]) == 0
    requires NoNewlines(p)
    ensures NewlineCount(ConcatLine(p, cwd)) == 1
  {
    var q := Absolute(p, cwd);
    assert NoNewlines(q) by {
      if !p.absolute {
        forall k | 0 <= k < |q.parts| ensures NewlineCount(q.parts[k]) == 0 {
          if k >= |cwd| { assert q.parts[k] == p.parts[k - |cwd|]; }
        }
      }
    }
    var s := PathString(q);
    PathStringHasNoNewline(q);
    NewlineCountAppend("file '", s);
    NewlineCountAppend("file '" + s, "'\n");
    NewlineFree("file '");
    NewlineCountAppend("'", "\n");
    NewlineFree("'");
    assert "'" + "\n" == "'\n";
    assert "\n"[..0] == [];
  }

  /** The concat list has one line per video and no other line breaks, as
      long as neither the working directory nor the paths contain one. */
  lemma {:induction false} ConcatListLineCount(videos: seq<Path>, cwd: seq<string>)
    requires forall k :: 0 <= k < |cwd| ==> NewlineCount(cwd[k]) == 0
    requires forall k :: 0 <= k < |videos| ==> NoNewlines(videos[k])
    ensures NewlineCount(ConcatList(videos, cwd)) == |videos|
  {
    if videos != [] {
      var init, p := videos[..|videos| - 1], videos[|videos| - 1];
      ConcatListLineCount(init, cwd);
      ConcatLineNewlines(p, cwd);
      assert ConcatLines(videos, cwd)[..|videos| - 1] == ConcatLines(init, cwd);
      NewlineCountAppend(ConcatList(init, cwd), ConcatLine(p, cwd));
    }
  }
}
