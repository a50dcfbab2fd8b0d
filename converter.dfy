/** The `PDFToVideoConverter` class: the directories it derives from the
    output root, the `page_data` list it appends to, and the two files of its
    own it writes (`concat_list.txt` and `metadata.json`). Rendering, speech
    synthesis, probing and encoding are outside: the renderer is the page
    count it returns, speech plus probe is a function from the audio path to
    a duration, and ffmpeg does nothing observable here. */
module Converter {

  import opened Wrappers
  import opened Paths
  import opened Naming
  import opened Narration
  import opened Script
  import opened Pipeline

  /** Why `convert` raised. */
  datatype ConvertError =
    | RenderFailed                       // convert_from_path raised
    | ScriptFailed(scriptError: ScriptError)   // reading the script raised
    | PageFailed(pageError: PageError)     // a page of create_page_videos raised

  class PdfToVideoConverter {
    const pdfPath: Path
    const scriptPath: Path
    const outputDir: Path
    const imagesDir: Path
    const audioDir: Path
    const videoDir: Path

    /** The per-page records, appended to by every `create_page_videos`. */
    var pageData: seq<PageRecord>

    /** What this converter last wrote to `concat_list.txt`, if anything. */
    var concatFile: Option<string>

    /** What this converter last wrote to `metadata.json`, if anything. */
    var metadataFile: Option<Metadata>

    constructor (pdfPath: Path, scriptPath: Path, outputDir: Path)
      ensures this.pdfPath == pdfPath && this.scriptPath == scriptPath && this.outputDir == outputDir
      ensures imagesDir == Join(outputDir, "images")
      ensures audioDir == Join(outputDir, "audio")
      ensures videoDir == Join(outputDir, "videos")
      ensures pageData == [] && concatFile == None && metadataFile == None
    {
      this.pdfPath := pdfPath;
      this.scriptPath := scriptPath;
      this.outputDir := outputDir;
      imagesDir := Join(outputDir, "images");
      audioDir := Join(outputDir, "audio");
      videoDir := Join(outputDir, "videos");
      pageData := [];
      concatFile := None;
      metadataFile := None;
    }

    /** The environment the pages of one `create_page_videos` call see. */
    function PageEnv(ttsEngine: string, probe: Path -> Option<real>): Env
    {
      Env(audioDir, videoDir, ttsEngine == EdgeTtsEngine, probe)
    }

    /** `extract_text_from_jsonl`, over the script's decoded lines. */
    method ExtractTextFromJsonl(lines: seq<ScriptLine>) returns (r: Result<seq<JsonValue>, ScriptError>)
      ensures r == ScriptTexts(lines)
    {
      var texts: seq<JsonValue> := [];
      var k := 0;
      while k < |lines|
        invariant 0 <= k <= |lines|
        invariant ScriptTexts(lines[..k]) == Success(texts)
      {
        assert lines[..k + 1][..k] == lines[..k];
        match LineText(lines[k], k + 1) {
          case Failure(e) =>
            ScriptTextsStopsAtFailure(lines, k + 1);
            return Failure(e);
          case Success(text) =>
            texts := texts + [text];
        }
        k := k + 1;
      }
      assert lines[..k] == lines;
      return Success(texts);
    }

    /** `extract_pages_as_images`: the i-th rendered page (1-based) is saved
        as `images/page_{i:03d}.png`; the paths come in page order. `rendered`
        is the renderer's page count, None when it raised. */
    method ExtractPagesAsImages(rendered: Option<nat>) returns (r: Option<seq<Path>>)
      ensures r.Some? <==> rendered.Some?
      ensures r.Some? ==>
                |r.value| == rendered.value &&
                forall k :: 0 <= k < rendered.value ==> r.value[k] == Join(imagesDir, ImageName(k + 1))
    {
      if rendered.None? {
        return None;
      }
      var count := rendered.value;
      var imagePaths: seq<Path> := [];
      for i := 1 to count + 1
        invariant imagePaths == ImagePaths(imagesDir, i - 1)
      {
        imagePaths := imagePaths + [ImagePath(imagesDir, i)];
      }
      return Some(imagePaths);
    }

    /** `create_page_videos`: pairs images and texts by position, and for
        page i narrates text i, builds its clip and appends its record to
        `page_data`. Stops with the page's error when a page raises; the
        records of the pages before it stay in `page_data`. */
    method CreatePageVideos(imagePaths: seq<Path>, texts: seq<JsonValue>, ttsEngine: string,
                            probe: Path -> Option<real>)
      returns (r: Result<seq<Path>, PageError>)
      modifies this`pageData
      ensures var run := RunPages(PageEnv(ttsEngine, probe), Zip(imagePaths, texts));
        pageData == old(pageData) + run.records &&
        r == if run.failure.None? then Success(VideoPaths(run.records)) else Failure(run.failure.value)
    {
      var env := PageEnv(ttsEngine, probe);
      var pairs := Zip(imagePaths, texts);
      ghost var steps := Steps(env, pairs);
      var videoPaths: seq<Path> := [];
      var i := 0;
      while i < |pairs|
        invariant 0 <= i <= |pairs|
        invariant RunSteps(steps[..i]).failure.None?
        invariant pageData == old(pageData) + RunSteps(steps[..i]).records
        invariant videoPaths == VideoPaths(RunSteps(steps[..i]).records)
      {
        var (imgPath, text) := pairs[i];
        var page := i + 1;
        var audioPath := AudioPath(audioDir, page);
        var videoPath := VideoPath(videoDir, page);
        RunStepsNext(steps, i);
        assert steps[i] == PageStep(env, page, imgPath, text);
        if ttsEngine != EdgeTtsEngine {
          RunStepsStopsAtFailure(steps, i + 1);
          return Failure(DurationUnbound(page));
        }
        if !text.JString? {
          RunStepsStopsAtFailure(steps, i + 1);
          return Failure(TextNotString(page));
        }
        var duration := NarrationDuration(text.str, probe(audioPath));
        if duration.None? {
          RunStepsStopsAtFailure(steps, i + 1);
          return Failure(NarrationFailed(page));
        }
        var record := PageRecord(page, imgPath, audioPath, videoPath, duration.value, Preview(text.str));
        assert steps[i] == Success(record);
        ghost var records := RunSteps(steps[..i]).records;
        assert VideoPaths(records + [record]) == VideoPaths(records) + [videoPath];
        videoPaths := videoPaths + [videoPath];
        pageData := pageData + [record];
        i := i + 1;
      }
      assert steps[..i] == steps;
      return Success(videoPaths);
    }

    /** `merge_video`: writes one `file '<absolute path>'` line per video, in
        input order, to the concat list, then the metadata. A metadata write
        that fails leaves the file as it was and changes nothing else: the
        final path is returned either way. */
    method MergeVideo(videoPaths: seq<Path>, outputName: string, cwd: seq<string>, metadataWritable: bool)
      returns (finalOutput: Path)
      modifies this`concatFile, this`metadataFile
      ensures concatFile == Some(ConcatList(videoPaths, cwd))
      ensures finalOutput == Join(outputDir, outputName)
      ensures metadataFile ==
                if metadataWritable then Some(MetadataOf(pdfPath, videoPaths, finalOutput, pageData))
                else old(metadataFile)
    {
      var content := "";
      var i := 0;
      while i < |videoPaths|
        invariant 0 <= i <= |videoPaths|
        invariant content == ConcatList(videoPaths[..i], cwd)
        invariant metadataFile == old(metadataFile)
      {
        ConcatListNext(videoPaths, i, cwd);
        content := content + ConcatLine(videoPaths[i], cwd);
        i := i + 1;
      }
      assert videoPaths[..i] == videoPaths;
      concatFile := Some(content);
      finalOutput := Join(outputDir, outputName);
      if metadataWritable {
        metadataFile := Some(Metadata(pdfPath, |videoPaths|, TotalDuration(pageData), finalOutput, pageData));
      }
    }

    /** `convert`: render, read the script, build the page clips, merge. An
        error in a step ends the run with that step's error; a page error
        leaves the records of the earlier pages in `page_data`. */
    method Convert(rendered: Option<nat>, lines: seq<ScriptLine>, ttsEngine: string, outputName: string,
                   probe: Path -> Option<real>, cwd: seq<string>, metadataWritable: bool)
      returns (r: Result<Path, ConvertError>)
      modifies this`pageData, this`concatFile, this`metadataFile
      ensures rendered.None? ==> r == Failure(RenderFailed) && unchanged(this)
      ensures rendered.Some? && ScriptTexts(lines).Failure? ==>
                r == Failure(ScriptFailed(ScriptTexts(lines).error)) && unchanged(this)
      ensures rendered.Some? && ScriptTexts(lines).Success? ==>
                var run := RunPages(PageEnv(ttsEngine, probe),
                                    Zip(ImagePaths(imagesDir, rendered.value), ScriptTexts(lines).value));
                var output := Join(outputDir, outputName);
                pageData == old(pageData) + run.records &&
                (run.failure.Some? ==>
                   r == Failure(PageFailed(run.failure.value)) &&
                   concatFile == old(concatFile) && metadataFile == old(metadataFile)) &&
                (run.failure.None? ==>
                   r == Success(output) &&
                   concatFile == Some(ConcatList(VideoPaths(run.records), cwd)) &&
                   metadataFile == if metadataWritable
                                   then Some(MetadataOf(pdfPath, VideoPaths(run.records), output, pageData))
                                   else old(metadataFile))
    {
      var images := ExtractPagesAsImages(rendered);
      if images.None? {
        return Failure(RenderFailed);
      }
      assert images.value == ImagePaths(imagesDir, rendered.value);
      var texts := ExtractTextFromJsonl(lines);
      if texts.Failure? {
        return Failure(ScriptFailed(texts.error));
      }
      var videos := CreatePageVideos(images.value, texts.value, ttsEngine, probe);
      if videos.Failure? {
        return Failure(PageFailed(videos.error));
      }
      var finalVideo := MergeVideo(videos.value, outputName, cwd, metadataWritable);
      return Success(finalVideo);
    }
  }
}
