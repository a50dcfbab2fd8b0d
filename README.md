# PDF-to-video converter: a Dafny model of its bookkeeping

The converter turns a slide PDF and a JSON-lines narration script into one
narrated video. `PDFToVideoConverter` renders each page to an image, reads
one text per script line, and pairs images with texts by position. For each
page it synthesizes speech, or a 2.0 s silence when the text is blank, and
builds a still-image clip. It then concatenates the clips through an ffmpeg
concat list and writes `metadata.json`.

This project models the in-memory part of that class, which is deterministic:

- the per-page file names `page_{i:03d}.png`, `page_{i:03d}.mp3` and `page_{i:03d}_video.mp4`;
- the positional `zip` pairing;
- the blank-text fallback;
- the `page_data` list and each record's `text_preview`;
- the concat list;
- the metadata aggregates;
- where each step can raise.

External effects are inputs:

- the renderer is its page count, `None` when it raised;
- the JSON decoder is the decoded script lines;
- speech synthesis followed by the ffprobe duration probe is a function
  `probe: Path -> Option<real>` from the audio path to a duration, `None`
  when either raised;
- ffmpeg has no observable effect;
- the working directory used by `Path.absolute()` is a parameter;
- whether `metadata.json` can be written is a boolean.

Durations are exact `real`s.

Modules:

- `Wrappers`: Option and Result.
- `Paths`: the pathlib operations used, which are joining, `absolute()` and `str()`.
- `Naming`: the zero-padded ordinal and the file names.
- `Narration`: `str.strip()`, the fallback and the preview.
- `Script`: `extract_text_from_jsonl` as a function over decoded lines.
- `Pipeline`: one page step and a run over the zipped pairs. Also the total
  duration, the concat list and the metadata record.
- `Converter`: the class. Its methods have the source's loops and are proved
  against the `Pipeline` and `Script` functions.

The model follows the code where a reader might expect something else, and
states each of these as a lemma:

- `zip` truncates to the shorter list, and a count mismatch is never an error
  (`CountMismatchNotFatal`, `TwoLinesThreePages`).
- A preview can be 103 characters long (`PreviewShape`).
- `total_duration` sums all of `page_data`. That includes records left by an
  earlier call on the same converter, while `total_pages` counts only the
  videos merged (`MetadataCountsEarlierRecords`).
- With an engine other than `edge_tts`, the first page raises because
  `duration` is never assigned (`OtherEngineFails`).
- A page that raises leaves the earlier pages' records in `page_data`
  (`CreatePageVideos`, `RunPagesShape`).
- ffmpeg's exit status is never checked. So there is no clip post-check and
  no segment-compatibility check.

## Model

| member | source | states |
|---|---|---|
| `Paths.Join` | src/utils.py:26-28 | defines `base / name` for a single-component name: the name appended to the base's components |
| `Paths.JoinString` | src/utils.py:26-28 | `str(base / name)` is `str(base)`, a '/' and the name, or the name alone (after '/' for the root) when the base has no components |
| `Paths.JoinLast` | src/utils.py:75 | two joins that give the same path joined the same name, so paths of different names never coincide |
| `Paths.Absolute` | src/utils.py:173 | defines `path.absolute()`: a relative path is put under the working directory |
| `Paths.PathString` | src/utils.py:173 | defines `str(path)`: components joined by '/', with a leading '/' when absolute, "." when empty and relative |
| `Paths.AbsoluteString` | src/utils.py:173 | `str(p.absolute())` always begins with '/'; it is `str(p)` for an absolute path and the working directory, '/' and `str(p)` for a relative one |
| `Naming.Ordinal` | src/utils.py:75 | defines `f"{i:03d}"`: the decimal digits of i, left-padded with zeros to width 3 |
| `Naming.OrdinalRoundTrip` | src/utils.py:75 | the `{i:03d}` ordinal is all digits, has length max(3, number of digits of i), and decodes back to i |
| `Naming.OrdinalWidthBound` | src/utils.py:75 | the ordinal is exactly 3 characters iff i < 1000, and from 100 on it is the plain decimal |
| `Naming.OrdinalInjective` | src/utils.py:75 | equal ordinals come from equal page numbers |
| `Naming.PageFileNameRoundTrip` | src/utils.py:129-131 | the page number can be read back out of `page_<ordinal><suffix>` for any suffix |
| `Naming.PageFileNameInjective` | src/utils.py:129-131 | distinct pages get distinct image, audio and video file names |
| `Naming.KindsDistinct` | src/utils.py:129-131 | an image name never equals an audio or video name, and an audio name never equals a video name, for any pages |
| `Narration.IsSpace` | src/utils.py:97 | defines Python's whitespace set for `str.strip()`, by code point |
| `Narration.Strip` | src/utils.py:97 | defines `text.strip()`: leading and trailing whitespace removed |
| `Narration.Preview` | src/utils.py:160 | defines `text[:100] + '...' if len(text) > 100 else text` |
| `Narration.StripEmptyIffBlank` | src/utils.py:97 | `not text.strip()` holds exactly when every character is Python whitespace, the empty text included |
| `Narration.NarrationDuration` | src/utils.py:97-113 | a blank text gets exactly 2.0 s whatever the backend would give, so the backend is not consulted; any other text gets the backend-plus-probe result |
| `Narration.PreviewShape` | src/utils.py:160 | the preview is the text when it has at most 100 characters; otherwise it is the first 100 characters plus "...", 103 in all |
| `Narration.PreviewKeepsPrefix` | src/utils.py:160 | the preview always begins with the text's first min(100, len) characters, and is longer than 100 exactly when the text is |
| `Script.LineText` | src/utils.py:53-56 | defines one line's reading: undecodable JSON, a value that is not an object, a missing `page` and then a missing `text` each raise; otherwise the `text` value |
| `Script.ScriptTexts` | src/utils.py:50-60 | defines the loop over lines: the texts in order, or the first line's error |
| `Script.ScriptTextsShape` | src/utils.py:50-60 | reading succeeds iff every line has `page` and `text`; it then gives one text per line in line order, and otherwise fails with the first failing line's error |
| `Script.ScriptTextsStopsAtFailure` | src/utils.py:51-56 | once a line raises, later lines do not matter |
| `Script.PageValueIgnored` | src/utils.py:55-59 | scripts that differ only in the values of `page` read the same |
| `Pipeline.PageStep` | src/utils.py:129-161 | defines one iteration: no duration under another engine, `text.strip()` on a non-string, a failed narration, else the page's record |
| `Pipeline.RunSteps` | src/utils.py:129-163 | defines the fold over page outcomes: records appended in order until the first failure, which ends the run |
| `Pipeline.RunPages` | src/utils.py:129-163 | defines the loop of `create_page_videos` over the zipped pairs, page k+1 using pair k |
| `Pipeline.TotalDuration` | src/utils.py:189 | defines `sum(p['duration'] for p in page_data)` |
| `Pipeline.ConcatLine` | src/utils.py:173 | defines one concat line: `file '`, the absolute path, `'` and a newline |
| `Pipeline.ConcatList` | src/utils.py:171-173 | defines the concat file's content: the lines of the videos in order |
| `Pipeline.MetadataOf` | src/utils.py:186-192 | defines the metadata object: the pdf path, the number of merged videos, the duration sum over `page_data`, the output path and `page_data` |
| `Pipeline.Zip` | src/utils.py:129 | the pairing has length min(len(images), len(texts)), and pair k is (image k, text k) |
| `Pipeline.ZipIgnoresSurplus` | src/utils.py:129 | surplus images or surplus texts never affect the pairing |
| `Pipeline.PageStepOutcome` | src/utils.py:129-161 | a page succeeds iff the engine is edge_tts, the text is a string, and the text is blank or the probe gave a duration; its record then has page == i, that image, the page's audio and video paths, the fallback or probed duration and the preview |
| `Pipeline.SpokenPageSucceeds` | src/utils.py:103-113 | under edge_tts a page whose text is not blank succeeds with exactly the probed duration |
| `Pipeline.BlankPageSucceeds` | src/utils.py:97-101 | under edge_tts a blank page always succeeds, with duration 2.0 |
| `Pipeline.RunPagesShape` | src/utils.py:127-163 | a run's records are the successful steps of pages 1, 2, … in order; a run without failure covers every pair; a failed run stops at the first page that raised |
| `Pipeline.RunStepsShape` | src/utils.py:129-161 | processing page outcomes in order keeps the successes up to the first failure, which ends the run |
| `Pipeline.RunStepsStopsAtFailure` | src/utils.py:129-161 | after a page raises, later pages do not change the run |
| `Pipeline.AllStepsSucceed` | src/utils.py:129-161 | when every page's step succeeds, the run covers every pair and record k is page k+1's record |
| `Pipeline.CreatePageVideosSuccess` | src/utils.py:127-163 | a successful run has min(len(images), len(texts)) records; record k is page k+1 with image k, `audio/page_{k+1:03d}.mp3`, `videos/page_{k+1:03d}_video.mp4`, text k's duration and preview; the video paths are in ascending page order |
| `Pipeline.ArtifactPathsUnique` | src/utils.py:75-131 | distinct pages have distinct image, audio and video paths, and paths of different kinds never coincide |
| `Pipeline.OtherEngineFails` | src/utils.py:137-142 | with an engine other than edge_tts, the first page raises before any record is appended; only an empty pairing returns |
| `Pipeline.CountMismatchNotFatal` | src/utils.py:129 | for blank texts under edge_tts, the run succeeds with min(len(images), len(texts)) records of 2.0 s whatever the two counts are |
| `Pipeline.TwoLinesThreePages` | src/utils.py:129 | under edge_tts, with a probed duration for pages 1 and 2, two string lines against three rendered pages give two records on images 0 and 1 and drop the third image |
| `Pipeline.ThreePageScenario` | src/utils.py:129-161 | texts "Hello", "" and "World" give durations d1, 2.0 and d3, and a total of d1 + 2.0 + d3 |
| `Pipeline.TotalDurationAppend` | src/utils.py:189 | the duration sum over two record lists appended is the sum of their sums |
| `Pipeline.MetadataCountsEarlierRecords` | src/utils.py:186-191 | `total_pages` counts the merged videos, but `pages` and `total_duration` cover earlier records too |
| `Pipeline.ConcatListAppend` | src/utils.py:171-173 | the concat list of two video lists appended is their two lists appended, so lines are in input order |
| `Pipeline.ConcatListSingle` | src/utils.py:173 | one video gives the line `file '<absolute path>'` and a newline |
| `Pipeline.ConcatLineNewlines` | src/utils.py:173 | a concat line holds exactly one newline when neither the working directory nor the path's components hold one (`absolute()` puts the working directory into the line) |
| `Pipeline.ConcatListLineCount` | src/utils.py:171-173 | when neither the working directory nor any video path's components hold a newline, the concat list holds exactly one newline per video; a path written verbatim with a newline would give more lines |
| `Converter.PdfToVideoConverter.constructor` | src/utils.py:20-33 | the paths are stored; the images, audio and videos directories sit under the output root; `page_data` starts empty |
| `Converter.PdfToVideoConverter.ExtractTextFromJsonl` | src/utils.py:46-60 | the reading loop gives exactly what `ScriptTexts` gives: one text per line in order, or the first line's error |
| `Converter.PdfToVideoConverter.ExtractPagesAsImages` | src/utils.py:62-80 | the i-th rendered page is saved as `images/page_{i:03d}.png`, with one path per page in page order; a renderer error is passed on |
| `Converter.PdfToVideoConverter.CreatePageVideos` | src/utils.py:118-163 | `page_data` grows by exactly the run's records with earlier records unchanged; the result is the run's video paths, or the error of the page that raised |
| `Converter.PdfToVideoConverter.MergeVideo` | src/utils.py:165-198 | the concat file holds the concat list; the result is `output_dir / output_name` whether or not the metadata write fails; the metadata counts the merged videos and sums all of `page_data` |
| `Converter.PdfToVideoConverter.Convert` | src/utils.py:200-234 | render, then read, then build, then merge, each error ending the run with nothing else changed; after a page error the earlier records stay; on success the concat list and metadata are those of the run's videos |

## Left out

- The ffmpeg and ffprobe invocations (src/utils.py:36-44, 100, 146-150, 177-178). These are external processes whose exit status the code ignores. They have no effect here, and the duration they would report is the `probe` input.
- Rasterization by pdf2image, with its `dpi` and `thread_count=4` (src/utils.py:66-71), and `image.save`. These are a foreign library with internal concurrency; only the page count, or the renderer's failure, is modelled. `dpi` is not a parameter of the model.
- The edge_tts call (src/utils.py:104-109). Synthesis and probing appear only through `probe`.
- The `voice` parameter of `create_page_videos` and `convert` (src/utils.py:120, 201). It is passed on to edge_tts (src/utils.py:138, 105) and printed; it has no other effect, so it is part of what `probe` stands for.
- The `lang` parameter of `create_page_videos` and `convert` (src/utils.py:119, 201). `convert` only prints it (src/utils.py:213) and passes it on, and `create_page_videos` never uses it.
- Opening and reading the script file, and JSON decoding (src/utils.py:51-53). The model starts from the decoded lines.
- JSON encoding of the metadata (src/utils.py:186-192), and partial writes. A failed metadata write is modelled as leaving the file unchanged.
- A failure to open `concat_list.txt` (src/utils.py:171). This is filesystem I/O.
- Directory creation in the constructor (src/utils.py:24-31), including its failure when a parent is missing. This is filesystem I/O.
- The runtime package installs with `os.system("uv add ...")` (src/utils.py:8-14, 90-95).
- Float parsing and rounding of durations, and `sum` starting from the integer 0. Durations are exact reals.
- `generate_audio_gtts` (src/utils.py:115-116) is `pass` and is never called. The non-edge_tts branch is modelled as the error it raises at src/utils.py:142.
- Default arguments: `output_dir="./outputs"` (src/utils.py:20), `dpi=300` (src/utils.py:62, 200), `tts_engine='edge_tts'` (src/utils.py:119, 200) and `output_name="final_video.mp4"` (src/utils.py:165, 202). The model's operations take every argument explicitly; a caller that relies on a default passes that value.
- All `print` output, including `convert`'s summary, which reports `len(image_paths)` pages (src/utils.py:228-232).
- pathlib details beyond what is used. Paths start as already-split components, not parsed from strings. A joined name is one component. So an `output_name` that holds a separator, or is absolute, is not modelled.
- The `__main__` block (src/utils.py:237-244). src/main.py is not part of this model: it parses the command line and calls `convert` with keyword arguments that `convert` does not accept. The `tests/` scripts are manual integration runs and are not part of this model either.
- The code does not reject a page-count mismatch, does not cap the preview at 100 characters, does not check clip artifacts after encoding and does not reject incompatible segments; the model follows the code.
