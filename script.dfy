/** The narration script: one JSON object per line with a `page` and a
    `text` field. Decoding a line is done by the JSON library and is an
    input here; what is modelled is how `extract_text_from_jsonl` reads the
    decoded lines. */
module Script {

  import opened Wrappers

  /** A decoded JSON value, as far as the script reader tells values apart. */
  datatype JsonValue =
    | JString(str: string)
    | JNumber(num: int)
    | JObject(fields: map<string, JsonValue>)
    | JOther

  /** One line of the script file: `json.loads` either raised or gave a value. */
  datatype ScriptLine = Undecodable | Decoded(value: JsonValue)

  /** Why reading the script raised, with the 1-based line number. */
  datatype ScriptError =
    | InvalidJson(line: nat)            // json.loads raised
    | NotSubscriptable(line: nat)       // data["page"] on a value that is not an object
    | MissingKey(line: nat, key: string) // KeyError on "page" or "text"

  /** What reading line number `lineNo` yields: the `text` value, once the
      `page` value has been looked up (and ignored). */
  function LineText(line: ScriptLine, lineNo: nat): Result<JsonValue, ScriptError>
  {
    match line
    case Undecodable => Failure(InvalidJson(lineNo))
    case Decoded(JObject(fields)) =>
      if "page" !in fields then Failure(MissingKey(lineNo, "page"))
      else if "text" !in fields then Failure(MissingKey(lineNo, "text"))
      else Success(fields["text"])
    case Decoded(_) => Failure(NotSubscriptable(lineNo))
  }

  /** The texts of the script in line order, or the error of the first line
      that raised. */
  function ScriptTexts(lines: seq<ScriptLine>): Result<seq<JsonValue>, ScriptError>
  {
    if lines == [] then Success([])
    else
      match ScriptTexts(lines[..|lines| - 1])
      case Failure(e) => Failure(e)
      case Success(texts) =>
        match LineText(lines[|lines| - 1], |lines|)
        case Failure(e) => Failure(e)
        case Success(t) => Success(texts + [t])
  }

  /** Reading succeeds exactly when every line has a `page` and a `text`;
      it then gives one text per line, in line order. Otherwise it fails
      with the error of the first line that lacks them. */
  lemma {:induction false} ScriptTextsShape(lines: seq<ScriptLine>)
    ensures ScriptTexts(lines).Success? <==>
              forall k :: 0 <= k < |lines| ==> LineText(lines[k], k + 1).Success?
    ensures ScriptTexts(lines).Success? ==>
              var texts := ScriptTexts(lines).value;
              |texts| == |lines| &&
              forall k :: 0 <= k < |lines| ==> texts[k] == LineText(lines[k], k + 1).value
    ensures ScriptTexts(lines).Failure? ==>
              var e := ScriptTexts(lines).error;
              1 <= e.line <= |lines| && LineText(lines[e.line - 1], e.line) == Failure(e) &&
              forall k :: 0 <= k < e.line - 1 ==> LineText(lines[k], k + 1).Success?
  {
    if lines != [] {
      var init := lines[..|lines| - 1];
      ScriptTextsShape(init);
      assert forall k :: 0 <= k < |init| ==> init[k] == lines[k];
    }
  }

  /** Once a prefix of the script fails, the whole script fails the same way. */
  lemma {:induction false} ScriptTextsStopsAtFailure(lines: seq<ScriptLine>, j: nat)
    requires j <= |lines| && ScriptTexts(lines[..j]).Failure?
    ensures ScriptTexts(lines) == ScriptTexts(lines[..j])
    decreases |lines| - j
  {
    if j < |lines| {
      assert lines[..j + 1][..j] == lines[..j];
      ScriptTextsStopsAtFailure(lines, j + 1);
    } else {
      assert lines[..j] == lines;
    }
  }

  /** Two lines that agree on everything except the value of `page`. */
  predicate SameButPage(a: ScriptLine, b: ScriptLine)
  {
    a == b ||
    (a.Decoded? && b.Decoded? && a.value.JObject? && b.value.JObject? &&
     a.value.fields.Keys == b.value.fields.Keys &&
     forall key :: key in a.value.fields && key != "page" ==> a.value.fields[key] == b.value.fields[key])
  }

  /** The value of `page` has no effect on what is read: narration order is
      line order. */
  lemma {:induction false} PageValueIgnored(lines: seq<ScriptLine>, others: seq<ScriptLine>)
    requires |lines| == |others|
    requires forall k :: 0 <= k < |lines| ==> SameButPage(lines[k], others[k])
    ensures ScriptTexts(lines) == ScriptTexts(others)
  {
    if lines != [] {
      var n := |lines|;
      PageValueIgnored(lines[..n - 1], others[..n - 1]);
      assert LineText(lines[n - 1], n) == LineText(others[n - 1], n);
    }
  }
}
