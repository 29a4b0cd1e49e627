/** The streamed-reply reader of the image analyser (src/utils/VL.py,
    `analyze_image`): server-sent-event lines are scanned for `data: `
    payloads, each payload's `choices[0].delta.content` is appended to the
    answer, and `[DONE]` ends the stream. Any exception outside the JSON
    decode becomes an error string. */
module StreamReply {
  import opened Wrappers
  import opened JsonValue
  import Strings

  const DataPrefix: string := "data: "
  const DoneMarker: string := "[DONE]"
  const ErrorPrefix: string := "分析图像时出错: "

  /** One line of `response.iter_lines()`: bytes that decode as UTF-8, or bytes that do not. */
  datatype Line = Utf8(text: string) | NotUtf8(detail: string)

  /** The exceptions the outer `try` turns into an error string. The detail
      is Python's rendering of the exception, which is not modelled. */
  datatype Fault =
    | RequestFailed(detail: string)     // the POST or `raise_for_status`
    | DecodeFailed(detail: string)      // `line.decode('utf-8')`
    | TypeErrorRaised                   // `in`, indexing or `+=` on the wrong type
    | KeyErrorRaised                    // `choices[0]` on an object
    | AttributeErrorRaised              // `.get` on something that is not a dict

  /** What one decoded payload contributes. */
  datatype Delta = NoText | Text(s: string) | Raise(fault: Fault)

  /** The body of the inner `try` for a decoded payload `j`. */
  function DeltaOf(j: Json): (d: Delta)
    // only a non-empty string content is ever appended
    ensures d.Text? ==> |d.s| > 0
    // a payload without `choices` contributes nothing; one that cannot hold it raises
    ensures In("choices", j) == Some(false) ==> d == NoText
    ensures In("choices", j).None? ==> d == Raise(TypeErrorRaised)
    // the well-formed shape yields exactly the content
    ensures j.JObj? && "choices" in j.fields && j.fields["choices"].JArr? && |j.fields["choices"].items| > 0
            && j.fields["choices"].items[0].JObj? && "delta" in j.fields["choices"].items[0].fields
            && j.fields["choices"].items[0].fields["delta"].JObj?
            && "content" in j.fields["choices"].items[0].fields["delta"].fields
            && j.fields["choices"].items[0].fields["delta"].fields["content"].JStr?
            ==> d == (var s := j.fields["choices"].items[0].fields["delta"].fields["content"].s;
                      if |s| > 0 then Text(s) else NoText)
  {
    match In("choices", j)
    case None => Raise(TypeErrorRaised)
    case Some(found) =>
      if !found then NoText
      else if !j.JObj? then Raise(TypeErrorRaised)
      else
        var choices := j.fields["choices"];
        if !Truthy(choices) then NoText
        else match choices
          case JArr(items) =>
            var first := items[0];
            if !first.JObj? then Raise(AttributeErrorRaised)
            else
              var delta := Get(first.fields, "delta", JObj(map[]));
              if !delta.JObj? then Raise(AttributeErrorRaised)
              else
                var content := Get(delta.fields, "content", JStr(""));
                if !Truthy(content) then NoText
                else if content.JStr? then Text(content.s)
                else Raise(TypeErrorRaised)
          case JObj(_) => Raise(KeyErrorRaised)
          case JStr(_) => Raise(AttributeErrorRaised)
          case _ => Raise(TypeErrorRaised)
  }

  /** What one line does to the scan. */
  datatype Effect = Skip | Stop | Append(s: string) | Fail(fault: Fault)

  /** One iteration of the line loop: empty and non-`data: ` lines are
      skipped, `[DONE]` stops, a payload `json.loads` rejects is skipped. */
  function Classify(line: Line, parse: string -> Option<Json>): (e: Effect)
    ensures line == Utf8("") ==> e == Skip
    ensures line.Utf8? && !Strings.StartsWith(line.text, DataPrefix) ==> e == Skip
    ensures line == Utf8(DataPrefix + DoneMarker) ==> e == Stop
    ensures e.Stop? ==> line == Utf8(DataPrefix + DoneMarker)
    ensures e.Append? ==> |e.s| > 0
    // bytes that do not decode end the scan with the decode error
    ensures line.NotUtf8? ==> e == Fail(DecodeFailed(line.detail))
    // any other data line: exactly the prefix is cut, a payload `parse`
    // rejects is skipped, and a decoded one contributes its delta
    ensures line.Utf8? && Strings.StartsWith(line.text, DataPrefix) && line.text[|DataPrefix|..] != DoneMarker ==>
              var payload := line.text[|DataPrefix|..];
              && (parse(payload).None? ==> e == Skip)
              && (parse(payload).Some? && DeltaOf(parse(payload).value) == NoText ==> e == Skip)
              && (parse(payload).Some? && DeltaOf(parse(payload).value).Text? ==> e == Append(DeltaOf(parse(payload).value).s))
              && (parse(payload).Some? && DeltaOf(parse(payload).value).Raise? ==> e == Fail(DeltaOf(parse(payload).value).fault))
  {
    match line
    case NotUtf8(detail) => Fail(DecodeFailed(detail))
    case Utf8(text) =>
      if text == "" || !Strings.StartsWith(text, DataPrefix) then Skip
      else
        var data := text[|DataPrefix|..];
        if data == DoneMarker then
          assert text == text[..|DataPrefix|] + data;
          Stop
        else match parse(data)
          case None => Skip
          case Some(j) =>
            match DeltaOf(j)
            case NoText => Skip
            case Text(s) => Append(s)
            case Raise(f) => Fail(f)
  }

  /** The end of a scan: the accumulated answer, or the fault that ended it. */
  datatype Outcome = Answer(message: string) | Failure(fault: Fault)

  /** `prefix` followed by the rest of the scan. */
  function Prepend(prefix: string, o: Outcome): Outcome
  {
    match o
    case Answer(m) => Answer(prefix + m)
    case Failure(f) => Failure(f)
  }

  /** The reference scan over `lines`, defined line by line from the front. */
  function Collect(lines: seq<Line>, parse: string -> Option<Json>): (o: Outcome)
    // an empty stream, or one whose every line is skipped, answers the empty string
    ensures |lines| == 0 ==> o == Answer("")
    ensures (forall i :: 0 <= i < |lines| ==> Classify(lines[i], parse) == Skip) ==> o == Answer("")
    // a stream that neither stops nor fails always answers
    ensures Reaches(lines, parse) ==> o.Answer?
    decreases |lines|
  {
    if |lines| == 0 then Answer("")
    else match Classify(lines[0], parse)
      case Skip => Collect(lines[1..], parse)
      case Stop => Answer("")
      case Append(s) => Prepend(s, Collect(lines[1..], parse))
      case Fail(f) => Failure(f)
  }

  lemma PrependAssoc(a: string, b: string, o: Outcome)
    ensures Prepend(a, Prepend(b, o)) == Prepend(a + b, o)
  {
    if o.Answer? {
      assert a + (b + o.message) == (a + b) + o.message;
    }
  }

  /** Nothing after `[DONE]` is read: no later line, however malformed, changes the result. */
  lemma {:induction false} DoneEndsScan(before: seq<Line>, after1: seq<Line>, after2: seq<Line>, parse: string -> Option<Json>)
    ensures var done := [Utf8(DataPrefix + DoneMarker)];
            Collect(before + done + after1, parse) == Collect(before + done + after2, parse)
    decreases |before|
  {
    var done := [Utf8(DataPrefix + DoneMarker)];
    if |before| == 0 {
      assert (before + done + after1)[0] == done[0];
      assert (before + done + after2)[0] == done[0];
    } else {
      assert (before + done + after1)[0] == before[0];
      assert (before + done + after2)[0] == before[0];
      assert (before + done + after1)[1..] == before[1..] + done + after1;
      assert (before + done + after2)[1..] == before[1..] + done + after2;
      DoneEndsScan(before[1..], after1, after2, parse);
    }
  }

  /** A skipped line can be dropped anywhere in the stream. */
  lemma {:induction false} SkipIsInvisible(before: seq<Line>, line: Line, after: seq<Line>, parse: string -> Option<Json>)
    requires Classify(line, parse) == Skip
    ensures Collect(before + [line] + after, parse) == Collect(before + after, parse)
    decreases |before|
  {
    if |before| == 0 {
      assert (before + [line] + after)[0] == line;
      assert (before + [line] + after)[1..] == after;
      assert before + after == after;
    } else {
      assert (before + [line] + after)[0] == before[0];
      assert (before + after)[0] == before[0];
      assert (before + [line] + after)[1..] == before[1..] + [line] + after;
      assert (before + after)[1..] == before[1..] + after;
      SkipIsInvisible(before[1..], line, after, parse);
    }
  }

  /** The scan of `lines` neither stopped nor failed, so it would read a next line. */
  predicate Reaches(lines: seq<Line>, parse: string -> Option<Json>)
    decreases |lines|
  {
    |lines| == 0 ||
    (match Classify(lines[0], parse)
     case Skip => Reaches(lines[1..], parse)
     case Append(_) => Reaches(lines[1..], parse)
     case _ => false)
  }

  /** A stream that runs through `a` without stopping or failing answers
      what `a` gathered followed by whatever the rest gathers. */
  lemma {:induction false} CollectAppend(a: seq<Line>, b: seq<Line>, parse: string -> Option<Json>)
    requires Reaches(a, parse)
    ensures Collect(a, parse).Answer?
    ensures Collect(a + b, parse) == Prepend(Collect(a, parse).message, Collect(b, parse))
    decreases |a|
  {
    if |a| == 0 {
      assert a + b == b;
      if Collect(b, parse).Answer? {
        assert "" + Collect(b, parse).message == Collect(b, parse).message;
      }
    } else {
      assert (a + b)[0] == a[0];
      assert (a + b)[1..] == a[1..] + b;
      CollectAppend(a[1..], b, parse);
      match Classify(a[0], parse)
      case Skip =>
      case Append(s) =>
        PrependAssoc(s, Collect(a[1..], parse).message, Collect(b, parse));
    }
  }

  /** The line `data: <payload>`. */
  function DataLine(payload: string): Line
  {
    Utf8(DataPrefix + payload)
  }

  /** The data lines carrying `payloads`, in order. */
  function DataLines(payloads: seq<string>): (lines: seq<Line>)
    ensures |lines| == |payloads|
    ensures forall i :: 0 <= i < |payloads| ==> lines[i] == DataLine(payloads[i])
  {
    if |payloads| == 0 then [] else [DataLine(payloads[0])] + DataLines(payloads[1..])
  }

  /** How a data line other than `[DONE]` is classified. */
  lemma DataLineEffect(payload: string, parse: string -> Option<Json>)
    requires payload != DoneMarker
    ensures Classify(DataLine(payload), parse) ==
              match parse(payload)
              case None => Skip
              case Some(j) =>
                match DeltaOf(j)
                case NoText => Skip
                case Text(s) => Append(s)
                case Raise(f) => Fail(f)
  {
    assert (DataPrefix + payload)[..|DataPrefix|] == DataPrefix;
    assert (DataPrefix + payload)[|DataPrefix|..] == payload;
  }

  /** One data line that is not `[DONE]`: a payload `parse` rejects or
      without content contributes nothing, content contributes itself, and a
      payload of the wrong shape fails the scan. */
  lemma DataLineContributes(payload: string, parse: string -> Option<Json>)
    requires payload != DoneMarker
    ensures parse(payload).None? ==> Collect([DataLine(payload)], parse) == Answer("")
    ensures parse(payload).Some? ==>
              Collect([DataLine(payload)], parse) ==
                match DeltaOf(parse(payload).value)
                case NoText => Answer("")
                case Text(s) => Answer(s)
                case Raise(f) => Failure(f)
  {
    DataLineEffect(payload, parse);
    assert [DataLine(payload)][1..] == [];
    if parse(payload).Some? && DeltaOf(parse(payload).value).Text? {
      var s := DeltaOf(parse(payload).value).s;
      assert s + "" == s;
    }
  }

  /** All the given strings, one after another. */
  function Flatten(parts: seq<string>): string
  {
    if |parts| == 0 then "" else parts[0] + Flatten(parts[1..])
  }

  /** A stream of data lines whose payloads all decode and whose deltas are
      `contents` answers the contents concatenated in order, empty ones adding
      nothing. */
  lemma {:induction false} DeltasConcatenate(payloads: seq<string>, contents: seq<string>, parse: string -> Option<Json>)
    requires |payloads| == |contents|
    requires forall i :: 0 <= i < |payloads| ==>
               && payloads[i] != DoneMarker && parse(payloads[i]).Some?
               && DeltaOf(parse(payloads[i]).value) == (if |contents[i]| > 0 then Text(contents[i]) else NoText)
    ensures Collect(DataLines(payloads), parse) == Answer(Flatten(contents))
    decreases |payloads|
  {
    if |payloads| > 0 {
      var lines := DataLines(payloads);
      assert lines[1..] == DataLines(payloads[1..]);
      DeltasConcatenate(payloads[1..], contents[1..], parse);
      DataLineEffect(payloads[0], parse);
      if |contents[0]| == 0 {
        assert Classify(lines[0], parse) == Skip;
      } else {
        assert Classify(lines[0], parse) == Append(contents[0]);
      }
    }
  }

  /** What the caller gets back: the answer, or the error prefix and the fault. */
  function Render(o: Outcome, describe: Fault -> string): (s: string)
    ensures o.Failure? ==> s == ErrorPrefix + describe(o.fault)
    ensures o.Answer? ==> s == o.message
  {
    match o
    case Answer(m) => m
    case Failure(f) => ErrorPrefix + describe(f)
  }

  /** The response to the POST: an exception from `requests.post` or
      `raise_for_status`, or a streamed body. */
  datatype Response = Refused(detail: string) | Streamed(lines: seq<Line>)

  /** `analyze_image`, as the loop it is. `describe` renders an exception
      as Python's `str(e)` would. */
  method AnalyzeImage(response: Response, parse: string -> Option<Json>, describe: Fault -> string)
    returns (result: string)
    ensures response.Refused? ==> result == ErrorPrefix + describe(RequestFailed(response.detail))
    ensures response.Streamed? ==> result == Render(Collect(response.lines, parse), describe)
  {
    if response.Refused? {
      return ErrorPrefix + describe(RequestFailed(response.detail));
    }
    var lines := response.lines;
    var message := "";
    var i := 0;
    while i < |lines|
      invariant 0 <= i <= |lines|
      invariant Collect(lines, parse) == Prepend(message, Collect(lines[i..], parse))
      decreases |lines| - i
    {
      assert lines[i..][0] == lines[i];
      assert lines[i..][1..] == lines[i + 1..];
      match Classify(lines[i], parse) {
        case Skip =>
        case Stop =>
          assert Collect(lines[i..], parse) == Answer("");
          assert message + "" == message;
          return message;
        case Append(s) =>
          PrependAssoc(message, s, Collect(lines[i + 1..], parse));
          message := message + s;
        case Fail(f) =>
          return ErrorPrefix + describe(f);
      }
      i := i + 1;
    }
    assert lines[i..] == [];
    assert message + "" == message;
    return message;
  }
}
