/**
 * The handwriting analysis endpoint (`POST /api/handwriting`). The image and the
 * prompt go to a generative model; what is modelled is how its free-text reply
 * is cut down to the JSON object in it, and how the response is shaped.
 */
module HandwritingRoute {
  import opened Options
  import opened JsStrings
  import opened Web

  /** The part of an already-trimmed reply from its first "{" to its last "}".
      Without a "{" only a final "}" survives; with no "}" after the first "{"
      nothing does. */
  function BraceSpan(t: string): (r: string)
    ensures r == "" || r == "}" || (|r| >= 2 && r[0] == '{' && r[|r| - 1] == '}')
  {
    var open := IndexOf(t, '{');
    if open < 0 then
      (if |t| > 0 && t[|t| - 1] == '}' then "}" else "")
    else
      var close := LastIndexOf(t, '}');
      if close < open then "" else t[open..close + 1]
  }

  /** The whole repair: trim, then keep the brace span. */
  function Repaired(reply: string): string {
    BraceSpan(Trim(reply))
  }

  /** Lines 59-65: `textResponse` trimmed and then sliced in place, with JavaScript's
      `slice`, `indexOf` and `lastIndexOf`, -1 results included. */
  method RepairReply(reply: string) returns (text: string)
    ensures text == Repaired(reply)
  {
    text := Trim(reply);
    ghost var t := text;
    if !StartsWith(text, "{") {
      text := SliceFrom(text, IndexOf(text, '{'));
    }
    ghost var s := text;
    FirstSlice(t, s);
    if !EndsWith(text, "}") {
      text := Slice(text, 0, LastIndexOf(text, '}') + 1);
    }
    SliceMatchesSpan(t, s, text);
  }

  /** The first slice of the repair: from the first "{" when there is one, and otherwise
      `slice(-1)`, the last character. */
  lemma FirstSlice(t: string, s: string)
    requires s == if StartsWith(t, "{") then t else SliceFrom(t, IndexOf(t, '{'))
    ensures IndexOf(t, '{') >= 0 ==> s == t[IndexOf(t, '{')..]
    ensures IndexOf(t, '{') < 0 ==> s == (if |t| > 0 then t[|t| - 1..] else "")
  {
    var open := IndexOf(t, '{');
    if StartsWith(t, "{") {
      IndexOfLeading(t, '{');
    } else if open >= 0 {
      SliceFromIndex(t, open);
    } else {
      SliceFromLast(t);
    }
  }

  /** The second slice of the repair, checked against `BraceSpan`. */
  lemma SliceMatchesSpan(t: string, s: string, text: string)
    requires IndexOf(t, '{') >= 0 ==> s == t[IndexOf(t, '{')..]
    requires IndexOf(t, '{') < 0 ==> s == (if |t| > 0 then t[|t| - 1..] else "")
    requires text == if EndsWith(s, "}") then s else Slice(s, 0, LastIndexOf(s, '}') + 1)
    ensures text == BraceSpan(t)
  {
    if IndexOf(t, '{') >= 0 {
      SpanFromOpenBrace(t, s, text);
    } else {
      SpanOfLastChar(t, s, text);
    }
  }

  /** With a "{", the second slice cuts the suffix from the first "{" after its last "}". */
  lemma SpanFromOpenBrace(t: string, s: string, text: string)
    requires IndexOf(t, '{') >= 0 && s == t[IndexOf(t, '{')..]
    requires text == if EndsWith(s, "}") then s else Slice(s, 0, LastIndexOf(s, '}') + 1)
    ensures text == BraceSpan(t)
  {
    if EndsWith(s, "}") {
      SuffixEndingInBrace(t, IndexOf(t, '{'));
    } else {
      SuffixCutAtLastBrace(t, IndexOf(t, '{'));
    }
  }

  /** A suffix from the first "{" that already ends with "}" is the whole span. */
  lemma SuffixEndingInBrace(t: string, open: nat)
    requires open == IndexOf(t, '{') && EndsWith(t[open..], "}")
    ensures t[open..] == BraceSpan(t)
  {
    assert t[|t| - 1] == t[open..][|t| - open - 1] == '}';
    assert LastIndexOf(t, '}') == |t| - 1;
  }

  /** Cutting the suffix from the first "{" after its last "}" gives the span. */
  lemma SuffixCutAtLastBrace(t: string, open: nat)
    requires open == IndexOf(t, '{')
    ensures Slice(t[open..], 0, LastIndexOf(t[open..], '}') + 1) == BraceSpan(t)
  {
    if LastIndexOf(t, '}') >= open {
      CutAfterClosingBrace(t, open);
    } else {
      CutWithoutClosingBrace(t, open);
    }
  }

  /** The cut when a "}" follows the first "{": up to and including the last "}". */
  lemma CutAfterClosingBrace(t: string, open: nat)
    requires open == IndexOf(t, '{') && open <= LastIndexOf(t, '}')
    ensures Slice(t[open..], 0, LastIndexOf(t[open..], '}') + 1) == BraceSpan(t)
  {
    var close := LastIndexOf(t, '}');
    LastIndexOfSuffix(t, open, '}');
    var n := LastIndexOf(t[open..], '}') + 1;
    assert open + n == close + 1;
    SpanBetween(t, open, close);
    SliceOfSuffix(t, open, n);
  }

  /** With a "}" after the first "{", the span runs from the one to the other. */
  lemma SpanBetween(t: string, open: nat, close: nat)
    requires open == IndexOf(t, '{') && close == LastIndexOf(t, '}') && open <= close
    ensures BraceSpan(t) == t[open..close + 1]
  {
  }

  /** The cut when no "}" follows the first "{": nothing is kept. */
  lemma CutWithoutClosingBrace(t: string, open: nat)
    requires open == IndexOf(t, '{') && LastIndexOf(t, '}') < open
    ensures Slice(t[open..], 0, LastIndexOf(t[open..], '}') + 1) == BraceSpan(t) == ""
  {
    LastIndexOfSuffix(t, open, '}');
  }

  /** Without a "{", the second slice keeps the last character only when it is "}". */
  lemma SpanOfLastChar(t: string, s: string, text: string)
    requires IndexOf(t, '{') < 0 && s == (if |t| > 0 then t[|t| - 1..] else "")
    requires text == if EndsWith(s, "}") then s else Slice(s, 0, LastIndexOf(s, '}') + 1)
    ensures text == BraceSpan(t)
  {
    if |t| > 0 && t[|t| - 1] == '}' {
      assert s == "}";
    }
  }

  /** A reply that is already a brace-delimited object, up to surrounding whitespace,
      passes through unchanged. */
  lemma CleanObjectPassesThrough(t: string)
    requires |t| >= 2 && t[0] == '{' && t[|t| - 1] == '}'
    ensures BraceSpan(t) == t
  {
  }

  /** The repair keeps a contiguous piece of the trimmed reply. */
  lemma SpanIsSlice(t: string)
    ensures exists i, j :: 0 <= i <= j <= |t| && BraceSpan(t) == t[i..j]
  {
    var open := IndexOf(t, '{');
    if open < 0 {
      if |t| > 0 && t[|t| - 1] == '}' {
        assert BraceSpan(t) == t[|t| - 1..|t|];
      } else {
        assert BraceSpan(t) == t[0..0];
      }
    } else {
      var close := LastIndexOf(t, '}');
      if close < open {
        assert BraceSpan(t) == t[0..0];
      } else {
        assert BraceSpan(t) == t[open..close + 1];
      }
    }
  }

  /** Without any "{", the repair leaves "}" or nothing. */
  lemma NoOpeningBrace(t: string)
    requires '{' !in t
    ensures BraceSpan(t) == "" || BraceSpan(t) == "}"
    ensures BraceSpan(t) == "}" <==> |t| > 0 && t[|t| - 1] == '}'
  {
  }

  /** The kept span neither starts nor ends with whitespace, so trimming it again is a no-op. */
  lemma SpanHasNoEdgeWhitespace(t: string)
    ensures NoEdgeWhitespace(BraceSpan(t))
  {
    assert !IsWhitespace('{') && !IsWhitespace('}');
  }

  /** The repair of a span it could have produced is that span. */
  lemma SpanIsFixed(r: string)
    requires r == "" || r == "}" || (|r| >= 2 && r[0] == '{' && r[|r| - 1] == '}')
    ensures BraceSpan(r) == r
  {
    if |r| >= 2 {
      CleanObjectPassesThrough(r);
    } else if r == "}" {
      NoOpeningBrace(r);
    }
  }

  /** Repairing a repaired reply changes nothing. */
  lemma RepairIdempotent(reply: string)
    ensures Repaired(Repaired(reply)) == Repaired(reply)
  {
    var r := BraceSpan(Trim(reply));
    SpanHasNoEdgeWhitespace(Trim(reply));
    assert Trim(r) == r;
    SpanIsFixed(r);
  }

  /** Prose before the object without a "{", and prose after it without a "}", are cut
      away: the repair keeps exactly the object. */
  lemma SurroundingProseRemoved(before: string, obj: string, after: string)
    requires '{' !in before && '}' !in after
    requires |obj| >= 2 && obj[0] == '{' && obj[|obj| - 1] == '}'
    ensures BraceSpan(before + obj + after) == obj
  {
    var t := before + obj + after;
    var first, last := |before|, |before| + |obj| - 1;
    assert t[first] == '{' && t[last] == '}';
    assert forall j :: 0 <= j < first ==> t[j] == before[j];
    assert forall j :: last < j < |t| ==> t[j] == after[j - first - |obj|];
    IndexOfIsFirst(t, '{');
    assert IndexOf(t, '{') == first;
    LastIndexOfIsLast(t, '}');
    assert LastIndexOf(t, '}') == last;
    assert t[first..last + 1] == obj;
  }

  /** A fenced reply: the fence and its language tag disappear. */
  lemma FencedReplyExample()
    ensures BraceSpan("```json\n" + "{\"a\":1}" + "\n```") == "{\"a\":1}"
  {
    SurroundingProseRemoved("```json\n", "{\"a\":1}", "\n```");
  }

  const DefaultError := "Handwriting analysis failed"

  /** `POST /api/handwriting`. `hasFile` says whether the form carried a file; `reply` is
      the model's reply text, or the message of what the model call threw; `parse` is
      `JSON.parse`, with `Err` for the message of a `SyntaxError`. */
  method Post(hasFile: bool, reply: Result<string>, parse: string -> Result<Json>) returns (resp: Response)
    ensures !hasFile ==> resp == Response(400, Failure("No file uploaded"))
    ensures hasFile && reply.Err? ==>
      resp == Response(500, Failure(if reply.message == "" then DefaultError else reply.message))
    ensures hasFile && reply.Ok? ==>
      match parse(Repaired(reply.value))
      case Ok(analysis) => resp == Response(200, WithSpread(map["success" := JBool(true)], analysis))
      case Err(m) => resp == Response(500, Failure(if m == "" then DefaultError else m))
  {
    if !hasFile {
      return Response(400, Failure("No file uploaded"));
    }
    if reply.Err? {
      return Response(500, Failure(if reply.message == "" then DefaultError else reply.message));
    }
    var text := RepairReply(reply.value);
    var analysis := parse(text);
    if analysis.Err? {
      return Response(500, Failure(if analysis.message == "" then DefaultError else analysis.message));
    }
    resp := Response(200, WithSpread(map["success" := JBool(true)], analysis.value));
  }

  /** In the success body a parsed "success" field wins over the literal `success: true`,
      and every other parsed field is copied. */
  lemma ParsedFieldsOverride(analysis: Json)
    ensures var body := WithSpread(map["success" := JBool(true)], analysis);
      && (forall k :: k in SpreadFields(analysis) ==> body[k] == SpreadFields(analysis)[k])
      && ("success" !in SpreadFields(analysis) ==> body["success"] == JBool(true))
  {
  }
}
