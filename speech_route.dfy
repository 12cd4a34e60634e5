/**
 * The speech analysis endpoint (`POST /api/speech`). The audio and the prompt go
 * to a generative model; what is modelled is how its reply is stripped of
 * Markdown code fences and trimmed, and how the response is shaped.
 */
module SpeechRoute {
  import opened Options
  import opened JsStrings
  import opened Web

  const Fence := "```"
  const JsonFence := "```json"
  const ModelName := "gemini-2.5-pro"

  /** A character that does not start the pattern survives at the front of the string. */
  lemma KeepsLeadingChar(s: string, p: string)
    requires p != [] && s != [] && s[0] != p[0]
    ensures RemoveAll(s, p) != [] && RemoveAll(s, p)[0] == s[0]
  {
  }

  /** A fence prefix, character by character. */
  lemma FenceAt(s: string)
    ensures Fence <= s <==> |s| >= 3 && s[0] == '`' && s[1] == '`' && s[2] == '`'
  {
    if |s| >= 3 && s[0] == '`' && s[1] == '`' && s[2] == '`' {
      assert s[..3] == Fence;
    }
  }

  /** A two-backtick prefix, character by character. */
  lemma TicksAt(s: string)
    ensures "``" <= s <==> |s| >= 2 && s[0] == '`' && s[1] == '`'
  {
    if |s| >= 2 && s[0] == '`' && s[1] == '`' {
      assert s[..2] == "``";
    }
  }

  /** Removing fences from a string that does not start with two backticks leaves one
      that does not either. */
  lemma NoDoubleTickCreated(s: string)
    requires !("``" <= s)
    ensures !("``" <= RemoveAll(s, Fence))
  {
    TicksAt(s);
    FenceAt(s);
    var r := RemoveAll(s, Fence);
    if |s| >= |Fence| && s[0] == '`' {
      assert r == [s[0]] + RemoveAll(s[1..], Fence);
      KeepsLeadingChar(s[1..], Fence);
      assert r[1] == s[1];
    }
    TicksAt(r);
  }

  /** `replace(/```/g, "")` leaves no fence behind: a deletion never joins backticks on
      its two sides into a new fence. */
  lemma {:induction false} NoFenceAfterRemoval(s: string)
    ensures !Contains(RemoveAll(s, Fence), Fence)
    decreases |s|
  {
    var r := RemoveAll(s, Fence);
    if |s| < |Fence| {
      ShortNotContains(r, Fence);
    } else if Fence <= s {
      NoFenceAfterRemoval(s[|Fence|..]);
    } else {
      var rest := RemoveAll(s[1..], Fence);
      NoFenceAfterRemoval(s[1..]);
      assert r == [s[0]] + rest;
      assert r[1..] == rest;
      FenceAt(s);
      FenceAt(r);
      if s[0] == '`' {
        TicksAt(s[1..]);
        NoDoubleTickCreated(s[1..]);
        TicksAt(rest);
      }
    }
  }

  /** The sanitised reply: both fence forms deleted, then trimmed. It holds no fence and
      has no whitespace at either end. */
  function Clean(s: string): (r: string)
    ensures !Contains(r, Fence)
    ensures NoEdgeWhitespace(r)
  {
    var unfenced := RemoveAll(RemoveAll(s, JsonFence), Fence);
    NoFenceAfterRemoval(RemoveAll(s, JsonFence));
    TrimKeepsAbsence(unfenced, Fence);
    Trim(unfenced)
  }

  /** Text without fences and without edge whitespace is left as it is. */
  lemma CleanUnchanged(s: string)
    requires !Contains(s, Fence) && NoEdgeWhitespace(s)
    ensures Clean(s) == s
  {
    assert Fence <= JsonFence;
    NoLongerPattern(s, Fence, JsonFence);
    RemoveAllAbsent(s, JsonFence);
    RemoveAllAbsent(s, Fence);
  }

  /** Sanitising twice is sanitising once. */
  lemma CleanIdempotent(s: string)
    ensures Clean(Clean(s)) == Clean(s)
  {
    CleanUnchanged(Clean(s));
  }

  /** The `"{}"` substituted for a missing or empty reply passes through unchanged. */
  lemma DefaultReplyUnchanged()
    ensures Clean("{}") == "{}"
  {
    ShortNotContains("{}", Fence);
    assert !IsWhitespace('{') && !IsWhitespace('}');
    CleanUnchanged("{}");
  }

  /** The reply text, or `"{}"` when the reply has no text or only an empty one. */
  function ReplyText(reply: Option<string>): (r: string)
    ensures r != ""
    ensures reply.Some? && reply.value != "" ==> r == reply.value
  {
    if reply.Some? && reply.value != "" then reply.value else "{}"
  }

  /** The body answered when the sanitised reply is not JSON. */
  function InvalidJson(raw: string): map<string, Json> {
    map["success" := JBool(false), "error" := JStr("Invalid JSON returned from Gemini"), "raw" := JStr(raw)]
  }

  /** `POST /api/speech`. `hasFile` says whether the form carried a file; `reply` is the
      model's reply text (`None` for a reply without a response), or the message of
      what the model call threw; `parse` is `JSON.parse`. */
  function Post(hasFile: bool, reply: Result<Option<string>>, parse: string -> Result<Json>): (resp: Response)
    ensures !hasFile ==> resp == Response(200, Failure("No audio file uploaded"))
    ensures hasFile && reply.Err? ==>
      resp == Response(500, Failure(if reply.message == "" then "Server Error" else reply.message))
    ensures hasFile && reply.Ok? ==> resp.status == 200
    ensures hasFile && reply.Ok? ==>
      var cleaned := Clean(ReplyText(reply.value));
      match parse(cleaned)
      case Err(_) => resp.body == InvalidJson(cleaned) && !Contains(cleaned, Fence)
      case Ok(parsed) =>
        && resp.body.Keys == {"success", "model"} + SpreadFields(parsed).Keys
        && (forall k :: k in SpreadFields(parsed) ==> resp.body[k] == SpreadFields(parsed)[k])
        && ("success" !in SpreadFields(parsed) ==> resp.body["success"] == JBool(true))
        && ("model" !in SpreadFields(parsed) ==> resp.body["model"] == JStr(ModelName))
  {
    if !hasFile then Response(200, Failure("No audio file uploaded"))
    else match reply
      case Err(m) => Response(500, Failure(if m == "" then "Server Error" else m))
      case Ok(text) =>
        var cleaned := Clean(ReplyText(text));
        match parse(cleaned)
        case Err(_) => Response(200, InvalidJson(cleaned))
        case Ok(parsed) =>
          Response(200, WithSpread(map["success" := JBool(true), "model" := JStr(ModelName)], parsed))
  }

  /** A model response without text is handled as the empty JSON object. */
  lemma MissingReplyIsEmptyObject(parse: string -> Result<Json>)
    ensures Post(true, Ok(None), parse) == Post(true, Ok(Some("")), parse)
    ensures Clean(ReplyText(None)) == "{}"
  {
    DefaultReplyUnchanged();
  }
}
