/**
 * The greeting of the speech page: the stored login token is read, parsed as
 * JSON when it can be, an identifier is picked from it, and the first name shown
 * is cut from that identifier. Without a token the page goes to the login page.
 */
module SpeechPage {
  import opened Options
  import opened JsStrings
  import opened Web

  /** `getFirstName`: "User" for the empty identifier; otherwise the text before the
      first "@" when there is one, and else the text before the first space. */
  function GetFirstName(id: string): (r: string)
    ensures id == "" ==> r == "User"
    ensures id != "" ==> r <= id && '@' !in r
    ensures id != "" && '@' in id ==> |r| < |id| && id[|r|] == '@'
    ensures id != "" && '@' !in id ==> ' ' !in r && (r == id || id[|r|] == ' ')
  {
    IndexOfIsFirst(id, '@');
    IndexOfIsFirst(id, ' ');
    if id == "" then "User"
    else if '@' in id then id[..IndexOf(id, '@')]
    else
      var space := IndexOf(id, ' ');
      if space < 0 then id else id[..space]
  }

  /** The cut is at the first "@", so `"a@b@c"` gives `"a"` and `"@x"` gives the empty
      name rather than "User". */
  lemma FirstNameCutsAtFirstAt()
    ensures GetFirstName("a@b@c") == "a"
    ensures GetFirstName("@x") == ""
  {
    assert "a@b@c"[1] == '@' && "a@b@c"[0] != '@';
    assert IndexOf("a@b@c", '@') == 1;
    assert IndexOf("@x", '@') == 0;
  }

  /** An email-like identifier gives the part before its first "@". */
  lemma FirstNameBeforeAt(name: string, rest: string)
    requires '@' !in name
    ensures GetFirstName(name + "@" + rest) == name
  {
    var id := name + "@" + rest;
    IndexOfIsFirst(id, '@');
    assert id[|name|] == '@';
    assert forall j :: 0 <= j < |name| ==> id[j] == name[j];
    assert id[..|name|] == name;
  }

  /** An identifier without "@" gives its first word. */
  lemma FirstNameBeforeSpace(name: string, rest: string)
    requires '@' !in name + " " + rest && ' ' !in name
    ensures GetFirstName(name + " " + rest) == name
  {
    var id := name + " " + rest;
    IndexOfIsFirst(id, ' ');
    assert id[|name|] == ' ';
    assert forall j :: 0 <= j < |name| ==> id[j] == name[j];
    assert id[..|name|] == name;
  }

  /** The name shown is the identifier cut at its first "@" or, without one, at its first
      space: whatever precedes the cut is free of the separator. */
  lemma FirstNameIsPrefixBeforeSeparator(id: string)
    requires id != ""
    ensures '@' in id ==> forall k :: 0 <= k < |GetFirstName(id)| ==> id[k] != '@'
    ensures '@' !in id ==> forall k :: 0 <= k < |GetFirstName(id)| ==> id[k] != ' '
  {
    var r := GetFirstName(id);
    assert forall k :: 0 <= k < |r| ==> id[k] == r[k];
  }

  /** `parsed.key` is present and truthy. */
  predicate TruthyMember(j: Json, key: string) {
    Member(j, key).Some? && Truthy(Member(j, key).value)
  }

  /** `j.k0 || j.k1 || … || ""`: the first truthy member among `keys`, or `""`. */
  function FirstTruthy(j: Json, keys: seq<string>): (r: Json)
    ensures !Truthy(r) ==> r == JStr("")
    ensures Truthy(r) <==> exists i :: 0 <= i < |keys| && TruthyMember(j, keys[i])
    ensures Truthy(r) ==>
      exists i :: 0 <= i < |keys| && TruthyMember(j, keys[i]) && r == Member(j, keys[i]).value
        && forall k :: 0 <= k < i ==> !TruthyMember(j, keys[k])
    decreases |keys|
  {
    if keys == [] then JStr("")
    else if TruthyMember(j, keys[0]) then Member(j, keys[0]).value
    else
      var r := FirstTruthy(j, keys[1..]);
      assert forall i :: 1 <= i < |keys| ==> keys[i] == keys[1..][i - 1];
      if Truthy(r) then
        var i :| 0 <= i < |keys[1..]| && TruthyMember(j, keys[1..][i]) && r == Member(j, keys[1..][i]).value
          && forall k :: 0 <= k < i ==> !TruthyMember(j, keys[1..][k]);
        assert TruthyMember(j, keys[i + 1]) && r == Member(j, keys[i + 1]).value;
        assert forall k :: 0 <= k < i + 1 ==> !TruthyMember(j, keys[k]);
        r
      else
        r
  }

  const IdentifierKeys: seq<string> := ["email", "user", "username"]

  /** The identifier the name is cut from, for a non-empty token `t`. `parse` is
      `JSON.parse`, `Err` for a `SyntaxError`. Reading a member of `null`, and cutting a
      truthy identifier that is not a string, throw; the handler then falls back to the
      raw token. So the identifier is the token itself, one of the three string fields,
      or `""` when none of them is truthy. */
  function Identifier(t: string, parse: string -> Result<Json>): (r: string)
    ensures parse(t).Err? ==> r == t
    ensures parse(t) == Ok(JNull) ==> r == t
    ensures r == t || r == "" ||
      exists i :: 0 <= i < |IdentifierKeys| && Member(parse(t).value, IdentifierKeys[i]) == Some(JStr(r))
  {
    match parse(t)
    case Err(_) => t
    case Ok(p) =>
      if p.JNull? then t
      else
        var id := FirstTruthy(p, IdentifierKeys);
        if id.JStr? then id.s else t
  }

  /** What the page ends with: a redirect to the login page, or the name it shows. */
  datatype Greeting = RedirectToLogin | ShowUser(name: string)

  /** The effect of the page; `token` is what local storage holds under "token". The
      page redirects exactly when there is no token or it is empty, and otherwise shows
      the first name of the identifier. */
  function Greet(token: Option<string>, parse: string -> Result<Json>): (g: Greeting)
    ensures g == RedirectToLogin <==> token.None? || token.value == ""
    ensures g.ShowUser? ==> g.name == GetFirstName(Identifier(token.value, parse))
  {
    if token.None? || token.value == "" then RedirectToLogin
    else ShowUser(GetFirstName(Identifier(token.value, parse)))
  }

  /** A token that is not JSON is used as the identifier itself. */
  lemma UnparseableTokenUsedAsIs(t: string, parse: string -> Result<Json>)
    requires t != "" && parse(t).Err?
    ensures Greet(Some(t), parse) == ShowUser(GetFirstName(t))
  {
  }

  /** A parsed token that has none of the three fields greets "User". */
  lemma NoIdentifierGreetsUser(t: string, parse: string -> Result<Json>)
    requires t != "" && parse(t).Ok? && parse(t).value.JObj?
    requires forall key :: key in IdentifierKeys ==> !TruthyMember(parse(t).value, key)
    ensures Identifier(t, parse) == ""
    ensures Greet(Some(t), parse) == ShowUser("User")
  {
    var p := parse(t).value;
    assert forall i :: 0 <= i < |IdentifierKeys| ==> IdentifierKeys[i] in IdentifierKeys;
  }

  /** An email wins over the other two fields; a falsy email gives way to `user`. */
  lemma IdentifierOrder(m: map<string, Json>, e: string, u: string)
    requires e != "" && u != ""
    ensures FirstTruthy(JObj(m["email" := JStr(e)]), IdentifierKeys) == JStr(e)
    ensures FirstTruthy(JObj(m["email" := JStr("")]["user" := JStr(u)]), IdentifierKeys) == JStr(u)
  {
    var j := JObj(m["email" := JStr("")]["user" := JStr(u)]);
    assert !TruthyMember(j, IdentifierKeys[0]) && TruthyMember(j, IdentifierKeys[1]);
  }

  /** A token holding a JSON string email greets by the part of the email before "@". */
  lemma EmailTokenGreets(t: string, parse: string -> Result<Json>, m: map<string, Json>, e: string)
    requires t != "" && e != "" && parse(t) == Ok(JObj(m)) && "email" in m && m["email"] == JStr(e)
    ensures Greet(Some(t), parse) == ShowUser(GetFirstName(e))
  {
    assert m == m["email" := JStr(e)];
    IdentifierOrder(m, e, "u");
  }

  /** A truthy identifier that is not a string makes the cut throw, and the raw token is used. */
  lemma NonStringIdentifierFallsBack(t: string, parse: string -> Result<Json>, m: map<string, Json>)
    requires t != "" && parse(t) == Ok(JObj(m)) && "email" in m && m["email"] == JNum(7.0)
    ensures Greet(Some(t), parse) == ShowUser(GetFirstName(t))
  {
    assert TruthyMember(JObj(m), IdentifierKeys[0]);
  }
}
