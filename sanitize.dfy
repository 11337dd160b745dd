/** `clean_model_output` (app.py:126-143): keep the text from the first `{` to the last
    `}` of a model's reply, and insist that what is left is JSON. */
module Sanitize {
  import opened Json
  import opened JsonText

  /** `re.sub(r"^[^{]*", "", s)`: drop everything before the first `{` (everything, if
      there is none). */
  function StripPrefix(s: string): (r: string)
    ensures |r| <= |s| && r == s[|s| - |r|..]
    ensures forall k :: 0 <= k < |s| - |r| ==> s[k] != '{'
    ensures r == [] || r[0] == '{'
  {
    if s == [] || s[0] == '{' then s else StripPrefix(s[1..])
  }

  /** `re.sub(r"[^}]*$", "", s)`: drop everything after the last `}` (everything, if
      there is none). The run of non-`}` characters that the pattern removes reaches
      the end of the text, so the `$` before a final newline changes nothing. */
  function StripSuffix(s: string): (r: string)
    ensures |r| <= |s| && r == s[..|r|]
    ensures forall k :: |r| <= k < |s| ==> s[k] != '}'
    ensures r == [] || r[|r| - 1] == '}'
  {
    if s == [] || s[|s| - 1] == '}' then s else StripSuffix(s[..|s| - 1])
  }

  /** The two substitutions of app.py:133-134, in order. */
  function Trim(s: string): string {
    StripSuffix(StripPrefix(s))
  }

  /** `clean_model_output(output)`: the trimmed text if `json.loads` accepts it, and
      ValueError otherwise. */
  function CleanModelOutput(output: string): (r: Result<string>)
    ensures r.Ok? <==> Valid(Trim(output))
    ensures r.Ok? ==> r.value == Trim(output)
    ensures r.Crash? ==> r.error == ValueError
  {
    var cleaned := Trim(output);
    if Loads(cleaned).Some? then Ok(cleaned) else Crash(ValueError)
  }

  // ---------------------------------------------------------------------------------
  // Properties.

  /** The trimmed text is the span of the input from its first `{` (at `i`) to the last
      `}` at or after it (ending before `j`), both included; it is empty when there is
      no `{`, or no `}` after it. */
  lemma TrimSpan(s: string) returns (i: nat, j: nat)
    ensures i <= j <= |s| && Trim(s) == s[i..j]
    ensures forall k :: 0 <= k < i ==> s[k] != '{'
    ensures i < |s| ==> s[i] == '{'
    ensures forall k :: i <= k < |s| && j <= k ==> s[k] != '}'
    ensures i < j ==> s[j - 1] == '}'
  {
    var p := StripPrefix(s);
    i := |s| - |p|;
    var r := StripSuffix(p);
    j := i + |r|;
    assert p == s[i..];
    forall k | i <= k < |s| && j <= k ensures s[k] != '}' {
      assert s[k] == p[k - i];
    }
    if i < j {
      assert s[j - 1] == p[|r| - 1] == r[|r| - 1];
    }
    assert Trim(s) == r == p[..|r|] == s[i..j];
  }

  /** The trimmed text is empty exactly when no `{` is followed, at once or later, by
      a `}`. */
  lemma TrimEmptyIff(s: string)
    ensures Trim(s) == [] <==> forall a, b :: 0 <= a <= b < |s| && s[a] == '{' ==> s[b] != '}'
  {
    var i, j := TrimSpan(s);
    if Trim(s) == [] {
      forall a, b | 0 <= a <= b < |s| && s[a] == '{' ensures s[b] != '}' {
        assert i <= a;
      }
    } else {
      assert s[i] == '{' && s[j - 1] == '}';
    }
  }

  /** Trimming an already trimmed text changes nothing. */
  lemma TrimIdempotent(s: string)
    ensures Trim(Trim(s)) == Trim(s)
  {
    var t := Trim(s);
    if t != [] {
      var p := StripPrefix(s);
      assert t == p[..|t|];
      assert t[0] == '{';
      assert StripPrefix(t) == t;
    }
  }

  /** A text with no `{` is reduced to nothing, which is not JSON: ValueError. */
  lemma NoBraceFails(s: string)
    requires forall k :: 0 <= k < |s| ==> s[k] != '{'
    ensures Trim(s) == []
    ensures CleanModelOutput(s) == Crash(ValueError)
  {
  }

  /** What `clean_model_output` returns is JSON, and an object: the caller's second
      `json.loads` (app.py:196) succeeds on it. */
  lemma CleanGivesObject(output: string)
    requires CleanModelOutput(output).Ok?
    ensures var t := CleanModelOutput(output).value;
      Loads(t).Some? && Loads(t).value.JObj?
  {
    var t := Trim(output);
    assert t != [];
    var i, j := TrimSpan(output);
    assert t[0] == output[i] == '{';
    BraceGivesObject(t);
  }

  /** Cleaning a cleaned text gives it back unchanged. */
  lemma CleanIdempotent(output: string)
    requires CleanModelOutput(output).Ok?
    ensures CleanModelOutput(CleanModelOutput(output).value) == CleanModelOutput(output)
  {
    TrimIdempotent(output);
  }

  // The concrete reply `Sure! Here is the JSON: {"a":1} Hope that helps.`

  lemma ExampleKey()
    ensures ParseChars("a\":1}", []) == Some(("a", ":1}"))
  {
    assert "a\":1}"[1..] == "\":1}";
    assert [] + ['a'] == "a";
    assert ParseChars("\":1}", "a") == Some(("a", ":1}"));
  }

  lemma ExampleNumber()
    ensures ParseValue("1}") == Some((JInt(1), "}"))
  {
    assert DigitRun("}") == 0;
    assert DigitRun("1}") == 1;
    assert "1}"[..1] == "1" && "1"[..0] == "";
    assert DigitsValue("1") == 1;
    assert ParseNumber("1}") == Some((JInt(1), "}"));
  }

  /** An object body holding one member and nothing after its closing `}`. */
  lemma OneMember(s: string, acc: Entries, key: string, afterKey: string, v: JSON, afterValue: string)
    requires s != [] && s[0] == '"' && ParseChars(s[1..], []) == Some((key, afterKey))
    requires SkipWs(afterKey) == afterKey && afterKey != [] && afterKey[0] == ':'
    requires ParseValue(SkipWs(afterKey[1..])) == Some((v, afterValue))
    requires SkipWs(afterValue) == afterValue && afterValue != [] && afterValue[0] == '}'
    ensures ParseMembers(s, acc) == Some((JObj(Put(acc, key, v)), afterValue[1..]))
  {
  }

  lemma NoLeadingWs(s: string)
    requires s != [] && !IsWs(s[0])
    ensures SkipWs(s) == s
  {
  }

  lemma ExampleMembers()
    ensures ParseMembers("\"a\":1}", []) == Some((JObj([("a", JInt(1))]), ""))
  {
    ExampleKey();
    ExampleNumber();
    assert "\"a\":1}"[1..] == "a\":1}";
    assert ":1}"[1..] == "1}";
    NoLeadingWs("1}");
    NoLeadingWs(":1}");
    NoLeadingWs("}");
    OneMember("\"a\":1}", [], "a", ":1}", JInt(1), "}");
    assert "}"[1..] == "";
    assert Put([], "a", JInt(1)) == [("a", JInt(1))];
  }

  lemma ExampleBody()
    ensures ParseObject(SkipWs("\"a\":1}")) == Some((JObj([("a", JInt(1))]), ""))
  {
    ExampleMembers();
    assert SkipWs("\"a\":1}") == "\"a\":1}";
  }

  lemma ExampleObject()
    ensures ParseValue("{\"a\":1}") == Some((JObj([("a", JInt(1))]), ""))
  {
    var s := "{\"a\":1}";
    assert s[1..] == "\"a\":1}";
    ExampleBody();
    assert ParseValue(s) == ParseObject(SkipWs(s[1..]));
  }

  /** A document with no whitespace around its one value. */
  lemma LoadsBare(s: string, v: JSON)
    requires s != [] && s[0] != '\U{FEFF}' && SkipWs(s) == s
    requires ParseValue(s) == Some((v, ""))
    ensures Loads(s) == Some(v)
  {
    assert SkipWs("") == "";
  }

  lemma ExampleLoads()
    ensures Loads("{\"a\":1}") == Some(JObj([("a", JInt(1))]))
  {
    assert SkipWs("{\"a\":1}") == "{\"a\":1}";
    ExampleObject();
    LoadsBare("{\"a\":1}", JObj([("a", JInt(1))]));
  }

  /** Commentary without `{` before a braced document, and commentary without `}` after
      it, are both cut off. */
  lemma TrimSurrounded(pre: string, body: string, post: string)
    requires '{' !in pre && '}' !in post
    requires body != [] && body[0] == '{' && body[|body| - 1] == '}'
    ensures Trim(pre + body + post) == body
  {
    var s := pre + body + post;
    var i, j := TrimSpan(s);
    assert s[|pre|] == '{';
    assert i == |pre|;
    assert s[|pre| + |body| - 1] == '}';
    assert s[i..j] == body;
  }

  /** The reply is cleaned to `{"a":1}`, which then reads back as that object. */
  lemma CleanExample()
    ensures CleanModelOutput("Sure! Here is the JSON: " + "{\"a\":1}" + " Hope that helps.") == Ok("{\"a\":1}")
    ensures Loads("{\"a\":1}") == Some(JObj([("a", JInt(1))]))
  {
    TrimSurrounded("Sure! Here is the JSON: ", "{\"a\":1}", " Hope that helps.");
    ExampleLoads();
  }
}
