/** `extract_data` of langchain_hardwork.py:45-90, the non-broadcasting variant;
    structured_parser_langchain.py:52-97 is the same text, so this one module models
    both. A step is only taken from a dict: a scalar rule's walk gives null from
    anything else, and a list rule's walk gives `[]`. */
module HardworkExtract {
  import opened Json
  import opened Rules

  /** One step of a scalar rule's walk (langchain_hardwork.py:64). */
  function Step(cur: JSON, step: JSON): Result<JSON> {
    if cur.JObj? then Get(cur, step, EmptyObj) else Ok(JNull)
  }

  /** The scalar walk (langchain_hardwork.py:63-66), stopping after null. */
  function Walk(cur: JSON, steps: seq<JSON>): Result<JSON>
    decreases |steps|
  {
    if steps == [] then Ok(cur)
    else
      var next :- Step(cur, steps[0]);
      if next == JNull then Ok(JNull) else Walk(next, steps[1..])
  }

  /** One step of a list rule's walk (langchain_hardwork.py:78). */
  function ListStep(cur: JSON, step: JSON): Result<JSON> {
    if cur.JObj? then Get(cur, step, EmptyList) else Ok(EmptyList)
  }

  /** The list rule's walk (langchain_hardwork.py:77-78): every step is taken. */
  function ListWalk(cur: JSON, steps: seq<JSON>): Result<JSON>
    decreases |steps|
  {
    if steps == [] then Ok(cur)
    else
      var next :- ListStep(cur, steps[0]);
      ListWalk(next, steps[1..])
  }

  /** A scalar rule (langchain_hardwork.py:56-69). */
  function ScalarRule(data: JSON, rule: Entries): Result<JSON> {
    var steps :- Iterate(PathOf(rule));
    var cur :- Walk(data, steps);
    Ok(if cur != JNull then cur else DefaultOf(rule))
  }

  /** A list-of-records rule (langchain_hardwork.py:71-88): only `rules[0]` is read. */
  function ListRule(data: JSON, rules: seq<JSON>): Result<JSON> {
    if rules == [] then Crash(IndexError)
    else if !rules[0].JObj? then Crash(AttributeError)
    else
      var fields := rules[0].entries;
      var steps :- Iterate(PathOf(fields));
      var cur :- ListWalk(data, steps);
      var items :- Iterate(cur);
      var recs :- Records(items, fields);
      Ok(JList(recs))
  }

  /** What the loop body does with one mapping value; a value that is neither a dict
      nor a list is passed over. */
  function RuleOutput(data: JSON, rule: JSON): (r: Option<Result<JSON>>)
    ensures r.Some? <==> rule.JObj? || rule.JList?
  {
    match rule
    case JObj(es) => Some(ScalarRule(data, es))
    case JList(rs) => Some(ListRule(data, rs))
    case _ => None
  }

  function OutputOf(data: JSON): JSON -> Option<Result<JSON>> {
    rule => RuleOutput(data, rule)
  }

  /** `extract_data(data, mapping)`. */
  function Extract(data: JSON, mapping: JSON): (r: Result<JSON>)
    ensures !mapping.JObj? ==> r == Crash(AttributeError)
  {
    if !mapping.JObj? then Crash(AttributeError)
    else Assemble(mapping.entries, OutputOf(data), [])
  }

  // ---------------------------------------------------------------------------------
  // The procedure as written.

  /** The scalar rule's `for step in path` loop with its `break`. */
  method WalkPath(data: JSON, steps: seq<JSON>) returns (r: Result<JSON>)
    ensures r == Walk(data, steps)
  {
    var current := data;
    var i := 0;
    while i < |steps|
      invariant 0 <= i <= |steps|
      invariant Walk(current, steps[i..]) == Walk(data, steps)
    {
      if current.JObj? {
        var next := Get(current, steps[i], EmptyObj);
        if next.Crash? {
          return Crash(next.error);
        }
        current := next.value;
      } else {
        current := JNull;
      }
      if current == JNull {
        break;
      }
      i := i + 1;
    }
    return Ok(current);
  }

  /** The list rule's `for step in path` loop, which has no `break`. */
  method ListWalkPath(data: JSON, steps: seq<JSON>) returns (r: Result<JSON>)
    ensures r == ListWalk(data, steps)
  {
    var current := data;
    var i := 0;
    while i < |steps|
      invariant 0 <= i <= |steps|
      invariant ListWalk(current, steps[i..]) == ListWalk(data, steps)
    {
      if current.JObj? {
        var next := Get(current, steps[i], EmptyList);
        if next.Crash? {
          return Crash(next.error);
        }
        current := next.value;
      } else {
        current := EmptyList;
      }
      i := i + 1;
    }
    return Ok(current);
  }

  method ApplyScalarRule(data: JSON, rule: Entries) returns (r: Result<JSON>)
    ensures r == ScalarRule(data, rule)
  {
    var path := PathOf(rule);
    var default := DefaultOf(rule);
    var steps := Iterate(path);
    if steps.Crash? {
      return Crash(steps.error);
    }
    var current := WalkPath(data, steps.value);
    if current.Crash? {
      return Crash(current.error);
    }
    return Ok(if current.value != JNull then current.value else default);
  }

  method ApplyListRule(data: JSON, rules: seq<JSON>) returns (r: Result<JSON>)
    ensures r == ListRule(data, rules)
  {
    if rules == [] {
      return Crash(IndexError);
    }
    if !rules[0].JObj? {
      return Crash(AttributeError);
    }
    var fields := rules[0].entries;
    var steps := Iterate(PathOf(fields));
    if steps.Crash? {
      return Crash(steps.error);
    }
    var current := ListWalkPath(data, steps.value);
    if current.Crash? {
      return Crash(current.error);
    }
    var items := Iterate(current.value);
    if items.Crash? {
      return Crash(items.error);
    }
    var recs := BuildRecords(items.value, fields);
    if recs.Crash? {
      return Crash(recs.error);
    }
    return Ok(JList(recs.value));
  }

  /** `extract_data` (langchain_hardwork.py:45-90, structured_parser_langchain.py:52-97). */
  method ExtractData(data: JSON, mapping: JSON) returns (r: Result<JSON>)
    ensures r == Extract(data, mapping)
  {
    if !mapping.JObj? {
      return Crash(AttributeError);
    }
    var es := mapping.entries;
    var output: Entries := [];
    var i := 0;
    while i < |es|
      invariant 0 <= i <= |es|
      invariant Assemble(es[i..], OutputOf(data), output) == Extract(data, mapping)
    {
      var (key, value) := es[i];
      if value.JObj? {
        var v := ApplyScalarRule(data, value.entries);
        if v.Crash? {
          return Crash(v.error);
        }
        output := Put(output, key, v.value);
      } else if value.JList? {
        var v := ApplyListRule(data, value.items);
        if v.Crash? {
          return Crash(v.error);
        }
        output := Put(output, key, v.value);
      }
      i := i + 1;
    }
    return Ok(JObj(output));
  }

  // ---------------------------------------------------------------------------------
  // Properties.

  /** A walk over a concatenated path, as in the broadcasting variant. */
  lemma {:induction false} WalkConcat(v: JSON, a: seq<JSON>, b: seq<JSON>)
    ensures Walk(v, a + b) ==
      match Walk(v, a)
      case Crash(e) => Crash(e)
      case Ok(w) => if a != [] && w == JNull then Ok(JNull) else Walk(w, b)
    decreases |a|
  {
    if a == [] {
      assert a + b == b;
    } else {
      assert (a + b)[0] == a[0] && (a + b)[1..] == a[1..] + b;
      var next := Step(v, a[0]);
      if next.Ok? && next.value != JNull {
        WalkConcat(next.value, a[1..], b);
      }
    }
  }

  lemma {:induction false} ListWalkConcat(v: JSON, a: seq<JSON>, b: seq<JSON>)
    ensures ListWalk(v, a + b) ==
      match ListWalk(v, a)
      case Crash(e) => Crash(e)
      case Ok(w) => ListWalk(w, b)
    decreases |a|
  {
    if a == [] {
      assert a + b == b;
    } else {
      assert (a + b)[0] == a[0] && (a + b)[1..] == a[1..] + b;
      var next := ListStep(v, a[0]);
      if next.Ok? {
        ListWalkConcat(next.value, a[1..], b);
      }
    }
  }

  /** A scalar walk along keys that are all present reaches the value they lead to. */
  lemma {:induction false} WalkResolved(v: JSON, ks: seq<string>)
    requires Resolve(v, ks).Some?
    ensures Walk(v, Strs(ks)) == Ok(Resolve(v, ks).value)
    decreases |ks|
  {
    if ks != [] {
      assert Strs(ks)[1..] == Strs(ks[1..]);
      var next := Lookup(v.entries, ks[0]).value;
      assert Step(v, Strs(ks)[0]) == Ok(next);
      if next != JNull {
        WalkResolved(next, ks[1..]);
      }
    }
  }

  /** A list walk along keys that are all present reaches the value they lead to. */
  lemma {:induction false} ListWalkResolved(v: JSON, ks: seq<string>)
    requires Resolve(v, ks).Some?
    ensures ListWalk(v, Strs(ks)) == Ok(Resolve(v, ks).value)
    decreases |ks|
  {
    if ks != [] {
      assert Strs(ks)[1..] == Strs(ks[1..]);
      var next := Lookup(v.entries, ks[0]).value;
      assert ListStep(v, Strs(ks)[0]) == Ok(next);
      ListWalkResolved(next, ks[1..]);
    }
  }

  /** Once a list walk is at `[]` it stays there, whatever the remaining steps. */
  lemma {:induction false} EmptyListSticks(steps: seq<JSON>)
    ensures ListWalk(EmptyList, steps) == Ok(EmptyList)
    decreases |steps|
  {
    if steps != [] {
      EmptyListSticks(steps[1..]);
    }
  }

  /** Stepping from a non-dict (a list, a scalar or null) gives null and stops the
      walk, so the default is stored, whatever the remaining steps
      (langchain_hardwork.py:63-69). */
  lemma NonDictGivesDefault(data: JSON, rule: Entries, ks: seq<string>, s: JSON, rest: seq<JSON>)
    requires Resolve(data, ks).Some? && !Resolve(data, ks).value.JObj?
    requires PathOf(rule) == JList(Strs(ks) + [s] + rest)
    ensures ScalarRule(data, rule) == Ok(DefaultOf(rule))
  {
    WalkResolved(data, ks);
    assert Strs(ks) + [s] + rest == Strs(ks) + ([s] + rest);
    WalkConcat(data, Strs(ks), [s] + rest);
  }

  /** A scalar rule whose path leads through present keys stores the value reached as
      it is: a list is kept whole, with no broadcast and no first-element collapse, and
      the default is used only in place of null (langchain_hardwork.py:63-69). */
  lemma ResolvedScalar(data: JSON, rule: Entries, ks: seq<string>)
    requires PathOf(rule) == JList(Strs(ks)) && Resolve(data, ks).Some?
    ensures var w := Resolve(data, ks).value;
      ScalarRule(data, rule) == Ok(if w == JNull then DefaultOf(rule) else w)
  {
    WalkResolved(data, ks);
  }

  /** From `{}` every hashable step gives `{}` again (langchain_hardwork.py:64). */
  lemma {:induction false} EmptyObjSticks(steps: seq<JSON>)
    requires forall i :: 0 <= i < |steps| ==> Hashable(steps[i])
    ensures Walk(EmptyObj, steps) == Ok(EmptyObj)
    decreases |steps|
  {
    if steps != [] {
      assert Step(EmptyObj, steps[0]) == Ok(EmptyObj);
      EmptyObjSticks(steps[1..]);
    }
  }

  /** A missing key yields `{}`, not the default, wherever it occurs on the path, when
      the steps after it are hashable (langchain_hardwork.py:64, 69). */
  lemma MissingKeyGivesEmptyObject(data: JSON, rule: Entries, ks: seq<string>, k: string, rest: seq<JSON>)
    requires PathOf(rule) == JList(Strs(ks) + [JStr(k)] + rest)
    requires Resolve(data, ks).Some? && Resolve(data, ks).value.JObj?
    requires k !in Keys(Resolve(data, ks).value.entries)
    requires forall i :: 0 <= i < |rest| ==> Hashable(rest[i])
    ensures ScalarRule(data, rule) == Ok(EmptyObj)
  {
    WalkResolved(data, ks);
    assert Strs(ks) + [JStr(k)] + rest == Strs(ks) + ([JStr(k)] + rest);
    WalkConcat(data, Strs(ks), [JStr(k)] + rest);
    var w := Resolve(data, ks).value;
    assert Step(w, JStr(k)) == Ok(EmptyObj);
    assert ([JStr(k)] + rest)[1..] == rest;
    EmptyObjSticks(rest);
  }

  /** With no `path` (or an empty one) a scalar rule stores the whole source document,
      or the default when the document is null (structured_parser_langchain.py:64-76). */
  lemma EmptyPathReturnsData(data: JSON, rule: Entries)
    requires PathOf(rule) == EmptyList
    ensures ScalarRule(data, rule) == Ok(if data == JNull then DefaultOf(rule) else data)
  {
  }

  /** A scalar rule whose path steps are all hashable never raises; so neither does
      one whose path is a list of strings, a string or a dict
      (structured_parser_langchain.py:69-76). */
  lemma {:induction false} WalkNeverFails(v: JSON, steps: seq<JSON>)
    requires forall i :: 0 <= i < |steps| ==> Hashable(steps[i])
    ensures Walk(v, steps).Ok?
    decreases |steps|
  {
    if steps != [] {
      var next := Step(v, steps[0]);
      if next.value != JNull {
        WalkNeverFails(next.value, steps[1..]);
      }
    }
  }

  lemma ScalarNeverFails(data: JSON, rule: Entries)
    requires PathOf(rule).JStr? || PathOf(rule).JObj? ||
      (PathOf(rule).JList? && AllStrs(PathOf(rule).items))
    ensures ScalarRule(data, rule).Ok?
  {
    WalkNeverFails(data, Iterate(PathOf(rule)).value);
  }

  /** A list rule whose path meets a missing key or a non-dict stores `[]`, whatever
      the remaining steps (langchain_hardwork.py:77-78, 81-82). */
  lemma ListRuleMissingOrNonDict(data: JSON, rules: seq<JSON>, ks: seq<string>, k: string, rest: seq<JSON>)
    requires rules != [] && rules[0].JObj?
    requires PathOf(rules[0].entries) == JList(Strs(ks) + [JStr(k)] + rest)
    requires Resolve(data, ks).Some?
    requires var w := Resolve(data, ks).value; !w.JObj? || k !in Keys(w.entries)
    ensures ListRule(data, rules) == Ok(EmptyList)
  {
    ListWalkResolved(data, ks);
    assert Strs(ks) + [JStr(k)] + rest == Strs(ks) + ([JStr(k)] + rest);
    ListWalkConcat(data, Strs(ks), [JStr(k)] + rest);
    EmptyListSticks(rest);
  }

  /** A list rule whose path leads to a key holding null raises TypeError:
      `for item in None` (langchain_hardwork.py:82). */
  lemma ListRuleNullCrashes(data: JSON, rules: seq<JSON>, ks: seq<string>)
    requires rules != [] && rules[0].JObj?
    requires PathOf(rules[0].entries) == JList(Strs(ks))
    requires Resolve(data, ks) == Some(JNull)
    ensures ListRule(data, rules) == Crash(TypeError)
  {
    ListWalkResolved(data, ks);
  }

  /** A list rule whose walk ends on a list yields one record per element, in order,
      keyed by the rule's non-"path" keys in declaration order
      (langchain_hardwork.py:81-88, structured_parser_langchain.py:88-95). */
  lemma ListRuleRecords(data: JSON, rules: seq<JSON>, steps: seq<JSON>, xs: seq<JSON>)
    requires rules != [] && rules[0].JObj? && UniqueKeys(rules[0].entries)
    requires Iterate(PathOf(rules[0].entries)) == Ok(steps)
    requires ListWalk(data, steps) == Ok(JList(xs))
    ensures var fields := rules[0].entries;
      (ListRule(data, rules).Ok? <==> forall i :: 0 <= i < |xs| ==> RecordSucceeds(xs[i], fields)) &&
      (ListRule(data, rules).Ok? ==>
        ListRule(data, rules).value.JList? &&
        |ListRule(data, rules).value.items| == |xs| &&
        forall i :: 0 <= i < |xs| ==>
          ListRule(data, rules).value.items[i] == JObj(ExpectedRecord(xs[i], fields)) &&
          Keys(ExpectedRecord(xs[i], fields)) == Keys(Renames(fields)))
  {
    RecordsShape(xs, rules[0].entries);
  }

  /** Only the first element of a rule list is read (structured_parser_langchain.py:80,
      91). */
  lemma FirstRuleOnly(data: JSON, rule: JSON, more: seq<JSON>)
    ensures ListRule(data, [rule] + more) == ListRule(data, [rule])
  {
  }

  /** The output keys are exactly the mapping keys whose rule is a dict or a list, in
      mapping order (langchain_hardwork.py:53-90). */
  lemma ExtractShape(data: JSON, mapping: Entries)
    requires UniqueKeys(mapping)
    ensures Extract(data, JObj(mapping)).Ok? <==> AllRulesSucceed(mapping, OutputOf(data))
    ensures Extract(data, JObj(mapping)).Ok? ==>
      Extract(data, JObj(mapping)).value == JObj(ExpectedOutput(mapping, OutputOf(data))) &&
      Keys(ExpectedOutput(mapping, OutputOf(data))) == Keys(ActedOn(mapping, OutputOf(data)))
    ensures forall e :: e in ActedOn(mapping, OutputOf(data)) <==> e in mapping && (e.1.JObj? || e.1.JList?)
  {
    AssembleShape(mapping, OutputOf(data));
    ActedOnFilter(mapping, OutputOf(data));
  }
}
