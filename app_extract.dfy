/** `extract_data` of app.py:61-122, the broadcasting variant: a path step taken from a
    list is applied to every element, and a scalar rule keeps only the first element
    of a non-empty list it ends on. */
module AppExtract {
  import opened Json
  import opened Rules

  /** `[item.get(step, {}) for item in items]` (app.py:78, 103): element by element, the
      first element that raises ends the comprehension. */
  function GetEach(items: seq<JSON>, step: JSON): Result<seq<JSON>>
    decreases |items|
  {
    if items == [] then Ok([])
    else
      var v :- Get(items[0], step, EmptyObj);
      var rest :- GetEach(items[1..], step);
      Ok([v] + rest)
  }

  /** One step of the walk (app.py:76-81): a list is broadcast over, anything else must
      be a dict; a missing key gives `{}`. */
  function Step(cur: JSON, step: JSON): Result<JSON> {
    if cur.JList? then
      var vs :- GetEach(cur.items, step);
      Ok(JList(vs))
    else Get(cur, step, EmptyObj)
  }

  /** The walk `for step in path` (app.py:75-85, 100-110), stopping after the first step
      that gives null. */
  function Walk(cur: JSON, steps: seq<JSON>): Result<JSON>
    decreases |steps|
  {
    if steps == [] then Ok(cur)
    else
      var next :- Step(cur, steps[0]);
      if next == JNull then Ok(JNull) else Walk(next, steps[1..])
  }

  /** What a scalar rule stores (app.py:88-92): the first element of a non-empty list,
      then the default in place of null. */
  function Settle(cur: JSON, dflt: JSON): JSON {
    var c := if cur.JList? && cur.items != [] then cur.items[0] else cur;
    if c == JNull then dflt else c
  }

  /** A scalar rule, a dict with a `path` and an optional `default` (app.py:68-92). */
  function ScalarRule(data: JSON, rule: Entries): Result<JSON> {
    var steps :- Iterate(PathOf(rule));
    var cur :- Walk(data, steps);
    Ok(Settle(cur, DefaultOf(rule)))
  }

  /** A list-of-records rule (app.py:94-120): only `rules[0]` is read. */
  function ListRule(data: JSON, rules: seq<JSON>): Result<JSON> {
    if rules == [] then Crash(IndexError)
    else if !rules[0].JObj? then Crash(AttributeError)
    else
      var fields := rules[0].entries;
      var steps :- Iterate(PathOf(fields));
      var cur :- Walk(data, steps);
      var items :- Iterate(cur);
      var recs :- Records(items, fields);
      Ok(JList(recs))
  }

  /** What the loop body does with one mapping value: a dict is a scalar rule, a list a
      list-of-records rule, and any other value is passed over. */
  function RuleOutput(data: JSON, rule: JSON): (r: Option<Result<JSON>>)
    ensures r.Some? <==> rule.JObj? || rule.JList?
  {
    match rule
    case JObj(es) => Some(ScalarRule(data, es))
    case JList(rs) => Some(ListRule(data, rs))
    case _ => None
  }

  function OutputOf(data: JSON): JSON -> Option<Result<JSON>> {
    rule => RuleOutput(data, rule)
  }

  /** `extract_data(data, mapping)`: only a dict has `.items()`. */
  function Extract(data: JSON, mapping: JSON): (r: Result<JSON>)
    ensures !mapping.JObj? ==> r == Crash(AttributeError)
  {
    if !mapping.JObj? then Crash(AttributeError)
    else Assemble(mapping.entries, OutputOf(data), [])
  }

  // ---------------------------------------------------------------------------------
  // The procedure as written: loops that reassign `current_data` and fill `output`.

  /** The `for step in path` loop with its `break`. */
  method WalkPath(data: JSON, steps: seq<JSON>) returns (r: Result<JSON>)
    ensures r == Walk(data, steps)
  {
    var current := data;
    var i := 0;
    while i < |steps|
      invariant 0 <= i <= |steps|
      invariant Walk(current, steps[i..]) == Walk(data, steps)
    {
      var next := Step(current, steps[i]);
      if next.Crash? {
        return Crash(next.error);
      }
      current := next.value;
      if current == JNull {
        break;
      }
      i := i + 1;
    }
    return Ok(current);
  }

  method ApplyScalarRule(data: JSON, rule: Entries) returns (r: Result<JSON>)
    ensures r == ScalarRule(data, rule)
  {
    var path := PathOf(rule);
    var default := DefaultOf(rule);
    var steps := Iterate(path);
    if steps.Crash? {
      return Crash(steps.error);
    }
    var current := WalkPath(data, steps.value);
    if current.Crash? {
      return Crash(current.error);
    }
    var c := current.value;
    if c.JList? && c.items != [] {
      c := c.items[0];
    }
    return Ok(if c != JNull then c else default);
  }

  method ApplyListRule(data: JSON, rules: seq<JSON>) returns (r: Result<JSON>)
    ensures r == ListRule(data, rules)
  {
    if rules == [] {
      return Crash(IndexError);
    }
    if !rules[0].JObj? {
      return Crash(AttributeError);
    }
    var fields := rules[0].entries;
    var steps := Iterate(PathOf(fields));
    if steps.Crash? {
      return Crash(steps.error);
    }
    var current := WalkPath(data, steps.value);
    if current.Crash? {
      return Crash(current.error);
    }
    var items := Iterate(current.value);
    if items.Crash? {
      return Crash(items.error);
    }
    var recs := BuildRecords(items.value, fields);
    if recs.Crash? {
      return Crash(recs.error);
    }
    return Ok(JList(recs.value));
  }

  /** `extract_data` (app.py:61-122). */
  method ExtractData(data: JSON, mapping: JSON) returns (r: Result<JSON>)
    ensures r == Extract(data, mapping)
  {
    if !mapping.JObj? {
      return Crash(AttributeError);
    }
    var es := mapping.entries;
    var output: Entries := [];
    var i := 0;
    while i < |es|
      invariant 0 <= i <= |es|
      invariant Assemble(es[i..], OutputOf(data), output) == Extract(data, mapping)
    {
      var (key, value) := es[i];
      if value.JObj? {
        var v := ApplyScalarRule(data, value.entries);
        if v.Crash? {
          return Crash(v.error);
        }
        output := Put(output, key, v.value);
      } else if value.JList? {
        var v := ApplyListRule(data, value.items);
        if v.Crash? {
          return Crash(v.error);
        }
        output := Put(output, key, v.value);
      }
      i := i + 1;
    }
    return Ok(JObj(output));
  }

  // ---------------------------------------------------------------------------------
  // Properties.

  /** A step applied to a list (app.py:76-78) succeeds exactly when every element is a
      dict (and the key is hashable, unless the list is empty); it then gives a list of
      the same length whose element i is element i's value under the key, or `{}`. */
  lemma {:induction false} BroadcastStep(xs: seq<JSON>, step: JSON)
    ensures Step(JList(xs), step).Ok? <==>
      (forall i :: 0 <= i < |xs| ==> xs[i].JObj?) && (xs != [] ==> Hashable(step))
    ensures Step(JList(xs), step).Ok? ==>
      Step(JList(xs), step).value.JList? &&
      |Step(JList(xs), step).value.items| == |xs| &&
      forall i :: 0 <= i < |xs| ==> Step(JList(xs), step).value.items[i] == ValueAt(xs[i], step, EmptyObj)
    decreases |xs|
  {
    if xs != [] {
      BroadcastStep(xs[1..], step);
      assert forall i :: 0 < i < |xs| ==> xs[i] == xs[1..][i - 1];
    }
  }

  /** Stepping from a dict reads the key, and a missing key gives `{}`, whatever the
      rule's default (app.py:81). */
  lemma DictStep(es: Entries, k: string)
    ensures Step(JObj(es), JStr(k)) == Ok(if k in Keys(es) then Lookup(es, k).value else EmptyObj)
  {
  }

  /** A walk over a concatenated path: the second part is walked from where the first
      ends, unless the first part stopped on null, which skips everything after it
      (app.py:84-85). */
  lemma {:induction false} WalkConcat(v: JSON, a: seq<JSON>, b: seq<JSON>)
    ensures Walk(v, a + b) ==
      match Walk(v, a)
      case Crash(e) => Crash(e)
      case Ok(w) => if a != [] && w == JNull then Ok(JNull) else Walk(w, b)
    decreases |a|
  {
    if a == [] {
      assert a + b == b;
    } else {
      assert (a + b)[0] == a[0] && (a + b)[1..] == a[1..] + b;
      var next := Step(v, a[0]);
      if next.Ok? && next.value != JNull {
        WalkConcat(next.value, a[1..], b);
      }
    }
  }

  /** Once the walk has produced null, the rest of the path is never looked at: the
      result is null even when a later step could not be taken. */
  lemma NullSkipsRest(v: JSON, a: seq<JSON>, rest: seq<JSON>)
    requires a != [] && Walk(v, a) == Ok(JNull)
    ensures Walk(v, a + rest) == Ok(JNull)
  {
    WalkConcat(v, a, rest);
  }

  /** A walk along keys that are all present reaches the value they lead to. */
  lemma {:induction false} WalkResolved(v: JSON, ks: seq<string>)
    requires Resolve(v, ks).Some?
    ensures Walk(v, Strs(ks)) == Ok(Resolve(v, ks).value)
    decreases |ks|
  {
    if ks != [] {
      assert Strs(ks)[1..] == Strs(ks[1..]);
      var next := Lookup(v.entries, ks[0]).value;
      assert Step(v, Strs(ks)[0]) == Ok(next);
      if next != JNull {
        WalkResolved(next, ks[1..]);
      }
    }
  }

  /** A scalar rule whose path leads through present keys stores the value reached,
      with a non-empty list collapsed to its first element, an empty list kept as `[]`,
      and the default only in place of null (app.py:75-92). */
  lemma ResolvedScalar(data: JSON, rule: Entries, ks: seq<string>)
    requires PathOf(rule) == JList(Strs(ks)) && Resolve(data, ks).Some?
    ensures var w := Resolve(data, ks).value;
      ScalarRule(data, rule) == Ok(
        if w.JList? && w.items != [] then
          (if w.items[0] == JNull then DefaultOf(rule) else w.items[0])
        else if w == JNull then DefaultOf(rule)
        else w)
  {
    WalkResolved(data, ks);
  }

  /** From `{}` every hashable step gives `{}` again (app.py:81). */
  lemma {:induction false} EmptyObjSticks(steps: seq<JSON>)
    requires forall i :: 0 <= i < |steps| ==> Hashable(steps[i])
    ensures Walk(EmptyObj, steps) == Ok(EmptyObj)
    decreases |steps|
  {
    if steps != [] {
      assert Step(EmptyObj, steps[0]) == Ok(EmptyObj);
      EmptyObjSticks(steps[1..]);
    }
  }

  /** A key missing at any point of the path gives `{}`, and the hashable steps after it
      keep it `{}` (app.py:81). */
  lemma MissingKeyWalk(data: JSON, ks: seq<string>, k: string, rest: seq<JSON>)
    requires Resolve(data, ks).Some? && Resolve(data, ks).value.JObj?
    requires k !in Keys(Resolve(data, ks).value.entries)
    requires forall i :: 0 <= i < |rest| ==> Hashable(rest[i])
    ensures Walk(data, Strs(ks) + [JStr(k)] + rest) == Ok(EmptyObj)
  {
    WalkResolved(data, ks);
    assert Strs(ks) + [JStr(k)] + rest == Strs(ks) + ([JStr(k)] + rest);
    WalkConcat(data, Strs(ks), [JStr(k)] + rest);
    var w := Resolve(data, ks).value;
    assert Step(w, JStr(k)) == Ok(EmptyObj);
    assert ([JStr(k)] + rest)[1..] == rest;
    EmptyObjSticks(rest);
  }

  /** A missing key yields `{}`, not the default, wherever it occurs on the path, when
      the steps after it are hashable (app.py:81, 92). */
  lemma MissingKeyGivesEmptyObject(data: JSON, rule: Entries, ks: seq<string>, k: string, rest: seq<JSON>)
    requires PathOf(rule) == JList(Strs(ks) + [JStr(k)] + rest)
    requires Resolve(data, ks).Some? && Resolve(data, ks).value.JObj?
    requires k !in Keys(Resolve(data, ks).value.entries)
    requires forall i :: 0 <= i < |rest| ==> Hashable(rest[i])
    ensures ScalarRule(data, rule) == Ok(EmptyObj)
  {
    MissingKeyWalk(data, ks, k, rest);
  }

  /** When the walk produces null the default is stored and the remaining steps are
      skipped, whatever they are (app.py:84-85, 92). */
  lemma NullGivesDefault(data: JSON, rule: Entries, ks: seq<string>, rest: seq<JSON>)
    requires ks != [] && Resolve(data, ks) == Some(JNull)
    requires PathOf(rule) == JList(Strs(ks) + rest)
    ensures ScalarRule(data, rule) == Ok(DefaultOf(rule))
  {
    WalkResolved(data, ks);
    NullSkipsRest(data, Strs(ks), rest);
  }

  /** With no `path` (or an empty one) the rule settles the whole document. */
  lemma EmptyPathSettlesData(data: JSON, rule: Entries)
    requires PathOf(rule) == EmptyList
    ensures ScalarRule(data, rule) == Ok(Settle(data, DefaultOf(rule)))
  {
  }

  /** A list rule whose walk ends on a list yields one record per element, in order;
      each record holds the rule's non-"path" keys in declaration order, bound to the
      element's value under the source key, or null (app.py:113-120). */
  lemma ListRuleRecords(data: JSON, rules: seq<JSON>, steps: seq<JSON>, xs: seq<JSON>)
    requires rules != [] && rules[0].JObj? && UniqueKeys(rules[0].entries)
    requires Iterate(PathOf(rules[0].entries)) == Ok(steps)
    requires Walk(data, steps) == Ok(JList(xs))
    ensures var fields := rules[0].entries;
      (ListRule(data, rules).Ok? <==> forall i :: 0 <= i < |xs| ==> RecordSucceeds(xs[i], fields)) &&
      (ListRule(data, rules).Ok? ==>
        ListRule(data, rules).value.JList? &&
        |ListRule(data, rules).value.items| == |xs| &&
        forall i :: 0 <= i < |xs| ==>
          ListRule(data, rules).value.items[i] == JObj(ExpectedRecord(xs[i], fields)) &&
          Keys(ExpectedRecord(xs[i], fields)) == Keys(Renames(fields)))
  {
    RecordsShape(xs, rules[0].entries);
  }

  /** A list rule whose path meets a missing key, followed by hashable steps, stores
      `[]`: iterating `{}` gives no items (app.py:106, 113-114). */
  lemma ListRuleMissingKey(data: JSON, rules: seq<JSON>, ks: seq<string>, k: string, rest: seq<JSON>)
    requires rules != [] && rules[0].JObj?
    requires PathOf(rules[0].entries) == JList(Strs(ks) + [JStr(k)] + rest)
    requires Resolve(data, ks).Some? && Resolve(data, ks).value.JObj?
    requires k !in Keys(Resolve(data, ks).value.entries)
    requires forall i :: 0 <= i < |rest| ==> Hashable(rest[i])
    ensures ListRule(data, rules) == Ok(EmptyList)
  {
    MissingKeyWalk(data, ks, k, rest);
  }

  /** A list rule whose path leads to null raises TypeError: `for item in None`
      (app.py:114). */
  lemma ListRuleNullCrashes(data: JSON, rules: seq<JSON>, ks: seq<string>)
    requires rules != [] && rules[0].JObj?
    requires PathOf(rules[0].entries) == JList(Strs(ks))
    requires Resolve(data, ks) == Some(JNull)
    ensures ListRule(data, rules) == Crash(TypeError)
  {
    WalkResolved(data, ks);
  }

  /** Only the first element of a rule list is read (app.py:96, 116). */
  lemma FirstRuleOnly(data: JSON, rule: JSON, more: seq<JSON>)
    ensures ListRule(data, [rule] + more) == ListRule(data, [rule])
  {
  }

  /** For a mapping with distinct keys, `extract_data` succeeds exactly when every dict
      or list rule succeeds; its output keys are then exactly the mapping keys whose
      rule is a dict or a list, in mapping order, each bound to its rule's result; any
      other rule is left out (app.py:65-94, 122). */
  lemma ExtractShape(data: JSON, mapping: Entries)
    requires UniqueKeys(mapping)
    ensures Extract(data, JObj(mapping)).Ok? <==> AllRulesSucceed(mapping, OutputOf(data))
    ensures Extract(data, JObj(mapping)).Ok? ==>
      Extract(data, JObj(mapping)).value == JObj(ExpectedOutput(mapping, OutputOf(data))) &&
      Keys(ExpectedOutput(mapping, OutputOf(data))) == Keys(ActedOn(mapping, OutputOf(data)))
    ensures forall e :: e in ActedOn(mapping, OutputOf(data)) <==> e in mapping && (e.1.JObj? || e.1.JList?)
  {
    AssembleShape(mapping, OutputOf(data));
    ActedOnFilter(mapping, OutputOf(data));
  }
}
