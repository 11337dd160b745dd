/** Where the two `extract_data` variants agree and where they part: along paths that
    pass only through dicts whose keys are present they store the same values, except
    that the broadcasting variant collapses a non-empty list to its first element. */
module Compare {
  import opened Json
  import opened Rules
  import App = AppExtract
  import Hard = HardworkExtract

  /** The key names of a path given as a list of strings. */
  function Names(steps: seq<JSON>): (ks: seq<string>)
    requires AllStrs(steps)
    ensures Strs(ks) == steps
  {
    seq(|steps|, i requires 0 <= i < |steps| => steps[i].s)
  }

  /** Reading the names back from a path of strings. */
  lemma NamesOfStrs(ks: seq<string>)
    ensures AllStrs(Strs(ks)) && Names(Strs(ks)) == ks
  {
    assert AllStrs(Strs(ks));
    assert Names(Strs(ks)) == ks;
  }

  /** A path given as a list of strings whose keys are all present. */
  predicate ResolvingPath(data: JSON, rule: Entries) {
    PathOf(rule).JList? && AllStrs(PathOf(rule).items) &&
    Resolve(data, Names(PathOf(rule).items)).Some?
  }

  /** On a scalar rule whose path resolves to a value other than a non-empty list, both
      variants store the same value (app.py:75-92 and langchain_hardwork.py:63-69). */
  lemma ScalarVariantsAgree(data: JSON, rule: Entries)
    requires ResolvingPath(data, rule)
    requires var w := Resolve(data, Names(PathOf(rule).items)).value; !(w.JList? && w.items != [])
    ensures App.ScalarRule(data, rule) == Hard.ScalarRule(data, rule)
  {
    var ks := Names(PathOf(rule).items);
    App.ResolvedScalar(data, rule, ks);
    Hard.ResolvedScalar(data, rule, ks);
  }

  /** On a list rule whose path resolves, both variants store the same records
      (app.py:96-120 and langchain_hardwork.py:73-88). */
  lemma ListVariantsAgree(data: JSON, rules: seq<JSON>)
    requires rules != [] && rules[0].JObj? && ResolvingPath(data, rules[0].entries)
    ensures App.ListRule(data, rules) == Hard.ListRule(data, rules)
  {
    var ks := Names(PathOf(rules[0].entries).items);
    App.WalkResolved(data, ks);
    Hard.ListWalkResolved(data, ks);
  }

  /** A rule on which the variants are known to agree. */
  predicate AgreeingRule(data: JSON, rule: JSON) {
    match rule
    case JObj(es) =>
      ResolvingPath(data, es) &&
      var w := Resolve(data, Names(PathOf(es).items)).value;
      !(w.JList? && w.items != [])
    case JList(rs) => rs != [] && rs[0].JObj? && ResolvingPath(data, rs[0].entries)
    case _ => true
  }

  /** A mapping all of whose rules are agreeing rules is extracted alike by both
      variants. */
  lemma VariantsAgree(data: JSON, mapping: JSON)
    requires mapping.JObj? ==> forall e :: e in mapping.entries ==> AgreeingRule(data, e.1)
    ensures App.Extract(data, mapping) == Hard.Extract(data, mapping)
  {
    if mapping.JObj? {
      forall e | e in mapping.entries
        ensures App.OutputOf(data)(e.1) == Hard.OutputOf(data)(e.1)
      {
        match e.1
        case JObj(es) => ScalarVariantsAgree(data, es);
        case JList(rs) => ListVariantsAgree(data, rs);
        case _ =>
      }
      AssembleCongruence(mapping.entries, App.OutputOf(data), Hard.OutputOf(data), []);
    }
  }

  /** The two variants part on a path that ends on a non-empty list: app.py keeps its
      first element, langchain_hardwork.py keeps the whole list. */
  lemma CollapseDiffers(data: JSON, rule: Entries, x: JSON, more: seq<JSON>)
    requires ResolvingPath(data, rule)
    requires Resolve(data, Names(PathOf(rule).items)) == Some(JList([x] + more))
    requires x != JNull
    ensures App.ScalarRule(data, rule) == Ok(x)
    ensures Hard.ScalarRule(data, rule) == Ok(JList([x] + more))
  {
    var ks := Names(PathOf(rule).items);
    App.ResolvedScalar(data, rule, ks);
    Hard.ResolvedScalar(data, rule, ks);
  }

  /** The variants also part on a path that continues past a list: app.py broadcasts
      the step over the elements, langchain_hardwork.py gives null and so the default. */
  lemma BroadcastDiffers(data: JSON, rule: Entries, ks: seq<string>, xs: seq<Entries>, k: string)
    requires PathOf(rule) == JList(Strs(ks + [k]))
    requires |xs| > 0
    requires Resolve(data, ks) == Some(JList(seq(|xs|, i requires 0 <= i < |xs| => JObj(xs[i]))))
    requires k in Keys(xs[0]) && Lookup(xs[0], k).value != JNull
    ensures App.ScalarRule(data, rule) == Ok(Lookup(xs[0], k).value)
    ensures Hard.ScalarRule(data, rule) == Ok(DefaultOf(rule))
  {
    BroadcastTakesFirst(data, rule, ks, xs, k);
    assert Strs(ks) + [JStr(k)] + [] == Strs(ks + [k]);
    Hard.NonDictGivesDefault(data, rule, ks, JStr(k), []);
  }

  /** app.py's half: the step is taken in every element and the first result kept. */
  lemma BroadcastTakesFirst(data: JSON, rule: Entries, ks: seq<string>, xs: seq<Entries>, k: string)
    requires PathOf(rule) == JList(Strs(ks + [k]))
    requires |xs| > 0
    requires Resolve(data, ks) == Some(JList(seq(|xs|, i requires 0 <= i < |xs| => JObj(xs[i]))))
    requires k in Keys(xs[0]) && Lookup(xs[0], k).value != JNull
    ensures App.ScalarRule(data, rule) == Ok(Lookup(xs[0], k).value)
  {
    var objs := seq(|xs|, i requires 0 <= i < |xs| => JObj(xs[i]));
    var steps := Strs(ks + [k]);
    assert steps == Strs(ks) + [JStr(k)];
    assert App.Walk(data, steps) == App.Walk(JList(objs), [JStr(k)]) by {
      App.WalkResolved(data, ks);
      App.WalkConcat(data, Strs(ks), [JStr(k)]);
    }
    App.BroadcastStep(objs, JStr(k));
    var stepped := App.Step(JList(objs), JStr(k)).value;
    assert App.Walk(JList(objs), [JStr(k)]) == Ok(stepped) by {
      assert [JStr(k)][1..] == [];
    }
    assert stepped.items[0] == Lookup(xs[0], k).value by {
      assert objs[0] == JObj(xs[0]);
    }
    assert App.Settle(stepped, DefaultOf(rule)) == Lookup(xs[0], k).value;
  }
}
