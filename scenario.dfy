/** The sample of structured_parser_langchain.py:7-30 and 101-113 (the same document is
    the `original_json` of app.py:24-47 and langchain_hardwork.py:8-31): a user, a
    location and two orders, read by three scalar rules and one list rule. Both
    variants of `extract_data` extract the same output from it. */
module Scenario {
  import opened Json
  import opened Rules
  import App = AppExtract
  import Hard = HardworkExtract
  import Compare

  const UserInfo := JObj([("user_id", JInt(123)), ("user_name", JStr("John Doe"))])
  const Location := JObj([("city", JStr("New York")), ("zip", JStr("10001"))])

  /** An order of the sample, and the record the list rule makes of it. */
  function Order(id: int, product: string, price: int): JSON {
    JObj([("order_id", JInt(id)), ("product", JStr(product)), ("price", JInt(price))])
  }

  function OrderRecord(id: int, product: string, price: int): JSON {
    JObj([("order_id", JInt(id)), ("product_name", JStr(product)), ("product_price", JInt(price))])
  }

  const Order1 := Order(1, "Laptop", 1200)
  const Order2 := Order(2, "Phone", 800)

  /** The sample document, with the location left open. */
  function Document(location: JSON): JSON {
    JObj([("data", JObj([("user_info", UserInfo), ("location", location), ("orders", JList([Order1, Order2]))]))])
  }

  const Original := Document(Location)

  /** A scalar rule with only a path. */
  function PathRule(ks: seq<string>): JSON {
    JObj([("path", JList(Strs(ks)))])
  }

  const OrderFields: Entries := [
    ("path", JList(Strs(["data", "orders"]))),
    ("order_id", JStr("order_id")),
    ("product_name", JStr("product")),
    ("product_price", JStr("price"))]

  const UserIdRule := PathRule(["data", "user_info", "user_id"])
  const UserNameRule := PathRule(["data", "user_info", "user_name"])
  const UserCityRule := PathRule(["data", "location", "city"])
  const OrdersRule := JList([JObj(OrderFields)])

  const SampleMapping: Entries := [
    ("user_id", UserIdRule), ("user_name", UserNameRule), ("user_city", UserCityRule), ("orders", OrdersRule)]

  const Record1 := OrderRecord(1, "Laptop", 1200)
  const Record2 := OrderRecord(2, "Phone", 800)

  const SampleOutput := JObj([
    ("user_id", JInt(123)), ("user_name", JStr("John Doe")), ("user_city", JStr("New York")),
    ("orders", JList([Record1, Record2]))])

  // ---------------------------------------------------------------------------------
  // Small facts over any keys, to be used once per literal.

  lemma Lookup2(a: string, va: JSON, b: string, vb: JSON)
    requires a != b
    ensures Lookup([(a, va), (b, vb)], a) == Some(va) && Lookup([(a, va), (b, vb)], b) == Some(vb)
  {
    assert [(a, va), (b, vb)][1..] == [(b, vb)];
  }

  lemma Lookup3(a: string, va: JSON, b: string, vb: JSON, c: string, vc: JSON)
    requires a != b && a != c && b != c
    ensures var es := [(a, va), (b, vb), (c, vc)];
      Lookup(es, a) == Some(va) && Lookup(es, b) == Some(vb) && Lookup(es, c) == Some(vc)
  {
    var es := [(a, va), (b, vb), (c, vc)];
    assert es[1..] == [(b, vb), (c, vc)];
    Lookup2(b, vb, c, vc);
  }

  lemma Resolve2(v: JSON, a: string, b: string, wa: JSON, wb: JSON)
    requires v.JObj? && Lookup(v.entries, a) == Some(wa)
    requires wa.JObj? && Lookup(wa.entries, b) == Some(wb)
    ensures Resolve(v, [a, b]) == Some(wb)
  {
    assert Resolve(wa, [b]) == Some(wb) by {
      assert [b][1..] == [];
    }
    assert [a, b][1..] == [b];
  }

  lemma Resolve3(v: JSON, a: string, b: string, c: string, wa: JSON, wb: JSON, wc: JSON)
    requires v.JObj? && Lookup(v.entries, a) == Some(wa)
    requires wa.JObj? && Lookup(wa.entries, b) == Some(wb)
    requires wb.JObj? && Lookup(wb.entries, c) == Some(wc)
    ensures Resolve(v, [a, b, c]) == Some(wc)
  {
    Resolve2(wa, b, c, wb, wc);
    assert [a, b, c][1..] == [b, c];
  }

  /** The renaming pairs of a rule with a path and three pairs. */
  lemma Renames3(p: JSON, a: string, sa: JSON, b: string, sb: JSON, c: string, sc: JSON)
    requires a != "path" && b != "path" && c != "path"
    ensures Renames([("path", p), (a, sa), (b, sb), (c, sc)]) == [(a, sa), (b, sb), (c, sc)]
  {
    var rn := [(a, sa), (b, sb), (c, sc)];
    assert Renames([(c, sc)]) == [(c, sc)] by {
      assert [(c, sc)][1..] == [];
    }
    assert Renames([(b, sb), (c, sc)]) == [(b, sb), (c, sc)] by {
      assert [(b, sb), (c, sc)][1..] == [(c, sc)];
    }
    assert Renames(rn) == rn by {
      assert rn[1..] == [(b, sb), (c, sc)];
    }
    assert [("path", p), (a, sa), (b, sb), (c, sc)][1..] == rn;
  }

  /** The record of an item under a rule with a path and three renaming pairs. */
  lemma Record3(item: JSON, p: JSON, a: string, sa: JSON, b: string, sb: JSON, c: string, sc: JSON)
    requires a != "path" && b != "path" && c != "path"
    ensures var fields := [("path", p), (a, sa), (b, sb), (c, sc)];
      ExpectedRecord(item, fields) == [(a, FieldValue(item, sa)), (b, FieldValue(item, sb)), (c, FieldValue(item, sc))] &&
      (item.JObj? && Hashable(sa) && Hashable(sb) && Hashable(sc) ==> RecordSucceeds(item, fields))
  {
    var fields := [("path", p), (a, sa), (b, sb), (c, sc)];
    Renames3(p, a, sa, b, sb, c, sc);
    RecordOfThree(item, fields, [(a, sa), (b, sb), (c, sc)]);
  }

  lemma RecordOfThree(item: JSON, fields: Entries, rn: Entries)
    requires Renames(fields) == rn && |rn| == 3
    ensures ExpectedRecord(item, fields) == [(rn[0].0, FieldValue(item, rn[0].1)), (rn[1].0, FieldValue(item, rn[1].1)), (rn[2].0, FieldValue(item, rn[2].1))]
    ensures item.JObj? && Hashable(rn[0].1) && Hashable(rn[1].1) && Hashable(rn[2].1) ==> RecordSucceeds(item, fields)
  {
    var r := ExpectedRecord(item, fields);
    assert r == [r[0], r[1], r[2]];
    assert rn == [rn[0], rn[1], rn[2]];
  }

  /** Rules that each give a value, under keys that are distinct and not yet in the
      output, are stored under their keys, in order. */
  predicate FreshRules(f: JSON -> Option<Result<JSON>>, rules: Entries, vals: Entries, out: Entries) {
    |rules| == |vals| && UniqueKeys(rules) &&
    (forall i :: 0 <= i < |rules| ==> rules[i].0 == vals[i].0 && f(rules[i].1) == Some(Ok(vals[i].1))) &&
    (forall i :: 0 <= i < |rules| ==> rules[i].0 !in Keys(out))
  }

  lemma {:induction false} AssembleFresh(f: JSON -> Option<Result<JSON>>, rules: Entries, vals: Entries, out: Entries)
    requires FreshRules(f, rules, vals, out)
    ensures Assemble(rules, f, out) == Ok(JObj(out + vals))
    decreases |rules|
  {
    if rules == [] {
      assert out + vals == out;
    } else {
      assert rules[0].0 == vals[0].0 && f(rules[0].1) == Some(Ok(vals[0].1)) && rules[0].0 !in Keys(out);
      FreshTail(f, rules, vals, out);
      AssembleFresh(f, rules[1..], vals[1..], out + [(rules[0].0, vals[0].1)]);
      FreshStep(f, rules, vals, out);
    }
  }

  /** The loop body for a rule that gives a value, given the rest of the loop. */
  lemma FreshStep(f: JSON -> Option<Result<JSON>>, rules: Entries, vals: Entries, out: Entries)
    requires rules != [] && vals != [] && rules[0].0 == vals[0].0
    requires f(rules[0].1) == Some(Ok(vals[0].1)) && rules[0].0 !in Keys(out)
    requires Assemble(rules[1..], f, out + [vals[0]]) == Ok(JObj((out + [vals[0]]) + vals[1..]))
    ensures Assemble(rules, f, out) == Ok(JObj(out + vals))
  {
    var k := rules[0].0;
    var v := vals[0].1;
    assert vals[0] == (k, v);
    AssembleActUnfold(rules, f, out, v);
    assert vals == [(k, v)] + vals[1..];
    AppendAssoc(out, [(k, v)], vals[1..]);
  }

  lemma FreshTail(f: JSON -> Option<Result<JSON>>, rules: Entries, vals: Entries, out: Entries)
    requires FreshRules(f, rules, vals, out) && rules != []
    ensures FreshRules(f, rules[1..], vals[1..], out + [(rules[0].0, vals[0].1)])
  {
    var out' := out + [(rules[0].0, vals[0].1)];
    assert Keys(out') == Keys(out) + [rules[0].0];
    UniqueTail(rules);
    forall i | 0 <= i < |rules[1..]|
      ensures rules[1..][i].0 == vals[1..][i].0 && f(rules[1..][i].1) == Some(Ok(vals[1..][i].1))
      ensures rules[1..][i].0 !in Keys(out')
    {
      assert rules[1..][i] == rules[i + 1] && vals[1..][i] == vals[i + 1];
    }
  }

  lemma FreshFour(f: JSON -> Option<Result<JSON>>, k1: string, r1: JSON, v1: JSON, k2: string, r2: JSON, v2: JSON,
                  k3: string, r3: JSON, v3: JSON, k4: string, r4: JSON, v4: JSON)
    requires k1 != k2 && k1 != k3 && k1 != k4 && k2 != k3 && k2 != k4 && k3 != k4
    requires f(r1) == Some(Ok(v1)) && f(r2) == Some(Ok(v2)) && f(r3) == Some(Ok(v3)) && f(r4) == Some(Ok(v4))
    ensures FreshRules(f, [(k1, r1), (k2, r2), (k3, r3), (k4, r4)], [(k1, v1), (k2, v2), (k3, v3), (k4, v4)], [])
  {
  }

  /** Four rules that each give a value are stored under their keys, in order. */
  lemma Assemble4(f: JSON -> Option<Result<JSON>>, k1: string, r1: JSON, v1: JSON, k2: string, r2: JSON, v2: JSON,
                  k3: string, r3: JSON, v3: JSON, k4: string, r4: JSON, v4: JSON)
    requires k1 != k2 && k1 != k3 && k1 != k4 && k2 != k3 && k2 != k4 && k3 != k4
    requires f(r1) == Some(Ok(v1)) && f(r2) == Some(Ok(v2)) && f(r3) == Some(Ok(v3)) && f(r4) == Some(Ok(v4))
    ensures Assemble([(k1, r1), (k2, r2), (k3, r3), (k4, r4)], f, []) == Ok(JObj([(k1, v1), (k2, v2), (k3, v3), (k4, v4)]))
  {
    FreshFour(f, k1, r1, v1, k2, r2, v2, k3, r3, v3, k4, r4, v4);
    AssembleFresh(f, [(k1, r1), (k2, r2), (k3, r3), (k4, r4)], [(k1, v1), (k2, v2), (k3, v3), (k4, v4)], []);
    EmptyAppend([(k1, v1), (k2, v2), (k3, v3), (k4, v4)]);
  }

  lemma EmptyAppend(es: Entries)
    ensures [] + es == es
  {
  }

  lemma FreshTwo(f: JSON -> Option<Result<JSON>>, k1: string, r1: JSON, v1: JSON, k2: string, r2: JSON, v2: JSON)
    requires k1 != k2
    requires f(r1) == Some(Ok(v1)) && f(r2) == Some(Ok(v2))
    ensures FreshRules(f, [(k1, r1), (k2, r2)], [(k1, v1), (k2, v2)], [])
  {
  }

  lemma Assemble2(f: JSON -> Option<Result<JSON>>, k1: string, r1: JSON, v1: JSON, k2: string, r2: JSON, v2: JSON)
    requires k1 != k2
    requires f(r1) == Some(Ok(v1)) && f(r2) == Some(Ok(v2))
    ensures Assemble([(k1, r1), (k2, r2)], f, []) == Ok(JObj([(k1, v1), (k2, v2)]))
  {
    FreshTwo(f, k1, r1, v1, k2, r2, v2);
    AssembleFresh(f, [(k1, r1), (k2, r2)], [(k1, v1), (k2, v2)], []);
    EmptyAppend([(k1, v1), (k2, v2)]);
  }

  // ---------------------------------------------------------------------------------
  // The paths of the sample mapping.

  lemma DocumentLookups(location: JSON)
    ensures var d := Document(location).entries[0].1;
      Lookup(Document(location).entries, "data") == Some(d) && d.JObj? &&
      Lookup(d.entries, "user_info") == Some(UserInfo) &&
      Lookup(d.entries, "location") == Some(location) &&
      Lookup(d.entries, "orders") == Some(JList([Order1, Order2]))
  {
    Lookup3("user_info", UserInfo, "location", location, "orders", JList([Order1, Order2]));
  }

  lemma UserPaths(location: JSON)
    ensures Resolve(Document(location), ["data", "user_info", "user_id"]) == Some(JInt(123))
    ensures Resolve(Document(location), ["data", "user_info", "user_name"]) == Some(JStr("John Doe"))
    ensures Resolve(Document(location), ["data", "orders"]) == Some(JList([Order1, Order2]))
  {
    var doc := Document(location);
    var d := doc.entries[0].1;
    DocumentLookups(location);
    Lookup2("user_id", JInt(123), "user_name", JStr("John Doe"));
    Resolve3(doc, "data", "user_info", "user_id", d, UserInfo, JInt(123));
    Resolve3(doc, "data", "user_info", "user_name", d, UserInfo, JStr("John Doe"));
    Resolve2(doc, "data", "orders", d, JList([Order1, Order2]));
  }

  lemma CityPath()
    ensures Resolve(Original, ["data", "location", "city"]) == Some(JStr("New York"))
  {
    DocumentLookups(Location);
    Lookup2("city", JStr("New York"), "zip", JStr("10001"));
    Resolve3(Original, "data", "location", "city", Original.entries[0].1, Location, JStr("New York"));
  }

  // ---------------------------------------------------------------------------------
  // The rules, one at a time, as langchain_hardwork.py reads them.

  lemma HardUserRules(location: JSON)
    ensures Hard.ScalarRule(Document(location), UserIdRule.entries) == Ok(JInt(123))
    ensures Hard.ScalarRule(Document(location), UserNameRule.entries) == Ok(JStr("John Doe"))
  {
    UserPaths(location);
    assert Hard.ScalarRule(Document(location), UserIdRule.entries) == Ok(JInt(123)) by {
      Hard.ResolvedScalar(Document(location), UserIdRule.entries, ["data", "user_info", "user_id"]);
    }
    assert Hard.ScalarRule(Document(location), UserNameRule.entries) == Ok(JStr("John Doe")) by {
      Hard.ResolvedScalar(Document(location), UserNameRule.entries, ["data", "user_info", "user_name"]);
    }
  }

  lemma HardCityRule()
    ensures Hard.ScalarRule(Original, UserCityRule.entries) == Ok(JStr("New York"))
  {
    CityPath();
    Hard.ResolvedScalar(Original, UserCityRule.entries, ["data", "location", "city"]);
  }

  /** The record of a three-field item under a rule that renames its three fields. */
  lemma RenameThree(p: JSON, a: string, b: string, c: string, sa: string, sb: string, sc: string, x: JSON, y: JSON, z: JSON)
    requires a != "path" && b != "path" && c != "path"
    requires sa != sb && sa != sc && sb != sc
    ensures var item := JObj([(sa, x), (sb, y), (sc, z)]);
      var fields := [("path", p), (a, JStr(sa)), (b, JStr(sb)), (c, JStr(sc))];
      ExpectedRecord(item, fields) == [(a, x), (b, y), (c, z)] && RecordSucceeds(item, fields)
  {
    var item := JObj([(sa, x), (sb, y), (sc, z)]);
    assert FieldValue(item, JStr(sa)) == x && FieldValue(item, JStr(sb)) == y && FieldValue(item, JStr(sc)) == z by {
      Lookup3(sa, x, sb, y, sc, z);
    }
    Record3(item, p, a, JStr(sa), b, JStr(sb), c, JStr(sc));
  }

  /** The record an order yields. */
  lemma OrderGivesRecord(id: int, product: string, price: int)
    ensures JObj(ExpectedRecord(Order(id, product, price), OrderFields)) == OrderRecord(id, product, price)
    ensures RecordSucceeds(Order(id, product, price), OrderFields)
  {
    RenameThree(OrderFields[0].1, "order_id", "product_name", "product_price", "order_id", "product", "price",
      JInt(id), JStr(product), JInt(price));
  }

  lemma OrdersPathSteps()
    ensures UniqueKeys(OrderFields)
    ensures Iterate(PathOf(OrderFields)) == Ok(Strs(["data", "orders"]))
  {
  }

  lemma OrdersListed(location: JSON)
    ensures Hard.ListWalk(Document(location), Strs(["data", "orders"])) == Ok(JList([Order1, Order2]))
  {
    UserPaths(location);
    Hard.ListWalkResolved(Document(location), ["data", "orders"]);
  }

  lemma OrdersRecorded()
    ensures JObj(ExpectedRecord(Order1, OrderFields)) == Record1 && RecordSucceeds(Order1, OrderFields)
    ensures JObj(ExpectedRecord(Order2, OrderFields)) == Record2 && RecordSucceeds(Order2, OrderFields)
  {
    OrderGivesRecord(1, "Laptop", 1200);
    OrderGivesRecord(2, "Phone", 800);
  }

  /** A list rule over a list of two items keeps one record per item. */
  lemma TwoRecords(data: JSON, fields: Entries, steps: seq<JSON>, x1: JSON, x2: JSON, rec1: JSON, rec2: JSON)
    requires UniqueKeys(fields) && Iterate(PathOf(fields)) == Ok(steps)
    requires Hard.ListWalk(data, steps) == Ok(JList([x1, x2]))
    requires JObj(ExpectedRecord(x1, fields)) == rec1 && RecordSucceeds(x1, fields)
    requires JObj(ExpectedRecord(x2, fields)) == rec2 && RecordSucceeds(x2, fields)
    ensures Hard.ListRule(data, [JObj(fields)]) == Ok(JList([rec1, rec2]))
  {
    Hard.ListRuleRecords(data, [JObj(fields)], steps, [x1, x2]);
    var r := Hard.ListRule(data, [JObj(fields)]).value;
    assert r.items == [r.items[0], r.items[1]];
  }

  lemma HardOrdersRule(location: JSON)
    ensures Hard.ListRule(Document(location), [JObj(OrderFields)]) == Ok(JList([Record1, Record2]))
  {
    OrdersListed(location);
    OrdersPathSteps();
    OrdersRecorded();
    TwoRecords(Document(location), OrderFields, Strs(["data", "orders"]), Order1, Order2, Record1, Record2);
  }

  // ---------------------------------------------------------------------------------
  // The whole mapping.

  /** langchain_hardwork.py's `extract_data` on the sample gives the sample output
      (structured_parser_langchain.py:101-116). */
  lemma HardExtractsSample()
    ensures Hard.Extract(Original, JObj(SampleMapping)) == Ok(SampleOutput)
  {
    HardUserRules(Location);
    HardCityRule();
    HardOrdersRule(Location);
    Assemble4(Hard.OutputOf(Original),
      "user_id", UserIdRule, JInt(123), "user_name", UserNameRule, JStr("John Doe"),
      "user_city", UserCityRule, JStr("New York"), "orders", OrdersRule, JList([Record1, Record2]));
  }

  /** A path rule whose path resolves to a value other than a list. */
  lemma PathRuleAgrees(data: JSON, ks: seq<string>, w: JSON)
    requires Resolve(data, ks) == Some(w) && !w.JList?
    ensures Compare.AgreeingRule(data, PathRule(ks))
  {
    Compare.NamesOfStrs(ks);
  }

  lemma OrdersRuleAgrees(location: JSON)
    ensures Compare.AgreeingRule(Document(location), OrdersRule)
  {
    UserPaths(location);
    Compare.NamesOfStrs(["data", "orders"]);
  }

  lemma UserRulesAgree(location: JSON)
    ensures Compare.AgreeingRule(Document(location), UserIdRule)
    ensures Compare.AgreeingRule(Document(location), UserNameRule)
  {
    UserPaths(location);
    PathRuleAgrees(Document(location), ["data", "user_info", "user_id"], JInt(123));
    PathRuleAgrees(Document(location), ["data", "user_info", "user_name"], JStr("John Doe"));
  }

  lemma CityRuleAgrees()
    ensures Compare.AgreeingRule(Original, UserCityRule)
  {
    CityPath();
    PathRuleAgrees(Original, ["data", "location", "city"], JStr("New York"));
  }

  /** Every rule of the sample mapping reaches its value through present keys, and no
      scalar rule ends on a list. */
  lemma SampleRulesAgree()
    ensures forall e :: e in SampleMapping ==> Compare.AgreeingRule(Original, e.1)
  {
    UserRulesAgree(Location);
    CityRuleAgrees();
    OrdersRuleAgrees(Location);
    forall e | e in SampleMapping ensures Compare.AgreeingRule(Original, e.1) {
      assert e.1 in [UserIdRule, UserNameRule, UserCityRule, OrdersRule];
    }
  }

  /** app.py's broadcasting `extract_data` gives the same sample output. */
  lemma AppExtractsSample()
    ensures App.Extract(Original, JObj(SampleMapping)) == Ok(SampleOutput)
  {
    SampleRulesAgree();
    Compare.VariantsAgree(Original, JObj(SampleMapping));
    HardExtractsSample();
  }

  // ---------------------------------------------------------------------------------
  // A variant made for the model, not taken from the source: the sample document with
  // its location cut to a city, and a mapping of one scalar and one list rule.

  const ShortLocation := JObj([("city", JStr("New York"))])
  const ShortMapping: Entries := [("user_id", UserIdRule), ("orders", OrdersRule)]
  const ShortOutput := JObj([("user_id", JInt(123)), ("orders", JList([Record1, Record2]))])

  lemma HardExtractsShort()
    ensures Hard.Extract(Document(ShortLocation), JObj(ShortMapping)) == Ok(ShortOutput)
  {
    HardUserRules(ShortLocation);
    HardOrdersRule(ShortLocation);
    Assemble2(Hard.OutputOf(Document(ShortLocation)),
      "user_id", UserIdRule, JInt(123), "orders", OrdersRule, JList([Record1, Record2]));
  }

  lemma AppExtractsShort()
    ensures App.Extract(Document(ShortLocation), JObj(ShortMapping)) == Ok(ShortOutput)
  {
    var doc := Document(ShortLocation);
    UserRulesAgree(ShortLocation);
    OrdersRuleAgrees(ShortLocation);
    Compare.VariantsAgree(doc, JObj(ShortMapping));
    HardExtractsShort();
  }
}
