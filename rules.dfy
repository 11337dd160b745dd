/** What the two `extract_data` variants share: how a rule dict is read, and how a
    list-of-records rule turns each item of the resolved list into a record
    (app.py:113-120, langchain_hardwork.py:81-88, structured_parser_langchain.py:88-95,
    the same code three times). */
module Rules {
  import opened Json

  /** `value.get("path", [])` of a rule dict. */
  function PathOf(rule: Entries): JSON {
    FindOr(rule, JStr("path"), EmptyList)
  }

  /** `value.get("default", None)` of a scalar rule dict. */
  function DefaultOf(rule: Entries): JSON {
    FindOr(rule, JStr("default"), JNull)
  }

  /** The renaming pairs of a list rule: its entries other than "path", in order. Each
      pairs an output key with the source key it is read from. */
  function Renames(fields: Entries): (r: Entries)
    ensures forall p :: p in r ==> p in fields && p.0 != "path"
    ensures |r| <= |fields|
  {
    if fields == [] then []
    else if fields[0].0 == "path" then Renames(fields[1..])
    else [fields[0]] + Renames(fields[1..])
  }

  /** `item.get(source, None)`, for an item and source key on which it does not raise. */
  function FieldValue(item: JSON, source: JSON): JSON {
    ValueAt(item, source, JNull)
  }

  /** Reference: the record an item yields is one entry per renaming pair, in the
      rule's order, holding the item's value under the source key, or null. */
  function ExpectedRecord(item: JSON, fields: Entries): (r: Entries)
    ensures Keys(r) == Keys(Renames(fields))
  {
    RecordOf(item, Renames(fields))
  }

  /** One entry per renaming pair, in order. */
  function RecordOf(item: JSON, renames: Entries): (r: Entries)
    ensures Keys(r) == Keys(renames)
  {
    seq(|renames|, i requires 0 <= i < |renames| => (renames[i].0, FieldValue(item, renames[i].1)))
  }

  lemma RecordOfCons(item: JSON, p: (string, JSON), rest: Entries)
    ensures RecordOf(item, [p] + rest) == [(p.0, FieldValue(item, p.1))] + RecordOf(item, rest)
  {
    var l := RecordOf(item, [p] + rest);
    var r := [(p.0, FieldValue(item, p.1))] + RecordOf(item, rest);
    assert |l| == |r|;
    forall i | 0 <= i < |l| ensures l[i] == r[i] {
      if i > 0 {
        assert ([p] + rest)[i] == rest[i - 1];
      }
    }
  }

  /** Building an item's record does not raise: every renaming pair calls `.get` on the
      item (so it must be a dict) with the source key (so that must be hashable). A rule
      with no renaming pair never calls `.get`. */
  predicate RecordSucceeds(item: JSON, fields: Entries) {
    forall p :: p in Renames(fields) ==> item.JObj? && Hashable(p.1)
  }

  /** The loop of app.py:116-119 from `fields[0]` on, with the record built so far. */
  function RecordFrom(item: JSON, fields: Entries, acc: Entries): Result<Entries>
    decreases |fields|
  {
    if fields == [] then Ok(acc)
    else if fields[0].0 == "path" then RecordFrom(item, fields[1..], acc)
    else
      var v :- Get(item, fields[0].1, JNull);
      RecordFrom(item, fields[1..], Put(acc, fields[0].0, v))
  }

  /** The loop of app.py:114-120 from `items[0]` on, with the records built so far. */
  function RecordsFrom(items: seq<JSON>, fields: Entries, acc: seq<JSON>): Result<seq<JSON>>
    decreases |items|
  {
    if items == [] then Ok(acc)
    else
      var rec :- RecordFrom(items[0], fields, []);
      RecordsFrom(items[1..], fields, acc + [JObj(rec)])
  }

  /** The records a list rule builds from the items of the resolved value. */
  function Records(items: seq<JSON>, fields: Entries): Result<seq<JSON>> {
    RecordsFrom(items, fields, [])
  }

  /** One record (app.py:115-119): skip "path", read every other source key. */
  method BuildRecord(item: JSON, fields: Entries) returns (r: Result<Entries>)
    ensures r == RecordFrom(item, fields, [])
  {
    var extracted: Entries := [];
    var i := 0;
    while i < |fields|
      invariant 0 <= i <= |fields|
      invariant RecordFrom(item, fields[i..], extracted) == RecordFrom(item, fields, [])
    {
      var (subKey, subValue) := fields[i];
      if subKey != "path" {
        var v := Get(item, subValue, JNull);
        if v.Crash? {
          return Crash(v.error);
        }
        extracted := Put(extracted, subKey, v.value);
      }
      i := i + 1;
    }
    return Ok(extracted);
  }

  /** All records (app.py:113-120), appended to the output list in item order. */
  method BuildRecords(items: seq<JSON>, fields: Entries) returns (r: Result<seq<JSON>>)
    ensures r == Records(items, fields)
  {
    var out: seq<JSON> := [];
    var i := 0;
    while i < |items|
      invariant 0 <= i <= |items|
      invariant RecordsFrom(items[i..], fields, out) == Records(items, fields)
    {
      var extracted := BuildRecord(items[i], fields);
      if extracted.Crash? {
        return Crash(extracted.error);
      }
      out := out + [JObj(extracted.value)];
      i := i + 1;
    }
    return Ok(out);
  }

  lemma RenamesUnique(fields: Entries)
    requires UniqueKeys(fields)
    ensures fields != [] ==> forall p :: p in Renames(fields[1..]) ==> p.0 != fields[0].0
  {
    if fields != [] {
      forall p | p in Renames(fields[1..]) ensures p.0 != fields[0].0 {
        var j :| 0 <= j < |fields[1..]| && fields[1..][j] == p;
        assert fields[j + 1] == p;
      }
    }
  }

  lemma ExpectedRecordCons(item: JSON, fields: Entries)
    requires fields != []
    ensures ExpectedRecord(item, fields) ==
      if fields[0].0 == "path" then ExpectedRecord(item, fields[1..])
      else [(fields[0].0, FieldValue(item, fields[0].1))] + ExpectedRecord(item, fields[1..])
  {
    if fields[0].0 != "path" {
      assert Renames(fields) == [fields[0]] + Renames(fields[1..]);
      RecordOfCons(item, fields[0], Renames(fields[1..]));
    }
  }

  lemma RecordSucceedsCons(item: JSON, fields: Entries)
    requires fields != []
    ensures RecordSucceeds(item, fields) <==>
      (fields[0].0 != "path" ==> item.JObj? && Hashable(fields[0].1)) &&
      RecordSucceeds(item, fields[1..])
  {
    if fields[0].0 != "path" {
      assert Renames(fields) == [fields[0]] + Renames(fields[1..]);
      assert fields[0] in Renames(fields);
    }
  }

  lemma UniqueTail(fields: Entries)
    requires UniqueKeys(fields) && fields != []
    ensures UniqueKeys(fields[1..])
  {
    var tail := fields[1..];
    forall i, j | 0 <= i < j < |tail| ensures tail[i].0 != tail[j].0 {
      assert tail[i] == fields[i + 1] && tail[j] == fields[j + 1];
    }
  }

  /** Building one record, from any partial record whose keys the remaining pairs do
      not use, succeeds exactly when `RecordSucceeds` says and appends the reference
      record. */
  lemma {:induction false} RecordFromMeetsReference(item: JSON, fields: Entries, acc: Entries)
    requires UniqueKeys(fields)
    requires forall p :: p in Renames(fields) ==> p.0 !in Keys(acc)
    ensures RecordFrom(item, fields, acc).Ok? <==> RecordSucceeds(item, fields)
    ensures RecordFrom(item, fields, acc).Ok? ==>
      RecordFrom(item, fields, acc).value == acc + ExpectedRecord(item, fields)
    decreases |fields|
  {
    if fields != [] {
      var tail := fields[1..];
      UniqueTail(fields);
      RecordSucceedsCons(item, fields);
      if fields[0].0 == "path" {
        ExpectedRecordCons(item, fields);
        RecordFromMeetsReference(item, tail, acc);
      } else {
        var k := fields[0].0;
        var g := Get(item, fields[0].1, JNull);
        if g.Ok? {
          assert Renames(fields) == [fields[0]] + Renames(tail);
          RenamesUnique(fields);
          NextKeysFree(tail, acc, k, g.value);
          RecordFromMeetsReference(item, tail, acc + [(k, g.value)]);
          RecordFromActs(item, fields, acc, g.value);
        }
      }
    }
  }

  /** The loop body for a renaming pair, given the rest of the loop. */
  lemma RecordFromActs(item: JSON, fields: Entries, acc: Entries, v: JSON)
    requires fields != [] && fields[0].0 != "path"
    requires Get(item, fields[0].1, JNull) == Ok(v)
    requires Put(acc, fields[0].0, v) == acc + [(fields[0].0, v)]
    ensures RecordFrom(item, fields, acc) == RecordFrom(item, fields[1..], acc + [(fields[0].0, v)])
    ensures acc + ExpectedRecord(item, fields) == (acc + [(fields[0].0, v)]) + ExpectedRecord(item, fields[1..])
  {
    ExpectedRecordCons(item, fields);
    assert FieldValue(item, fields[0].1) == v;
    AppendAssoc(acc, [(fields[0].0, v)], ExpectedRecord(item, fields[1..]));
  }

  lemma NextKeysFree(tail: Entries, acc: Entries, k: string, v: JSON)
    requires k !in Keys(acc)
    requires forall p :: p in Renames(tail) ==> p.0 !in Keys(acc) && p.0 != k
    ensures Put(acc, k, v) == acc + [(k, v)]
    ensures forall p :: p in Renames(tail) ==> p.0 !in Keys(Put(acc, k, v))
  {
    assert Keys(acc + [(k, v)]) == Keys(acc) + [k];
  }

  /** Reference: one reference record per item, in item order. */
  function ExpectedRecords(items: seq<JSON>, fields: Entries): (r: seq<JSON>)
    ensures |r| == |items|
    ensures forall i :: 0 <= i < |items| ==> r[i] == JObj(ExpectedRecord(items[i], fields))
  {
    seq(|items|, i requires 0 <= i < |items| => JObj(ExpectedRecord(items[i], fields)))
  }

  /** No item's record raises. */
  predicate AllRecordsSucceed(items: seq<JSON>, fields: Entries) {
    forall i :: 0 <= i < |items| ==> RecordSucceeds(items[i], fields)
  }

  lemma RecordsCons(items: seq<JSON>, fields: Entries)
    requires items != []
    ensures ExpectedRecords(items, fields) ==
      [JObj(ExpectedRecord(items[0], fields))] + ExpectedRecords(items[1..], fields)
    ensures AllRecordsSucceed(items, fields) <==>
      RecordSucceeds(items[0], fields) && AllRecordsSucceed(items[1..], fields)
  {
    assert forall i :: 0 < i < |items| ==> items[i] == items[1..][i - 1];
  }

  /** A list rule's records: the builder succeeds exactly when every item's record does,
      and then yields one record per item, in order, each the reference record. */
  lemma {:induction false} RecordsMeetReference(items: seq<JSON>, fields: Entries, acc: seq<JSON>)
    requires UniqueKeys(fields)
    ensures RecordsFrom(items, fields, acc).Ok? <==> AllRecordsSucceed(items, fields)
    ensures RecordsFrom(items, fields, acc).Ok? ==>
      RecordsFrom(items, fields, acc).value == acc + ExpectedRecords(items, fields)
    decreases |items|
  {
    if items != [] {
      RecordsCons(items, fields);
      RecordFromMeetsReference(items[0], fields, []);
      var rec := RecordFrom(items[0], fields, []);
      if rec.Ok? {
        assert rec.value == ExpectedRecord(items[0], fields);
        RecordsMeetReference(items[1..], fields, acc + [JObj(rec.value)]);
      }
    }
  }

  /** The records of a list rule, as the source promises them: one per item, in item
      order, keyed by the rule's non-"path" keys in declaration order. */
  lemma RecordsShape(items: seq<JSON>, fields: Entries)
    requires UniqueKeys(fields)
    ensures Records(items, fields).Ok? <==>
      forall i :: 0 <= i < |items| ==> RecordSucceeds(items[i], fields)
    ensures Records(items, fields).Ok? ==>
      |Records(items, fields).value| == |items| &&
      forall i :: 0 <= i < |items| ==>
        Records(items, fields).value[i] == JObj(ExpectedRecord(items[i], fields)) &&
        Keys(ExpectedRecord(items[i], fields)) == Keys(Renames(fields))
  {
    RecordsMeetReference(items, fields, []);
    assert [] + ExpectedRecords(items, fields) == ExpectedRecords(items, fields);
  }

  /** The loop over `mapping.items()` (app.py:67-120, langchain_hardwork.py:55-88) from
      `entries[0]` on, with the output dict built so far. `outputOf(rule)` is None for a
      rule value that is neither a dict nor a list: the source has no `else` branch and
      skips it. Otherwise it is what the rule assigns to `output[key]`, or a crash. */
  function Assemble(entries: Entries, outputOf: JSON -> Option<Result<JSON>>, out: Entries): Result<JSON>
    decreases |entries|
  {
    if entries == [] then Ok(JObj(out))
    else
      match outputOf(entries[0].1)
      case None => Assemble(entries[1..], outputOf, out)
      case Some(res) =>
        var v :- res;
        Assemble(entries[1..], outputOf, Put(out, entries[0].0, v))
  }

  /** The mapping entries the extractor acts on, in mapping order. */
  function ActedOn(entries: Entries, outputOf: JSON -> Option<Result<JSON>>): (r: Entries)
    ensures forall e :: e in r ==> e in entries && outputOf(e.1).Some?
    decreases |entries|
  {
    if entries == [] then []
    else if outputOf(entries[0].1).None? then ActedOn(entries[1..], outputOf)
    else [entries[0]] + ActedOn(entries[1..], outputOf)
  }

  /** Every rule the extractor acts on succeeds. */
  predicate AllRulesSucceed(entries: Entries, outputOf: JSON -> Option<Result<JSON>>) {
    forall i :: 0 <= i < |entries| && outputOf(entries[i].1).Some? ==> outputOf(entries[i].1).value.Ok?
  }

  /** Reference: the output dict holds, for each entry acted on and in mapping order,
      the rule's result. It is the extractor's output when every rule acted on
      succeeds (`AssembleShape`); an entry whose rule raises is passed over. */
  function ExpectedOutput(entries: Entries, outputOf: JSON -> Option<Result<JSON>>): Entries
    decreases |entries|
  {
    if entries == [] then []
    else
      var t := ExpectedOutput(entries[1..], outputOf);
      match outputOf(entries[0].1)
      case Some(Ok(v)) => [(entries[0].0, v)] + t
      case _ => t
  }

  /** The reference output holds one entry per entry acted on, under the same key. */
  lemma {:induction false} ExpectedOutputKeys(entries: Entries, outputOf: JSON -> Option<Result<JSON>>)
    requires AllRulesSucceed(entries, outputOf)
    ensures Keys(ExpectedOutput(entries, outputOf)) == Keys(ActedOn(entries, outputOf))
    decreases |entries|
  {
    if entries != [] {
      AllRulesSucceedCons(entries, outputOf);
      ExpectedOutputKeys(entries[1..], outputOf);
      var t := ExpectedOutput(entries[1..], outputOf);
      var a := ActedOn(entries[1..], outputOf);
      match outputOf(entries[0].1)
      case None =>
      case Some(res) =>
        assert Keys([(entries[0].0, res.value)] + t) == [entries[0].0] + Keys(t);
        assert Keys([entries[0]] + a) == [entries[0].0] + Keys(a);
    }
  }

  lemma AllRulesSucceedCons(entries: Entries, outputOf: JSON -> Option<Result<JSON>>)
    requires entries != []
    ensures AllRulesSucceed(entries, outputOf) <==>
      (outputOf(entries[0].1).Some? ==> outputOf(entries[0].1).value.Ok?) &&
      AllRulesSucceed(entries[1..], outputOf)
  {
    assert forall i :: 0 <= i < |entries[1..]| ==> entries[1..][i] == entries[i + 1];
  }

  lemma {:induction false} AssembleSucceeds(entries: Entries, outputOf: JSON -> Option<Result<JSON>>, out: Entries)
    ensures Assemble(entries, outputOf, out).Ok? <==> AllRulesSucceed(entries, outputOf)
    decreases |entries|
  {
    if entries != [] {
      AllRulesSucceedCons(entries, outputOf);
      match outputOf(entries[0].1)
      case None =>
        AssembleSucceeds(entries[1..], outputOf, out);
      case Some(res) =>
        if res.Ok? {
          AssembleSucceeds(entries[1..], outputOf, Put(out, entries[0].0, res.value));
        }
    }
  }

  lemma {:induction false} AssembleMeetsReference(entries: Entries, outputOf: JSON -> Option<Result<JSON>>, out: Entries)
    requires UniqueKeys(entries)
    requires forall e :: e in entries ==> e.0 !in Keys(out)
    requires AllRulesSucceed(entries, outputOf)
    ensures Assemble(entries, outputOf, out) == Ok(JObj(out + ExpectedOutput(entries, outputOf)))
    decreases |entries|
  {
    if entries != [] {
      var tail := entries[1..];
      var o := outputOf(entries[0].1);
      UniqueTail(entries);
      AllRulesSucceedCons(entries, outputOf);
      if o.None? {
        EntryKeysFree(entries, out, JNull);
        assert Assemble(entries, outputOf, out) == Assemble(tail, outputOf, out);
        assert ExpectedOutput(entries, outputOf) == ExpectedOutput(tail, outputOf);
        AssembleMeetsReference(tail, outputOf, out);
      } else {
        var v := o.value.value;
        EntryKeysFree(entries, out, v);
        AssembleMeetsReference(tail, outputOf, out + [(entries[0].0, v)]);
        AssembleActs(entries, outputOf, out, v);
      }
    } else {
      assert out + [] == out;
    }
  }

  /** The loop body for an entry the extractor acts on, given the rest of the loop. */
  lemma AssembleActs(entries: Entries, outputOf: JSON -> Option<Result<JSON>>, out: Entries, v: JSON)
    requires entries != [] && outputOf(entries[0].1) == Some(Ok(v))
    requires Put(out, entries[0].0, v) == out + [(entries[0].0, v)]
    requires Assemble(entries[1..], outputOf, out + [(entries[0].0, v)]) ==
      Ok(JObj((out + [(entries[0].0, v)]) + ExpectedOutput(entries[1..], outputOf)))
    ensures Assemble(entries, outputOf, out) == Ok(JObj(out + ExpectedOutput(entries, outputOf)))
  {
    AssembleActUnfold(entries, outputOf, out, v);
    ExpectedOutputActs(entries, outputOf, v);
    AppendAssoc(out, [(entries[0].0, v)], ExpectedOutput(entries[1..], outputOf));
  }

  lemma AppendAssoc(a: Entries, b: Entries, c: Entries)
    ensures (a + b) + c == a + (b + c)
  {
  }

  lemma AssembleActUnfold(entries: Entries, outputOf: JSON -> Option<Result<JSON>>, out: Entries, v: JSON)
    requires entries != [] && outputOf(entries[0].1) == Some(Ok(v))
    requires Put(out, entries[0].0, v) == out + [(entries[0].0, v)]
    ensures Assemble(entries, outputOf, out) == Assemble(entries[1..], outputOf, out + [(entries[0].0, v)])
  {
  }

  lemma ExpectedOutputActs(entries: Entries, outputOf: JSON -> Option<Result<JSON>>, v: JSON)
    requires entries != [] && outputOf(entries[0].1) == Some(Ok(v))
    ensures ExpectedOutput(entries, outputOf) == [(entries[0].0, v)] + ExpectedOutput(entries[1..], outputOf)
  {
  }

  /** Once the first entry's output is added to `out`, the remaining keys are still free. */
  lemma EntryKeysFree(entries: Entries, out: Entries, v: JSON)
    requires entries != [] && UniqueKeys(entries)
    requires forall e :: e in entries ==> e.0 !in Keys(out)
    ensures Put(out, entries[0].0, v) == out + [(entries[0].0, v)]
    ensures forall e :: e in entries[1..] ==> e.0 !in Keys(out)
    ensures forall e :: e in entries[1..] ==> e.0 !in Keys(out + [(entries[0].0, v)])
  {
    var k := entries[0].0;
    assert entries[0] in entries;
    forall e | e in entries[1..] ensures e.0 != k && e.0 !in Keys(out) {
      var j :| 0 <= j < |entries[1..]| && entries[1..][j] == e;
      assert entries[j + 1] == e;
    }
    assert Keys(out + [(k, v)]) == Keys(out) + [k];
  }

  /** What the extractor's output dict is, for a mapping with distinct keys: it succeeds
      exactly when every rule it acts on succeeds, and then its keys are exactly the
      mapping keys acted on, in mapping order, each bound to its rule's result. */
  lemma AssembleShape(entries: Entries, outputOf: JSON -> Option<Result<JSON>>)
    requires UniqueKeys(entries)
    ensures Assemble(entries, outputOf, []).Ok? <==> AllRulesSucceed(entries, outputOf)
    ensures Assemble(entries, outputOf, []).Ok? ==>
      Assemble(entries, outputOf, []).value == JObj(ExpectedOutput(entries, outputOf)) &&
      Keys(ExpectedOutput(entries, outputOf)) == Keys(ActedOn(entries, outputOf))
  {
    AssembleSucceeds(entries, outputOf, []);
    if AllRulesSucceed(entries, outputOf) {
      AssembleMeetsReference(entries, outputOf, []);
      ExpectedOutputKeys(entries, outputOf);
      assert [] + ExpectedOutput(entries, outputOf) == ExpectedOutput(entries, outputOf);
    }
  }

  /** The entries acted on are exactly the mapping entries whose rule the extractor
      recognises. */
  lemma {:induction false} ActedOnFilter(entries: Entries, outputOf: JSON -> Option<Result<JSON>>)
    ensures forall e :: e in ActedOn(entries, outputOf) <==> e in entries && outputOf(e.1).Some?
    decreases |entries|
  {
    if entries != [] {
      ActedOnFilter(entries[1..], outputOf);
      assert entries == [entries[0]] + entries[1..];
    }
  }

  /** Two extractors whose rules give the same outcome on every rule of a mapping
      build the same output. */
  lemma {:induction false} AssembleCongruence(entries: Entries, f: JSON -> Option<Result<JSON>>, g: JSON -> Option<Result<JSON>>, out: Entries)
    requires forall e :: e in entries ==> f(e.1) == g(e.1)
    ensures Assemble(entries, f, out) == Assemble(entries, g, out)
    decreases |entries|
  {
    if entries != [] {
      assert entries[0] in entries;
      assert forall e :: e in entries[1..] ==> e in entries;
      match f(entries[0].1)
      case None =>
        AssembleCongruence(entries[1..], f, g, out);
      case Some(res) =>
        if res.Ok? {
          AssembleCongruence(entries[1..], f, g, Put(out, entries[0].0, res.value));
        }
    }
  }
}
