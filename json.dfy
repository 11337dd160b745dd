/** The value model every other module works on: JSON documents as Python's `json`
    module builds them (dicts keep insertion order), the exceptions the modelled code
    raises, and the few Python builtins the extractors rely on (`dict.get`, dict item
    assignment, `for x in v`). */
module Json {

  /** The Python exceptions that the modelled code raises or lets escape. */
  datatype PyError =
    | AttributeError     // `.get` looked up on something that is not a dict
    | TypeError          // iterating a non-iterable, or hashing a list or dict
    | IndexError         // `value[0]` on an empty list
    | KeyError           // `inputs["name"]` with the name missing
    | ValueError         // a document that is not JSON, or a missing chain variable
    | UnboundLocalError  // a local variable read before it was assigned
    | BackendError       // any failure raised inside a foreign call (model, output parser)

  /** The outcome of Python code that may raise. */
  datatype Result<+T> = Ok(value: T) | Crash(error: PyError) {
    predicate IsFailure() { Crash? }
    function PropagateFailure<U>(): Result<U> requires Crash? { Crash(error) }
    function Extract(): T requires Ok? { value }
  }

  datatype Option<+T> = None | Some(value: T) {
    predicate IsFailure() { None? }
    function PropagateFailure<U>(): Option<U> requires None? { None }
    function Extract(): T requires Some? { value }
  }

  /** A JSON value. Objects are ordered entry lists, as Python dicts are; the values the
      modelled code builds always have distinct keys (see `UniqueKeys`). A number with a
      fraction or an exponent, and Python's `NaN`/`Infinity`, is kept as its text. */
  datatype JSON =
    | JNull
    | JBool(b: bool)
    | JInt(i: int)
    | JFloat(lexeme: string)
    | JStr(s: string)
    | JList(items: seq<JSON>)
    | JObj(entries: seq<(string, JSON)>)

  type Entries = seq<(string, JSON)>

  const EmptyObj: JSON := JObj([])
  const EmptyList: JSON := JList([])

  /** The keys of an entry list, in order. */
  function Keys(es: Entries): (ks: seq<string>)
    ensures |ks| == |es|
    ensures forall i :: 0 <= i < |es| ==> ks[i] == es[i].0
  {
    seq(|es|, i requires 0 <= i < |es| => es[i].0)
  }

  /** No key occurs twice: what a Python dict guarantees. */
  predicate UniqueKeys(es: Entries) {
    forall i, j :: 0 <= i < j < |es| ==> es[i].0 != es[j].0
  }

  lemma KeysCons(e: (string, JSON), es: Entries)
    ensures Keys([e] + es) == [e.0] + Keys(es)
  {
  }

  /** The value stored under `k`, if any: in a dict, the one entry with that key. */
  function Lookup(es: Entries, k: string): (r: Option<JSON>)
    ensures r.Some? <==> k in Keys(es)
    ensures r.Some? ==> (k, r.value) in es
    ensures UniqueKeys(es) ==> forall i :: 0 <= i < |es| && es[i].0 == k ==> r == Some(es[i].1)
  {
    if es == [] then None
    else
      KeysCons(es[0], es[1..]);
      assert [es[0]] + es[1..] == es;
      if es[0].0 == k then Some(es[0].1)
      else Lookup(es[1..], k)
  }

  /** `d[k] = v`: an existing key keeps its position and takes the new value, a new key
      is appended. */
  function Put(es: Entries, k: string, v: JSON): (r: Entries)
    ensures k in Keys(es) ==> Keys(r) == Keys(es)
    ensures k !in Keys(es) ==> r == es + [(k, v)]
    ensures Lookup(r, k) == Some(v)
    ensures forall k2 :: k2 != k ==> Lookup(r, k2) == Lookup(es, k2)
  {
    if es == [] then [(k, v)]
    else
      KeysCons(es[0], es[1..]);
      assert [es[0]] + es[1..] == es;
      if es[0].0 == k then
        KeysCons((k, v), es[1..]);
        [(k, v)] + es[1..]
      else
        var t := Put(es[1..], k, v);
        KeysCons(es[0], t);
        assert [es[0]] + (es[1..] + [(k, v)]) == es + [(k, v)];
        [es[0]] + t
  }

  /** Assigning to a dict keeps its keys distinct. */
  lemma PutUnique(es: Entries, k: string, v: JSON)
    requires UniqueKeys(es)
    ensures UniqueKeys(Put(es, k, v))
  {
    var r := Put(es, k, v);
    if k in Keys(es) {
      var ks := Keys(r);
      assert ks == Keys(es);
      forall i, j | 0 <= i < j < |r| ensures r[i].0 != r[j].0 {
        assert r[i].0 == ks[i] == es[i].0 && r[j].0 == ks[j] == es[j].0;
      }
    } else {
      assert r == es + [(k, v)];
      forall i, j | 0 <= i < j < |r| ensures r[i].0 != r[j].0 {
        if j == |es| {
          assert es[i].0 == Keys(es)[i];
        }
      }
    }
  }

  /** Python can hash every JSON value except a list and a dict. */
  predicate Hashable(key: JSON) {
    !key.JList? && !key.JObj?
  }

  /** The value a dict holds under `key`, or `dflt`. Dict keys are strings, so a key of
      any other hashable kind is never found. */
  function FindOr(es: Entries, key: JSON, dflt: JSON): JSON {
    if key.JStr? then
      match Lookup(es, key.s)
      case Some(v) => v
      case None => dflt
    else dflt
  }

  /** What `obj.get(key, dflt)` returns when it does not raise. */
  function ValueAt(obj: JSON, key: JSON, dflt: JSON): JSON {
    if obj.JObj? then FindOr(obj.entries, key, dflt) else dflt
  }

  /** `obj.get(key, dflt)`: only a dict has `.get`, and the key is hashed even when the
      dict is empty. */
  function Get(obj: JSON, key: JSON, dflt: JSON): (r: Result<JSON>)
    ensures r.Ok? <==> obj.JObj? && Hashable(key)
    ensures !obj.JObj? ==> r == Crash(AttributeError)
    ensures obj.JObj? && !Hashable(key) ==> r == Crash(TypeError)
    ensures r.Ok? ==> r.value == ValueAt(obj, key, dflt)
  {
    if !obj.JObj? then Crash(AttributeError)
    else if !Hashable(key) then Crash(TypeError)
    else Ok(FindOr(obj.entries, key, dflt))
  }

  /** The elements `for x in v` visits: a list's items, a string's characters (each a
      one-character string), a dict's keys; anything else is not iterable. */
  function Iterate(v: JSON): (r: Result<seq<JSON>>)
    ensures r.Ok? <==> v.JList? || v.JStr? || v.JObj?
    ensures r.Crash? ==> r.error == TypeError
    ensures v.JList? ==> r == Ok(v.items)
    ensures v.JStr? ==> r.Ok? && |r.value| == |v.s| && forall i :: 0 <= i < |v.s| ==> r.value[i] == JStr([v.s[i]])
    ensures v.JObj? ==> r.Ok? && |r.value| == |v.entries| && forall i :: 0 <= i < |v.entries| ==> r.value[i] == JStr(v.entries[i].0)
  {
    match v
    case JList(xs) => Ok(xs)
    case JStr(s) => Ok(seq(|s|, i requires 0 <= i < |s| => JStr([s[i]])))
    case JObj(es) => Ok(seq(|es|, i requires 0 <= i < |es| => JStr(es[i].0)))
    case _ => Crash(TypeError)
  }

  /** The steps of a path given as a list of strings. */
  function Strs(ks: seq<string>): (r: seq<JSON>)
    ensures |r| == |ks|
    ensures forall i :: 0 <= i < |ks| ==> r[i] == JStr(ks[i])
  {
    seq(|ks|, i requires 0 <= i < |ks| => JStr(ks[i]))
  }

  /** Every step is a string. */
  predicate AllStrs(steps: seq<JSON>) {
    forall i :: 0 <= i < |steps| ==> steps[i].JStr?
  }

  /** The value reached by following `ks` from `v` through dicts whose keys are all
      present; None as soon as a step starts from a non-dict or finds no key. */
  function Resolve(v: JSON, ks: seq<string>): Option<JSON>
    decreases |ks|
  {
    if ks == [] then Some(v)
    else if !v.JObj? then None
    else
      match Lookup(v.entries, ks[0])
      case None => None
      case Some(next) => Resolve(next, ks[1..])
  }

  /** Following one more key after a prefix of the path. */
  lemma {:induction false} ResolveSnoc(v: JSON, ks: seq<string>, k: string)
    ensures Resolve(v, ks + [k]) ==
      match Resolve(v, ks)
      case None => None
      case Some(w) => if w.JObj? then Lookup(w.entries, k) else None
    decreases |ks|
  {
    if ks == [] {
      assert ks + [k] == [k];
    } else if v.JObj? && Lookup(v.entries, ks[0]).Some? {
      assert (ks + [k])[1..] == ks[1..] + [k];
      ResolveSnoc(Lookup(v.entries, ks[0]).value, ks[1..], k);
    }
  }
}
