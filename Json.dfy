/**
 * The values that Python's `json.loads` produces, and the few dict and
 * built-in operations the question pipeline applies to them.
 */
module Json {
  import opened Wrappers

  datatype JsonValue =
    | JNull
    | JBool(b: bool)
    | JInt(i: int)
    | JStr(s: string)
    | JArr(items: seq<JsonValue>)
    | JObj(obj: Obj)

  /**
   * A Python dict: the value stored under each key, and the keys in the order
   * they were first inserted, which is the order Python iterates them in.
   */
  datatype Obj = Obj(keys: seq<string>, vals: map<string, JsonValue>)

  /** Each key is listed once, and exactly the keys that hold a value are listed. */
  predicate Valid(o: Obj) {
    && (forall i, j :: 0 <= i < j < |o.keys| ==> o.keys[i] != o.keys[j])
    && (forall k :: k in o.vals ==> k in o.keys)
    && (forall i :: 0 <= i < |o.keys| ==> o.keys[i] in o.vals)
  }

  const Empty: Obj := Obj([], map[])

  /** `json.loads` itself is not modelled: a parser is a parameter that yields a value or an error message. */
  type Parser = string -> Result<JsonValue, string>

  /** `d.get(k)`: the value stored under `k`, if any. */
  function Get(o: Obj, k: string): Option<JsonValue> {
    if k in o.vals then Some(o.vals[k]) else None
  }

  /** `k in d` */
  predicate Has(o: Obj, k: string) {
    k in o.vals
  }

  /** `d[k] = v`: an existing key keeps its place in the order, a new key goes last. */
  function Set(o: Obj, k: string, v: JsonValue): (r: Obj)
    ensures Get(r, k) == Some(v)
    ensures forall k' :: k' != k ==> Get(r, k') == Get(o, k')
    ensures r.keys == if Has(o, k) then o.keys else o.keys + [k]
  {
    Obj(if k in o.vals then o.keys else o.keys + [k], o.vals[k := v])
  }

  /** Assignment keeps a dict well formed. */
  lemma SetValid(o: Obj, k: string, v: JsonValue)
    requires Valid(o)
    ensures Valid(Set(o, k, v))
  {
    var r := Set(o, k, v);
    if !Has(o, k) {
      forall i, j | 0 <= i < j < |r.keys|
        ensures r.keys[i] != r.keys[j]
      {
        if j == |o.keys| {
          assert r.keys[i] == o.keys[i];
        }
      }
    }
  }

  /** `d.setdefault(k, v)`: stores `v` only when `k` is absent. */
  function SetDefault(o: Obj, k: string, v: JsonValue): (r: Obj)
    ensures Get(r, k) == (if Has(o, k) then Get(o, k) else Some(v))
    ensures forall k' :: k' != k ==> Get(r, k') == Get(o, k')
    ensures r.keys == if Has(o, k) then o.keys else o.keys + [k]
  {
    if Has(o, k) then o else Set(o, k, v)
  }

  /** Python's `bool(v)`: null, false, 0 and empty strings, lists and dicts are false. */
  predicate Truthy(v: JsonValue) {
    match v
    case JNull => false
    case JBool(b) => b
    case JInt(i) => i != 0
    case JStr(s) => s != []
    case JArr(xs) => xs != []
    case JObj(o) => o.vals != map[]
  }

  /** `isinstance(v, int)`, which is also true of Python's booleans. */
  predicate IsPyInt(v: JsonValue) {
    v.JInt? || v.JBool?
  }

  /** The integer a Python int or bool stands for. */
  function PyIntValue(v: JsonValue): int
    requires IsPyInt(v)
  {
    if v.JInt? then v.i else if v.b then 1 else 0
  }

  /**
   * The shape of a loop that keeps the elements of a parsed list that `conv`
   * accepts, in order, each made into a record by `fill` from its mapping and
   * its 1-based position (prompts/generator.py:128-137, generator.py:149-151).
   */
  function Collected(items: seq<JsonValue>, conv: JsonValue -> Option<Obj>, fill: (Obj, int) -> Obj): (out: seq<Obj>)
    ensures |out| <= |items|
    decreases |items|
  {
    if items == [] then []
    else
      var rest := Collected(items[..|items| - 1], conv, fill);
      match conv(items[|items| - 1])
      case None => rest
      case Some(m) => rest + [fill(m, |items|)]
  }

  /** The positions, counted from 0, of the items `conv` accepts. */
  function Accepted(items: seq<JsonValue>, conv: JsonValue -> Option<Obj>): (ps: seq<nat>)
    ensures forall k :: 0 <= k < |ps| ==> ps[k] < |items| && conv(items[ps[k]]).Some?
    decreases |items|
  {
    if items == [] then []
    else
      var init := items[..|items| - 1];
      var ps := Accepted(init, conv);
      assert forall k :: 0 <= k < |ps| ==> items[ps[k]] == init[ps[k]];
      ps + (if conv(items[|items| - 1]).Some? then [|items| - 1] else [])
  }

  /** Every accepted item appears in `Accepted`, in increasing order. */
  lemma {:induction false} AcceptedComplete(items: seq<JsonValue>, conv: JsonValue -> Option<Obj>)
    ensures forall j, k :: 0 <= j < k < |Accepted(items, conv)| ==> Accepted(items, conv)[j] < Accepted(items, conv)[k]
    ensures forall p :: 0 <= p < |items| && conv(items[p]).Some? ==> p in Accepted(items, conv)
    decreases |items|
  {
    if items != [] {
      var init := items[..|items| - 1];
      AcceptedComplete(init, conv);
      assert forall p :: 0 <= p < |init| ==> items[p] == init[p];
    }
  }

  /** One record per accepted item. */
  lemma {:induction false} CollectedLength(items: seq<JsonValue>, conv: JsonValue -> Option<Obj>, fill: (Obj, int) -> Obj)
    ensures |Collected(items, conv, fill)| == |Accepted(items, conv)|
    decreases |items|
  {
    if items != [] {
      CollectedLength(items[..|items| - 1], conv, fill);
    }
  }

  /** The k-th record is made from the k-th accepted item and its 1-based position. */
  lemma {:induction false} CollectedAt(items: seq<JsonValue>, conv: JsonValue -> Option<Obj>, fill: (Obj, int) -> Obj, k: nat)
    requires k < |Accepted(items, conv)|
    ensures k < |Collected(items, conv, fill)|
    ensures Collected(items, conv, fill)[k] ==
      fill(conv(items[Accepted(items, conv)[k]]).value, Accepted(items, conv)[k] + 1)
    decreases |items|
  {
    CollectedLength(items, conv, fill);
    var n := |items| - 1;
    var init := items[..n];
    CollectedLength(init, conv, fill);
    var ps := Accepted(init, conv);
    if k < |ps| {
      CollectedAt(init, conv, fill, k);
      assert items[ps[k]] == init[ps[k]];
    }
  }

  lemma CollectedAll(items: seq<JsonValue>, conv: JsonValue -> Option<Obj>, fill: (Obj, int) -> Obj)
    ensures |Collected(items, conv, fill)| == |Accepted(items, conv)|
    ensures forall k :: 0 <= k < |Accepted(items, conv)| ==>
      Collected(items, conv, fill)[k] == fill(conv(items[Accepted(items, conv)[k]]).value, Accepted(items, conv)[k] + 1)
  {
    CollectedLength(items, conv, fill);
    forall k | 0 <= k < |Accepted(items, conv)|
      ensures Collected(items, conv, fill)[k] == fill(conv(items[Accepted(items, conv)[k]]).value, Accepted(items, conv)[k] + 1)
    {
      CollectedAt(items, conv, fill, k);
    }
  }
}
