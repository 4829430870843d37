/**
 * The dynamic data that the receipt code hands to its encoder and verifier:
 * JSON-like trees of dictionaries, lists and scalars.
 *
 * A Python `dict` keeps its keys in insertion order, so a dictionary is a
 * sequence of entries; a dictionary built by Python never repeats a key
 * (`WellFormed`). `Tree` is the same data with dictionary order forgotten,
 * which is also what a Go `map[string]interface{}` holds.
 */
module Values {
  import opened Wrappers

  datatype Value =
    | Null
    | Bool(b: bool)
    | Int(i: int)
    | Str(s: string)
    | List(items: seq<Value>)
    | Dict(entries: seq<Entry>)

  datatype Entry = Entry(key: string, val: Value)

  /** Order-insensitive view of a `Value`: dictionaries become maps. */
  datatype Tree =
    | TNull
    | TBool(b: bool)
    | TInt(i: int)
    | TStr(s: string)
    | TList(items: seq<Tree>)
    | TMap(m: map<string, Tree>)

  predicate DistinctKeys(es: seq<Entry>) {
    forall i, j :: 0 <= i < j < |es| ==> es[i].key != es[j].key
  }

  /** Every dictionary, at every depth, has pairwise distinct keys. */
  predicate WellFormed(v: Value)
    decreases v
  {
    match v
    case List(items) => forall i :: 0 <= i < |items| ==> WellFormed(items[i])
    case Dict(es) => DistinctKeys(es) && forall i :: 0 <= i < |es| ==> WellFormed(es[i].val)
    case _ => true
  }

  /** Forgets dictionary order. */
  function Abstract(v: Value): Tree
    requires WellFormed(v)
    decreases v
  {
    match v
    case Null => TNull
    case Bool(b) => TBool(b)
    case Int(i) => TInt(i)
    case Str(s) => TStr(s)
    case List(items) => TList(seq(|items|, i requires 0 <= i < |items| => Abstract(items[i])))
    case Dict(es) => TMap(AbstractEntries(es))
  }

  function AbstractEntries(es: seq<Entry>): map<string, Tree>
    requires DistinctKeys(es) && forall i :: 0 <= i < |es| ==> WellFormed(es[i].val)
    decreases es
  {
    map i | 0 <= i < |es| :: es[i].key := Abstract(es[i].val)
  }

  /** `d[k]` / `d.get(k)`: the value stored under `k`, if any. */
  function Get(es: seq<Entry>, k: string): (r: Option<Value>)
    ensures r.Some? ==> Entry(k, r.value) in es
  {
    if es == [] then None
    else if es[0].key == k then Some(es[0].val)
    else Get(es[1..], k)
  }

  /** `k in d`: `Get` finds a value exactly when some entry carries the key. */
  lemma {:induction false} GetFound(es: seq<Entry>, k: string)
    ensures Get(es, k).Some? <==> exists i :: 0 <= i < |es| && es[i].key == k
  {
    if es != [] && es[0].key != k {
      GetFound(es[1..], k);
      if Get(es, k).Some? {
        var i :| 0 <= i < |es[1..]| && es[1..][i].key == k;
        assert es[i + 1].key == k;
      }
    }
  }

  /** In a dictionary without repeated keys, `Get` finds the one entry carrying the key. */
  lemma {:induction false} GetDistinct(es: seq<Entry>, i: int)
    requires DistinctKeys(es) && 0 <= i < |es|
    ensures Get(es, es[i].key) == Some(es[i].val)
  {
    if i > 0 {
      GetDistinct(es[1..], i - 1);
    }
  }

  /** `d[k] = v`: replaces the value of an existing key in place, or appends a new entry. */
  function Put(es: seq<Entry>, k: string, v: Value): (r: seq<Entry>)
    ensures Get(r, k) == Some(v)
    ensures forall k' :: k' != k ==> Get(r, k') == Get(es, k')
  {
    if es == [] then [Entry(k, v)]
    else if es[0].key == k then [Entry(k, v)] + es[1..]
    else [es[0]] + Put(es[1..], k, v)
  }

  /** Writing a key the dictionary does not hold appends it. */
  lemma {:induction false} PutNew(es: seq<Entry>, k: string, v: Value)
    requires Get(es, k).None?
    ensures Put(es, k, v) == es + [Entry(k, v)]
  {
    if es != [] {
      assert es[0].key != k;
      PutNew(es[1..], k, v);
      assert es == [es[0]] + es[1..];
      SnocAssoc(es[0], es[1..], Entry(k, v));
    }
  }

  lemma SnocAssoc(a: Entry, t: seq<Entry>, b: Entry)
    ensures [a] + (t + [b]) == ([a] + t) + [b]
  {
  }

  /** Looking up a key in two dictionaries laid end to end: the first one wins. */
  lemma {:induction false} GetAppend(a: seq<Entry>, b: seq<Entry>, k: string)
    ensures Get(a + b, k) == if Get(a, k).Some? then Get(a, k) else Get(b, k)
  {
    if a == [] {
      assert a + b == b;
    } else {
      assert (a + b)[0] == a[0] && (a + b)[1..] == a[1..] + b;
      if a[0].key != k {
        GetAppend(a[1..], b, k);
      }
    }
  }

  /** A key that no entry carries is not found. */
  lemma GetAbsent(es: seq<Entry>, k: string)
    requires forall i :: 0 <= i < |es| ==> es[i].key != k
    ensures Get(es, k).None?
  {
    GetFound(es, k);
  }

  /** Writing a key keeps a dictionary's keys distinct. */
  lemma {:induction false} PutDistinct(es: seq<Entry>, k: string, v: Value)
    requires DistinctKeys(es)
    ensures DistinctKeys(Put(es, k, v))
  {
    if es != [] {
      var head, rest := es[0], es[1..];
      assert forall i :: 0 <= i < |rest| ==> rest[i].key != head.key by {
        forall i | 0 <= i < |rest| ensures rest[i].key != head.key { assert rest[i] == es[i + 1]; }
      }
      if head.key == k {
        DistinctCons(Entry(k, v), rest);
      } else {
        PutDistinct(rest, k, v);
        GetFound(rest, head.key);
        GetFound(Put(rest, k, v), head.key);
        DistinctCons(head, Put(rest, k, v));
      }
    }
  }

  /** An entry in front of a dictionary without its key keeps the keys distinct. */
  lemma DistinctCons(e: Entry, es: seq<Entry>)
    requires DistinctKeys(es) && forall i :: 0 <= i < |es| ==> es[i].key != e.key
    ensures DistinctKeys([e] + es)
  {
    var r := [e] + es;
    forall i, j | 0 <= i < j < |r| ensures r[i].key != r[j].key {
      assert r[j] == es[j - 1];
      if i > 0 { assert r[i] == es[i - 1]; }
    }
  }

  /** `d.keys()`. */
  function Keys(es: seq<Entry>): set<string> {
    set i | 0 <= i < |es| :: es[i].key
  }

  lemma KeysCons(es: seq<Entry>)
    requires es != []
    ensures Keys(es) == {es[0].key} + Keys(es[1..])
  {
    forall x | x in Keys(es) ensures x in {es[0].key} + Keys(es[1..]) {
      var i :| 0 <= i < |es| && es[i].key == x;
      if i > 0 { assert es[1..][i - 1].key == x; }
    }
    forall x | x in Keys(es[1..]) ensures x in Keys(es) {
      var i :| 0 <= i < |es[1..]| && es[1..][i].key == x;
      assert es[i + 1].key == x;
    }
  }

  /** `k in d.keys()` exactly when `d.get(k)` finds a value. */
  lemma KeysGet(es: seq<Entry>, k: string)
    ensures k in Keys(es) <==> Get(es, k).Some?
  {
    GetFound(es, k);
  }

  /** Writing a key adds that key and no other. */
  lemma KeysPut(es: seq<Entry>, k: string, v: Value)
    ensures Keys(Put(es, k, v)) == Keys(es) + {k}
  {
    forall x ensures x in Keys(Put(es, k, v)) <==> x in Keys(es) + {k} {
      KeysGet(Put(es, k, v), x);
      KeysGet(es, x);
    }
  }

  /** `d.update(other)`: writes the entries of `other` into `d` one by one, in order. */
  function Update(es: seq<Entry>, other: seq<Entry>): seq<Entry>
    decreases |other|
  {
    if other == [] then es
    else
      var last := other[|other| - 1];
      Put(Update(es, other[..|other| - 1]), last.key, last.val)
  }

  /** After `d.update(other)`, a key of `other` holds its value there; any other key keeps its old value. */
  lemma {:induction false} GetUpdate(es: seq<Entry>, other: seq<Entry>, k: string)
    requires DistinctKeys(other)
    ensures Get(Update(es, other), k) == if Get(other, k).Some? then Get(other, k) else Get(es, k)
    decreases |other|
  {
    if other != [] {
      var n := |other| - 1;
      var init, last := other[..n], other[n];
      assert other == init + [last];
      GetUpdate(es, init, k);
      GetAppend(init, [last], k);
      if k == last.key {
        GetDistinct(other, n);
      }
    }
  }

  /** After `d.update(other)`, a key is found exactly when `d` or `other` holds it. */
  lemma {:induction false} GetUpdateFound(es: seq<Entry>, other: seq<Entry>, k: string)
    ensures Get(Update(es, other), k).Some? <==> Get(es, k).Some? || Get(other, k).Some?
    decreases |other|
  {
    if other != [] {
      var n := |other| - 1;
      var init, last := other[..n], other[n];
      assert other == init + [last];
      GetUpdateFound(es, init, k);
      GetAppend(init, [last], k);
    }
  }

  /** `d.update(other)` has the keys of both. */
  lemma KeysUpdate(es: seq<Entry>, other: seq<Entry>)
    ensures Keys(Update(es, other)) == Keys(es) + Keys(other)
  {
    forall x ensures x in Keys(Update(es, other)) <==> x in Keys(es) + Keys(other) {
      KeysGet(Update(es, other), x);
      KeysGet(es, x);
      KeysGet(other, x);
      GetUpdateFound(es, other, x);
    }
  }

  /** Python truthiness: `None`, `False`, `0`, `""`, `[]` and `{}` are false. */
  predicate Truthy(v: Value) {
    match v
    case Null => false
    case Bool(b) => b
    case Int(i) => i != 0
    case Str(s) => s != ""
    case List(items) => items != []
    case Dict(es) => es != []
  }

  /** Python's `type(v).__name__`. */
  function TypeName(v: Value): string {
    match v
    case Null => "NoneType"
    case Bool(_) => "bool"
    case Int(_) => "int"
    case Str(_) => "str"
    case List(_) => "list"
    case Dict(_) => "dict"
  }

  /** Python treats `bool` as a subtype of `int` in arithmetic and comparisons. */
  function AsInt(v: Value): (r: Option<int>)
    ensures r.Some? <==> v.Int? || v.Bool?
  {
    match v
    case Int(i) => Some(i)
    case Bool(b) => Some(if b then 1 else 0)
    case _ => None
  }

  function StrList(xs: seq<string>): (r: Value)
    ensures r.List? && |r.items| == |xs| && WellFormed(r)
    ensures forall i :: 0 <= i < |xs| ==> r.items[i] == Str(xs[i])
  {
    List(seq(|xs|, i requires 0 <= i < |xs| => Str(xs[i])))
  }
}
