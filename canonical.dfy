/**
 * The canonical pre-encoder shared by every signer and verifier: dictionary
 * keys are put in lexicographic order at every depth, list order is kept,
 * and scalars are left alone. The CBOR library then turns the result into
 * bytes (see `Primitives`).
 */
module Canonical {
  import opened Values

  /** Lexicographic order on code points (Python `str <`, and Go's byte order on UTF-8). */
  predicate KeyLess(a: string, b: string)
    decreases |a|
  {
    if |a| == 0 then |b| > 0
    else if |b| == 0 then false
    else if a[0] == b[0] then KeyLess(a[1..], b[1..])
    else a[0] < b[0]
  }

  lemma {:induction false} KeyLessIrreflexive(a: string)
    ensures !KeyLess(a, a)
    decreases |a|
  {
    if |a| > 0 {
      KeyLessIrreflexive(a[1..]);
    }
  }

  lemma {:induction false} KeyLessAsymmetric(a: string, b: string)
    requires KeyLess(a, b)
    ensures !KeyLess(b, a)
    decreases |a|
  {
    if |a| > 0 && |b| > 0 && a[0] == b[0] {
      KeyLessAsymmetric(a[1..], b[1..]);
    }
  }

  lemma {:induction false} KeyLessTransitive(a: string, b: string, c: string)
    requires KeyLess(a, b) && KeyLess(b, c)
    ensures KeyLess(a, c)
    decreases |a|
  {
    if |a| > 0 && a[0] == b[0] && b[0] == c[0] {
      KeyLessTransitive(a[1..], b[1..], c[1..]);
    }
  }

  lemma {:induction false} KeyLessTotal(a: string, b: string)
    requires a != b
    ensures KeyLess(a, b) || KeyLess(b, a)
    decreases |a|
  {
    if |a| > 0 && |b| > 0 && a[0] == b[0] {
      assert a == [a[0]] + a[1..] && b == [b[0]] + b[1..];
      KeyLessTotal(a[1..], b[1..]);
    }
  }

  /** Keys strictly increase along the dictionary. */
  predicate StrictlySorted(es: seq<Entry>) {
    forall i, j :: 0 <= i < j < |es| ==> KeyLess(es[i].key, es[j].key)
  }

  lemma StrictlySortedDistinct(es: seq<Entry>)
    requires StrictlySorted(es)
    ensures DistinctKeys(es)
  {
    forall i, j | 0 <= i < j < |es| ensures es[i].key != es[j].key {
      if es[i].key == es[j].key {
        KeyLessIrreflexive(es[i].key);
      }
    }
  }

  /** One insertion step of `sorted(d.items())`. */
  function InsertByKey(e: Entry, es: seq<Entry>): (r: seq<Entry>)
    ensures multiset(r) == multiset(es) + multiset{e}
  {
    if es == [] then [e]
    else if KeyLess(es[0].key, e.key) then
      assert es == [es[0]] + es[1..];
      [es[0]] + InsertByKey(e, es[1..])
    else [e] + es
  }

  /** `sorted(d.items())`: the entries of a dictionary in key order. */
  function SortByKey(es: seq<Entry>): (r: seq<Entry>)
    ensures multiset(r) == multiset(es)
  {
    if es == [] then []
    else
      assert es == [es[0]] + es[1..];
      InsertByKey(es[0], SortByKey(es[1..]))
  }

  lemma {:induction false} InsertByKeySorted(e: Entry, es: seq<Entry>)
    requires StrictlySorted(es)
    requires forall x :: x in es ==> x.key != e.key
    ensures StrictlySorted(InsertByKey(e, es))
  {
    if es == [] {
    } else if KeyLess(es[0].key, e.key) {
      InsertByKeySorted(e, es[1..]);
      var rest := InsertByKey(e, es[1..]);
      var r := [es[0]] + rest;
      forall i, j | 0 <= i < j < |r| ensures KeyLess(r[i].key, r[j].key) {
        if i == 0 {
          assert r[j] in multiset(rest);
          assert r[j] == e || r[j] in es[1..];
          if r[j] != e {
            var k :| 0 <= k < |es[1..]| && es[1..][k] == r[j];
            assert es[k + 1] == r[j];
          }
        }
      }
    } else {
      KeyLessTotal(es[0].key, e.key);
      var r := [e] + es;
      forall i, j | 0 <= i < j < |r| ensures KeyLess(r[i].key, r[j].key) {
        if i == 0 && j > 1 {
          KeyLessTransitive(e.key, es[0].key, es[j - 1].key);
        }
      }
    }
  }

  lemma {:induction false} SortByKeySorted(es: seq<Entry>)
    requires DistinctKeys(es)
    ensures StrictlySorted(SortByKey(es))
  {
    if es != [] {
      SortByKeySorted(es[1..]);
      var rest := SortByKey(es[1..]);
      forall x | x in rest ensures x.key != es[0].key {
        assert x in multiset(es[1..]);
        var k :| 0 <= k < |es[1..]| && es[1..][k] == x;
        assert es[k + 1] == x;
      }
      InsertByKeySorted(es[0], rest);
    }
  }

  /** Two key-sorted dictionaries with the same entries are the same sequence. */
  lemma {:induction false} StrictlySortedUnique(x: seq<Entry>, y: seq<Entry>)
    requires StrictlySorted(x) && StrictlySorted(y)
    requires forall e :: e in x <==> e in y
    ensures x == y
  {
    if x != [] || y != [] {
      var e0 := if x != [] then x[0] else y[0];
      assert e0 in x && e0 in y;
      assert x[0] in x && y[0] in y;
      if x[0] != y[0] {
        var j :| 0 <= j < |y| && y[j] == x[0];
        var i :| 0 <= i < |x| && x[i] == y[0];
        assert i > 0 && j > 0;
        KeyLessAsymmetric(x[0].key, y[0].key);
      }
      forall e ensures e in x[1..] <==> e in y[1..] {
        if e in x[1..] {
          TailMember(x, y, e);
        }
        if e in y[1..] {
          TailMember(y, x, e);
        }
      }
      StrictlySortedUnique(x[1..], y[1..]);
      assert x == [x[0]] + x[1..] && y == [y[0]] + y[1..];
    }
  }

  lemma TailMember(x: seq<Entry>, y: seq<Entry>, e: Entry)
    requires StrictlySorted(x) && StrictlySorted(y) && x != [] && y != [] && x[0] == y[0]
    requires forall e :: e in x <==> e in y
    requires e in x[1..]
    ensures e in y[1..]
  {
    var i :| 0 <= i < |x[1..]| && x[1..][i] == e;
    assert KeyLess(x[0].key, x[i + 1].key);
    KeyLessIrreflexive(e.key);
    assert e in y;
    var j :| 0 <= j < |y| && y[j] == e;
    assert j != 0;
    assert y[1..][j - 1] == e;
  }

  /**
   * The recursive key sort: a dictionary gets its values sorted and its
   * entries put in key order, a list gets each item sorted in place, and
   * every other value is returned unchanged.
   */
  function SortRecursively(v: Value): (r: Value)
    ensures r.List? <==> v.List?
    ensures r.Dict? <==> v.Dict?
    ensures r.List? ==> |r.items| == |v.items|
    ensures r.Dict? ==> |r.entries| == |v.entries|
    ensures !v.List? && !v.Dict? ==> r == v
    decreases v
  {
    match v
    case List(items) => List(SortItems(items))
    case Dict(es) => Dict(SortByKey(SortValues(es)))
    case _ => v
  }

  function SortItems(items: seq<Value>): (r: seq<Value>)
    decreases items
  {
    seq(|items|, i requires 0 <= i < |items| => SortRecursively(items[i]))
  }

  function SortValues(es: seq<Entry>): (r: seq<Entry>)
    decreases es
  {
    seq(|es|, i requires 0 <= i < |es| => Entry(es[i].key, SortRecursively(es[i].val)))
  }

  /** Every dictionary, at every depth, has its keys in strictly increasing order. */
  predicate SortedAtEveryDepth(v: Value)
    decreases v
  {
    match v
    case List(items) => forall i :: 0 <= i < |items| ==> SortedAtEveryDepth(items[i])
    case Dict(es) => StrictlySorted(es) && forall i :: 0 <= i < |es| ==> SortedAtEveryDepth(es[i].val)
    case _ => true
  }

  /** The sort orders keys at every depth and keeps dictionaries free of repeated keys. */
  lemma {:induction false} SortRecursivelySorts(v: Value)
    requires WellFormed(v)
    ensures WellFormed(SortRecursively(v)) && SortedAtEveryDepth(SortRecursively(v))
    decreases v
  {
    match v
    case List(items) =>
      forall i | 0 <= i < |items| {
        SortRecursivelySorts(items[i]);
      }
    case Dict(es) =>
      var ms := SortValues(es);
      var ss := SortByKey(ms);
      assert DistinctKeys(ms);
      SortByKeySorted(ms);
      StrictlySortedDistinct(ss);
      forall i | 0 <= i < |ss|
        ensures WellFormed(ss[i].val) && SortedAtEveryDepth(ss[i].val)
      {
        assert ss[i] in multiset(ms);
        var j :| 0 <= j < |ms| && ms[j] == ss[i];
        SortRecursivelySorts(es[j].val);
      }
    case _ =>
  }

  /** Reordering the entries of a dictionary does not change its abstract content. */
  lemma SameEntriesSameMap(x: seq<Entry>, y: seq<Entry>)
    requires DistinctKeys(x) && DistinctKeys(y)
    requires forall i :: 0 <= i < |x| ==> WellFormed(x[i].val)
    requires forall i :: 0 <= i < |y| ==> WellFormed(y[i].val)
    requires forall e :: e in x <==> e in y
    ensures AbstractEntries(x) == AbstractEntries(y)
  {
    var mx, my := AbstractEntries(x), AbstractEntries(y);
    forall k | k in mx ensures k in my && mx[k] == my[k] {
      var i :| 0 <= i < |x| && x[i].key == k;
      AbstractEntriesAt(x, i);
      EntryInMap(y, x[i]);
    }
    forall k | k in my ensures k in mx {
      var j :| 0 <= j < |y| && y[j].key == k;
      EntryInMap(x, y[j]);
    }
    MapsEqual(mx, my);
  }

  /** An entry of a dictionary without repeated keys is found in its abstract map. */
  lemma EntryInMap(es: seq<Entry>, e: Entry)
    requires DistinctKeys(es) && forall j :: 0 <= j < |es| ==> WellFormed(es[j].val)
    requires e in es
    ensures WellFormed(e.val) && e.key in AbstractEntries(es) && AbstractEntries(es)[e.key] == Abstract(e.val)
  {
    var j :| 0 <= j < |es| && es[j] == e;
    AbstractEntriesAt(es, j);
  }

  /** `SortByKey` keeps exactly the entries it is given. */
  lemma SortByKeySameEntries(es: seq<Entry>)
    ensures forall e :: e in SortByKey(es) <==> e in es
  {
    forall e ensures e in SortByKey(es) <==> e in es {
      assert e in SortByKey(es) <==> e in multiset(SortByKey(es));
    }
  }

  /** The dictionary step of `SortRecursivelyKeepsContent`, given that the values keep theirs. */
  lemma SortDictKeepsContent(es: seq<Entry>)
    requires DistinctKeys(es) && forall i :: 0 <= i < |es| ==> WellFormed(es[i].val)
    requires forall i :: 0 <= i < |es| ==>
      WellFormed(SortRecursively(es[i].val)) && Abstract(SortRecursively(es[i].val)) == Abstract(es[i].val)
    ensures var ss := SortByKey(SortValues(es));
      DistinctKeys(ss) && (forall i :: 0 <= i < |ss| ==> WellFormed(ss[i].val)) &&
      AbstractEntries(ss) == AbstractEntries(es)
  {
    var ms := SortValues(es);
    var ss := SortByKey(ms);
    assert DistinctKeys(ms);
    SortByKeySorted(ms);
    StrictlySortedDistinct(ss);
    SortByKeySameEntries(ms);
    forall i | 0 <= i < |ss| ensures WellFormed(ss[i].val) {
      assert ss[i] in ms;
    }
    SameEntriesSameMap(ss, ms);
    SortValuesKeepsMap(es);
  }

  lemma SortValuesKeepsMap(es: seq<Entry>)
    requires DistinctKeys(es) && forall i :: 0 <= i < |es| ==> WellFormed(es[i].val)
    requires forall i :: 0 <= i < |es| ==>
      WellFormed(SortRecursively(es[i].val)) && Abstract(SortRecursively(es[i].val)) == Abstract(es[i].val)
    ensures DistinctKeys(SortValues(es))
    ensures forall i :: 0 <= i < |SortValues(es)| ==> WellFormed(SortValues(es)[i].val)
    ensures AbstractEntries(SortValues(es)) == AbstractEntries(es)
  {
    var ms := SortValues(es);
    forall i | 0 <= i < |ms|
      ensures ms[i].key == es[i].key && WellFormed(ms[i].val) && Abstract(ms[i].val) == Abstract(es[i].val)
    {
    }
    PointwiseSameMap(ms, es);
  }

  /** Keys in the same places as in a dictionary without repeated keys are not repeated either. */
  lemma SameKeysDistinct(x: seq<Entry>, y: seq<Entry>)
    requires |x| == |y| && DistinctKeys(y)
    requires forall i :: 0 <= i < |x| ==> x[i].key == y[i].key
    ensures DistinctKeys(x)
  {
    forall i, j | 0 <= i < j < |x| ensures x[i].key != x[j].key {
      assert y[i].key != y[j].key;
    }
  }

  /** Dictionaries with the same keys in the same places and equal abstract values have the same content. */
  lemma PointwiseSameMap(x: seq<Entry>, y: seq<Entry>)
    requires |x| == |y| && DistinctKeys(y)
    requires forall i :: 0 <= i < |x| ==> WellFormed(x[i].val) && WellFormed(y[i].val)
    requires forall i :: 0 <= i < |x| ==> x[i].key == y[i].key && Abstract(x[i].val) == Abstract(y[i].val)
    ensures DistinctKeys(x)
    ensures AbstractEntries(x) == AbstractEntries(y)
  {
    SameKeysDistinct(x, y);
    SameKeysSameDomain(x, y);
    var mx, my := AbstractEntries(x), AbstractEntries(y);
    forall k | k in my ensures mx[k] == my[k] {
      SameValueAt(x, y, k);
    }
    MapsEqual(mx, my);
  }

  /** The value both abstract maps give a shared key comes from the same place in both dictionaries. */
  lemma SameValueAt(x: seq<Entry>, y: seq<Entry>, k: string)
    requires |x| == |y| && DistinctKeys(x) && DistinctKeys(y)
    requires forall i :: 0 <= i < |x| ==> WellFormed(x[i].val) && WellFormed(y[i].val)
    requires forall i :: 0 <= i < |x| ==> x[i].key == y[i].key && Abstract(x[i].val) == Abstract(y[i].val)
    requires k in AbstractEntries(y)
    ensures k in AbstractEntries(x) && AbstractEntries(x)[k] == AbstractEntries(y)[k]
  {
    var i :| 0 <= i < |y| && y[i].key == k;
    AbstractEntriesAt(y, i);
    AbstractEntriesAt(x, i);
  }

  lemma MapsEqual(m: map<string, Tree>, n: map<string, Tree>)
    requires m.Keys == n.Keys && forall k | k in n :: m[k] == n[k]
    ensures m == n
  {
  }

  /** Keys in the same places give abstract maps with the same domain. */
  lemma SameKeysSameDomain(x: seq<Entry>, y: seq<Entry>)
    requires |x| == |y| && DistinctKeys(x) && DistinctKeys(y)
    requires forall i :: 0 <= i < |x| ==> WellFormed(x[i].val) && WellFormed(y[i].val)
    requires forall i :: 0 <= i < |x| ==> x[i].key == y[i].key
    ensures AbstractEntries(x).Keys == AbstractEntries(y).Keys
  {
    forall k | k in AbstractEntries(y) ensures k in AbstractEntries(x) {
      var i :| 0 <= i < |y| && y[i].key == k;
      AbstractEntriesAt(x, i);
    }
    forall k | k in AbstractEntries(x) ensures k in AbstractEntries(y) {
      var i :| 0 <= i < |x| && x[i].key == k;
      AbstractEntriesAt(y, i);
    }
  }

  /** Each entry of a dictionary without repeated keys is found in its abstract map. */
  lemma AbstractEntriesAt(es: seq<Entry>, i: int)
    requires DistinctKeys(es) && forall j :: 0 <= j < |es| ==> WellFormed(es[j].val)
    requires 0 <= i < |es|
    ensures es[i].key in AbstractEntries(es) && AbstractEntries(es)[es[i].key] == Abstract(es[i].val)
  {
  }

  /**
   * The sort keeps the content: the same keys with the same values at every
   * depth, and every list in its original order and length.
   */
  lemma {:induction false} SortRecursivelyKeepsContent(v: Value)
    requires WellFormed(v)
    ensures WellFormed(SortRecursively(v))
    ensures Abstract(SortRecursively(v)) == Abstract(v)
    decreases v
  {
    match v
    case List(items) =>
      forall i | 0 <= i < |items|
        ensures WellFormed(SortRecursively(items[i])) && Abstract(SortRecursively(items[i])) == Abstract(items[i])
      {
        SortRecursivelyKeepsContent(items[i]);
      }
      var r := SortItems(items);
      assert Abstract(List(r)).items == Abstract(v).items;
    case Dict(es) =>
      forall i | 0 <= i < |es|
        ensures WellFormed(SortRecursively(es[i].val)) && Abstract(SortRecursively(es[i].val)) == Abstract(es[i].val)
      {
        SortRecursivelyKeepsContent(es[i].val);
      }
      SortDictKeepsContent(es);
    case _ =>
  }

  /** Two dictionaries holding the same entries, in any order, sort to the same sequence. */
  lemma SameEntriesSameSort(ma: seq<Entry>, mb: seq<Entry>)
    requires DistinctKeys(ma) && DistinctKeys(mb)
    requires forall e :: e in ma <==> e in mb
    ensures SortByKey(ma) == SortByKey(mb)
  {
    SortByKeySorted(ma);
    SortByKeySorted(mb);
    SortByKeySameEntries(ma);
    SortByKeySameEntries(mb);
    StrictlySortedUnique(SortByKey(ma), SortByKey(mb));
  }

  /** The dictionary step of `SameContentSameSort`: an entry of one side has its twin on the other. */
  lemma TwinEntry(ea: seq<Entry>, eb: seq<Entry>, i: int) returns (j: int)
    requires DistinctKeys(ea) && forall k :: 0 <= k < |ea| ==> WellFormed(ea[k].val)
    requires DistinctKeys(eb) && forall k :: 0 <= k < |eb| ==> WellFormed(eb[k].val)
    requires AbstractEntries(ea) == AbstractEntries(eb)
    requires 0 <= i < |ea|
    ensures 0 <= j < |eb| && eb[j].key == ea[i].key && Abstract(eb[j].val) == Abstract(ea[i].val)
  {
    var ta, tb := AbstractEntries(ea), AbstractEntries(eb);
    assert ea[i].key in ta;
    j :| 0 <= j < |eb| && eb[j].key == ea[i].key;
    assert tb[eb[j].key] == Abstract(eb[j].val);
  }

  /** Dictionaries with the same content, whatever their insertion order, sort to the same value. */
  lemma {:induction false} SameContentSameSort(a: Value, b: Value)
    requires WellFormed(a) && WellFormed(b)
    requires Abstract(a) == Abstract(b)
    ensures SortRecursively(a) == SortRecursively(b)
    decreases a
  {
    match a
    case List(xs) =>
      assert b.List?;
      var ys := b.items;
      assert |xs| == |ys| by {
        assert |Abstract(a).items| == |Abstract(b).items|;
      }
      forall i | 0 <= i < |xs| ensures SortRecursively(xs[i]) == SortRecursively(ys[i]) {
        assert Abstract(a).items[i] == Abstract(b).items[i];
        SameContentSameSort(xs[i], ys[i]);
      }
      assert SortItems(xs) == SortItems(ys);
    case Dict(ea) =>
      assert b.Dict?;
      var eb := b.entries;
      assert AbstractEntries(ea) == AbstractEntries(eb);
      var ma, mb := SortValues(ea), SortValues(eb);
      forall e | e in ma ensures e in mb {
        var i :| 0 <= i < |ma| && ma[i] == e;
        var j := TwinEntry(ea, eb, i);
        SameContentSameSort(ea[i].val, eb[j].val);
        assert mb[j] == e;
      }
      forall e | e in mb ensures e in ma {
        var j :| 0 <= j < |mb| && mb[j] == e;
        var i := TwinEntry(eb, ea, j);
        SameContentSameSort(ea[i].val, eb[j].val);
        assert ma[i] == e;
      }
      assert DistinctKeys(ma) && DistinctKeys(mb);
      SameEntriesSameSort(ma, mb);
    case _ =>
  }

  /**
   * The canonical form characterises content: two dictionaries sort to the
   * same value exactly when they hold the same keys and values, whatever the
   * order in which their keys were inserted.
   */
  lemma SortRecursivelyCanonical(a: Value, b: Value)
    requires WellFormed(a) && WellFormed(b)
    ensures SortRecursively(a) == SortRecursively(b) <==> Abstract(a) == Abstract(b)
  {
    SortRecursivelyKeepsContent(a);
    SortRecursivelyKeepsContent(b);
    if Abstract(a) == Abstract(b) {
      SameContentSameSort(a, b);
    }
  }

  /** Sorting an already sorted tree changes nothing. */
  lemma SortRecursivelyIdempotent(v: Value)
    ensures WellFormed(v) ==> SortRecursively(SortRecursively(v)) == SortRecursively(v)
  {
    if WellFormed(v) {
      SortRecursivelyKeepsContent(v);
      SameContentSameSort(SortRecursively(v), v);
    }
  }
}
