/** JavaScript values as the editor stores them in node data, and plain objects as ordered records.
    A record lists an object's properties in the order they were created; a spread `{...m, k: v}`
    overwrites an existing key in place and creates a new one at the end. `Put` is that single
    step. `Object.entries` does not list them in creation order but in JavaScript's own-key order,
    array-index keys first: `OwnEntries` is that view. */
module Values {
  import opened Wrappers
  import Text
  import Seqs

  datatype Entry<V> = Entry(key: string, value: V)

  /** A JSON-like value. Numbers are integers here (no fractions, NaN or infinities). */
  datatype Value =
    | VUndefined
    | VNull
    | VBool(b: bool)
    | VNum(n: int)
    | VStr(s: string)
    | VList(items: seq<Value>)
    | VObj(fields: seq<Entry<Value>>)

  /** A plain object such as a node's `data`. */
  type Record = seq<Entry<Value>>

  /** The keys in creation order (`Object.keys` lists `Keys(OwnEntries(m))`). */
  function Keys<V>(m: seq<Entry<V>>): (r: seq<string>)
    ensures |r| == |m| && forall i :: 0 <= i < |m| ==> r[i] == m[i].key
  {
    if |m| == 0 then [] else [m[0].key] + Keys(m[1..])
  }

  /** No key occurs twice, as in every JavaScript object. */
  predicate DistinctKeys<V>(m: seq<Entry<V>>) {
    forall i, j :: 0 <= i < j < |m| ==> m[i].key != m[j].key
  }

  /** Property lookup: `None` when the key is absent. */
  function Get<V>(m: seq<Entry<V>>, k: string): (r: Option<V>)
    ensures r.None? <==> k !in Keys(m)
    ensures r.Some? ==> Entry(k, r.value) in m
  {
    if |m| == 0 then None
    else if m[0].key == k then Some(m[0].value)
    else Get(m[1..], k)
  }

  /** `{...m, [k]: v}`: overwrites the first entry for `k` in place, or appends one. */
  function Put<V>(m: seq<Entry<V>>, k: string, v: V): seq<Entry<V>> {
    if |m| == 0 then [Entry(k, v)]
    else if m[0].key == k then [Entry(k, v)] + m[1..]
    else [m[0]] + Put(m[1..], k, v)
  }

  /** After `Put`, `k` reads as `v` and every other key reads as before. */
  lemma {:induction false} PutGet<V>(m: seq<Entry<V>>, k: string, v: V, k': string)
    ensures Get(Put(m, k, v), k') == if k' == k then Some(v) else Get(m, k')
  {
    if |m| > 0 && m[0].key != k {
      PutGet(m[1..], k, v, k');
    }
  }

  /** `Put` keeps the key order and appends a new key at the end. */
  lemma {:induction false} PutKeys<V>(m: seq<Entry<V>>, k: string, v: V)
    ensures Keys(Put(m, k, v)) == if k in Keys(m) then Keys(m) else Keys(m) + [k]
  {
    if |m| > 0 && m[0].key != k {
      PutKeys(m[1..], k, v);
      assert Keys(m) == [m[0].key] + Keys(m[1..]);
    }
  }

  lemma PutDistinct<V>(m: seq<Entry<V>>, k: string, v: V)
    requires DistinctKeys(m)
    ensures DistinctKeys(Put(m, k, v))
  {
    PutKeys(m, k, v);
    var r := Put(m, k, v);
    assert forall i :: 0 <= i < |r| ==> r[i].key == Keys(r)[i];
  }

  /** `const {k, ...rest} = m`: the object without `k`, all other keys in their order. */
  function Remove<V>(m: seq<Entry<V>>, k: string): (r: seq<Entry<V>>)
    ensures Get(r, k) == None
    ensures forall k' :: k' != k ==> Get(r, k') == Get(m, k')
    ensures forall i :: 0 <= i < |r| ==> r[i] in m
    ensures DistinctKeys(m) ==> DistinctKeys(r)
  {
    if |m| == 0 then []
    else if m[0].key == k then Remove(m[1..], k)
    else [m[0]] + Remove(m[1..], k)
  }

  /** Spreads the entries `es` over `m` from left to right (`Object.assign`, `fromEntries`). */
  function PutAll<V>(m: seq<Entry<V>>, es: seq<Entry<V>>): seq<Entry<V>>
    decreases |es|
  {
    if |es| == 0 then m else PutAll(Put(m, es[0].key, es[0].value), es[1..])
  }

  /** A key of `es` reads as its value in `es`; any other key reads as in `m`. */
  lemma {:induction false} PutAllGet<V>(m: seq<Entry<V>>, es: seq<Entry<V>>, k: string)
    requires DistinctKeys(es)
    ensures Get(PutAll(m, es), k) == if k in Keys(es) then Get(es, k) else Get(m, k)
    decreases |es|
  {
    if |es| > 0 {
      assert Keys(es) == [es[0].key] + Keys(es[1..]);
      PutAllGet(Put(m, es[0].key, es[0].value), es[1..], k);
      PutGet(m, es[0].key, es[0].value, k);
    }
  }

  /** Spreading entries that do not name `k` leaves `k` as it was. */
  lemma {:induction false} PutAllAbsent<V>(m: seq<Entry<V>>, es: seq<Entry<V>>, k: string)
    requires k !in Keys(es)
    ensures Get(PutAll(m, es), k) == Get(m, k)
    decreases |es|
  {
    if |es| > 0 {
      assert Keys(es) == [es[0].key] + Keys(es[1..]);
      PutAllAbsent(Put(m, es[0].key, es[0].value), es[1..], k);
      PutGet(m, es[0].key, es[0].value, k);
    }
  }

  lemma {:induction false} PutAllDistinct<V>(m: seq<Entry<V>>, es: seq<Entry<V>>)
    requires DistinctKeys(m)
    ensures DistinctKeys(PutAll(m, es))
    decreases |es|
  {
    if |es| > 0 {
      PutDistinct(m, es[0].key, es[0].value);
      PutAllDistinct(Put(m, es[0].key, es[0].value), es[1..]);
    }
  }

  /** Spreading a new key appends it. */
  lemma {:induction false} PutFresh<V>(m: seq<Entry<V>>, k: string, v: V)
    requires k !in Keys(m)
    ensures Put(m, k, v) == m + [Entry(k, v)]
    decreases |m|
  {
    if |m| > 0 {
      assert Keys(m) == [m[0].key] + Keys(m[1..]);
      PutFresh(m[1..], k, v);
      assert m == [m[0]] + m[1..];
    }
  }

  /** Spreading entries whose keys are all new appends them, in order. */
  lemma {:induction false} PutAllFresh<V>(m: seq<Entry<V>>, es: seq<Entry<V>>)
    requires DistinctKeys(m + es)
    ensures PutAll(m, es) == m + es
    decreases |es|
  {
    if |es| > 0 {
      var e := es[0];
      forall i | 0 <= i < |m| ensures Keys(m)[i] != e.key {
        assert (m + es)[i] == m[i] && (m + es)[|m|] == e;
      }
      PutFresh(m, e.key, e.value);
      assert m + es == (m + [e]) + es[1..];
      PutAllFresh(m + [e], es[1..]);
    }
  }

  /** An entry under an array-index key, and one under any other key. */
  predicate IsIndexEntry<V>(e: Entry<V>) {
    Text.IsArrayIndex(e.key)
  }

  predicate IsNameEntry<V>(e: Entry<V>) {
    !Text.IsArrayIndex(e.key)
  }

  /** Entries sorted by the number their key denotes. */
  predicate IndexSorted<V>(s: seq<Entry<V>>) {
    forall i, j :: 0 <= i < j < |s| ==> Text.IndexValue(s[i].key) <= Text.IndexValue(s[j].key)
  }

  /** Places `e` before the first entry whose key denotes no smaller number. */
  function InsertByIndex<V>(e: Entry<V>, s: seq<Entry<V>>): (r: seq<Entry<V>>)
    ensures multiset(r) == multiset(s) + multiset{e}
  {
    if |s| == 0 || Text.IndexValue(e.key) <= Text.IndexValue(s[0].key) then [e] + s
    else
      assert s == [s[0]] + s[1..];
      [s[0]] + InsertByIndex(e, s[1..])
  }

  /** A stable insertion sort by the number each key denotes. */
  function SortByIndex<V>(s: seq<Entry<V>>): (r: seq<Entry<V>>)
    ensures multiset(r) == multiset(s)
  {
    if |s| == 0 then []
    else
      assert s == [s[0]] + s[1..];
      InsertByIndex(s[0], SortByIndex(s[1..]))
  }

  lemma {:induction false} InsertByIndexSorted<V>(e: Entry<V>, s: seq<Entry<V>>)
    requires IndexSorted(s)
    ensures IndexSorted(InsertByIndex(e, s))
  {
    if |s| > 0 && Text.IndexValue(e.key) > Text.IndexValue(s[0].key) {
      var t := InsertByIndex(e, s[1..]);
      InsertByIndexSorted(e, s[1..]);
      forall j | 0 <= j < |t| ensures Text.IndexValue(s[0].key) <= Text.IndexValue(t[j].key) {
        assert t[j] in multiset(t);
        if t[j] != e {
          SortedHead(s, t[j]);
        }
      }
    }
  }

  /** In sorted entries, the first denotes no larger number than any later one. */
  lemma SortedHead<V>(s: seq<Entry<V>>, x: Entry<V>)
    requires |s| > 0 && IndexSorted(s) && x in s[1..]
    ensures Text.IndexValue(s[0].key) <= Text.IndexValue(x.key)
  {
    var k :| 0 <= k < |s[1..]| && s[1..][k] == x;
    assert s[k + 1] == x;
  }

  lemma {:induction false} SortByIndexSorted<V>(s: seq<Entry<V>>)
    ensures IndexSorted(SortByIndex(s))
  {
    if |s| > 0 {
      SortByIndexSorted(s[1..]);
      InsertByIndexSorted(s[0], SortByIndex(s[1..]));
    }
  }

  /** Sorting entries that are already sorted changes nothing. */
  lemma {:induction false} SortByIndexOfSorted<V>(s: seq<Entry<V>>)
    requires IndexSorted(s)
    ensures SortByIndex(s) == s
  {
    if |s| > 0 {
      SortByIndexOfSorted(s[1..]);
      assert s == [s[0]] + s[1..];
    }
  }

  /** The inserted entry goes in front of any entry under the same key, so it is the one read. */
  lemma {:induction false} InsertByIndexGet<V>(e: Entry<V>, s: seq<Entry<V>>, k: string)
    ensures Get(InsertByIndex(e, s), k) == if e.key == k then Some(e.value) else Get(s, k)
  {
    if |s| > 0 && Text.IndexValue(e.key) > Text.IndexValue(s[0].key) {
      InsertByIndexGet(e, s[1..], k);
    }
  }

  /** The sort is stable, so every key reads as before. */
  lemma {:induction false} SortByIndexGet<V>(s: seq<Entry<V>>, k: string)
    ensures Get(SortByIndex(s), k) == Get(s, k)
  {
    if |s| > 0 {
      SortByIndexGet(s[1..], k);
      InsertByIndexGet(s[0], SortByIndex(s[1..]), k);
    }
  }

  lemma {:induction false} GetIndexEntries<V>(m: seq<Entry<V>>, k: string)
    ensures Get(Seqs.Filter(m, IsIndexEntry), k) == if Text.IsArrayIndex(k) then Get(m, k) else None
  {
    if |m| > 0 {
      GetIndexEntries(m[1..], k);
    }
  }

  lemma {:induction false} GetNameEntries<V>(m: seq<Entry<V>>, k: string)
    ensures Get(Seqs.Filter(m, IsNameEntry), k) == if Text.IsArrayIndex(k) then None else Get(m, k)
  {
    if |m| > 0 {
      GetNameEntries(m[1..], k);
    }
  }

  /** A read of `a + b` finds `k` in `a` first. */
  lemma {:induction false} GetAppend<V>(a: seq<Entry<V>>, b: seq<Entry<V>>, k: string)
    ensures Get(a + b, k) == if Get(a, k).Some? then Get(a, k) else Get(b, k)
  {
    if |a| == 0 {
      assert a + b == b;
    } else {
      assert (a + b)[0] == a[0];
      if a[0].key != k {
        assert (a + b)[1..] == a[1..] + b;
        GetAppend(a[1..], b, k);
      }
    }
  }

  /** Sorted array-index entries followed by other entries are in own-key order. */
  lemma OwnOrderConcat<V>(a: seq<Entry<V>>, b: seq<Entry<V>>)
    requires IndexSorted(a) && forall i :: 0 <= i < |a| ==> IsIndexEntry(a[i])
    requires forall i :: 0 <= i < |b| ==> IsNameEntry(b[i])
    ensures Text.OwnKeyOrder(Keys(a + b))
  {
    var r := a + b;
    var ks := Keys(r);
    forall i, j | 0 <= i < j < |r| && Text.IsArrayIndex(ks[j])
      ensures Text.IsArrayIndex(ks[i]) && Text.IndexValue(ks[i]) <= Text.IndexValue(ks[j])
    {
      assert ks[i] == r[i].key && ks[j] == r[j].key;
      if j < |a| {
        assert r[i] == a[i] && r[j] == a[j];
      }
    }
  }

  /** Every entry the sort returns is an array-index entry of `m`. */
  lemma SortedIndexEntries<V>(m: seq<Entry<V>>)
    ensures forall i :: 0 <= i < |SortByIndex(Seqs.Filter(m, IsIndexEntry))| ==>
      IsIndexEntry(SortByIndex(Seqs.Filter(m, IsIndexEntry))[i])
  {
    var f := Seqs.Filter(m, IsIndexEntry);
    var a := SortByIndex(f);
    forall i | 0 <= i < |a| ensures IsIndexEntry(a[i]) {
      assert a[i] in multiset(f);
      var k :| 0 <= k < |f| && f[k] == a[i];
    }
  }

  /** The array-index entries sorted, then the others in creation order, are a permutation of `m`
      in own-key order. */
  lemma OwnOrderSplit<V>(m: seq<Entry<V>>, a: seq<Entry<V>>, b: seq<Entry<V>>)
    requires a == SortByIndex(Seqs.Filter(m, IsIndexEntry)) && b == Seqs.Filter(m, IsNameEntry)
    ensures multiset(a + b) == multiset(m)
    ensures Text.OwnKeyOrder(Keys(a + b))
    ensures Seqs.Filter(a + b, IsNameEntry) == b
  {
    var f := Seqs.Filter(m, IsIndexEntry);
    Seqs.FilterSplit(m, IsIndexEntry, IsNameEntry);
    assert multiset(a + b) == multiset(a) + multiset(b);
    SortByIndexSorted(f);
    SortedIndexEntries(m);
    assert forall i :: 0 <= i < |b| ==> IsNameEntry(b[i]);
    OwnOrderConcat(a, b);
    Seqs.FilterAppend(a, b, IsNameEntry);
    Seqs.FilterNone(a, IsNameEntry);
    Seqs.FilterAll(b, IsNameEntry);
  }

  /** `Object.entries`: the own properties in JavaScript's own-key order (ECMAScript, section
      10.1.11.1): array-index keys ascending, then the other keys in creation order. */
  function OwnEntries<V>(m: seq<Entry<V>>): (r: seq<Entry<V>>)
    ensures multiset(r) == multiset(m)
  {
    var a := SortByIndex(Seqs.Filter(m, IsIndexEntry));
    var b := Seqs.Filter(m, IsNameEntry);
    OwnOrderSplit(m, a, b);
    a + b
  }

  /** The listing is in own-key order, and the keys that are no array index keep their creation order. */
  lemma OwnEntriesOrder<V>(m: seq<Entry<V>>)
    ensures Text.OwnKeyOrder(Keys(OwnEntries(m)))
    ensures Seqs.Filter(OwnEntries(m), IsNameEntry) == Seqs.Filter(m, IsNameEntry)
  {
    var a := SortByIndex(Seqs.Filter(m, IsIndexEntry));
    var b := Seqs.Filter(m, IsNameEntry);
    OwnOrderSplit(m, a, b);
  }

  /** Listing the entries changes no property read. */
  lemma OwnEntriesGet<V>(m: seq<Entry<V>>, k: string)
    ensures Get(OwnEntries(m), k) == Get(m, k)
  {
    var a := SortByIndex(Seqs.Filter(m, IsIndexEntry));
    var b := Seqs.Filter(m, IsNameEntry);
    GetAppend(a, b, k);
    SortByIndexGet(Seqs.Filter(m, IsIndexEntry), k);
    GetIndexEntries(m, k);
    GetNameEntries(m, k);
  }

  lemma {:induction false} OwnKeyOrderTail<V>(m: seq<Entry<V>>)
    requires |m| > 0 && Text.OwnKeyOrder(Keys(m))
    ensures Text.OwnKeyOrder(Keys(m[1..]))
  {
    var t := m[1..];
    forall i, j | 0 <= i < j < |t| && Text.IsArrayIndex(Keys(t)[j])
      ensures Text.IsArrayIndex(Keys(t)[i]) && Text.IndexValue(Keys(t)[i]) <= Text.IndexValue(Keys(t)[j])
    {
      assert Keys(t)[i] == Keys(m)[i + 1] && Keys(t)[j] == Keys(m)[j + 1];
    }
  }

  lemma {:induction false} IndexEntriesSorted<V>(m: seq<Entry<V>>)
    requires Text.OwnKeyOrder(Keys(m))
    ensures IndexSorted(Seqs.Filter(m, IsIndexEntry))
  {
    if |m| > 0 {
      OwnKeyOrderTail(m);
      IndexEntriesSorted(m[1..]);
      if IsIndexEntry(m[0]) {
        var t := Seqs.Filter(m[1..], IsIndexEntry);
        forall j | 0 <= j < |t| ensures Text.IndexValue(m[0].key) <= Text.IndexValue(t[j].key) {
          var k :| 0 <= k < |m[1..]| && m[1..][k] == t[j];
          var ks := Keys(m);
          assert ks[0] == m[0].key && ks[k + 1] == t[j].key;
        }
        IndexSortedCons(m[0], t);
      }
    }
  }

  lemma IndexSortedCons<V>(e: Entry<V>, t: seq<Entry<V>>)
    requires IndexSorted(t) && forall j :: 0 <= j < |t| ==> Text.IndexValue(e.key) <= Text.IndexValue(t[j].key)
    ensures IndexSorted([e] + t)
  {
    var r := [e] + t;
    forall i, j | 0 <= i < j < |r| ensures Text.IndexValue(r[i].key) <= Text.IndexValue(r[j].key) {
      assert r[j] == t[j - 1];
      if i > 0 {
        assert r[i] == t[i - 1];
      }
    }
  }

  lemma {:induction false} SplitInOwnOrder<V>(m: seq<Entry<V>>)
    requires Text.OwnKeyOrder(Keys(m))
    ensures Seqs.Filter(m, IsIndexEntry) + Seqs.Filter(m, IsNameEntry) == m
  {
    if |m| > 0 {
      if IsIndexEntry(m[0]) {
        OwnKeyOrderTail(m);
        SplitInOwnOrder(m[1..]);
        SplitIndexHead(m);
      } else {
        NoIndexAfterName(m);
        Seqs.FilterNone(m, IsIndexEntry);
        Seqs.FilterAll(m, IsNameEntry);
      }
    }
  }

  lemma SplitIndexHead<V>(m: seq<Entry<V>>)
    requires |m| > 0 && IsIndexEntry(m[0])
    requires Seqs.Filter(m[1..], IsIndexEntry) + Seqs.Filter(m[1..], IsNameEntry) == m[1..]
    ensures Seqs.Filter(m, IsIndexEntry) + Seqs.Filter(m, IsNameEntry) == m
  {
    var x, y := Seqs.Filter(m[1..], IsIndexEntry), Seqs.Filter(m[1..], IsNameEntry);
    calc {
      Seqs.Filter(m, IsIndexEntry) + Seqs.Filter(m, IsNameEntry);
      ([m[0]] + x) + y;
      { Seqs.ConcatAssoc([m[0]], x, y); }
      [m[0]] + (x + y);
      [m[0]] + m[1..];
      m;
    }
  }

  /** In own-key order, no array-index key follows another key. */
  lemma NoIndexAfterName<V>(m: seq<Entry<V>>)
    requires |m| > 0 && Text.OwnKeyOrder(Keys(m)) && IsNameEntry(m[0])
    ensures forall i :: 0 <= i < |m| ==> IsNameEntry(m[i])
  {
    forall i | 0 <= i < |m| ensures IsNameEntry(m[i]) {
      NameAt(m, i);
    }
  }

  lemma NameAt<V>(m: seq<Entry<V>>, i: nat)
    requires i < |m| && Text.OwnKeyOrder(Keys(m)) && IsNameEntry(m[0])
    ensures IsNameEntry(m[i])
  {
    var ks := Keys(m);
    assert ks[0] == m[0].key && ks[i] == m[i].key;
    Text.NoIndexAfter(ks);
  }

  /** Entries already in own-key order are listed as they are. */
  lemma OwnEntriesInOrder<V>(m: seq<Entry<V>>)
    requires Text.OwnKeyOrder(Keys(m))
    ensures OwnEntries(m) == m
  {
    IndexEntriesSorted(m);
    SortByIndexOfSorted(Seqs.Filter(m, IsIndexEntry));
    SplitInOwnOrder(m);
  }

  /** Of two entries, one under an array-index key and one under another key, `Object.entries`
      lists the array-index one first. */
  lemma IndexKeyFirst<V>(a: Entry<V>, b: Entry<V>)
    requires !Text.IsArrayIndex(a.key) && Text.IsArrayIndex(b.key)
    ensures OwnEntries([a, b]) == [b, a]
  {
    assert [a, b][1..] == [b];
    assert Seqs.Filter([a, b], IsIndexEntry) == [b];
    assert Seqs.Filter([a, b], IsNameEntry) == [a];
    assert SortByIndex([b]) == [b];
  }

  /** Distinct keys are counted once. */
  lemma {:induction false} DistinctCount<V>(a: seq<Entry<V>>, x: Entry<V>)
    requires DistinctKeys(a)
    ensures multiset(a)[x] <= 1
  {
    if |a| > 0 {
      assert a == [a[0]] + a[1..];
      DistinctCount(a[1..], x);
      if a[0] == x {
        assert x !in a[1..];
      }
    }
  }

  /** A permutation of entries with distinct keys has distinct keys. */
  lemma PermutationDistinct<V>(a: seq<Entry<V>>, b: seq<Entry<V>>)
    requires multiset(a) == multiset(b) && DistinctKeys(a)
    ensures DistinctKeys(b)
  {
    forall i, j | 0 <= i < j < |b| ensures b[i].key != b[j].key {
      if b[i] == b[j] {
        assert b == b[..j] + b[j..];
        assert b[i] in b[..j] && b[j] in b[j..];
        DistinctCount(a, b[i]);
      } else {
        assert b[i] in multiset(a) && b[j] in multiset(a);
      }
    }
  }

  lemma OwnEntriesDistinct<V>(m: seq<Entry<V>>)
    requires DistinctKeys(m)
    ensures DistinctKeys(OwnEntries(m))
  {
    PermutationDistinct(m, OwnEntries(m));
  }

  /** A property read: an absent key reads as `undefined`. */
  function Lookup(m: Record, k: string): Value {
    Get(m, k).GetOr(VUndefined)
  }

  /** JavaScript truthiness (every number is finite here, so only 0 is a falsy number). */
  predicate Truthy(v: Value) {
    match v
    case VUndefined => false
    case VNull => false
    case VBool(b) => b
    case VNum(n) => n != 0
    case VStr(s) => s != ""
    case VList(_) => true
    case VObj(_) => true
  }

  /** `a || b`. */
  function Or(a: Value, b: Value): (r: Value)
    ensures Truthy(a) ==> r == a
    ensures !Truthy(a) ==> r == b
  {
    if Truthy(a) then a else b
  }

  /** Exactly `undefined`, `null`, `false`, `0` and `""` are falsy. */
  lemma FalsyValues(v: Value)
    ensures !Truthy(v) <==> v == VUndefined || v == VNull || v == VBool(false) || v == VNum(0) || v == VStr("")
  {
  }

  /** `a || b` is truthy exactly when one of them is, and `||` groups either way. */
  lemma OrTruthy(a: Value, b: Value, c: Value)
    ensures Truthy(Or(a, b)) <==> Truthy(a) || Truthy(b)
    ensures Or(Or(a, b), c) == Or(a, Or(b, c))
  {
  }

  /** `String` keeps a string as it is and renders a number in decimal, which reads back as the
      number. */
  lemma StringifyReadsBack(v: Value)
    ensures v.VStr? ==> Stringify(v) == v.s
    ensures v.VNum? ==> Text.Denotes(Stringify(v), v.n)
  {
    if v.VNum? {
      Text.IntToStringReadsBack(v.n);
    }
  }

  /** `String(v)`: JavaScript's ToString. An array joins its items with "," (null and undefined
      items become ""); every plain object renders as "[object Object]". */
  function Stringify(v: Value): string
    decreases v, 1
  {
    match v
    case VUndefined => "undefined"
    case VNull => "null"
    case VBool(b) => if b then "true" else "false"
    case VNum(n) => Text.IntToString(n)
    case VStr(s) => s
    case VList(items) => JoinItems(v, 0)
    case VObj(_) => "[object Object]"
  }

  function JoinItems(v: Value, i: nat): string
    requires v.VList? && i <= |v.items|
    decreases v, 0, |v.items| - i
  {
    if i == |v.items| then ""
    else
      var item := v.items[i];
      var text := if item.VUndefined? || item.VNull? then "" else Stringify(item);
      if i + 1 == |v.items| then text else text + "," + JoinItems(v, i + 1)
  }
}
