/** A JavaScript object used as a counter (`acc[k] = (acc[k] || 0) + n`),
    kept as its entries in insertion order: the order in which
    `Object.entries` and `Object.keys` list them for non-numeric keys. */
module Tally {
  import opened Wrappers
  import opened Seqs

  datatype Entry<K> = Entry(key: K, count: int)
  type Counts<K> = seq<Entry<K>>

  /** No key occurs twice, as in any object. */
  predicate Keyed<K(==)>(t: Counts<K>)
  {
    forall i, j :: 0 <= i < j < |t| ==> t[i].key != t[j].key
  }

  predicate HasKey<K(==)>(t: Counts<K>, k: K)
  {
    exists i :: 0 <= i < |t| && t[i].key == k
  }

  /** `Object.keys`. */
  function KeyList<K>(t: Counts<K>): (r: seq<K>)
    ensures |r| == |t|
    ensures forall i :: 0 <= i < |t| ==> r[i] == t[i].key
  {
    seq(|t|, i requires 0 <= i < |t| => t[i].key)
  }

  /** The index of the entry for `k`, the first one should there be several. */
  function Find<K(==)>(t: Counts<K>, k: K): (r: Option<nat>)
    ensures r.Some? ==> r.value < |t| && t[r.value].key == k
                        && forall j :: 0 <= j < r.value ==> t[j].key != k
    ensures r.None? <==> !HasKey(t, k)
  {
    if t == [] then None
    else
      match Find(t[..|t| - 1], k)
      case Some(i) => Some(i)
      case None => if t[|t| - 1].key == k then Some(|t| - 1) else None
  }

  /** `t[k] || 0`. */
  function Get<K(==)>(t: Counts<K>, k: K): int
  {
    match Find(t, k)
    case Some(i) => t[i].count
    case None => 0
  }

  /** `t[k] = (t[k] || 0) + n`: an existing entry is updated in place, a new
      key is appended. */
  function Add<K(==)>(t: Counts<K>, k: K, n: int): (r: Counts<K>)
    ensures HasKey(r, k)
    ensures HasKey(t, k) ==> KeyList(r) == KeyList(t)
    ensures !HasKey(t, k) ==> KeyList(r) == KeyList(t) + [k]
  {
    match Find(t, k)
    case Some(i) =>
      var r := t[i := Entry(k, t[i].count + n)];
      assert r[i].key == k;
      r
    case None =>
      var r := t + [Entry(k, n)];
      assert r[|t|].key == k;
      r
  }

  /** Adding `n` under `k` raises the count of `k` by `n` and leaves every
      other count as it was. */
  lemma AddGet<K>(t: Counts<K>, k: K, n: int, j: K)
    ensures Get(Add(t, k, n), j) == Get(t, j) + (if j == k then n else 0)
  {
    var r := Add(t, k, n);
    match Find(t, k)
    case Some(i) =>
      assert r == t[i := Entry(k, t[i].count + n)];
      if j == k {
        assert Find(r, j) == Some(i);
      } else {
        assert Find(r, j) == Find(t, j) by {
          match Find(t, j)
          case Some(p) =>
            assert r[p] == t[p];
            assert Find(r, j).Some?;
          case None =>
            assert !HasKey(r, j);
        }
      }
    case None =>
      assert r == t + [Entry(k, n)];
      if j == k {
        assert Find(r, j) == Some(|t|);
      } else {
        assert Find(r, j) == Find(t, j) by {
          match Find(t, j)
          case Some(p) =>
            assert r[p] == t[p];
            assert Find(r, j).Some?;
          case None =>
            assert !HasKey(r, j);
        }
      }
  }

  /** Adding keeps the keys distinct. */
  lemma AddKeyed<K>(t: Counts<K>, k: K, n: int)
    requires Keyed(t)
    ensures Keyed(Add(t, k, n))
  {
    var r := Add(t, k, n);
    assert forall i :: 0 <= i < |r| ==> r[i].key == KeyList(r)[i];
    if !HasKey(t, k) {
      assert forall i :: 0 <= i < |t| ==> r[i].key == t[i].key;
    }
  }

  /** The sum of the counts. */
  function Total<K>(t: Counts<K>): int
  {
    if t == [] then 0 else Total(t[..|t| - 1]) + t[|t| - 1].count
  }

  lemma {:induction false} TotalUpdate<K>(t: Counts<K>, i: nat, e: Entry<K>)
    requires i < |t|
    ensures Total(t[i := e]) == Total(t) - t[i].count + e.count
    decreases |t|
  {
    var r := t[i := e];
    if i < |t| - 1 {
      assert r[..|r| - 1] == t[..|t| - 1][i := e];
      TotalUpdate(t[..|t| - 1], i, e);
    } else {
      assert r[..|r| - 1] == t[..|t| - 1];
    }
  }

  /** Adding `n` raises the total by `n`. */
  lemma AddTotal<K>(t: Counts<K>, k: K, n: int)
    ensures Total(Add(t, k, n)) == Total(t) + n
  {
    match Find(t, k)
    case Some(i) =>
      TotalUpdate(t, i, Entry(k, t[i].count + n));
    case None =>
      assert (t + [Entry(k, n)])[..|t|] == t;
  }

  /** The counter `ks.reduce((acc, k) => { acc[k] = (acc[k] || 0) + 1; ... }, {})`. */
  function TallyOf<K(==)>(ks: seq<K>): Counts<K>
  {
    if ks == [] then [] else Add(TallyOf(ks[..|ks| - 1]), ks[|ks| - 1], 1)
  }

  /** Each key's count is its number of occurrences; the keys are the
      distinct elements in order of first occurrence; the counts add up to
      the number of elements. */
  lemma {:induction false} TallyCounts<K(!new)>(ks: seq<K>)
    ensures Keyed(TallyOf(ks))
    ensures KeyList(TallyOf(ks)) == Distinct(ks)
    ensures Total(TallyOf(ks)) == |ks|
    ensures forall k :: Get(TallyOf(ks), k) == Occurrences(ks, k)
  {
    if ks != [] {
      var init, x := ks[..|ks| - 1], ks[|ks| - 1];
      TallyCounts(init);
      var t := TallyOf(init);
      AddKeyed(t, x, 1);
      AddTotal(t, x, 1);
      assert HasKey(t, x) <==> x in Distinct(init) by {
        if HasKey(t, x) {
          var i :| 0 <= i < |t| && t[i].key == x;
          assert KeyList(t)[i] == x;
        }
        if x in Distinct(init) {
          var i :| 0 <= i < |Distinct(init)| && Distinct(init)[i] == x;
          assert t[i].key == x;
        }
      }
      forall k
        ensures Get(TallyOf(ks), k) == Occurrences(ks, k)
      {
        AddGet(t, x, 1, k);
      }
    }
  }

  /** The first entry of greatest count in a tally is a key occurring at
      least as often as any other. */
  lemma FirstMaxOccurs<K(!new)>(ks: seq<K>) returns (i: nat)
    requires ks != []
    ensures FirstMax(TallyOf(ks)) == Some(i)
    ensures TallyOf(ks)[i].key in ks
    ensures forall u :: Occurrences(ks, u) <= Occurrences(ks, TallyOf(ks)[i].key)
  {
    var t := TallyOf(ks);
    TallyCounts(ks);
    assert ks[0] in Distinct(ks);
    i := FirstMax(t).value;
    var top := t[i].key;
    assert KeyList(t)[i] == top;
    GetAt(t, i);
    forall u
      ensures Occurrences(ks, u) <= Occurrences(ks, top)
    {
      TallyAtMost(ks, i, u);
    }
  }

  lemma TallyAtMost<K(!new)>(ks: seq<K>, i: nat, u: K)
    requires Keyed(TallyOf(ks)) && KeyList(TallyOf(ks)) == Distinct(ks)
    requires forall k :: Get(TallyOf(ks), k) == Occurrences(ks, k)
    requires FirstMax(TallyOf(ks)) == Some(i)
    ensures Occurrences(ks, u) <= Get(TallyOf(ks), TallyOf(ks)[i].key)
  {
    var t := TallyOf(ks);
    GetAt(t, i);
    if u in ks {
      var j :| 0 <= j < |Distinct(ks)| && Distinct(ks)[j] == u;
      GetAt(t, j);
    }
  }

  /** `Object.entries(t).forEach(([k, n]) => acc[k] = (acc[k] || 0) + n)`. */
  function MergeInto<K(==)>(acc: Counts<K>, t: Counts<K>): Counts<K>
  {
    if t == [] then acc
    else
      var e := t[|t| - 1];
      Add(MergeInto(acc, t[..|t| - 1]), e.key, e.count)
  }

  /** After merging, each key's count is its count in the accumulator plus
      its count in the merged object. */
  lemma {:induction false} MergeIntoGet<K>(acc: Counts<K>, t: Counts<K>, k: K)
    requires Keyed(t)
    ensures Get(MergeInto(acc, t), k) == Get(acc, k) + Get(t, k)
  {
    if t != [] {
      var init, e := t[..|t| - 1], t[|t| - 1];
      MergeIntoGet(acc, init, k);
      AddGet(MergeInto(acc, init), e.key, e.count, k);
      if e.key == k {
        assert Find(t, k) == Some(|t| - 1);
        assert !HasKey(init, k);
      } else {
        assert Find(t, k) == Find(init, k);
      }
    }
  }

  lemma {:induction false} MergeIntoKeyed<K>(acc: Counts<K>, t: Counts<K>)
    requires Keyed(acc)
    ensures Keyed(MergeInto(acc, t))
  {
    if t != [] {
      MergeIntoKeyed(acc, t[..|t| - 1]);
      AddKeyed(MergeInto(acc, t[..|t| - 1]), t[|t| - 1].key, t[|t| - 1].count);
    }
  }

  /** The totals add up too. */
  lemma {:induction false} MergeIntoTotal<K>(acc: Counts<K>, t: Counts<K>)
    ensures Total(MergeInto(acc, t)) == Total(acc) + Total(t)
  {
    if t != [] {
      MergeIntoTotal(acc, t[..|t| - 1]);
      AddTotal(MergeInto(acc, t[..|t| - 1]), t[|t| - 1].key, t[|t| - 1].count);
    }
  }

  /** The index of the first entry of greatest count: the head of the entries
      sorted by a stable descending sort on the counts. */
  function FirstMax<K>(t: Counts<K>): (r: Option<nat>)
    ensures r.None? <==> t == []
    ensures r.Some? ==> r.value < |t|
                        && (forall j :: 0 <= j < |t| ==> t[j].count <= t[r.value].count)
                        && (forall j :: 0 <= j < r.value ==> t[j].count < t[r.value].count)
  {
    if t == [] then None
    else
      match FirstMax(t[..|t| - 1])
      case None => Some(0)
      case Some(b) =>
        assert forall j :: 0 <= j < |t| - 1 ==> t[..|t| - 1][j] == t[j];
        if t[|t| - 1].count > t[b].count then Some(|t| - 1) else Some(b)
  }

  /** Entry `i` has the greatest count and no earlier entry has it. */
  predicate IsFirstMax<K>(t: Counts<K>, i: int)
  {
    0 <= i < |t| && (forall j :: 0 <= j < |t| ==> t[j].count <= t[i].count)
    && (forall j :: 0 <= j < i ==> t[j].count < t[i].count)
  }

  /** There is one first entry of greatest count, and `FirstMax` finds it. */
  lemma FirstMaxUnique<K>(t: Counts<K>, i: int)
    requires IsFirstMax(t, i)
    ensures FirstMax(t) == Some(i)
  {
  }

  predicate SortedDesc<K>(s: Counts<K>)
  {
    forall i, j :: 0 <= i < j < |s| ==> s[i].count >= s[j].count
  }

  /** Puts `e` after every entry whose count is at least its own. */
  function Insert<K>(e: Entry<K>, s: Counts<K>): (r: Counts<K>)
    ensures |r| == |s| + 1
    ensures multiset(r) == multiset(s) + multiset{e}
    ensures r[0] == (if s == [] || s[0].count < e.count then e else s[0])
  {
    if s == [] then [e]
    else if s[0].count < e.count then [e] + s
    else
      assert s == [s[0]] + s[1..];
      [s[0]] + Insert(e, s[1..])
  }

  /** No count above `c`. */
  predicate AtMost<K>(s: Counts<K>, c: int)
  {
    forall j :: 0 <= j < |s| ==> s[j].count <= c
  }

  lemma {:induction false} InsertAtMost<K>(e: Entry<K>, s: Counts<K>, c: int)
    requires AtMost(s, c) && e.count <= c
    ensures AtMost(Insert(e, s), c)
  {
    if s != [] && s[0].count >= e.count {
      InsertAtMost(e, s[1..], c);
    }
  }

  lemma ConsSorted<K>(x: Entry<K>, tail: Counts<K>)
    requires SortedDesc(tail) && AtMost(tail, x.count)
    ensures SortedDesc([x] + tail)
  {
    var r := [x] + tail;
    forall i, j | 0 <= i < j < |r|
      ensures r[i].count >= r[j].count
    {
      assert r[j] == tail[j - 1];
      if i > 0 {
        assert r[i] == tail[i - 1];
      }
    }
  }

  lemma {:induction false} InsertSorted<K>(e: Entry<K>, s: Counts<K>)
    requires SortedDesc(s)
    ensures SortedDesc(Insert(e, s))
  {
    if s == [] {
    } else if s[0].count < e.count {
      ConsSorted(e, s);
    } else {
      InsertSorted(e, s[1..]);
      InsertAtMost(e, s[1..], s[0].count);
      ConsSorted(s[0], Insert(e, s[1..]));
    }
  }

  /** `Object.entries(t).sort((a, b) => b[1] - a[1])`: a stable sort on
      descending counts, written as an insertion sort. */
  function SortDesc<K>(t: Counts<K>): (r: Counts<K>)
    ensures |r| == |t|
    ensures multiset(r) == multiset(t)
  {
    if t == [] then []
    else
      assert t == t[..|t| - 1] + [t[|t| - 1]];
      Insert(t[|t| - 1], SortDesc(t[..|t| - 1]))
  }

  /** The sort orders the entries by descending count. */
  lemma {:induction false} SortSorted<K>(t: Counts<K>)
    ensures SortedDesc(SortDesc(t))
  {
    if t != [] {
      SortSorted(t[..|t| - 1]);
      InsertSorted(t[|t| - 1], SortDesc(t[..|t| - 1]));
    }
  }

  /** The sorted head is the first entry of greatest count. */
  lemma {:induction false} SortHead<K>(t: Counts<K>)
    requires t != []
    ensures SortDesc(t)[0] == t[FirstMax(t).value]
  {
    var init := t[..|t| - 1];
    if init != [] {
      SortHead(init);
    }
  }

  /** `.slice(0, n)` of the sorted entries. */
  function Top<K>(t: Counts<K>, n: nat): (r: Counts<K>)
    ensures |r| == (if n < |t| then n else |t|)
  {
    SortDesc(t)[..if n < |t| then n else |t|]
  }

  /** The first `n` sorted entries are sorted and drawn from `t`, and no
      entry left behind counts more than the last one kept. */
  lemma TopEntries<K>(t: Counts<K>, n: nat)
    ensures SortedDesc(Top(t, n))
    ensures multiset(Top(t, n)) + multiset(SortDesc(t)[|Top(t, n)|..]) == multiset(t)
    ensures Top(t, n) != [] ==> forall e :: e in SortDesc(t)[|Top(t, n)|..] ==> e.count <= Top(t, n)[|Top(t, n)| - 1].count
  {
    var s := SortDesc(t);
    SortSorted(t);
    var m := |Top(t, n)|;
    assert s == s[..m] + s[m..];
    if m > 0 {
      forall e | e in s[m..]
        ensures e.count <= s[m - 1].count
      {
        var j :| 0 <= j < |s[m..]| && s[m..][j] == e;
        assert s[m + j] == e;
      }
    }
  }

  /** Whether `t[a] > t[b]` holds, an absent key reading as `undefined`
      (every comparison with which is false). */
  predicate Beats<K(==)>(t: Counts<K>, a: K, b: K)
  {
    HasKey(t, a) && HasKey(t, b) && Get(t, a) > Get(t, b)
  }

  /** `Object.keys(t).slice(0, n).reduce((a, b) => t[a] > t[b] ? a : b, init)`. */
  function ReduceMax<K(==)>(t: Counts<K>, n: nat, init: K): K
    requires n <= |t|
  {
    if n == 0 then init
    else
      var a := ReduceMax(t, n - 1, init);
      if Beats(t, a, t[n - 1].key) then a else t[n - 1].key
  }

  /** In an object, the count of the key at `i` is the count stored there. */
  lemma GetAt<K>(t: Counts<K>, i: nat)
    requires Keyed(t) && i < |t|
    ensures Get(t, t[i].key) == t[i].count
  {
    assert Find(t, t[i].key) == Some(i);
  }

  /** The entry opening the table is the one `Get` reads for its key. */
  lemma GetFirst<K>(t: Counts<K>, k: K)
    requires |t| > 0 && t[0].key == k
    ensures Get(t, k) == t[0].count
  {
    assert HasKey(t, k);
  }

  /** The key at `i` is the last one of greatest count among the first `n`. */
  predicate LastMaxAt<K>(t: Counts<K>, n: nat, i: nat)
    requires n <= |t|
  {
    i < n
    && (forall j :: 0 <= j < n ==> t[j].count <= t[i].count)
    && (forall j :: i < j < n ==> t[j].count < t[i].count)
  }

  /** The entry at `p`, not yet reached, counts more than the first `n`. */
  predicate AheadOf<K>(t: Counts<K>, n: nat, p: nat)
  {
    n <= p < |t| && forall j :: 0 <= j < n ==> t[j].count < t[p].count
  }

  /** One step of the reduce from the last key of greatest count so far. */
  lemma StepFromLast<K>(t: Counts<K>, n: nat, i: nat)
    requires Keyed(t) && 0 < n <= |t| && LastMaxAt(t, n - 1, i)
    ensures var b := t[n - 1].key;
            if Beats(t, t[i].key, b) then LastMaxAt(t, n, i) else LastMaxAt(t, n, n - 1)
  {
    GetAt(t, i);
    GetAt(t, n - 1);
  }

  /** One step of the reduce from an initial value that is a key further on. */
  lemma StepFromInit<K>(t: Counts<K>, n: nat, p: nat)
    requires Keyed(t) && 0 < n <= |t| && AheadOf(t, n - 1, p)
    ensures var b := t[n - 1].key;
            if Beats(t, t[p].key, b) then AheadOf(t, n, p) else LastMaxAt(t, n, n - 1)
  {
    GetAt(t, p);
    GetAt(t, n - 1);
  }

  /** The first step of the reduce, from the initial value. */
  lemma StepFirst<K>(t: Counts<K>, init: K) returns (p: nat)
    requires Keyed(t) && 0 < |t|
    ensures Beats(t, init, t[0].key) ==> AheadOf(t, 1, p) && t[p].key == init
    ensures !Beats(t, init, t[0].key) ==> LastMaxAt(t, 1, 0)
  {
    if Beats(t, init, t[0].key) {
      p :| 0 <= p < |t| && t[p].key == init;
      StepFromInit(t, 1, p);
    } else {
      p := 0;
    }
  }

  /** What the reduce holds after the first `n` keys: the last key of
      greatest count so far (`kind == 0`, at index `i`), or, while that key
      has not been reached, the initial value when it is itself a key
      counting more than all of them (`kind == 1`, at index `i`), or, before
      any key, the initial value (`kind == 2`). */
  lemma {:induction false} ReduceMaxState<K>(t: Counts<K>, n: nat, init: K) returns (kind: nat, i: nat)
    requires Keyed(t) && n <= |t|
    ensures kind == 0 ==> LastMaxAt(t, n, i) && ReduceMax(t, n, init) == t[i].key
    ensures kind == 1 ==> AheadOf(t, n, i) && t[i].key == init && ReduceMax(t, n, init) == init
    ensures kind == 2 ==> n == 0 && ReduceMax(t, n, init) == init
    ensures kind <= 2
  {
    if n == 0 {
      return 2, 0;
    }
    var k, j := ReduceMaxState(t, n - 1, init);
    if k == 0 {
      kind := 0;
      i := ReduceFromLast(t, n, init, j);
    } else if k == 1 {
      kind, i := ReduceFromInit(t, n, init, j);
    } else {
      kind, i := ReduceFirst(t, init);
    }
  }

  lemma ReduceFromLast<K>(t: Counts<K>, n: nat, init: K, j: nat) returns (i: nat)
    requires Keyed(t) && 0 < n <= |t|
    requires LastMaxAt(t, n - 1, j) && ReduceMax(t, n - 1, init) == t[j].key
    ensures LastMaxAt(t, n, i) && ReduceMax(t, n, init) == t[i].key
  {
    StepFromLast(t, n, j);
    i := if Beats(t, t[j].key, t[n - 1].key) then j else n - 1;
  }

  lemma ReduceFromInit<K>(t: Counts<K>, n: nat, init: K, j: nat) returns (kind: nat, i: nat)
    requires Keyed(t) && 0 < n <= |t|
    requires AheadOf(t, n - 1, j) && t[j].key == init && ReduceMax(t, n - 1, init) == init
    ensures kind == 0 ==> LastMaxAt(t, n, i) && ReduceMax(t, n, init) == t[i].key
    ensures kind == 1 ==> AheadOf(t, n, i) && t[i].key == init && ReduceMax(t, n, init) == init
    ensures kind <= 1
  {
    StepFromInit(t, n, j);
    if Beats(t, init, t[n - 1].key) { kind, i := 1, j; } else { kind, i := 0, n - 1; }
  }

  lemma ReduceFirst<K>(t: Counts<K>, init: K) returns (kind: nat, i: nat)
    requires Keyed(t) && 0 < |t|
    ensures kind == 0 ==> LastMaxAt(t, 1, i) && ReduceMax(t, 1, init) == t[i].key
    ensures kind == 1 ==> AheadOf(t, 1, i) && t[i].key == init && ReduceMax(t, 1, init) == init
    ensures kind <= 1
  {
    var p := StepFirst(t, init);
    if Beats(t, init, t[0].key) { kind, i := 1, p; } else { kind, i := 0, 0; }
  }

  /** Over all the keys of a non-empty object the reduce yields the last key
      of greatest count, whatever the initial value; over no keys it yields
      the initial value. */
  lemma ReduceMaxLast<K>(t: Counts<K>, init: K)
    requires Keyed(t)
    ensures t == [] ==> ReduceMax(t, |t|, init) == init
    ensures t != [] ==> exists i :: 0 <= i < |t| && ReduceMax(t, |t|, init) == t[i].key && LastMaxAt(t, |t|, i)
  {
    var kind, i := ReduceMaxState(t, |t|, init);
    if t != [] {
      assert ReduceMax(t, |t|, init) == t[i].key && LastMaxAt(t, |t|, i);
    }
  }
}
