/** Shared vocabulary of the dealership model: optional values, ASCII text
    helpers, a stable sort by an integer key, filtering, truncation, sums and
    the insertion-ordered dictionary that Python's `dict` provides. */
module Common {

  datatype Option<T> = None | Some(value: T)

  datatype Result<T, E> = Ok(value: T) | Err(error: E)

  // ---------------------------------------------------------------------------
  // Characters and strings (ASCII only)
  // ---------------------------------------------------------------------------

  predicate IsUpperAscii(c: char) { 'A' <= c <= 'Z' }
  predicate IsLowerAscii(c: char) { 'a' <= c <= 'z' }
  predicate IsDigit(c: char) { '0' <= c <= '9' }
  predicate IsAlnum(c: char) { IsUpperAscii(c) || IsLowerAscii(c) || IsDigit(c) }

  function LowerChar(c: char): char
  {
    if IsUpperAscii(c) then (c as int + 32) as char else c
  }

  function UpperChar(c: char): char
  {
    if IsLowerAscii(c) then (c as int - 32) as char else c
  }

  /** `str.lower()` / `String.prototype.toLowerCase` restricted to ASCII. */
  function ToLower(s: string): (r: string)
    ensures |r| == |s|
    ensures forall i :: 0 <= i < |s| ==> r[i] == LowerChar(s[i])
  {
    if s == [] then [] else [LowerChar(s[0])] + ToLower(s[1..])
  }

  /** `str.upper()` / `String.prototype.toUpperCase` restricted to ASCII. */
  function ToUpper(s: string): (r: string)
    ensures |r| == |s|
    ensures forall i :: 0 <= i < |s| ==> r[i] == UpperChar(s[i])
  {
    if s == [] then [] else [UpperChar(s[0])] + ToUpper(s[1..])
  }

  /** `hay.includes(needle)` / Python's `needle in hay`. */
  predicate Includes(hay: string, needle: string)
  {
    exists i :: 0 <= i <= |hay| && needle <= hay[i..]
  }

  lemma EmptyIsIncluded(hay: string)
    ensures Includes(hay, "")
  {
    assert "" <= hay[0..];
  }

  /** `hay.startsWith(prefix)`. */
  predicate StartsWith(hay: string, prefix: string)
  {
    prefix <= hay
  }

  /** Decimal text of a natural number, as `String(n)` / `str(n)` print it. */
  function NatToString(n: nat): (r: string)
    ensures |r| >= 1
    ensures forall i :: 0 <= i < |r| ==> IsDigit(r[i])
    decreases n
  {
    if n < 10 then [DigitChar(n)] else NatToString(n / 10) + [DigitChar(n % 10)]
  }

  function DigitChar(d: nat): (c: char)
    requires d < 10
    ensures IsDigit(c)
  {
    ('0' as int + d) as char
  }

  function IntToString(n: int): string
  {
    if n < 0 then "-" + NatToString(-n) else NatToString(n)
  }

  /** `s.split(" ")` on a single space, as JavaScript does it: every space is
      a separator, so consecutive spaces give empty tokens. */
  function SplitOnSpace(s: string): (r: seq<string>)
    ensures |r| >= 1
    ensures forall k :: 0 <= k < |r| ==> ' ' !in r[k]
    decreases |s|
  {
    if ' ' !in s then [s]
    else
      var i := IndexOf(s, ' ');
      [s[..i]] + SplitOnSpace(s[i + 1..])
  }

  /** Joins tokens with single spaces: the inverse of `SplitOnSpace`. */
  function JoinSpace(parts: seq<string>): string
    requires |parts| >= 1
  {
    if |parts| == 1 then parts[0] else parts[0] + " " + JoinSpace(parts[1..])
  }

  /** Splitting on spaces loses nothing: joining the tokens gives `s` back. */
  lemma {:induction false} SplitJoin(s: string)
    ensures JoinSpace(SplitOnSpace(s)) == s
    decreases |s|
  {
    if ' ' in s {
      var i := IndexOf(s, ' ');
      SplitJoin(s[i + 1..]);
      assert SplitOnSpace(s)[1..] == SplitOnSpace(s[i + 1..]);
      assert s == s[..i] + " " + s[i + 1..];
    }
  }

  /** A space-free word followed by a space is the first token. */
  lemma SplitAfterWord(a: string, t: string)
    requires ' ' !in a
    ensures SplitOnSpace(a + " " + t) == [a] + SplitOnSpace(t)
  {
    var s := a + " " + t;
    assert s[|a|] == ' ';
    var i := IndexOf(s, ' ');
    assert s[..|a|] == a;
    assert forall k :: 0 <= k < |a| ==> s[k] == a[k];
    assert i <= |a| ==> s[..i] == a[..i];
    assert i == |a|;
    assert s[..i] == a && s[i + 1..] == t;
  }

  function IndexOf(s: string, c: char): (i: nat)
    requires c in s
    ensures i < |s| && s[i] == c && c !in s[..i]
  {
    if s[0] == c then 0 else 1 + IndexOf(s[1..], c)
  }

  // ---------------------------------------------------------------------------
  // Sequences
  // ---------------------------------------------------------------------------

  function Min(a: int, b: int): int { if a <= b then a else b }

  /** `s[:n]` / `s.slice(0, n)`. */
  function Take<T>(s: seq<T>, n: nat): (r: seq<T>)
    ensures |r| == Min(n, |s|)
    ensures r == s[..|r|]
  {
    if n < |s| then s[..n] else s
  }

  /** `s.filter(p)` / a list comprehension with a condition. */
  function Filter<T>(s: seq<T>, p: T -> bool): (r: seq<T>)
    ensures |r| <= |s|
    ensures forall i :: 0 <= i < |r| ==> p(r[i]) && r[i] in s
    ensures forall i :: 0 <= i < |s| && p(s[i]) ==> s[i] in r
  {
    if s == [] then [] else (if p(s[0]) then [s[0]] else []) + Filter(s[1..], p)
  }

  /** `a` can be obtained from `b` by deleting elements: order is kept. */
  predicate IsSubsequence<T(==)>(a: seq<T>, b: seq<T>)
    decreases |b|
  {
    if a == [] then true
    else if b == [] then false
    else if a[0] == b[0] then IsSubsequence(a[1..], b[1..])
    else IsSubsequence(a, b[1..])
  }

  lemma {:induction false} FilterIsSubsequence<T>(s: seq<T>, p: T -> bool)
    ensures IsSubsequence(Filter(s, p), s)
  {
    if s != [] {
      FilterIsSubsequence(s[1..], p);
      if !p(s[0]) {
        assert Filter(s, p) == Filter(s[1..], p);
        SubsequenceDropHead(Filter(s[1..], p), s);
      } else {
        assert Filter(s, p) == [s[0]] + Filter(s[1..], p);
      }
    }
  }

  lemma {:induction false} SubsequenceDropHead<T>(a: seq<T>, b: seq<T>)
    requires b != []
    requires IsSubsequence(a, b[1..])
    ensures IsSubsequence(a, b)
    decreases |b|, 0
  {
    if a != [] && a[0] == b[0] {
      SubsequenceTail(a, b[1..]);
    }
  }

  lemma {:induction false} SubsequenceTail<T>(a: seq<T>, c: seq<T>)
    requires a != [] && IsSubsequence(a, c)
    ensures IsSubsequence(a[1..], c)
    decreases |c|, 1
  {
    if a[0] == c[0] {
      if a[1..] != [] { SubsequenceDropHead(a[1..], c); }
    } else {
      SubsequenceTail(a, c[1..]);
      if a[1..] != [] { SubsequenceDropHead(a[1..], c); }
    }
  }

  lemma {:induction false} FilterKeepsAll<T>(s: seq<T>, p: T -> bool)
    requires forall i :: 0 <= i < |s| ==> p(s[i])
    ensures Filter(s, p) == s
  {
    if s != [] {
      FilterKeepsAll(s[1..], p);
    }
  }

  lemma {:induction false} FilterConcat<T>(a: seq<T>, b: seq<T>, p: T -> bool)
    ensures Filter(a + b, p) == Filter(a, p) + Filter(b, p)
  {
    if a == [] {
      assert a + b == b;
    } else {
      assert (a + b)[1..] == a[1..] + b;
      FilterConcat(a[1..], b, p);
    }
  }

  /** A relation every earlier/later pair of `s` satisfies still holds for
      every earlier/later pair of a filter of `s`. */
  lemma {:induction false} FilterKeepsPairwise<T>(s: seq<T>, p: T -> bool, rel: (T, T) -> bool)
    requires forall i, j :: 0 <= i < j < |s| ==> rel(s[i], s[j])
    ensures forall i, j :: 0 <= i < j < |Filter(s, p)| ==> rel(Filter(s, p)[i], Filter(s, p)[j])
  {
    if s != [] {
      var rest := s[1..];
      forall i, j | 0 <= i < j < |rest| ensures rel(rest[i], rest[j]) {
        assert rest[i] == s[i + 1] && rest[j] == s[j + 1];
      }
      var tail := Filter(rest, p);
      FilterKeepsPairwise(rest, p, rel);
      var r := Filter(s, p);
      if p(s[0]) {
        assert r == [s[0]] + tail;
        HeadBeforeFiltered(s, p, rel);
        forall i, j | 0 <= i < j < |r| ensures rel(r[i], r[j]) {
          if i == 0 {
            assert r[j] == tail[j - 1];
          } else {
            assert r[i] == tail[i - 1] && r[j] == tail[j - 1];
          }
        }
      } else {
        assert r == tail;
      }
    }
  }

  /** The head of a pairwise-related sequence is related to every element
      kept from its tail. */
  lemma HeadBeforeFiltered<T>(s: seq<T>, p: T -> bool, rel: (T, T) -> bool)
    requires s != [] && forall i, j :: 0 <= i < j < |s| ==> rel(s[i], s[j])
    ensures forall j :: 0 <= j < |Filter(s[1..], p)| ==> rel(s[0], Filter(s[1..], p)[j])
  {
    forall j | 0 <= j < |Filter(s[1..], p)| ensures rel(s[0], Filter(s[1..], p)[j]) {
      var k := FilterFromIndex(s[1..], p, j);
      assert s[1..][k] == s[k + 1];
    }
  }

  /** Every kept element sits at some index of the input. */
  lemma FilterFromIndex<T>(s: seq<T>, p: T -> bool, j: nat) returns (k: nat)
    requires j < |Filter(s, p)|
    ensures k < |s| && s[k] == Filter(s, p)[j]
  {
    assert Filter(s, p)[j] in s;
    k :| k < |s| && s[k] == Filter(s, p)[j];
  }

  /** Some element of `s` satisfies `p` iff one of all but the last does, or the last does. */
  lemma ExistsSnoc<T>(s: seq<T>, init: seq<T>, p: T -> bool)
    requires s != [] && init == s[..|s| - 1]
    ensures (exists i :: 0 <= i < |s| && p(s[i])) <==> (exists i :: 0 <= i < |init| && p(init[i])) || p(s[|s| - 1])
  {
    if exists i :: 0 <= i < |init| && p(init[i]) {
      var i :| 0 <= i < |init| && p(init[i]);
      assert s[i] == init[i];
    }
    if exists i :: 0 <= i < |s| && p(s[i]) {
      var i :| 0 <= i < |s| && p(s[i]);
      if i < |init| {
        assert init[i] == s[i];
      }
    }
  }

  /** Sum of `f` over `s`, accumulated from the left as a loop does. */
  function SumOf<T>(s: seq<T>, f: T -> int): int
  {
    if s == [] then 0 else SumOf(s[..|s| - 1], f) + f(s[|s| - 1])
  }

  /** Largest id in a table, 0 for an empty table. */
  function MaxId<T>(s: seq<T>, id: T -> int): (m: int)
    ensures m >= 0
    ensures forall i :: 0 <= i < |s| ==> id(s[i]) <= m
  {
    if s == [] then 0
    else
      var m := MaxId(s[..|s| - 1], id);
      if id(s[|s| - 1]) > m then id(s[|s| - 1]) else m
  }

  /** The id an auto-increment primary key hands to the next inserted row. */
  function NextId<T>(s: seq<T>, id: T -> int): (n: int)
    ensures n >= 1
    ensures forall i :: 0 <= i < |s| ==> id(s[i]) != n
  {
    MaxId(s, id) + 1
  }

  // ---------------------------------------------------------------------------
  // Stable sort by an integer key (Python's `list.sort`, JavaScript's
  // `Array.prototype.sort`, both stable).  Descending orders use a negated key.
  // ---------------------------------------------------------------------------

  predicate SortedBy<T>(s: seq<T>, key: T -> int)
  {
    forall i, j :: 0 <= i < j < |s| ==> key(s[i]) <= key(s[j])
  }

  predicate LowerBound<T>(b: int, s: seq<T>, key: T -> int)
  {
    forall i :: 0 <= i < |s| ==> b <= key(s[i])
  }

  /** Inserts `x` before the first element whose key is not smaller. */
  function Insert<T>(x: T, s: seq<T>, key: T -> int): (r: seq<T>)
    ensures |r| == |s| + 1
    ensures multiset(r) == multiset(s) + multiset{x}
  {
    if s == [] then [x]
    else if key(x) <= key(s[0]) then [x] + s
    else
      assert s == [s[0]] + s[1..];
      [s[0]] + Insert(x, s[1..], key)
  }

  lemma {:induction false} InsertLowerBound<T>(x: T, s: seq<T>, key: T -> int, b: int)
    requires LowerBound(b, s, key) && b <= key(x)
    ensures LowerBound(b, Insert(x, s, key), key)
  {
    if s != [] && key(x) > key(s[0]) {
      InsertLowerBound(x, s[1..], key, b);
    }
  }

  lemma {:induction false} InsertSorted<T>(x: T, s: seq<T>, key: T -> int)
    requires SortedBy(s, key)
    ensures SortedBy(Insert(x, s, key), key)
  {
    if s != [] && key(x) > key(s[0]) {
      InsertSorted(x, s[1..], key);
      InsertLowerBound(x, s[1..], key, key(s[0]));
    }
  }

  /** Stable insertion sort, ascending by `key`. */
  function SortByKey<T>(s: seq<T>, key: T -> int): (r: seq<T>)
    ensures |r| == |s|
    ensures multiset(r) == multiset(s)
  {
    if s == [] then []
    else
      assert s == [s[0]] + s[1..];
      Insert(s[0], SortByKey(s[1..], key), key)
  }

  lemma {:induction false} SortByKeySorted<T>(s: seq<T>, key: T -> int)
    ensures SortedBy(SortByKey(s, key), key)
  {
    if s != [] {
      SortByKeySorted(s[1..], key);
      InsertSorted(s[0], SortByKey(s[1..], key), key);
    }
  }

  /** Index of the first element whose key is smallest. */
  function FirstMinIndex<T>(s: seq<T>, key: T -> int): (r: nat)
    requires |s| > 0
    ensures r < |s|
    ensures forall i :: 0 <= i < |s| ==> key(s[r]) <= key(s[i])
    ensures forall i :: 0 <= i < r ==> key(s[r]) < key(s[i])
  {
    if |s| == 1 then 0
    else
      var j := FirstMinIndex(s[1..], key) + 1;
      if key(s[0]) <= key(s[j]) then 0 else j
  }

  /** Stability where it shows: the head of the sorted list is the first
      element, in input order, among those with the smallest key. */
  lemma {:induction false} SortByKeyHead<T>(s: seq<T>, key: T -> int)
    requires |s| > 0
    ensures SortByKey(s, key)[0] == s[FirstMinIndex(s, key)]
  {
    if |s| > 1 {
      SortByKeyHead(s[1..], key);
    }
  }

  /** An element of `sorted(rows, key)[:n]` comes from the input. */
  lemma TakeSortedFromInput<T>(s: seq<T>, key: T -> int, n: nat, i: nat)
    requires i < |Take(SortByKey(s, key), n)|
    ensures Take(SortByKey(s, key), n)[i] in s
  {
    var r := SortByKey(s, key);
    assert Take(r, n)[i] == r[i] && r[i] in multiset(r);
  }

  /** `sorted(rows, key)[:n]` keeps the elements with the smallest keys: no
      element kept has a key above that of an element left out. */
  lemma TakeSortedKeepsSmallest<T>(s: seq<T>, key: T -> int, n: nat, x: T, i: nat)
    requires x in s && x !in Take(SortByKey(s, key), n) && i < |Take(SortByKey(s, key), n)|
    ensures key(Take(SortByKey(s, key), n)[i]) <= key(x)
  {
    var r := SortByKey(s, key);
    var kept := Take(r, n);
    SortByKeySorted(s, key);
    assert x in multiset(r);
    var k :| 0 <= k < |r| && r[k] == x;
    assert kept[i] == r[i];
  }

  /** The same two facts when only the rows satisfying `p` are sorted. */
  lemma TakeSortedFilterFromInput<T>(s: seq<T>, p: T -> bool, key: T -> int, n: nat, i: nat)
    requires i < |Take(SortByKey(Filter(s, p), key), n)|
    ensures Take(SortByKey(Filter(s, p), key), n)[i] in s && p(Take(SortByKey(Filter(s, p), key), n)[i])
  {
    TakeSortedFromInput(Filter(s, p), key, n, i);
  }

  lemma TakeSortedFilterKeepsSmallest<T>(s: seq<T>, p: T -> bool, key: T -> int, n: nat, x: T, i: nat)
    requires x in s && p(x) && x !in Take(SortByKey(Filter(s, p), key), n)
    requires i < |Take(SortByKey(Filter(s, p), key), n)|
    ensures key(Take(SortByKey(Filter(s, p), key), n)[i]) <= key(x)
  {
    var k :| 0 <= k < |s| && s[k] == x;
    TakeSortedKeepsSmallest(Filter(s, p), key, n, x, i);
  }

  /** `sorted(rows, key)[:n]` is the top `n` rows: its order, where its
      rows come from, and that no row left out has a smaller key than a row
      kept. */
  lemma TopSorted<T>(s: seq<T>, key: T -> int, n: nat, r: seq<T>)
    requires r == Take(SortByKey(s, key), n)
    ensures forall i, j :: 0 <= i < j < |r| ==> key(r[i]) <= key(r[j])
    ensures forall i :: 0 <= i < |r| ==> r[i] in s
    ensures forall x, i :: x in s && x !in r && 0 <= i < |r| ==> key(r[i]) <= key(x)
  {
    var all := (x: T) => true;
    FilterKeepsAll(s, all);
    TopFiltered(s, all, key, n, r);
  }

  /** `sorted(filter(p, rows), key)[:n]` is the top `n` rows satisfying `p`:
      its length, its order, where its rows come from, and that no row left
      out has a smaller key than a row kept. */
  lemma TopFiltered<T>(s: seq<T>, p: T -> bool, key: T -> int, n: nat, r: seq<T>)
    requires r == Take(SortByKey(Filter(s, p), key), n)
    ensures |r| == Min(n, |Filter(s, p)|)
    ensures forall i, j :: 0 <= i < j < |r| ==> key(r[i]) <= key(r[j])
    ensures forall i :: 0 <= i < |r| ==> r[i] in s && p(r[i])
    ensures forall x, i :: x in s && p(x) && x !in r && 0 <= i < |r| ==> key(r[i]) <= key(x)
  {
    var sorted := SortByKey(Filter(s, p), key);
    SortByKeySorted(Filter(s, p), key);
    forall i, j | 0 <= i < j < |r| ensures key(r[i]) <= key(r[j]) {
      assert r[i] == sorted[i] && r[j] == sorted[j];
    }
    forall i | 0 <= i < |r| ensures r[i] in s && p(r[i]) {
      TakeSortedFilterFromInput(s, p, key, n, i);
    }
    forall x, i | x in s && p(x) && x !in r && 0 <= i < |r| ensures key(r[i]) <= key(x) {
      TakeSortedFilterKeepsSmallest(s, p, key, n, x, i);
    }
  }

  lemma SortByKeyEmpty<T>(s: seq<T>, key: T -> int)
    ensures SortByKey(s, key) == [] <==> s == []
  {
  }

  // ---------------------------------------------------------------------------
  // Insertion-ordered dictionary (Python `dict`, including `defaultdict`)
  // ---------------------------------------------------------------------------

  predicate Distinct<T(==)>(s: seq<T>)
  {
    forall i, j :: 0 <= i < j < |s| ==> s[i] != s[j]
  }

  datatype Dict<K(==), V> = Dict(keys: seq<K>, vals: map<K, V>)
  {
    predicate Valid()
    {
      Distinct(keys) && vals.Keys == set k | k in keys
    }

    /** `d[k] = v`: a new key goes to the end, an existing key keeps its place. */
    function Put(k: K, v: V): (r: Dict<K, V>)
      ensures Valid() ==> r.Valid()
      ensures r.vals == vals[k := v]
      ensures k in vals ==> r.keys == keys
      ensures k !in vals ==> r.keys == keys + [k]
    {
      if k in vals then Dict(keys, vals[k := v]) else Dict(keys + [k], vals[k := v])
    }

    /** `list(d.values())`. */
    function Values(): (r: seq<V>)
      requires Valid()
      ensures |r| == |keys|
      ensures forall i :: 0 <= i < |keys| ==> r[i] == vals[keys[i]]
    {
      seq(|keys|, i requires 0 <= i < |keys| => vals[keys[i]])
    }
  }

  function EmptyDict<K(==), V>(): (d: Dict<K, V>)
    ensures d.Valid() && d.keys == [] && d.vals == map[]
  {
    Dict([], map[])
  }
}
