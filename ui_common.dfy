/** List and text idioms the React components share: JavaScript truthiness of
    text, the case-insensitive `includes` search, `list.map` that rewrites the
    row with one id, `list.filter` that drops the row with one id, and
    `Number(x) || 0`. */
module UiCommon {
  import opened Common

  /** A JavaScript string is truthy iff it is not empty. */
  predicate Truthy(s: string) { s != "" }

  /** `hay.toLowerCase().includes(term.toLowerCase())`. */
  predicate Matches(hay: string, term: string)
  {
    Includes(ToLower(hay), ToLower(term))
  }

  /** An empty search term matches every text. */
  lemma MatchesEmpty(hay: string)
    ensures Matches(hay, "")
  {
    assert ToLower("") == "";
    EmptyIsIncluded(ToLower(hay));
  }

  lemma LowerOfUpper(s: string)
    ensures ToLower(ToUpper(s)) == ToLower(s)
  {
    var a, b := ToLower(ToUpper(s)), ToLower(s);
    assert forall i :: 0 <= i < |s| ==> a[i] == b[i];
  }

  lemma LowerOfLower(s: string)
    ensures ToLower(ToLower(s)) == ToLower(s)
  {
    var a, b := ToLower(ToLower(s)), ToLower(s);
    assert forall i :: 0 <= i < |s| ==> a[i] == b[i];
  }

  /** The search ignores the case of the term: typing it in upper or lower
      case keeps the same rows. */
  lemma MatchesIgnoresCase(hay: string, term: string)
    ensures Matches(hay, ToUpper(term)) == Matches(hay, term)
    ensures Matches(hay, ToLower(term)) == Matches(hay, term)
    ensures Matches(ToUpper(hay), term) == Matches(hay, term)
  {
    LowerOfUpper(term);
    LowerOfLower(term);
    LowerOfUpper(hay);
  }

  lemma LowerConcat(a: string, b: string)
    ensures ToLower(a + b) == ToLower(a) + ToLower(b)
  {
    var l, r := ToLower(a + b), ToLower(a) + ToLower(b);
    assert forall i :: 0 <= i < |a| ==> l[i] == r[i];
    assert forall i :: |a| <= i < |a + b| ==> l[i] == r[i];
  }

  lemma IncludedAfter(pre: string, needle: string, post: string)
    ensures Includes(pre + needle + post, needle)
  {
    var hay := pre + needle + post;
    assert hay[|pre|..] == needle + post;
  }

  /** Any text containing the term, in whatever case, matches it. */
  lemma MatchesPart(pre: string, term: string, post: string)
    ensures Matches(pre + term + post, term)
  {
    LowerConcat(pre + term, post);
    LowerConcat(pre, term);
    IncludedAfter(ToLower(pre), ToLower(term), ToLower(post));
  }

  /** `rows.map(r => r.id === target ? f(r) : r)`. */
  function MapWhere<T>(rows: seq<T>, id: T -> int, target: int, f: T -> T): (r: seq<T>)
    ensures |r| == |rows|
    ensures forall i :: 0 <= i < |rows| ==> r[i] == (if id(rows[i]) == target then f(rows[i]) else rows[i])
  {
    if rows == [] then []
    else [if id(rows[0]) == target then f(rows[0]) else rows[0]] + MapWhere(rows[1..], id, target, f)
  }

  /** With no row carrying the id, the map changes nothing. */
  lemma {:induction false} MapWhereAbsent<T>(rows: seq<T>, id: T -> int, target: int, f: T -> T)
    requires forall i :: 0 <= i < |rows| ==> id(rows[i]) != target
    ensures MapWhere(rows, id, target, f) == rows
  {
    if rows != [] {
      MapWhereAbsent(rows[1..], id, target, f);
    }
  }

  /** `rows.filter(r => r.id !== target)`. */
  function Without<T>(rows: seq<T>, id: T -> int, target: int): (r: seq<T>)
    ensures forall i :: 0 <= i < |r| ==> id(r[i]) != target
  {
    Filter(rows, (x: T) => id(x) != target)
  }

  /** Deleting by id drops exactly the rows with that id, and keeps the
      others in their order. */
  lemma WithoutExactly<T>(rows: seq<T>, id: T -> int, target: int)
    ensures forall x :: x in Without(rows, id, target) <==> x in rows && id(x) != target
    ensures IsSubsequence(Without(rows, id, target), rows)
  {
    FilterIsSubsequence(rows, (x: T) => id(x) != target);
  }

  /** `Array.prototype.find`: the first row satisfying `p`. */
  function FindFirst<T>(rows: seq<T>, p: T -> bool): (r: Option<T>)
    ensures r.Some? <==> exists i :: 0 <= i < |rows| && p(rows[i])
    ensures r.Some? ==> r.value in rows && p(r.value)
  {
    if rows == [] then None
    else if p(rows[0]) then Some(rows[0])
    else
      var rest := FindFirst(rows[1..], p);
      assert forall i :: 1 <= i < |rows| ==> rows[i] == rows[1..][i - 1];
      rest
  }

  /** `rows.sort((a, b) => date(b) - date(a))`: the stable sort, newest
      first; a permutation of the rows. */
  function NewestFirst<T>(rows: seq<T>, date: T -> int): (r: seq<T>)
    ensures |r| == |rows| && multiset(r) == multiset(rows)
    ensures forall i, j :: 0 <= i < j < |r| ==> date(r[i]) >= date(r[j])
  {
    var key := (x: T) => -date(x);
    SortByKeySorted(rows, key);
    SortByKey(rows, key)
  }

  /** `rows.sort((a, b) => date(a) - date(b))`: the stable sort, oldest
      first; a permutation of the rows. */
  function OldestFirst<T>(rows: seq<T>, date: T -> int): (r: seq<T>)
    ensures |r| == |rows| && multiset(r) == multiset(rows)
    ensures forall i, j :: 0 <= i < j < |r| ==> date(r[i]) <= date(r[j])
  {
    SortByKeySorted(rows, date);
    SortByKey(rows, date)
  }

  /** `Number(x) || 0`: an unparsable value (NaN) and zero both read 0.
      The parse is abstracted: `None` is a value `Number` turns into NaN. */
  function NumberOrZero(parsed: Option<int>): int
  {
    if parsed.Some? then parsed.value else 0
  }
}
