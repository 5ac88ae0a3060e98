/** Small value types and helpers shared by every component of the application. */
module Common {

  /** A JavaScript value that may be `undefined`/`null`, or a Java reference that may be null. */
  datatype Option<+T> = None | Some(value: T) {
    function GetOr(default: T): T {
      match this
      case Some(v) => v
      case None => default
    }
  }

  /** A key of a partial-update object: absent, or present with a value (`{ ...p, ...updates }`). */
  datatype Field<+T> = Absent | Present(value: T) {
    function Over(current: T): T {
      match this
      case Present(v) => v
      case Absent => current
    }
  }

  /** The copy-then-add-or-delete update every page applies to its `Set` state. */
  function Toggle<T(!new)>(s: set<T>, x: T): (r: set<T>)
    ensures x in r <==> x !in s
    ensures forall y :: y != x ==> (y in r <==> y in s)
  {
    if x in s then s - {x} else s + {x}
  }

  /** Toggling the same element twice restores the set. */
  lemma {:induction false} ToggleTwice<T(!new)>(s: set<T>, x: T)
    ensures Toggle(Toggle(s, x), x) == s
  {
  }

  /**
   * `Math.round(part / whole * 100)` for `whole > 0`, computed exactly:
   * rounding half up is the floor of the value plus one half.
   */
  function RoundPercent(part: nat, whole: nat): (r: nat)
    requires whole > 0
    ensures 2 * whole * r <= 200 * part + whole < 2 * whole * (r + 1)
  {
    (200 * part + whole) / (2 * whole)
  }

  /** The percentage of a part that does not exceed the whole lies in 0..100; it is 0 for no part and 100 for all of it. */
  lemma {:induction false} RoundPercentRange(part: nat, whole: nat)
    requires whole > 0 && part <= whole
    ensures RoundPercent(part, whole) <= 100
    ensures part == 0 ==> RoundPercent(part, whole) == 0
    ensures part == whole ==> RoundPercent(part, whole) == 100
  {
    var r := RoundPercent(part, whole);
    if r > 100 {
      assert 2 * whole * r >= 2 * whole * 101 by {
        MulMono(2 * whole, 101, r);
      }
    }
    if part == whole {
      assert 200 * part + whole == 2 * whole * 100 + whole;
      if r < 100 {
        MulMono(2 * whole, r + 1, 100);
      }
    }
  }

  /**
   * A part of the whole rounds to 100 exactly when it is at least 199/200
   * of the whole, so below 200 only the whole itself shows 100.
   */
  lemma {:induction false} RoundPercentFull(part: nat, whole: nat)
    requires whole > 0 && part <= whole
    ensures RoundPercent(part, whole) == 100 <==> 200 * part >= 199 * whole
    ensures whole < 200 ==> (RoundPercent(part, whole) == 100 <==> part == whole)
  {
    var r := RoundPercent(part, whole);
    RoundPercentRange(part, whole);
    if 200 * part >= 199 * whole && r < 100 {
      MulMono(2 * whole, r + 1, 100);
    }
  }

  /** Rounding never lowers the percentage of a larger part of the same whole. */
  lemma {:induction false} RoundPercentMonotone(p: nat, q: nat, whole: nat)
    requires whole > 0 && p <= q
    ensures RoundPercent(p, whole) <= RoundPercent(q, whole)
  {
    var rp, rq := RoundPercent(p, whole), RoundPercent(q, whole);
    if rp > rq {
      MulMono(2 * whole, rq + 1, rp);
    }
  }

  /** The elements of a sequence, as a set. */
  function Elements<T>(s: seq<T>): (r: set<T>)
    ensures forall j :: 0 <= j < |s| ==> s[j] in r
    ensures forall x :: x in r ==> x in s
  {
    set j | 0 <= j < |s| :: s[j]
  }

  lemma {:induction false} ElementsSnoc<T>(s: seq<T>, x: T)
    ensures Elements(s + [x]) == Elements(s) + {x}
  {
    assert (s + [x])[|s|] == x;
    forall y | y in Elements(s) ensures y in Elements(s + [x]) {
      var j :| 0 <= j < |s| && s[j] == y;
      assert (s + [x])[j] == y;
    }
  }

  /** The test `y => y !== x` of a list filter. */
  function Differs(x: string): string -> bool
  {
    y => y != x
  }

  /**
   * `list.includes(x) ? list.filter(y => y !== x) : [...list, x]`: every
   * copy of a present element is dropped; an absent one goes last.
   */
  function ToggleInList(list: seq<string>, x: string): (r: seq<string>)
    ensures x in r <==> x !in list
    ensures forall y :: y != x ==> (y in r <==> y in list)
    ensures x !in list ==> r == list + [x]
    ensures x in list ==> IsSubsequence(r, list) && |r| < |list|
  {
    if x in list then
      FilterLength(list, Differs(x));
      CountDropsMember(list, x);
      Filter(list, Differs(x))
    else list + [x]
  }

  /** Selecting an absent element and then deselecting it restores the list. */
  lemma {:induction false} ToggleInListTwice(list: seq<string>, x: string)
    requires x !in list
    ensures ToggleInList(ToggleInList(list, x), x) == list
  {
    FilterAllPassSnoc(list, x);
  }

  /** Filtering out `x` from `list + [x]`, where `x` is absent from `list`, gives `list`. */
  lemma {:induction false} FilterAllPassSnoc(list: seq<string>, x: string)
    requires x !in list
    ensures Filter(list + [x], Differs(x)) == list
  {
    if |list| == 0 {
      assert [x][1..] == [];
    } else {
      assert (list + [x])[1..] == list[1..] + [x];
      FilterAllPassSnoc(list[1..], x);
      assert [list[0]] + list[1..] == list;
    }
  }

  /** A present element fails the test, so fewer elements pass than there are. */
  lemma {:induction false} CountDropsMember(list: seq<string>, x: string)
    requires x in list
    ensures Count(list, Differs(x)) < |list|
  {
    if list[0] != x {
      CountDropsMember(list[1..], x);
    } else {
      FilterLength(list[1..], Differs(x));
    }
  }

  lemma {:induction false} HasMember(s: set<int>)
    requires s != {}
    ensures exists x :: x in s
  {
    if forall x :: x !in s {
      assert false;
    }
  }

  lemma {:induction false} MinOf(s: set<int>) returns (m: int)
    requires s != {}
    ensures m in s && forall y :: y in s ==> m <= y
    decreases |s|
  {
    HasMember(s);
    var x :| x in s;
    var t := s - {x};
    if t == {} {
      m := x;
      forall y | y in s ensures m <= y {
        assert y !in t;
      }
    } else {
      var n := MinOf(t);
      m := if x < n then x else n;
      forall y | y in s ensures m <= y {
        if y != x {
          assert y in t;
        }
      }
    }
  }

  lemma {:induction false} MinExists(s: set<int>)
    requires s != {}
    ensures exists m :: m in s && forall y :: y in s ==> m <= y
  {
    var m := MinOf(s);
  }

  /** The elements of a finite set of integers in increasing order (the `Object.entries` order of integer keys). */
  function AscendingKeys(s: set<int>): (r: seq<int>)
    ensures |r| == |s|
    ensures forall i :: 0 <= i < |r| ==> r[i] in s
    ensures forall x :: x in s ==> x in r
    ensures forall i, j :: 0 <= i < j < |r| ==> r[i] < r[j]
    decreases |s|
  {
    if s == {} then []
    else
      MinExists(s);
      var m :| m in s && forall y :: y in s ==> m <= y;
      var rest := AscendingKeys(s - {m});
      AscendingKeysStep(s, m, rest);
      [m] + rest
  }

  lemma {:induction false} AscendingKeysStep(s: set<int>, m: int, rest: seq<int>)
    requires m in s && forall y :: y in s ==> m <= y
    requires |rest| == |s - {m}|
    requires forall i :: 0 <= i < |rest| ==> rest[i] in s - {m}
    requires forall x :: x in s - {m} ==> x in rest
    requires forall i, j :: 0 <= i < j < |rest| ==> rest[i] < rest[j]
    ensures var r := [m] + rest;
            |r| == |s| && (forall i :: 0 <= i < |r| ==> r[i] in s) && (forall x :: x in s ==> x in r)
            && forall i, j :: 0 <= i < j < |r| ==> r[i] < r[j]
  {
    var r := [m] + rest;
    forall i, j | 0 <= i < j < |r| ensures r[i] < r[j] {
      assert r[j] == rest[j - 1];
      if i > 0 {
        assert r[i] == rest[i - 1];
      } else {
        assert rest[j - 1] in s - {m};
      }
    }
    forall x | x in s ensures x in r {
      if x != m {
        assert x in rest;
      }
    }
  }

  /** `a` is `b` with some elements left out, the rest kept in order. */
  predicate IsSubsequence<T(==)>(a: seq<T>, b: seq<T>)
    decreases |b|
  {
    a == [] || (b != [] && ((a[0] == b[0] && IsSubsequence(a[1..], b[1..])) || IsSubsequence(a, b[1..])))
  }

  /** No element occurs twice. */
  predicate Distinct<T(==)>(s: seq<T>)
  {
    forall i, j :: 0 <= i < j < |s| ==> s[i] != s[j]
  }

  /** Every element of a subsequence is an element of the sequence. */
  lemma {:induction false} SubsequenceMembers<T>(a: seq<T>, b: seq<T>)
    requires IsSubsequence(a, b)
    ensures forall i :: 0 <= i < |a| ==> a[i] in b
    decreases |b|
  {
    if a != [] {
      if a[0] == b[0] && IsSubsequence(a[1..], b[1..]) {
        SubsequenceMembers(a[1..], b[1..]);
        forall i | 1 <= i < |a| ensures a[i] in b {
          assert a[i] == a[1..][i - 1];
        }
      } else {
        SubsequenceMembers(a, b[1..]);
      }
    }
  }

  /** A subsequence of a sequence without repetitions has none either. */
  lemma {:induction false} SubsequenceDistinct<T>(a: seq<T>, b: seq<T>)
    requires IsSubsequence(a, b) && Distinct(b)
    ensures Distinct(a)
    decreases |b|
  {
    if a != [] {
      if a[0] == b[0] && IsSubsequence(a[1..], b[1..]) {
        SubsequenceDistinct(a[1..], b[1..]);
        SubsequenceMembers(a[1..], b[1..]);
        forall i, j | 0 <= i < j < |a| ensures a[i] != a[j] {
          assert a[j] == a[1..][j - 1];
          if i > 0 {
            assert a[i] == a[1..][i - 1];
          } else {
            assert b[0] !in b[1..];
          }
        }
      } else {
        SubsequenceDistinct(a, b[1..]);
      }
    }
  }

  /** `s.filter(p)`: the elements satisfying `p`, in their original order. */
  function Filter<T(==)>(s: seq<T>, p: T -> bool): (r: seq<T>)
    ensures |r| <= |s|
    ensures forall i :: 0 <= i < |r| ==> p(r[i]) && r[i] in s
    ensures forall i :: 0 <= i < |s| && p(s[i]) ==> s[i] in r
    ensures IsSubsequence(r, s)
  {
    if s == [] then []
    else
      var rest := Filter(s[1..], p);
      if p(s[0]) then
        assert ([s[0]] + rest)[1..] == rest;
        [s[0]] + rest
      else rest
  }

  /** Filtering keeps a list whose every element passes. */
  lemma {:induction false} FilterAllPass<T>(s: seq<T>, p: T -> bool)
    requires forall i :: 0 <= i < |s| ==> p(s[i])
    ensures Filter(s, p) == s
  {
    if s != [] {
      FilterAllPass(s[1..], p);
      assert [s[0]] + s[1..] == s;
    }
  }

  /** Filtering a list extended at the end. */
  lemma {:induction false} FilterSnoc<T>(s: seq<T>, x: T, p: T -> bool)
    ensures Filter(s + [x], p) == Filter(s, p) + (if p(x) then [x] else [])
  {
    if s == [] {
      assert [x][1..] == [];
    } else {
      assert (s + [x])[1..] == s[1..] + [x];
      FilterSnoc(s[1..], x, p);
    }
  }

  /** Filtering is idempotent. */
  lemma {:induction false} FilterTwice<T>(s: seq<T>, p: T -> bool)
    ensures Filter(Filter(s, p), p) == Filter(s, p)
  {
    FilterAllPass(Filter(s, p), p);
  }

  /** Filtering a list none of whose elements pass leaves nothing. */
  lemma {:induction false} FilterNonePass<T>(s: seq<T>, p: T -> bool)
    requires forall i :: 0 <= i < |s| ==> !p(s[i])
    ensures Filter(s, p) == []
  {
    if s != [] {
      FilterNonePass(s[1..], p);
    }
  }

  /** The number of elements satisfying `p`. */
  function Count<T>(s: seq<T>, p: T -> bool): nat
  {
    if s == [] then 0 else (if p(s[0]) then 1 else 0) + Count(s[1..], p)
  }

  /** Filtering drops exactly the elements that fail. */
  lemma {:induction false} FilterLength<T>(s: seq<T>, p: T -> bool)
    ensures |Filter(s, p)| == Count(s, p)
  {
    if s != [] {
      FilterLength(s[1..], p);
    }
  }

  /** Counting over a list extended at the end. */
  lemma {:induction false} CountSnoc<T>(s: seq<T>, x: T, p: T -> bool)
    ensures Count(s + [x], p) == Count(s, p) + (if p(x) then 1 else 0)
  {
    if s == [] {
      assert [x][1..] == [];
    } else {
      assert (s + [x])[1..] == s[1..] + [x];
      CountSnoc(s[1..], x, p);
    }
  }

  /** Nothing is counted when no element satisfies the test. */
  lemma {:induction false} CountNone<T>(s: seq<T>, p: T -> bool)
    requires forall i :: 0 <= i < |s| ==> !p(s[i])
    ensures Count(s, p) == 0
  {
    if s != [] {
      CountNone(s[1..], p);
    }
  }

  /** Counting a predicate and its negation covers every element once. */
  lemma {:induction false} CountComplement<T>(s: seq<T>, p: T -> bool, q: T -> bool)
    requires forall x :: p(x) <==> !q(x)
    ensures Count(s, p) + Count(s, q) == |s|
  {
    if s != [] {
      CountComplement(s[1..], p, q);
    }
  }

  /** `s.findIndex(p)`: the first index whose element satisfies `p`, or -1. */
  function FindFirst<T>(s: seq<T>, p: T -> bool): (r: int)
    ensures -1 <= r < |s|
    ensures r == -1 <==> forall i :: 0 <= i < |s| ==> !p(s[i])
    ensures r >= 0 ==> p(s[r]) && forall j :: 0 <= j < r ==> !p(s[j])
  {
    if s == [] then -1
    else if p(s[0]) then 0
    else
      var k := FindFirst(s[1..], p);
      if k == -1 then -1 else k + 1
  }

  /** Extending a list at the end keeps an earlier first match, and makes the new element the first match when there was none. */
  lemma {:induction false} FindFirstSnoc<T>(s: seq<T>, x: T, p: T -> bool)
    ensures FindFirst(s, p) >= 0 ==> FindFirst(s + [x], p) == FindFirst(s, p)
    ensures FindFirst(s, p) < 0 && p(x) ==> FindFirst(s + [x], p) == |s|
  {
    if FindFirst(s, p) >= 0 {
      assert p((s + [x])[FindFirst(s, p)]);
    } else if p(x) {
      assert p((s + [x])[|s|]);
    }
    assert forall k :: 0 <= k < |s| ==> (s + [x])[k] == s[k];
  }

  /** Two lists that match position by position have their first match at the same index. */
  lemma {:induction false} FindFirstMapped<T, U>(s: seq<T>, t: seq<U>, p: T -> bool, q: U -> bool)
    requires |s| == |t|
    requires forall i :: 0 <= i < |s| ==> (p(s[i]) <==> q(t[i]))
    ensures FindFirst(s, p) == FindFirst(t, q)
  {
    if s != [] && !p(s[0]) {
      FindFirstMapped(s[1..], t[1..], p, q);
    }
  }

  lemma {:induction false} MulMono(k: nat, a: nat, b: nat)
    requires a <= b
    ensures k * a <= k * b
  {
  }
}

/** JavaScript string operations used by the components, over `seq<char>`. */
module Text {

  /** The characters matched by `\s` and removed by `String.prototype.trim`. */
  predicate IsSpace(c: char) {
    || c == ' ' || c == '\t' || c == '\n' || c == '\U{B}' || c == '\U{C}' || c == '\r'
    || c == '\U{A0}' || c == '\U{1680}' || ('\U{2000}' <= c <= '\U{200A}')
    || c == '\U{2028}' || c == '\U{2029}' || c == '\U{202F}' || c == '\U{205F}'
    || c == '\U{3000}' || c == '\U{FEFF}'
  }

  predicate IsBlank(s: string) {
    forall i :: 0 <= i < |s| ==> IsSpace(s[i])
  }

  /** The first index from `i` on that holds no whitespace, or `|s|`. */
  function SkipSpaces(s: string, i: nat): (k: nat)
    requires i <= |s|
    ensures i <= k <= |s|
    ensures k < |s| ==> !IsSpace(s[k])
    ensures forall j :: i <= j < k ==> IsSpace(s[j])
    decreases |s| - i
  {
    if i < |s| && IsSpace(s[i]) then SkipSpaces(s, i + 1) else i
  }

  /** The end of `s[lo..hi]` once its trailing whitespace is dropped. */
  function SkipSpacesBack(s: string, lo: nat, hi: nat): (k: nat)
    requires lo <= hi <= |s|
    ensures lo <= k <= hi
    ensures k > lo ==> !IsSpace(s[k - 1])
    ensures forall j :: k <= j < hi ==> IsSpace(s[j])
    decreases hi
  {
    if lo < hi && IsSpace(s[hi - 1]) then SkipSpacesBack(s, lo, hi - 1) else hi
  }

  /** `s.trim()`: the text with leading and trailing whitespace removed. */
  function Trim(s: string): (r: string)
    ensures Contains(s, r)
    ensures r == [] || (!IsSpace(r[0]) && !IsSpace(r[|r| - 1]))
    ensures r == [] <==> IsBlank(s)
    ensures exists a, b :: 0 <= a <= b <= |s| && r == s[a..b]
                           && (forall j :: 0 <= j < a ==> IsSpace(s[j]))
                           && (forall j :: b <= j < |s| ==> IsSpace(s[j]))
  {
    var a := SkipSpaces(s, 0);
    var b := SkipSpacesBack(s, a, |s|);
    assert a < |s| ==> a < b;
    assert OccursAt(s, s[a..b], a);
    s[a..b]
  }

  /** Trimming is idempotent. */
  lemma {:induction false} TrimIdempotent(s: string)
    ensures Trim(Trim(s)) == Trim(s)
  {
    var t := Trim(s);
    if t != [] {
      assert SkipSpaces(t, 0) == 0;
      assert SkipSpacesBack(t, 0, |t|) == |t|;
      assert t[0..|t|] == t;
    }
  }

  /** `toLowerCase` restricted to the ASCII letters. */
  function LowerChar(c: char): char {
    if 'A' <= c <= 'Z' then (c as int + 32) as char else c
  }

  function Lower(s: string): (r: string)
    ensures |r| == |s|
  {
    seq(|s|, i requires 0 <= i < |s| => LowerChar(s[i]))
  }

  /** `a.toLowerCase() === b.toLowerCase()`. */
  predicate EqualsIgnoreCase(a: string, b: string) {
    Lower(a) == Lower(b)
  }

  /** `s.includes(t)`. */
  predicate Contains(s: string, t: string) {
    exists i :: 0 <= i <= |s| - |t| && OccursAt(s, t, i)
  }

  /** `t` occurs in `s` starting at index `i`. */
  predicate OccursAt(s: string, t: string, i: int) {
    0 <= i && i + |t| <= |s| && s[i..i + |t|] == t
  }

  lemma {:induction false} ContainsAt(s: string, t: string, i: int)
    requires OccursAt(s, t, i)
    ensures Contains(s, t)
  {
  }

  lemma {:induction false} ContainsEmpty(s: string)
    ensures Contains(s, "")
  {
    assert OccursAt(s, "", 0);
  }

  lemma {:induction false} ContainsSelf(s: string)
    ensures Contains(s, s)
  {
    assert OccursAt(s, s, 0);
  }

  /** A text contains only texts no longer than itself. */
  lemma {:induction false} ContainsShorter(s: string, t: string)
    requires Contains(s, t)
    ensures |t| <= |s|
  {
  }

  /** Every character of a contained text occurs in the containing text. */
  lemma {:induction false} ContainsChar(s: string, t: string, k: nat)
    requires Contains(s, t) && k < |t|
    ensures t[k] in s
  {
    var i :| 0 <= i <= |s| - |t| && OccursAt(s, t, i);
    assert s[i..i + |t|][k] == t[k];
  }

  /** `parts.join(sep)`. */
  function Join(parts: seq<string>, sep: string): string
  {
    if |parts| == 0 then ""
    else if |parts| == 1 then parts[0]
    else parts[0] + sep + Join(parts[1..], sep)
  }

  /** The separator `", "` the onboarding components join and split answers with. */
  const Sep: string := ", "

  /** The text holds the separator `", "`. */
  predicate HasSep(s: string) {
    exists i :: 0 <= i && i + 1 < |s| && s[i] == ',' && s[i + 1] == ' '
  }

  /** `s.split(", ")`: the pieces between the leftmost non-overlapping separators. */
  function Split(s: string): (r: seq<string>)
    ensures |r| >= 1
    decreases |s|
  {
    if |s| < 2 then [s]
    else if s[0] == ',' && s[1] == ' ' then [""] + Split(s[2..])
    else
      var rest := Split(s[1..]);
      [[s[0]] + rest[0]] + rest[1..]
  }

  /** A separator in the tail of a text is a separator in the text. */
  lemma {:induction false} SepInTail(p: string)
    requires |p| >= 1
    ensures HasSep(p[1..]) ==> HasSep(p)
  {
    if HasSep(p[1..]) {
      var i :| 0 <= i && i + 1 < |p[1..]| && p[1..][i] == ',' && p[1..][i + 1] == ' ';
      assert p[i + 1] == ',' && p[i + 2] == ' ';
    }
  }

  /** A piece without the separator splits to itself. */
  lemma {:induction false} SplitPlain(p: string)
    requires !HasSep(p)
    ensures Split(p) == [p]
    decreases |p|
  {
    if |p| >= 2 {
      assert !(p[0] == ',' && p[1] == ' ');
      SepInTail(p);
      SplitPlain(p[1..]);
      assert [p[0]] + p[1..] == p;
    }
  }

  /** Splitting cuts at the first separator when the leading piece holds none. */
  lemma {:induction false} SplitAfterPiece(p: string, rest: string)
    requires !HasSep(p)
    ensures Split(p + Sep + rest) == [p] + Split(rest)
    decreases |p|
  {
    var s := p + Sep + rest;
    if |p| == 0 {
      assert s == ", " + rest;
      assert s[2..] == rest;
    } else {
      assert s[0] == p[0];
      if |p| == 1 {
        assert s[1] == ',';
      } else {
        assert s[1] == p[1];
        assert !(p[0] == ',' && p[1] == ' ');
      }
      SepInTail(p);
      assert s[1..] == p[1..] + Sep + rest;
      SplitAfterPiece(p[1..], rest);
      assert [p[0]] + p[1..] == p;
    }
  }

  /** Splitting undoes joining when no piece holds the separator. */
  lemma {:induction false} SplitJoin(parts: seq<string>)
    requires |parts| >= 1
    requires forall i :: 0 <= i < |parts| ==> !HasSep(parts[i])
    ensures Split(Join(parts, Sep)) == parts
  {
    if |parts| == 1 {
      SplitPlain(parts[0]);
    } else {
      SplitAfterPiece(parts[0], Join(parts[1..], Sep));
      SplitJoin(parts[1..]);
      assert [parts[0]] + parts[1..] == parts;
    }
  }

  /** Joining a list extended at the end. */
  lemma {:induction false} JoinSnoc(parts: seq<string>, last: string)
    requires |parts| >= 1
    ensures Join(parts + [last], Sep) == Join(parts, Sep) + Sep + last
  {
    if |parts| == 1 {
      assert (parts + [last])[1..] == [last];
    } else {
      assert (parts + [last])[1..] == parts[1..] + [last];
      JoinSnoc(parts[1..], last);
    }
  }

  function DigitChar(d: nat): char
    requires d < 10
  {
    ('0' as int + d) as char
  }

  predicate IsDigit(c: char) {
    '0' <= c <= '9'
  }

  function DigitValue(c: char): nat
    requires IsDigit(c)
  {
    c as int - '0' as int
  }

  /** `String(n)` for a non-negative integer: its decimal digits, without leading zeros. */
  function Decimal(n: nat): (r: string)
    ensures |r| >= 1 && forall i :: 0 <= i < |r| ==> IsDigit(r[i])
    ensures n > 0 ==> r[0] != '0'
  {
    if n < 10 then [DigitChar(n)] else Decimal(n / 10) + [DigitChar(n % 10)]
  }

  /** `parseInt(ds, 10)` of a non-empty run of decimal digits. */
  function DigitsValue(ds: string): nat
    requires forall i :: 0 <= i < |ds| ==> IsDigit(ds[i])
  {
    if |ds| == 0 then 0 else DigitsValue(ds[..|ds| - 1]) * 10 + DigitValue(ds[|ds| - 1])
  }

  /** Printing a number in decimal and parsing it back gives the number. */
  lemma {:induction false} DecimalRoundTrip(n: nat)
    ensures DigitsValue(Decimal(n)) == n
  {
    var d := Decimal(n);
    if n >= 10 {
      assert d[..|d| - 1] == Decimal(n / 10);
      DecimalRoundTrip(n / 10);
    } else {
      assert d[..0] == [];
    }
  }

  /** Distinct numbers print differently. */
  lemma {:induction false} DecimalInjective(m: nat, n: nat)
    requires Decimal(m) == Decimal(n)
    ensures m == n
  {
    DecimalRoundTrip(m);
    DecimalRoundTrip(n);
  }
}
