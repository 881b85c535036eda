/**
 Identifiers and the orders the backend sorts by.

 Row ids are strings compared by code point; paths are tuples of ids compared
 element by element.  Both orders are proved total, because every "deterministic
 order" of the source (sorted queues, heap entries, tie-breaks) rests on that.
 */
module Order {

  type Id = string
  type Path = seq<Id>

  /** Python's `<` on strings. */
  predicate IdLt(a: Id, b: Id) {
    b != [] && (a == [] || a[0] < b[0] || (a[0] == b[0] && IdLt(a[1..], b[1..])))
  }

  predicate IdLe(a: Id, b: Id) {
    a == b || IdLt(a, b)
  }

  /** Python's `<` on tuples of strings. */
  predicate LexLt(p: Path, q: Path) {
    q != [] && (p == [] || IdLt(p[0], q[0]) || (p[0] == q[0] && LexLt(p[1..], q[1..])))
  }

  lemma {:induction false} IdLtTotal(a: Id, b: Id)
    ensures a == b || IdLt(a, b) || IdLt(b, a)
    ensures !(IdLt(a, b) && IdLt(b, a))
    ensures !IdLt(a, a)
  {
    if a != [] && b != [] && a[0] == b[0] {
      IdLtTotal(a[1..], b[1..]);
      IdLtTotal(a[1..], a[1..]);
      assert a == [a[0]] + a[1..] && b == [b[0]] + b[1..];
    } else if a != [] {
      IdLtTotal(a[1..], a[1..]);
    }
  }

  lemma {:induction false} IdLtTransitive(a: Id, b: Id, c: Id)
    requires IdLt(a, b) && IdLt(b, c)
    ensures IdLt(a, c)
  {
    if a != [] && a[0] == b[0] == c[0] {
      IdLtTransitive(a[1..], b[1..], c[1..]);
    }
  }

  lemma {:induction false} LexLtTotal(p: Path, q: Path)
    ensures p == q || LexLt(p, q) || LexLt(q, p)
    ensures !(LexLt(p, q) && LexLt(q, p))
  {
    if p != [] && q != [] {
      IdLtTotal(p[0], q[0]);
      LexLtTotal(p[1..], q[1..]);
      assert p == [p[0]] + p[1..] && q == [q[0]] + q[1..];
    }
  }

  lemma {:induction false} LexLtTransitive(p: Path, q: Path, r: Path)
    requires LexLt(p, q) && LexLt(q, r)
    ensures LexLt(p, r)
  {
    if p != [] {
      IdLtTotal(p[0], q[0]);
      IdLtTotal(q[0], r[0]);
      if IdLt(p[0], q[0]) && IdLt(q[0], r[0]) {
        IdLtTransitive(p[0], q[0], r[0]);
      } else if p[0] == q[0] == r[0] {
        LexLtTransitive(p[1..], q[1..], r[1..]);
      }
    }
  }

  /** Appending the same node keeps the order of two paths of the same length. */
  lemma {:induction false} LexLtAppend(p: Path, q: Path, x: Id)
    requires LexLt(p, q) && |p| == |q|
    ensures LexLt(p + [x], q + [x])
  {
    assert (p + [x])[1..] == p[1..] + [x] && (q + [x])[1..] == q[1..] + [x];
    if p[0] == q[0] && !IdLt(p[0], q[0]) {
      LexLtAppend(p[1..], q[1..], x);
    }
  }

  predicate Sorted(s: seq<Id>) {
    forall i, j :: 0 <= i < j < |s| ==> IdLe(s[i], s[j])
  }

  predicate NoDuplicates<T(==)>(s: seq<T>) {
    forall i, j :: 0 <= i < j < |s| ==> s[i] != s[j]
  }

  lemma DistinctAt(s: seq<Id>, n: nat)
    requires NoDuplicates(s) && n < |s|
    ensures s[n] in s && s[n] !in s[..n]
  {
  }

  /** The least id of a non-empty set, as picked by `sorted(...)[0]`. */
  method LeastOf(s: set<Id>) returns (m: Id)
    requires s != {}
    ensures m in s
    ensures forall x :: x in s ==> IdLe(m, x)
  {
    m :| m in s;
    var seen, rest := {m}, s - {m};
    while rest != {}
      invariant m in s && seen + rest == s
      invariant forall x :: x in seen ==> IdLe(m, x)
      decreases rest
    {
      var y :| y in rest;
      IdLtTotal(m, y);
      if IdLt(y, m) {
        forall x | x in seen ensures IdLe(y, x) {
          if x != m { IdLtTransitive(y, m, x); }
        }
        m := y;
      }
      seen, rest := seen + {y}, rest - {y};
    }
  }

  /** `sorted(s)[0]` for a non-empty list. */
  function LeastIn(s: seq<Id>): (m: Id)
    requires s != []
    ensures m in s && forall x :: x in s ==> IdLe(m, x)
  {
    if |s| == 1 then s[0]
    else
      var m := LeastIn(s[1..]);
      IdLtTotal(m, s[0]);
      if IdLt(m, s[0]) then m
      else
        assert forall x :: x in s[1..] ==> IdLe(s[0], x) by {
          forall x | x in s[1..] ensures IdLe(s[0], x) {
            if IdLt(s[0], m) && IdLt(m, x) { IdLtTransitive(s[0], m, x); }
          }
        }
        s[0]
  }

  /** `sorted(s)` for a set of ids. */
  method SortedOf(s: set<Id>) returns (r: seq<Id>)
    ensures Sorted(r) && NoDuplicates(r)
    ensures forall x :: x in r <==> x in s
    ensures |r| == |s|
  {
    r := [];
    var rest := s;
    while rest != {}
      invariant Sorted(r) && NoDuplicates(r)
      invariant forall x :: x in s <==> x in r || x in rest
      invariant forall x, y :: x in r && y in rest ==> IdLe(x, y) && x != y
      invariant |r| + |rest| == |s|
      decreases rest
    {
      var m := LeastOf(rest);
      r, rest := r + [m], rest - {m};
    }
  }

  function Insert(s: seq<Id>, x: Id): (r: seq<Id>)
    ensures multiset(r) == multiset(s) + multiset{x}
  {
    if s == [] then [x]
    else if IdLe(x, s[0]) then [x] + s
    else
      assert s == [s[0]] + s[1..];
      [s[0]] + Insert(s[1..], x)
  }

  lemma {:induction false} InsertSorted(s: seq<Id>, x: Id)
    requires Sorted(s)
    ensures Sorted(Insert(s, x))
  {
    if s != [] {
      IdLtTotal(x, s[0]);
      if IdLe(x, s[0]) {
        forall j | 0 <= j < |s| ensures IdLe(x, s[j]) {
          if 0 < j && IdLt(x, s[0]) && IdLt(s[0], s[j]) { IdLtTransitive(x, s[0], s[j]); }
        }
      } else {
        var r := Insert(s[1..], x);
        InsertSorted(s[1..], x);
        forall j | 0 <= j < |r| ensures IdLe(s[0], r[j]) {
          assert r[j] in multiset(r);
          assert s[1..][..] == s[1..];
          if r[j] != x {
            assert r[j] in multiset(s[1..]);
            assert r[j] in s[1..];
          }
        }
      }
    }
  }

  /** `queue.sort()`. */
  method SortIds(q: seq<Id>) returns (r: seq<Id>)
    ensures Sorted(r) && multiset(r) == multiset(q)
    ensures |r| == |q| && forall x :: x in r <==> x in q
  {
    r := [];
    for i := 0 to |q|
      invariant Sorted(r) && multiset(r) == multiset(q[..i])
    {
      InsertSorted(r, q[i]);
      assert q[..i + 1] == q[..i] + [q[i]];
      r := Insert(r, q[i]);
    }
    assert q[..|q|] == q;
    assert |multiset(r)| == |multiset(q)|;
    forall x ensures x in r <==> x in q {
      assert x in multiset(r) <==> x in multiset(q);
    }
  }

  /** Appending to a queue that is kept sorted for a stable traversal. */
  method Enqueue(queue: seq<Id>, x: Id) returns (r: seq<Id>)
    ensures |r| == |queue| + 1
    ensures forall y :: y in r <==> y in queue || y == x
  {
    r := queue + [x];
    if |queue| > 0 && IdLt(x, queue[|queue| - 1]) {
      r := SortIds(r);
    }
  }

  /** Decimal rendering, as printed into ids and addresses. */
  function Digits(n: nat): (s: string)
    ensures ':' !in s
  {
    var d := ('0' as int + n % 10) as char;
    if n < 10 then [d] else Digits(n / 10) + [d]
  }

  lemma {:induction false} DigitsInjective(a: nat, b: nat)
    requires Digits(a) == Digits(b)
    ensures a == b
  {
    var s, t := Digits(a), Digits(b);
    assert s[|s| - 1] == ('0' as int + a % 10) as char && t[|t| - 1] == ('0' as int + b % 10) as char;
    assert a % 10 == b % 10;
    DigitsLength(a);
    DigitsLength(b);
    if a >= 10 && b >= 10 {
      assert s[..|s| - 1] == Digits(a / 10) && t[..|t| - 1] == Digits(b / 10);
      DigitsInjective(a / 10, b / 10);
    }
  }

  lemma DigitsLength(n: nat)
    ensures |Digits(n)| >= 1 && (|Digits(n)| == 1 <==> n < 10)
  {
    if n >= 10 { DigitsLength(n / 10); }
  }

  // ---- What the orders and numerals mean ----

  /** `a` comes first: at the first place where the two differ it has the smaller character, or it ends there. */
  ghost predicate FirstDiffers(a: Id, b: Id, k: nat) {
    k <= |a| && k < |b| && a[..k] == b[..k] && (k == |a| || a[k] < b[k])
  }

  lemma {:induction false} IdLtMeaning(a: Id, b: Id)
    ensures IdLt(a, b) <==> exists k: nat :: FirstDiffers(a, b, k)
  {
    if IdLt(a, b) {
      if a == [] || a[0] < b[0] {
        assert FirstDiffers(a, b, 0);
      } else {
        IdLtMeaning(a[1..], b[1..]);
        var k: nat :| FirstDiffers(a[1..], b[1..], k);
        assert a[..k + 1] == [a[0]] + a[1..][..k] && b[..k + 1] == [b[0]] + b[1..][..k];
        assert FirstDiffers(a, b, k + 1);
      }
    }
    if k: nat :| FirstDiffers(a, b, k) {
      if k > 0 {
        assert a[0] == a[..k][0] == b[..k][0] == b[0];
        assert a[1..][..k - 1] == a[..k][1..] && b[1..][..k - 1] == b[..k][1..];
        assert FirstDiffers(a[1..], b[1..], k - 1);
        IdLtMeaning(a[1..], b[1..]);
      }
    }
  }

  ghost predicate FirstIdDiffers(p: Path, q: Path, k: nat) {
    k <= |p| && k < |q| && p[..k] == q[..k] && (k == |p| || IdLt(p[k], q[k]))
  }

  lemma {:induction false} LexLtMeaning(p: Path, q: Path)
    ensures LexLt(p, q) <==> exists k: nat :: FirstIdDiffers(p, q, k)
  {
    hide IdLt;
    if LexLt(p, q) {
      if p == [] || IdLt(p[0], q[0]) {
        assert FirstIdDiffers(p, q, 0);
      } else {
        LexLtMeaning(p[1..], q[1..]);
        var k: nat :| FirstIdDiffers(p[1..], q[1..], k);
        assert p[..k + 1] == [p[0]] + p[1..][..k] && q[..k + 1] == [q[0]] + q[1..][..k];
        assert FirstIdDiffers(p, q, k + 1);
      }
    }
    if k: nat :| FirstIdDiffers(p, q, k) {
      if k > 0 {
        assert p[0] == p[..k][0] == q[..k][0] == q[0];
        assert p[1..][..k - 1] == p[..k][1..] && q[1..][..k - 1] == q[..k][1..];
        assert FirstIdDiffers(p[1..], q[1..], k - 1);
        LexLtMeaning(p[1..], q[1..]);
      }
    }
  }

  /** The number a decimal numeral denotes. */
  function ValueOf(s: string): int {
    if s == "" then 0 else ValueOf(s[..|s| - 1]) * 10 + (s[|s| - 1] as int - '0' as int)
  }

  lemma {:induction false} DigitsDenote(n: nat)
    ensures ValueOf(Digits(n)) == n && forall i :: 0 <= i < |Digits(n)| ==> '0' <= Digits(n)[i] <= '9'
    ensures n > 0 ==> Digits(n)[0] != '0'
  {
    var s, d := Digits(n), ('0' as int + n % 10) as char;
    if n < 10 {
      assert s == [d] && s[..0] == "";
      assert ValueOf("") == 0;
    } else {
      DigitsDenote(n / 10);
      assert s[..|s| - 1] == Digits(n / 10);
    }
  }
}
