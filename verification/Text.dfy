/** Orders, sorting, and decimal text: the library operations the compiler relies on. */
module Ordering {

  ghost predicate TotalOrder<T(!new)>(le: (T, T) -> bool) {
    && TotalPreorder(le)
    && (forall x, y :: le(x, y) && le(y, x) ==> x == y)
  }

  ghost predicate TotalPreorder<T(!new)>(le: (T, T) -> bool) {
    && (forall x, y :: le(x, y) || le(y, x))
    && (forall x, y, z :: le(x, y) && le(y, z) ==> le(x, z))
  }

  /** Lexicographic order, as `Ord` for strings and vectors. */
  predicate LexLe<T(==)>(le: (T, T) -> bool, a: seq<T>, b: seq<T>) {
    a == [] || (b != [] && if a[0] == b[0] then LexLe(le, a[1..], b[1..]) else le(a[0], b[0]))
  }

  lemma {:induction false} LexTotal<T(!new)>(le: (T, T) -> bool, a: seq<T>, b: seq<T>)
    requires TotalOrder(le)
    ensures LexLe(le, a, b) || LexLe(le, b, a)
    ensures LexLe(le, a, b) && LexLe(le, b, a) ==> a == b
  {
    if a != [] && b != [] && a[0] == b[0] {
      LexTotal(le, a[1..], b[1..]);
      assert a == [a[0]] + a[1..] && b == [b[0]] + b[1..];
    }
  }

  lemma {:induction false} LexTransitive<T(!new)>(le: (T, T) -> bool, a: seq<T>, b: seq<T>, c: seq<T>)
    requires TotalOrder(le)
    requires LexLe(le, a, b) && LexLe(le, b, c)
    ensures LexLe(le, a, c)
  {
    if a != [] && a[0] == b[0] && b[0] == c[0] {
      LexTransitive(le, a[1..], b[1..], c[1..]);
    }
  }

  ghost predicate Sorted<T>(le: (T, T) -> bool, s: seq<T>) {
    forall i, j | 0 <= i < j < |s| :: le(s[i], s[j])
  }

  /** Puts `x` before the first element it may precede. */
  function Insert<T>(le: (T, T) -> bool, x: T, s: seq<T>): seq<T> {
    if s == [] || le(x, s[0]) then [x] + s else [s[0]] + Insert(le, x, s[1..])
  }

  /** A stable sort. */
  function Sort<T>(le: (T, T) -> bool, s: seq<T>): seq<T> {
    if s == [] then [] else Insert(le, s[0], Sort(le, s[1..]))
  }

  lemma {:induction false} InsertContents<T>(le: (T, T) -> bool, x: T, s: seq<T>)
    ensures multiset(Insert(le, x, s)) == multiset(s) + multiset{x}
  {
    if s != [] && !le(x, s[0]) {
      InsertContents(le, x, s[1..]);
      assert s == [s[0]] + s[1..];
    }
  }

  lemma {:induction false} InsertSorted<T(!new)>(le: (T, T) -> bool, x: T, s: seq<T>)
    requires TotalPreorder(le) && Sorted(le, s)
    ensures Sorted(le, Insert(le, x, s))
  {
    if s != [] && !le(x, s[0]) {
      var rest := Insert(le, x, s[1..]);
      InsertSorted(le, x, s[1..]);
      InsertContents(le, x, s[1..]);
      forall y | y in rest
        ensures le(s[0], y)
      {
        assert y in multiset(rest);
      }
    }
  }

  lemma {:induction false} SortContents<T>(le: (T, T) -> bool, s: seq<T>)
    ensures multiset(Sort(le, s)) == multiset(s)
  {
    if s != [] {
      SortContents(le, s[1..]);
      InsertContents(le, s[0], Sort(le, s[1..]));
      assert s == [s[0]] + s[1..];
    }
  }

  lemma {:induction false} SortSorted<T(!new)>(le: (T, T) -> bool, s: seq<T>)
    requires TotalPreorder(le)
    ensures Sorted(le, Sort(le, s))
  {
    if s != [] {
      SortSorted(le, s[1..]);
      InsertSorted(le, s[0], Sort(le, s[1..]));
    }
  }

  lemma TailContents<T>(s: seq<T>)
    requires s != []
    ensures multiset(s[1..]) == multiset(s) - multiset{s[0]}
  {
    assert s == [s[0]] + s[1..];
  }

  lemma SameHead<T(!new)>(le: (T, T) -> bool, s: seq<T>, t: seq<T>)
    requires TotalOrder(le) && Sorted(le, s) && Sorted(le, t) && multiset(s) == multiset(t) && s != []
    ensures t != [] && s[0] == t[0]
  {
    assert s[0] in multiset(t);
    assert t[0] in multiset(s);
    var i :| 0 <= i < |t| && t[i] == s[0];
    var j :| 0 <= j < |s| && s[j] == t[0];
    assert le(t[0], s[0]) && le(s[0], t[0]);
  }

  /** Under a total order the sorted arrangement of a multiset is unique. */
  lemma {:induction false} SortedUnique<T(!new)>(le: (T, T) -> bool, s: seq<T>, t: seq<T>)
    requires TotalOrder(le) && Sorted(le, s) && Sorted(le, t) && multiset(s) == multiset(t)
    ensures s == t
  {
    if s == [] {
      assert |t| == |multiset(t)| == |multiset(s)|;
    } else {
      SameHead(le, s, t);
      TailContents(s);
      TailContents(t);
      SortedUnique(le, s[1..], t[1..]);
      assert s == [s[0]] + s[1..] && t == [t[0]] + t[1..];
    }
  }

  /** Two sequences sort to the same one exactly when they hold the same elements, counted. */
  lemma SortCanonical<T(!new)>(le: (T, T) -> bool, s: seq<T>, t: seq<T>)
    requires TotalOrder(le)
    ensures Sort(le, s) == Sort(le, t) <==> multiset(s) == multiset(t)
  {
    SortContents(le, s);
    SortContents(le, t);
    SortSorted(le, s);
    SortSorted(le, t);
    if multiset(s) == multiset(t) {
      SortedUnique(le, Sort(le, s), Sort(le, t));
    }
  }

  // Ordered maps

  predicate Least<T(==)>(le: (T, T) -> bool, keys: set<T>, k: T) {
    k in keys && forall o | o in keys :: le(k, o)
  }

  lemma {:induction false} LeastExists<T(!new)>(le: (T, T) -> bool, keys: set<T>)
    requires TotalPreorder(le) && keys != {}
    ensures exists k :: Least(le, keys, k)
  {
    var x :| x in keys;
    var rest := keys - {x};
    assert le(x, x) && keys == rest + {x};
    if rest == {} {
      assert Least(le, keys, x);
    } else {
      LeastExists(le, rest);
      var k :| Least(le, rest, k);
      var least := if le(x, k) then x else k;
      forall o | o in keys
        ensures le(least, o)
      {
        if o != x {
          assert o in rest && le(k, o);
        }
      }
      assert Least(le, keys, least);
    }
  }

  /** The keys of an ordered map, in the order it visits them. */
  method InOrder<T(==, !new)>(le: (T, T) -> bool, keys: set<T>) returns (s: seq<T>)
    requires TotalPreorder(le)
    ensures Sorted(le, s)
    ensures forall k :: k in s <==> k in keys
    ensures forall i, j | 0 <= i < j < |s| :: s[i] != s[j]
  {
    s := [];
    var rest := keys;
    while rest != {}
      invariant rest <= keys
      invariant forall k :: k in s <==> k in keys && k !in rest
      invariant Sorted(le, s)
      invariant forall i, k | 0 <= i < |s| && k in rest :: le(s[i], k)
      invariant forall i, j | 0 <= i < j < |s| :: s[i] != s[j]
      decreases rest
    {
      LeastExists(le, rest);
      var k :| Least(le, rest, k);
      s := s + [k];
      rest := rest - {k};
    }
  }

  // Stability

  function Ties<T>(le: (T, T) -> bool, s: seq<T>, x: T): seq<T> {
    if s == [] then []
    else (if le(x, s[0]) && le(s[0], x) then [s[0]] else []) + Ties(le, s[1..], x)
  }

  lemma {:induction false} InsertStable<T(!new)>(le: (T, T) -> bool, x: T, s: seq<T>, y: T)
    requires TotalPreorder(le) && Sorted(le, s)
    ensures Ties(le, Insert(le, x, s), y) == Ties(le, [x] + s, y)
  {
    assert ([x] + s)[1..] == s;
    if s != [] && !le(x, s[0]) {
      InsertStable(le, x, s[1..], y);
      assert ([x] + s[1..])[1..] == s[1..];
      assert ([s[0]] + Insert(le, x, s[1..]))[1..] == Insert(le, x, s[1..]);
    }
  }

  /** Elements that compare equal keep their order. */
  lemma {:induction false} SortStable<T(!new)>(le: (T, T) -> bool, s: seq<T>, y: T)
    requires TotalPreorder(le)
    ensures Ties(le, Sort(le, s), y) == Ties(le, s, y)
  {
    if s != [] {
      SortSorted(le, s[1..]);
      SortStable(le, s[1..], y);
      InsertStable(le, s[0], Sort(le, s[1..]), y);
      assert ([s[0]] + Sort(le, s[1..]))[1..] == Sort(le, s[1..]);
    }
  }

  lemma {:induction false} TiesMembers<T(!new)>(le: (T, T) -> bool, s: seq<T>, x: T)
    requires TotalPreorder(le)
    ensures forall y :: y in Ties(le, s, x) <==> y in s && le(x, y) && le(y, x)
  {
    if s != [] {
      TiesMembers(le, s[1..], x);
    }
  }

  lemma HeadTies<T(!new)>(le: (T, T) -> bool, s: seq<T>)
    requires TotalPreorder(le)
    ensures s != [] ==> Ties(le, s, s[0]) != []
  {
  }

  /** Sortedness and stability together determine the result. */
  lemma {:induction false} StableSortUnique<T(!new)>(le: (T, T) -> bool, s: seq<T>, t: seq<T>)
    requires TotalPreorder(le) && Sorted(le, s) && Sorted(le, t)
    requires forall x :: Ties(le, s, x) == Ties(le, t, x)
    ensures s == t
  {
    if s == [] {
      HeadTies(le, t);
    } else {
      assert Ties(le, s, s[0])[0] == s[0];
      TiesMembers(le, t, s[0]);
      assert s[0] in Ties(le, t, s[0]);
      TiesMembers(le, s, t[0]);
      assert Ties(le, t, t[0])[0] == t[0];
      assert t[0] in Ties(le, s, t[0]);
      var i :| 0 <= i < |t| && t[i] == s[0];
      var j :| 0 <= j < |s| && s[j] == t[0];
      assert le(t[0], s[0]) && le(s[0], t[0]);
      assert Ties(le, t, s[0])[0] == t[0];
      forall x
        ensures Ties(le, s[1..], x) == Ties(le, t[1..], x)
      {
        var p := if le(x, s[0]) && le(s[0], x) then [s[0]] else [];
        assert Ties(le, s, x) == p + Ties(le, s[1..], x);
        assert Ties(le, t, x) == p + Ties(le, t[1..], x);
        assert Ties(le, s[1..], x) == Ties(le, s, x)[|p|..];
        assert Ties(le, t[1..], x) == Ties(le, t, x)[|p|..];
      }
      StableSortUnique(le, s[1..], t[1..]);
    }
  }
}

/** Strings: order, prefixes, decimal numerals. */
module Text {
  import opened Wrappers
  import opened Ordering

  predicate CharLe(a: char, b: char) {
    a <= b
  }

  predicate StringLe(a: string, b: string) {
    LexLe(CharLe, a, b)
  }

  predicate NamesLe(a: seq<string>, b: seq<string>) {
    LexLe(StringLe, a, b)
  }

  lemma StringOrder()
    ensures TotalOrder(StringLe)
  {
    assert TotalOrder(CharLe);
    forall a: string, b: string
      ensures StringLe(a, b) || StringLe(b, a)
      ensures StringLe(a, b) && StringLe(b, a) ==> a == b
    {
      LexTotal(CharLe, a, b);
    }
    forall a: string, b: string, c: string | StringLe(a, b) && StringLe(b, c)
      ensures StringLe(a, c)
    {
      LexTransitive(CharLe, a, b, c);
    }
  }

  lemma NamesOrder()
    ensures TotalOrder(NamesLe)
  {
    StringOrder();
    forall a: seq<string>, b: seq<string>
      ensures NamesLe(a, b) || NamesLe(b, a)
      ensures NamesLe(a, b) && NamesLe(b, a) ==> a == b
    {
      LexTotal(StringLe, a, b);
    }
    forall a: seq<string>, b: seq<string>, c: seq<string> | NamesLe(a, b) && NamesLe(b, c)
      ensures NamesLe(a, c)
    {
      LexTransitive(StringLe, a, b, c);
    }
  }

  predicate StartsWith(s: string, prefix: string) {
    |prefix| <= |s| && s[..|prefix|] == prefix
  }

  predicate IsDigit(c: char) {
    '0' <= c <= '9'
  }

  function DigitChar(d: nat): (c: char)
    requires d < 10
    ensures IsDigit(c) && DigitValue(c) == d
  {
    '0' + d as char
  }

  function DigitValue(c: char): (d: nat)
    requires IsDigit(c)
    ensures d < 10
  {
    (c as int) - ('0' as int)
  }

  ghost predicate AllDigits(s: string) {
    forall i | 0 <= i < |s| :: IsDigit(s[i])
  }

  /** Decimal numeral without leading zeros. */
  function Decimal(n: nat): (s: string)
    ensures s != []
  {
    if n < 10 then [DigitChar(n)] else Decimal(n / 10) + [DigitChar(n % 10)]
  }

  /** Value of a string of digits; other strings have none. */
  function ReadDecimal(s: string): Option<nat> {
    if s == [] then None
    else
      var last := s[|s| - 1];
      if !IsDigit(last) then None
      else if |s| == 1 then Some(DigitValue(last))
      else
        match ReadDecimal(s[..|s| - 1])
        case None => None
        case Some(n) => Some(10 * n + DigitValue(last))
  }

  lemma ReadSnoc(s: string, c: char, n: nat)
    requires ReadDecimal(s) == Some(n) && IsDigit(c)
    ensures ReadDecimal(s + [c]) == Some(10 * n + DigitValue(c))
  {
    assert (s + [c])[..|s|] == s;
  }

  lemma {:induction false} DecimalRoundTrip(n: nat)
    ensures ReadDecimal(Decimal(n)) == Some(n)
  {
    if n >= 10 {
      DecimalRoundTrip(n / 10);
      var s := Decimal(n);
      assert s[..|s| - 1] == Decimal(n / 10);
    }
  }

  lemma {:induction false} DecimalDigits(n: nat)
    ensures AllDigits(Decimal(n))
  {
    if n >= 10 {
      DecimalDigits(n / 10);
    }
  }

  lemma DecimalInjective(m: nat, n: nat)
    requires Decimal(m) == Decimal(n)
    ensures m == n
  {
    DecimalRoundTrip(m);
    DecimalRoundTrip(n);
  }

  /** Three digits, with leading zeros. */
  function Padded3(n: nat): string
    requires n < 1000
  {
    [DigitChar(n / 100), DigitChar(n / 10 % 10), DigitChar(n % 10)]
  }

  lemma Padded3RoundTrip(n: nat)
    requires n < 1000
    ensures ReadDecimal(Padded3(n)) == Some(n)
  {
    var a, b, c := DigitChar(n / 100), DigitChar(n / 10 % 10), DigitChar(n % 10);
    ReadSnoc([a], b, n / 100);
    ReadSnoc([a] + [b], c, n / 10);
    assert Padded3(n) == [a] + [b] + [c];
  }
}
