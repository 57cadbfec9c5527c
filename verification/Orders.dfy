/** Strict orders, the one listing of a set that follows an order, and the order of texts. */
module Orders {

  /** Texts compare character by character, a prefix first. */
  predicate TextBefore(a: string, b: string) {
    if b == [] then false
    else if a == [] then true
    else if a[0] != b[0] then a[0] < b[0]
    else TextBefore(a[1..], b[1..])
  }

  lemma {:induction false} TextOrder(a: string, b: string, c: string)
    ensures TextBefore(a, b) && TextBefore(b, c) ==> TextBefore(a, c)
    ensures a != b ==> (TextBefore(a, b) <==> !TextBefore(b, a))
    ensures !TextBefore(a, a)
  {
    if a != [] && b != [] {
      TextOrder(a[1..], b[1..], if c == [] then [] else c[1..]);
      assert a[0] == b[0] && a[1..] == b[1..] ==> a == b by {
        assert a == [a[0]] + a[1..] && b == [b[0]] + b[1..];
      }
    } else if a != [] {
      TextOrder(a[1..], a[1..], a[1..]);
    }
  }

  function Elements<T>(s: seq<T>): set<T> {
    set x | x in s
  }

  /** Irreflexive, total and transitive on the items. */
  ghost predicate StrictOrder<T>(items: set<T>, before: (T, T) -> bool) {
    && (forall a :: a in items ==> !before(a, a))
    && (forall a, b :: a in items && b in items && a != b ==> (before(a, b) <==> !before(b, a)))
    && (forall a, b, c :: a in items && b in items && c in items && before(a, b) && before(b, c) ==> before(a, c))
  }

  ghost predicate InOrder<T>(s: seq<T>, before: (T, T) -> bool) {
    forall i, j :: 0 <= i < j < |s| ==> before(s[i], s[j])
  }

  predicate IsFirst<T(==)>(items: set<T>, before: (T, T) -> bool, first: T) {
    first in items && forall x :: x in items && x != first ==> before(first, x)
  }

  lemma {:induction false} FirstExists<T>(items: set<T>, before: (T, T) -> bool)
    requires items != {} && StrictOrder(items, before)
    ensures exists first :: IsFirst(items, before, first)
  {
    var x :| x in items;
    if items == {x} {
      assert IsFirst(items, before, x);
    } else {
      FirstExists(items - {x}, before);
      var rest :| IsFirst(items - {x}, before, rest);
      assert IsFirst(items, before, if before(x, rest) then x else rest);
    }
  }

  lemma FirstIsUnique<T>(items: set<T>, before: (T, T) -> bool, a: T, b: T)
    requires StrictOrder(items, before) && IsFirst(items, before, a) && IsFirst(items, before, b)
    ensures a == b
  {
  }

  /** A set has only one listing in order. */
  lemma {:induction false} OneListing<T>(s: seq<T>, t: seq<T>, before: (T, T) -> bool)
    requires Elements(s) == Elements(t) && StrictOrder(Elements(s), before) && InOrder(s, before) && InOrder(t, before)
    ensures s == t
  {
    assert t != [] ==> t[0] in Elements(t);
    if s != [] {
      assert s[0] in Elements(s) && s[0] in t;
      assert t[0] in Elements(t) && t[0] in s;
      HeadIsFirst(s, before);
      HeadIsFirst(t, before);
      FirstIsUnique(Elements(s), before, s[0], t[0]);
      TailElements(s, before);
      TailElements(t, before);
      OneListing(s[1..], t[1..], before);
      assert s == [s[0]] + s[1..] && t == [t[0]] + t[1..];
    }
  }

  lemma HeadIsFirst<T>(s: seq<T>, before: (T, T) -> bool)
    requires s != [] && InOrder(s, before)
    ensures IsFirst(Elements(s), before, s[0])
  {
    forall x | x in Elements(s) && x != s[0] ensures before(s[0], x) {
      var i :| 0 <= i < |s| && s[i] == x;
    }
  }

  lemma TailElements<T>(s: seq<T>, before: (T, T) -> bool)
    requires s != [] && StrictOrder(Elements(s), before) && InOrder(s, before)
    ensures Elements(s[1..]) == Elements(s) - {s[0]} && InOrder(s[1..], before) && StrictOrder(Elements(s[1..]), before)
  {
    forall x ensures x in Elements(s[1..]) <==> x in Elements(s) - {s[0]} {
      if x in s[1..] {
        var i :| 0 <= i < |s[1..]| && s[1..][i] == x;
        assert s[i + 1] == x && before(s[0], s[i + 1]);
        assert s[0] in Elements(s);
      } else {
        assert s == [s[0]] + s[1..];
      }
    }
  }

  lemma ElementsAppended<T>(s: seq<T>, x: T)
    ensures Elements(s + [x]) == Elements(s) + {x}
  {
  }

  /** The rows of a set, in order. */
  ghost function Sorted<T>(items: set<T>, before: (T, T) -> bool): seq<T>
    requires StrictOrder(items, before)
  {
    if items == {} then []
    else
      FirstExists(items, before);
      var first :| IsFirst(items, before, first);
      [first] + Sorted(items - {first}, before)
  }

  lemma {:induction false} SortedMeaning<T>(items: set<T>, before: (T, T) -> bool)
    requires StrictOrder(items, before)
    ensures InOrder(Sorted(items, before), before) && Elements(Sorted(items, before)) == items && |Sorted(items, before)| == |items|
    decreases |items|
  {
    if items != {} {
      FirstExists(items, before);
      var s := Sorted(items, before);
      assert IsFirst(items, before, s[0]) && s[1..] == Sorted(items - {s[0]}, before);
      SortedMeaning(items - {s[0]}, before);
      Prepended(s[0], s[1..], before);
      assert s == [s[0]] + s[1..];
    }
  }

  lemma Prepended<T>(x: T, s: seq<T>, before: (T, T) -> bool)
    requires InOrder(s, before) && forall y :: y in s ==> before(x, y)
    ensures InOrder([x] + s, before) && Elements([x] + s) == {x} + Elements(s)
  {
  }

  /** List a set in order, first item first. */
  method SortBy<T(==)>(items: set<T>, before: (T, T) -> bool) returns (s: seq<T>)
    requires StrictOrder(items, before)
    ensures s == Sorted(items, before) && InOrder(s, before) && Elements(s) == items && |s| == |items|
  {
    var rest := items;
    s := [];
    while rest != {}
      invariant rest <= items && StrictOrder(rest, before) && s + Sorted(rest, before) == Sorted(items, before)
      invariant |s| + |rest| == |items|
      decreases |rest|
    {
      FirstExists(rest, before);
      var first :| first in rest && IsFirst(rest, before, first);
      var chosen := Sorted(rest, before)[0];
      FirstIsUnique(rest, before, first, chosen);
      assert Sorted(rest, before) == [first] + Sorted(rest - {first}, before);
      s := s + [first];
      rest := rest - {first};
    }
    SortedMeaning(items, before);
  }
}
