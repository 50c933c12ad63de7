/** JavaScript's string order, by UTF-16 code unit, and the sorted duplicate-free form of a collection of strings. */
module TextOrder {
  import opened Prelude

  predicate Less(a: Text, b: Text) {
    if b == [] then false
    else if a == [] then true
    else a[0] < b[0] || (a[0] == b[0] && Less(a[1..], b[1..]))
  }

  /** At position `i`, the first at which they differ, `a` has the smaller unit. */
  predicate SmallerAt(a: Text, b: Text, i: nat) {
    i < |a| && i < |b| && a[..i] == b[..i] && a[i] < b[i]
  }

  /** `a` comes before `b`: it is a proper beginning of `b`, or has the smaller unit where they first differ. */
  ghost predicate Precedes(a: Text, b: Text) {
    (|a| < |b| && a == b[..|a|]) || exists i: nat :: SmallerAt(a, b, i)
  }

  /** The order compares texts unit by unit, from the left, a beginning coming first. */
  lemma {:induction false} LessByPosition(a: Text, b: Text)
    ensures Less(a, b) <==> Precedes(a, b)
  {
    if a == [] || b == [] {
    } else if a[0] != b[0] {
      assert SmallerAt(a, b, 0) <==> a[0] < b[0];
      forall i: nat | SmallerAt(a, b, i) ensures i == 0 {
        if i > 0 {
          SameHead(a, b, i);
        }
      }
    } else {
      LessByPosition(a[1..], b[1..]);
      assert a == [a[0]] + a[1..] && b == [b[0]] + b[1..];
      PrecedesTail(a, b);
    }
  }

  lemma SameHead(a: Text, b: Text, i: nat)
    requires 0 < i <= |a| && i <= |b| && a[..i] == b[..i]
    ensures a[0] == b[0]
  {
    assert a[..i][0] == a[0] && b[..i][0] == b[0];
  }

  lemma PrecedesTail(a: Text, b: Text)
    requires a != [] && b != [] && a[0] == b[0]
    ensures Precedes(a, b) <==> Precedes(a[1..], b[1..])
  {
    var x, y := a[1..], b[1..];
    assert a == [a[0]] + x && b == [a[0]] + y;
    if |a| < |b| {
      assert b[..|a|] == [a[0]] + y[..|x|];
      assert a == b[..|a|] <==> x == y[..|x|] by {
        assert a[1..] == x && b[..|a|][1..] == y[..|x|];
      }
    }
    forall i: nat | i < |x| && i < |y| ensures SmallerAt(x, y, i) <==> SmallerAt(a, b, i + 1) {
      assert a[..i + 1] == [a[0]] + x[..i] && b[..i + 1] == [a[0]] + y[..i];
      assert a[..i + 1][1..] == x[..i] && b[..i + 1][1..] == y[..i];
    }
    if Precedes(a, b) && !(|a| < |b| && a == b[..|a|]) {
      var i: nat :| SmallerAt(a, b, i);
      assert i > 0 && SmallerAt(x, y, i - 1);
    }
    if Precedes(x, y) && !(|x| < |y| && x == y[..|x|]) {
      var i: nat :| SmallerAt(x, y, i);
      assert SmallerAt(a, b, i + 1);
    }
  }

  lemma LessIrreflexive(a: Text)
    ensures !Less(a, a)
  {
  }

  lemma LessTransitive(a: Text, b: Text, c: Text)
    requires Less(a, b) && Less(b, c)
    ensures Less(a, c)
  {
  }

  lemma {:induction false} LessTotal(a: Text, b: Text)
    ensures a == b || Less(a, b) || Less(b, a)
  {
    if a != [] && b != [] && a[0] == b[0] {
      LessTotal(a[1..], b[1..]);
      assert a == [a[0]] + a[1..] && b == [b[0]] + b[1..];
    }
  }

  predicate StrictlySorted(s: seq<Text>) {
    forall i, j | 0 <= i < j < |s| :: Less(s[i], s[j])
  }

  function Elements(s: seq<Text>): set<Text> {
    set x | x in s
  }

  predicate IsLeast(x: Text, s: set<Text>) {
    x in s && forall y | y in s && y != x :: Less(x, y)
  }

  lemma {:induction false} LeastExists(s: set<Text>) returns (x: Text)
    requires s != {}
    ensures IsLeast(x, s)
  {
    var y :| y in s;
    if s == {y} {
      x := y;
    } else {
      var z := LeastExists(s - {y});
      LessTotal(y, z);
      x := if Less(y, z) then y else z;
      forall u | u in s && u != x ensures Less(x, u) {
        if x == y && u != z {
          LessTransitive(y, z, u);
        }
      }
    }
  }

  lemma LeastUnique(x: Text, y: Text, s: set<Text>)
    requires IsLeast(x, s) && IsLeast(y, s)
    ensures x == y
  {
    if x != y {
      LessTransitive(x, y, x);
      LessIrreflexive(x);
    }
  }

  /** `[...s].sort()` for a set of strings. */
  ghost function Sorted(s: set<Text>): (r: seq<Text>)
    ensures Elements(r) == s && StrictlySorted(r)
  {
    if s == {} then []
    else
      LeastExistsFor(s);
      var x :| IsLeast(x, s);
      var rest := Sorted(s - {x});
      ConsSorted(x, rest, s);
      [x] + rest
  }

  /** A sorted list has the elements it was made of, each once, the ones that come before standing before. */
  lemma SortedByPosition(s: set<Text>)
    ensures forall x :: x in Sorted(s) <==> x in s
    ensures forall i, j | 0 <= i < j < |Sorted(s)| :: Precedes(Sorted(s)[i], Sorted(s)[j])
  {
    var r := Sorted(s);
    assert forall x :: x in r <==> x in Elements(r);
    forall i, j | 0 <= i < j < |r| ensures Precedes(r[i], r[j]) {
      LessByPosition(r[i], r[j]);
    }
  }

  lemma ConsSorted(x: Text, rest: seq<Text>, s: set<Text>)
    requires IsLeast(x, s) && Elements(rest) == s - {x} && StrictlySorted(rest)
    ensures Elements([x] + rest) == s && StrictlySorted([x] + rest)
  {
    forall i | 0 <= i < |rest| ensures Less(x, rest[i]) {
      assert rest[i] in Elements(rest);
    }
    assert ([x] + rest)[0] == x;
    forall y ensures y in Elements([x] + rest) <==> y in s {
      assert y in [x] + rest <==> y == x || y in rest;
      assert y in rest <==> y in Elements(rest);
    }
  }

  lemma LeastExistsFor(s: set<Text>)
    requires s != {}
    ensures exists x :: IsLeast(x, s)
  {
    var x := LeastExists(s);
  }

  /** The sorted form is canonical: it depends on the elements alone. */
  lemma {:induction false} SortedUnique(r: seq<Text>, t: seq<Text>)
    requires StrictlySorted(r) && StrictlySorted(t) && Elements(r) == Elements(t)
    ensures r == t
  {
    if r == [] {
      NoElements(t);
    } else {
      assert r[0] in Elements(t);
      assert t != [] && t[0] in Elements(r);
      HeadIsLeast(r);
      HeadIsLeast(t);
      LeastUnique(r[0], t[0], Elements(r));
      TailElements(r);
      TailElements(t);
      SortedUnique(r[1..], t[1..]);
      assert r == [r[0]] + r[1..] && t == [t[0]] + t[1..];
    }
  }

  lemma NoElements(s: seq<Text>)
    ensures Elements(s) == {} <==> s == []
  {
    if s != [] {
      assert s[0] in Elements(s);
    }
  }

  lemma HeadIsLeast(r: seq<Text>)
    requires StrictlySorted(r) && r != []
    ensures IsLeast(r[0], Elements(r))
  {
    forall y | y in Elements(r) && y != r[0] ensures Less(r[0], y) {
      var i :| 0 <= i < |r| && r[i] == y;
    }
  }

  lemma TailElements(r: seq<Text>)
    requires StrictlySorted(r) && r != []
    ensures Elements(r[1..]) == Elements(r) - {r[0]}
  {
    forall x ensures x in Elements(r[1..]) <==> x in Elements(r) - {r[0]} {
      if x in Elements(r[1..]) {
        var i :| 0 <= i < |r[1..]| && r[1..][i] == x;
        assert Less(r[0], r[i + 1]);
        LessIrreflexive(x);
      }
      if x in Elements(r) && x != r[0] {
        var i :| 0 <= i < |r| && r[i] == x;
        assert r[1..][i - 1] == x;
      }
    }
  }

  /** `s` with `x` in its place, once. */
  function Insert(x: Text, s: seq<Text>): seq<Text> {
    if s == [] then [x]
    else if x == s[0] then s
    else if Less(x, s[0]) then [x] + s
    else [s[0]] + Insert(x, s[1..])
  }

  lemma {:induction false} InsertSorted(x: Text, s: seq<Text>)
    requires StrictlySorted(s)
    ensures StrictlySorted(Insert(x, s)) && Elements(Insert(x, s)) == Elements(s) + {x}
  {
    if s == [] {
    } else if x == s[0] {
      assert s[0] in Elements(s);
    } else if Less(x, s[0]) {
      BeforeAll(x, s);
    } else {
      LessTotal(x, s[0]);
      InsertSorted(x, s[1..]);
      TailElements(s);
      var rest := Insert(x, s[1..]);
      forall i | 0 <= i < |rest| ensures Less(s[0], rest[i]) {
        assert rest[i] in Elements(rest);
        if rest[i] != x {
          HeadIsLeast(s);
        }
      }
      ConsElements(s[0], rest);
      assert s[0] in Elements(s);
    }
  }

  lemma BeforeAll(x: Text, s: seq<Text>)
    requires StrictlySorted(s) && s != [] && Less(x, s[0])
    ensures StrictlySorted([x] + s) && Elements([x] + s) == Elements(s) + {x}
  {
    forall i | 0 <= i < |s| ensures Less(x, s[i]) {
      if i > 0 {
        LessTransitive(x, s[0], s[i]);
      }
    }
    ConsElements(x, s);
  }

  lemma ConsElements(x: Text, s: seq<Text>)
    ensures Elements([x] + s) == Elements(s) + {x}
  {
    assert ([x] + s)[0] == x;
    assert forall y :: y in [x] + s <==> y == x || y in s;
  }

  /** `[...new Set(values)].sort()`, run. */
  method UniqueSorted(values: seq<Text>) returns (r: seq<Text>)
    ensures r == Sorted(Elements(values))
    ensures forall x :: x in r <==> x in values
    ensures forall i, j | 0 <= i < j < |r| :: Precedes(r[i], r[j])
  {
    r := [];
    for i := 0 to |values|
      invariant StrictlySorted(r) && Elements(r) == Elements(values[..i])
    {
      InsertSorted(values[i], r);
      assert values[..i + 1] == values[..i] + [values[i]];
      assert forall y :: y in values[..i + 1] <==> y in values[..i] || y == values[i];
      r := Insert(values[i], r);
    }
    assert values[..|values|] == values;
    SortedUnique(r, Sorted(Elements(values)));
    SortedByPosition(Elements(values));
  }
}
