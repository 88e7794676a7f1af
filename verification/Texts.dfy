/** Text as the capture and checkpoint code compares and trims it. */
module Texts {

  /** Lexicographic order of characters. */
  predicate Less(a: string, b: string)
    decreases |a|
  {
    b != [] && (a == [] || a[0] < b[0] || (a[0] == b[0] && Less(a[1..], b[1..])))
  }

  lemma {:induction false} LessIsIrreflexive(a: string)
    ensures !Less(a, a)
    decreases |a|
  {
    if a != [] {
      LessIsIrreflexive(a[1..]);
    }
  }

  lemma {:induction false} LessIsTransitive(a: string, b: string, c: string)
    requires Less(a, b) && Less(b, c)
    ensures Less(a, c)
    decreases |a|
  {
    if a != [] && a[0] == b[0] == c[0] {
      LessIsTransitive(a[1..], b[1..], c[1..]);
    }
  }

  lemma {:induction false} LessIsTotal(a: string, b: string)
    ensures a == b || Less(a, b) || Less(b, a)
    decreases |a|
  {
    if a != [] && b != [] && a[0] == b[0] {
      LessIsTotal(a[1..], b[1..]);
      assert a == [a[0]] + a[1..] && b == [b[0]] + b[1..];
    }
  }

  ghost predicate Ascending(names: seq<string>) {
    forall i, j :: 0 <= i < j < |names| ==> Less(names[i], names[j])
  }

  lemma LessIsAsymmetric(a: string, b: string)
    requires Less(a, b)
    ensures !Less(b, a)
  {
    LessIsIrreflexive(a);
    if Less(b, a) {
      LessIsTransitive(a, b, a);
    }
  }

  /** In order, with repetitions. */
  ghost predicate Ordered(names: seq<string>) {
    forall i, j :: 0 <= i < j < |names| ==> !Less(names[j], names[i])
  }

  lemma AscendingIsOrdered(names: seq<string>)
    requires Ascending(names)
    ensures Ordered(names)
  {
    forall i, j | 0 <= i < j < |names| ensures !Less(names[j], names[i]) {
      LessIsAsymmetric(names[i], names[j]);
    }
  }

  /** There is one way to put names in order. */
  lemma {:induction false} OrderedIsUnique(a: seq<string>, b: seq<string>)
    requires Ordered(a) && Ordered(b) && multiset(a) == multiset(b)
    ensures a == b
    decreases |a|
  {
    SameMembers(a, b);
    hide Less;
    if a != [] {
      SameLeast(a, b);
      SameTails(a, b);
      assert a == [a[0]] + a[1..] && b == [b[0]] + b[1..];
      OrderedIsUnique(a[1..], b[1..]);
    }
  }

  lemma SameMembers<T>(a: seq<T>, b: seq<T>)
    requires multiset(a) == multiset(b)
    ensures |a| == |b| && forall x :: x in a <==> x in b
  {
    assert |multiset(a)| == |multiset(b)|;
    assert forall x :: x in a <==> x in multiset(a);
    assert forall x :: x in b <==> x in multiset(b);
  }

  lemma SameTails<T>(a: seq<T>, b: seq<T>)
    requires a != [] && b != [] && a[0] == b[0] && multiset(a) == multiset(b)
    ensures multiset(a[1..]) == multiset(b[1..])
  {
    assert a == [a[0]] + a[1..] && b == [b[0]] + b[1..];
    assert multiset(a[1..]) == multiset(a) - multiset{a[0]};
  }

  lemma SameLeast(a: seq<string>, b: seq<string>)
    requires Ordered(a) && Ordered(b) && a != [] && b != [] && a[0] in b && b[0] in a
    ensures a[0] == b[0]
  {
    LessIsTotal(a[0], b[0]);
    LessIsIrreflexive(a[0]);
    hide Less;
  }

  /** White space of the Unicode standard. */
  predicate Space(c: char) {
    c in "\t\n\U{B}\U{C}\r \U{85}\U{A0}\U{1680}\U{2028}\U{2029}\U{202F}\U{205F}\U{3000}"
    || '\U{2000}' <= c <= '\U{200A}'
  }

  function TrimLeft(s: string): string {
    if s != [] && Space(s[0]) then TrimLeft(s[1..]) else s
  }

  function TrimRight(s: string): string {
    if s != [] && Space(s[|s| - 1]) then TrimRight(s[..|s| - 1]) else s
  }

  function Trim(s: string): string { TrimRight(TrimLeft(s)) }

  lemma {:induction false} TrimLeftStarts(s: string)
    ensures TrimLeft(s) != [] ==> !Space(TrimLeft(s)[0])
  {
    if s != [] && Space(s[0]) {
      TrimLeftStarts(s[1..]);
    }
  }

  lemma {:induction false} TrimRightEnds(s: string)
    ensures
      var t := TrimRight(s);
      t <= s && TrimRight(t) == t
  {
    if s != [] && Space(s[|s| - 1]) {
      TrimRightEnds(s[..|s| - 1]);
    }
  }

  lemma TrimTwice(s: string)
    ensures Trim(Trim(s)) == Trim(s)
  {
    TrimLeftStarts(s);
    TrimRightEnds(TrimLeft(s));
    var t := Trim(s);
    hide Space;
    hide TrimRight;
    assert t != [] ==> t[0] == TrimLeft(s)[0];
    assert TrimLeft(t) == t;
  }

  /** Has no white space around it and is not empty. */
  predicate Named(s: string) { s != "" && Trim(s) == s }

  /** Inserts a name into an ordered list, behind its equals. */
  method InsertOrdered(names: seq<string>, name: string) returns (r: seq<string>)
    requires Ordered(names)
    ensures Ordered(r) && multiset(r) == multiset(names) + multiset{name}
  {
    hide Less;
    var i := |names|;
    while i > 0 && Less(name, names[i - 1])
      invariant 0 <= i <= |names| && forall j :: i <= j < |names| ==> Less(name, names[j])
    {
      i := i - 1;
    }
    r := names[..i] + [name] + names[i..];
    assert names == names[..i] + names[i..];
    Placed(names, name, i);
    hide Ordered;
  }

  /** A name placed behind what is not greater and before what is. */
  lemma Placed(names: seq<string>, name: string, i: nat)
    requires Ordered(names) && i <= |names|
    requires (i > 0 ==> !Less(name, names[i - 1])) && forall j :: i <= j < |names| ==> Less(name, names[j])
    ensures Ordered(names[..i] + [name] + names[i..])
  {
    forall j | 0 <= j < i ensures !Less(name, names[j]) {
      if Less(name, names[j]) && j < i - 1 {
        LessIsTotal(names[j], names[i - 1]);
        if Less(names[j], names[i - 1]) {
          LessIsTransitive(name, names[j], names[i - 1]);
        }
      }
    }
    forall j | i <= j < |names| ensures !Less(names[j], name) {
      LessIsAsymmetric(name, names[j]);
    }
    hide Less;
  }

  /** Puts names in order. */
  method Sort(names: seq<string>) returns (r: seq<string>)
    ensures Ordered(r) && multiset(r) == multiset(names)
  {
    r := [];
    for i := 0 to |names|
      invariant Ordered(r) && multiset(r) == multiset(names[..i])
    {
      r := InsertOrdered(r, names[i]);
      assert names[..i + 1] == names[..i] + [names[i]];
    }
    assert names[..|names|] == names;
  }

  /** Inserts a new name into an ascending list. */
  method Insert(names: seq<string>, name: string) returns (r: seq<string>)
    requires Ascending(names) && name !in names
    ensures Ascending(r) && |r| == |names| + 1
    ensures forall n :: n in r <==> n in names || n == name
  {
    var i := 0;
    while i < |names| && Less(names[i], name)
      invariant i <= |names| && forall j :: 0 <= j < i ==> Less(names[j], name)
    {
      i := i + 1;
    }
    r := names[..i] + [name] + names[i..];
    forall j | i <= j < |names| ensures Less(name, names[j]) {
      LessIsTotal(name, names[i]);
      if j > i {
        LessIsTransitive(name, names[i], names[j]);
      }
    }
    assert names == names[..i] + names[i..];
  }
}
