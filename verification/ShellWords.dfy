/**
 Shell quoting (internal/mirror/remote.go) against the strict parser of quoted words
 (internal/mirror/projection.go) and against the shell's own quoting rules.
 */
module ShellWords {
  import opened Wrappers
  import opened Bytes

  /** A quote inside single quotes is written as: close, a double-quoted quote, reopen. */
  const ESCAPED: Bytes := [QUOTE, DQUOTE, QUOTE, DQUOTE, QUOTE]

  /** What follows the closing quote when the word goes on. */
  const CONTINUED: Bytes := [DQUOTE, QUOTE, DQUOTE, QUOTE]

  function Escape(value: Bytes): Bytes {
    if value == [] then []
    else (if value[0] == QUOTE then ESCAPED else [value[0]]) + Escape(value[1..])
  }

  function Quote(value: Bytes): Bytes {
    if value == [] then [QUOTE, QUOTE] else [QUOTE] + Escape(value) + [QUOTE]
  }

  /** The quoted words, separated by single spaces. */
  function Command(argv: seq<Bytes>): Bytes {
    if argv == [] then []
    else if |argv| == 1 then Quote(argv[0])
    else Quote(argv[0]) + [SPACE] + Command(argv[1..])
  }

  datatype Word = Word(value: Bytes, rest: Bytes)

  /** The rest of a word whose opening quote has been read. */
  function Tail(input: Bytes): (w: Option<Word>)
    ensures w.Some? ==> |w.value.rest| < |input|
    decreases |input|
  {
    var i := IndexOf(input, QUOTE);
    if i < 0 then None
    else
      var rest := input[i + 1..];
      if CONTINUED <= rest then
        var more := Tail(rest[4..]);
        if more.None? then None else Some(Word(input[..i] + [QUOTE] + more.value.value, more.value.rest))
      else Some(Word(input[..i], rest))
  }

  function Consume(input: Bytes): (w: Option<Word>)
    ensures w.Some? ==> |w.value.rest| < |input|
  {
    if input == [] || input[0] != QUOTE then None else Tail(input[1..])
  }

  function Parse(input: Bytes): Option<seq<Bytes>>
    decreases |input|
  {
    var word := Consume(input);
    if word.None? then None
    else
      var rest := word.value.rest;
      if rest == [] then Some([word.value.value])
      else if rest[0] != SPACE || |rest| == 1 || rest[1] == SPACE then None
      else
        var more := Parse(rest[1..]);
        if more.None? then None else Some([word.value.value] + more.value)
  }

  // ---------------------------------------------------------------- parsing undoes quoting

  /** A word that continues another. */
  function Prefixed(value: Bytes, w: Option<Word>): Option<Word> {
    if w.None? then None else Some(Word(value + w.value.value, w.value.rest))
  }

  lemma TailStep(head: Bytes, rest: Bytes)
    requires QUOTE !in head
    ensures
      Tail(head + [QUOTE] + rest) ==
        if CONTINUED <= rest then Prefixed(head + [QUOTE], Tail(rest[4..])) else Some(Word(head, rest))
  {
    var input := head + [QUOTE] + rest;
    IndexOfUnique(head, QUOTE, rest);
    assert input[..|head|] == head && input[|head| + 1..] == rest;
  }

  lemma PrefixedTwice(a: Bytes, b: Bytes, w: Option<Word>)
    ensures Prefixed(a, Prefixed(b, w)) == Prefixed(a + b, w)
    ensures Prefixed([], w) == w
  {
    if w.Some? {
      Regroup(a, b, w.value.value);
      assert [] + w.value.value == w.value.value;
    }
  }

  lemma TailSkips(c: byte, input: Bytes)
    requires c != QUOTE
    ensures Tail([c] + input) == Prefixed([c], Tail(input))
  {
    var i := IndexOf(input, QUOTE);
    if i < 0 {
      assert QUOTE !in [c] + input;
    } else {
      var head, rest := input[..i], input[i + 1..];
      assert input == head + [QUOTE] + rest;
      assert [c] + input == [c] + head + [QUOTE] + rest;
      TailStep(head, rest);
      TailStep([c] + head, rest);
      hide Tail;
      if CONTINUED <= rest {
        PrefixedTwice([c], head + [QUOTE], Tail(rest[4..]));
        Regroup([c], head, [QUOTE]);
      }
    }
  }

  lemma {:induction false} TailOfEscape(value: Bytes, rest: Bytes)
    requires !(CONTINUED <= rest)
    ensures Tail(Escape(value) + [QUOTE] + rest) == Some(Word(value, rest))
  {
    hide Tail;
    if value == [] {
      TailStep([], rest);
      assert [] + [QUOTE] + rest == [QUOTE] + rest;
    } else {
      var more := Escape(value[1..]);
      TailOfEscape(value[1..], rest);
      assert [value[0]] + value[1..] == value;
      if value[0] == QUOTE {
        Reopened(more, rest);
        TailStep([], CONTINUED + (more + [QUOTE] + rest));
      } else {
        SplitByte(value[0], more, rest);
        TailSkips(value[0], more + [QUOTE] + rest);
      }
    }
  }

  lemma Reopened(more: Bytes, rest: Bytes)
    ensures ESCAPED + more + [QUOTE] + rest == [] + [QUOTE] + (CONTINUED + (more + [QUOTE] + rest))
    ensures CONTINUED <= CONTINUED + (more + [QUOTE] + rest)
    ensures (CONTINUED + (more + [QUOTE] + rest))[4..] == more + [QUOTE] + rest
    ensures [] + [QUOTE] == [QUOTE]
  {
    assert [QUOTE] + CONTINUED == ESCAPED;
  }

  lemma SplitByte(c: byte, more: Bytes, rest: Bytes)
    ensures [c] + more + [QUOTE] + rest == [c] + (more + [QUOTE] + rest)
  {
  }

  lemma QuoteIs(value: Bytes)
    ensures Quote(value) == [QUOTE] + Escape(value) + [QUOTE]
  {
  }

  lemma ConsumeQuote(value: Bytes, rest: Bytes)
    requires !(CONTINUED <= rest)
    ensures Consume(Quote(value) + rest) == Some(Word(value, rest))
  {
    QuoteIs(value);
    var s := Quote(value) + rest;
    assert s[1..] == Escape(value) + [QUOTE] + rest;
    TailOfEscape(value, rest);
  }

  lemma CommandStarts(argv: seq<Bytes>)
    requires argv != []
    ensures |Command(argv)| > 0 && Command(argv)[0] == QUOTE
  {
    hide Escape;
    hide Command;
    QuoteIs(argv[0]);
    CommandStep(argv);
  }

  lemma CommandStep(argv: seq<Bytes>)
    requires argv != []
    ensures Command(argv) == Quote(argv[0]) + (if |argv| == 1 then [] else [SPACE] + Command(argv[1..]))
  {
    if |argv| > 1 {
      Regroup(Quote(argv[0]), [SPACE], Command(argv[1..]));
    }
  }

  lemma SpaceEndsWord(more: Bytes)
    ensures !(CONTINUED <= []) && !(CONTINUED <= [SPACE] + more)
  {
    assert ([SPACE] + more)[0] != CONTINUED[0];
  }

  lemma {:induction false} ParseCommand(argv: seq<Bytes>)
    requires argv != []
    ensures Parse(Command(argv)) == Some(argv)
  {
    hide Quote;
    hide Consume;
    CommandStep(argv);
    var rest := if |argv| == 1 then [] else [SPACE] + Command(argv[1..]);
    SpaceEndsWord(Command(argv[1..]));
    ConsumeQuote(argv[0], rest);
    if |argv| > 1 {
      CommandStarts(argv[1..]);
      ParseCommand(argv[1..]);
      assert rest[1..] == Command(argv[1..]);
      assert [argv[0]] + argv[1..] == argv;
    } else {
      assert [argv[0]] == argv;
    }
  }

  // ---------------------------------------------------------------- whatever parses was quoted

  lemma {:induction false} EscapeTwice(a: Bytes, b: Bytes)
    ensures Escape(a + b) == Escape(a) + Escape(b)
  {
    if a == [] {
      assert a + b == b;
    } else {
      assert (a + b)[1..] == a[1..] + b;
      EscapeTwice(a[1..], b);
      Regroup(if a[0] == QUOTE then ESCAPED else [a[0]], Escape(a[1..]), Escape(b));
    }
  }

  lemma {:induction false} EscapePlain(a: Bytes)
    requires QUOTE !in a
    ensures Escape(a) == a
  {
    if a != [] {
      EscapePlain(a[1..]);
      assert a == [a[0]] + a[1..];
    }
  }

  lemma {:induction false} TailWasEscaped(input: Bytes)
    requires Tail(input).Some?
    ensures
      var w := Tail(input).value;
      input == Escape(w.value) + [QUOTE] + w.rest && !(CONTINUED <= w.rest)
    decreases |input|
  {
    SomeTail(input);
    hide *;
    var i := IndexOf(input, QUOTE);
    var head, rest := input[..i], input[i + 1..];
    SplitAt(input, i);
    TailStep(head, rest);
    if CONTINUED <= rest {
      PrefixedIs(head + [QUOTE], Tail(rest[4..]));
      TailWasEscaped(rest[4..]);
      Rejoin(rest);
      Unwound(head, Tail(rest[4..]).value.value, Tail(rest[4..]).value.rest);
    } else {
      EscapePlain(head);
    }
  }

  lemma SplitAt(input: Bytes, i: nat)
    requires i < |input| && input[i] == QUOTE
    ensures input == input[..i] + [QUOTE] + input[i + 1..]
  {
  }

  lemma Rejoin(rest: Bytes)
    requires CONTINUED <= rest
    ensures |CONTINUED| == 4 && rest == CONTINUED + rest[4..]
  {
  }

  lemma PrefixedIs(value: Bytes, w: Option<Word>)
    ensures Prefixed(value, w).Some? <==> w.Some?
    ensures w.Some? ==> Prefixed(value, w).value == Word(value + w.value.value, w.value.rest)
  {
  }

  lemma Unwound(head: Bytes, more: Bytes, rest: Bytes)
    requires QUOTE !in head
    ensures
      head + [QUOTE] + (CONTINUED + (Escape(more) + [QUOTE] + rest)) == Escape(head + [QUOTE] + more) + [QUOTE] + rest
  {
    EscapePlain(head);
    EscapeTwice(head + [QUOTE], more);
    EscapeTwice(head, [QUOTE]);
    EscapeQuote();
    hide *;
    SplitEscape(head, Escape(more), rest);
  }

  lemma SomeTail(input: Bytes)
    requires Tail(input).Some?
    ensures IndexOf(input, QUOTE) >= 0
  {
  }

  lemma EscapeQuote()
    ensures Escape([QUOTE]) == ESCAPED
  {
    assert [QUOTE][1..] == [];
    assert Escape([]) == [];
  }

  lemma SplitEscape(head: Bytes, more: Bytes, rest: Bytes)
    ensures
      head + [QUOTE] + (CONTINUED + (more + [QUOTE] + rest)) == head + ESCAPED + more + [QUOTE] + rest
  {
    assert [QUOTE] + CONTINUED == ESCAPED;
  }

  lemma {:induction false} ParsedWasQuoted(input: Bytes)
    requires Parse(input).Some?
    ensures Parse(input).value != [] && Command(Parse(input).value) == input
    decreases |input|
  {
    ParseStep(input);
    ConsumedWasQuoted(input);
    hide *;
    var word := Consume(input).value;
    if word.rest == [] {
      CommandOf(word.value, []);
      assert Quote(word.value) + [] == Quote(word.value);
    } else {
      ParsedWasQuoted(word.rest[1..]);
      CommandOf(word.value, Parse(word.rest[1..]).value);
      assert word.rest == [word.rest[0]] + word.rest[1..];
    }
  }

  lemma ParseStep(input: Bytes)
    requires Parse(input).Some?
    ensures Consume(input).Some? && |Consume(input).value.rest| < |input|
    ensures
      var word := Consume(input).value;
      if word.rest == [] then Parse(input) == Some([word.value])
      else
        && word.rest[0] == SPACE && Parse(word.rest[1..]).Some?
        && Parse(input) == Some([word.value] + Parse(word.rest[1..]).value)
  {
    hide Consume;
  }

  lemma CommandOf(value: Bytes, more: seq<Bytes>)
    ensures Command([value] + more) == Quote(value) + (if more == [] then [] else [SPACE] + Command(more))
  {
    assert ([value] + more)[1..] == more;
    CommandStep([value] + more);
    hide Command;
    hide Quote;
  }

  lemma ConsumedWasQuoted(input: Bytes)
    requires Consume(input).Some?
    ensures input == Quote(Consume(input).value.value) + Consume(input).value.rest
  {
    TailWasEscaped(input[1..]);
    var w := Tail(input[1..]).value;
    assert Consume(input) == Tail(input[1..]);
    hide *;
    QuoteIs(w.value);
    Reattach(input, Escape(w.value), w.rest);
  }

  lemma Reattach(input: Bytes, escaped: Bytes, rest: Bytes)
    requires input != [] && input[0] == QUOTE && input[1..] == escaped + [QUOTE] + rest
    ensures input == [QUOTE] + escaped + [QUOTE] + rest
  {
    assert input == [input[0]] + input[1..];
  }

  /** Quoting and strict parsing are a bijection between non-empty commands and the accepted strings. */
  lemma QuotingIsABijection(input: Bytes, argv: seq<Bytes>)
    ensures Parse(input) == Some(argv) <==> argv != [] && Command(argv) == input
  {
    if argv != [] {
      ParseCommand(argv);
    }
    if Parse(input).Some? {
      ParsedWasQuoted(input);
    }
  }

  // ---------------------------------------------------------------- the shell reads the same words

  /**
   Token recognition as far as quoting needs it, from sections 2.2.2, 2.2.3 and 2.3 of the Shell
   Command Language of IEEE Std 1003.1: inside single quotes every byte is literal; inside
   double quotes every byte is, except dollar, backquote and backslash; outside, blanks separate
   words.  Bytes with a meaning beyond that give no words.
   */
  datatype Mode = Blank | Bare | Single | Double

  predicate Special(b: byte) {
    b in [9, 10, 33, 35, 36, 37, 38, 40, 41, 42, 59, 60, 61, 62, 63, 91, 92, 93, 94, 96, 123, 124, 125, 126]
  }

  predicate Active(b: byte) { b == 36 || b == 92 || b == 96 }

  function Shell(s: Bytes, mode: Mode, word: Bytes): Option<seq<Bytes>>
    decreases |s|
  {
    if s == [] then
      if mode == Blank then Some([]) else if mode == Bare then Some([word]) else None
    else if mode == Single then
      if s[0] == QUOTE then Shell(s[1..], Bare, word) else Shell(s[1..], Single, word + [s[0]])
    else if mode == Double then
      if s[0] == DQUOTE then Shell(s[1..], Bare, word)
      else if Active(s[0]) then None
      else Shell(s[1..], Double, word + [s[0]])
    else if s[0] == QUOTE then Shell(s[1..], Single, word)
    else if s[0] == DQUOTE then Shell(s[1..], Double, word)
    else if s[0] == SPACE then
      var more := Shell(s[1..], Blank, []);
      if mode == Blank || more.None? then more else Some([word] + more.value)
    else if Special(s[0]) then None
    else Shell(s[1..], Bare, word + [s[0]])
  }

  /** Inside single quotes the escape of a quote reads as one quote. */
  lemma ShellReadsEscape(rest: Bytes, word: Bytes)
    ensures Shell(ESCAPED + rest, Single, word) == Shell(rest, Single, word + [QUOTE])
  {
    var s := ESCAPED + rest;
    assert s[1..][1..][1..][1..][1..] == rest;
    assert Shell(s, Single, word) == Shell(s[1..], Bare, word);
    assert Shell(s[1..], Bare, word) == Shell(s[1..][1..], Double, word);
    assert Shell(s[1..][1..], Double, word) == Shell(s[1..][1..][1..], Double, word + [QUOTE]);
    assert Shell(s[1..][1..][1..], Double, word + [QUOTE]) == Shell(s[1..][1..][1..][1..], Bare, word + [QUOTE]);
  }

  lemma {:induction false} ShellReadsEscaped(value: Bytes, rest: Bytes, word: Bytes)
    ensures Shell(Escape(value) + [QUOTE] + rest, Single, word) == Shell(rest, Bare, word + value)
  {
    var s := Escape(value) + [QUOTE] + rest;
    if value == [] {
      assert s == [QUOTE] + rest && s[1..] == rest;
      assert word + value == word;
    } else {
      var after := Escape(value[1..]) + [QUOTE] + rest;
      ShellReadsEscaped(value[1..], rest, word + [value[0]]);
      assert word + [value[0]] + value[1..] == word + value;
      if value[0] == QUOTE {
        assert s == ESCAPED + after;
        ShellReadsEscape(after, word);
      } else {
        assert s == [value[0]] + after && s[1..] == after;
      }
    }
  }

  lemma ShellReadsQuote(value: Bytes, rest: Bytes)
    ensures Shell(Quote(value) + rest, Blank, []) == Shell(rest, Bare, value)
  {
    QuoteIs(value);
    var s := Quote(value) + rest;
    assert s[1..] == Escape(value) + [QUOTE] + rest;
    ShellReadsEscaped(value, rest, []);
    assert [] + value == value;
  }

  /** The shell splits a quoted command into exactly the words that were quoted, whatever bytes they hold. */
  lemma {:induction false} ShellReadsCommand(argv: seq<Bytes>)
    ensures Shell(Command(argv), Blank, []) == Some(argv)
  {
    hide *;
    if argv == [] {
      ShellReadsNothing();
    } else {
      CommandStep(argv);
      var rest := if |argv| == 1 then [] else [SPACE] + Command(argv[1..]);
      ShellReadsQuote(argv[0], rest);
      ShellEndsWord(Command(argv[1..]), argv[0]);
      if |argv| > 1 {
        ShellReadsCommand(argv[1..]);
        assert [argv[0]] + argv[1..] == argv;
      } else {
        assert [argv[0]] == argv;
      }
    }
  }

  lemma ShellReadsNothing()
    ensures Shell(Command([]), Blank, []) == Some([])
  {
  }

  /** A word ends with the input, or at a blank. */
  lemma ShellEndsWord(more: Bytes, word: Bytes)
    ensures Shell([], Bare, word) == Some([word])
    ensures
      var others := Shell(more, Blank, []);
      Shell([SPACE] + more, Bare, word) == if others.None? then None else Some([word] + others.value)
  {
    assert ([SPACE] + more)[1..] == more;
  }

  // ---------------------------------------------------------------- the loops

  method ShellQuote(value: Bytes) returns (quoted: Bytes)
    ensures quoted == Quote(value)
  {
    if |value| == 0 {
      return [QUOTE, QUOTE];
    }
    quoted := [QUOTE];
    for i := 0 to |value|
      invariant quoted + Escape(value[i..]) == [QUOTE] + Escape(value)
    {
      ghost var head := if value[i] == QUOTE then ESCAPED else [value[i]];
      assert value[i..][1..] == value[i + 1..];
      Regroup(quoted, head, Escape(value[i + 1..]));
      quoted := quoted + (if value[i] == QUOTE then ESCAPED else [value[i]]);
    }
    assert quoted + [] == quoted;
    quoted := quoted + [QUOTE];
  }

  method QuoteCommand(argv: seq<Bytes>) returns (command: Bytes)
    ensures command == Command(argv)
  {
    hide Quote;
    var quoted := new Bytes[|argv|];
    for i := 0 to |argv|
      invariant forall j :: 0 <= j < i ==> quoted[j] == Quote(argv[j])
    {
      quoted[i] := ShellQuote(argv[i]);
    }
    command := [];
    var i := |argv|;
    while i > 0
      invariant 0 <= i <= |argv| && command == Command(argv[i..])
      invariant forall j :: 0 <= j < |argv| ==> quoted[j] == Quote(argv[j])
    {
      i := i - 1;
      assert argv[i..][1..] == argv[i + 1..];
      CommandStep(argv[i..]);
      command := if i + 1 == |argv| then quoted[i] else quoted[i] + [SPACE] + command;
    }
  }

  method ConsumeWord(input: Bytes) returns (word: Option<Word>)
    ensures word == Consume(input)
  {
    if |input| == 0 || input[0] != QUOTE {
      return None;
    }
    assert Consume(input) == Tail(input[1..]);
    hide *;
    var rest := input[1..];
    var value: Bytes := [];
    PrefixedTwice([], [], Tail(rest));
    while true
      invariant Tail(input[1..]) == Prefixed(value, Tail(rest))
      decreases |rest|
    {
      var i := IndexOf(rest, QUOTE);
      if i < 0 {
        NoTail(value, rest);
        return None;
      }
      TailMore(value, rest, i);
      value := value + rest[..i];
      rest := rest[i + 1..];
      if !(CONTINUED <= rest) {
        return Some(Word(value, rest));
      }
      ContinuedLength(rest);
      value := value + [QUOTE];
      rest := rest[4..];
    }
  }

  lemma ContinuedLength(rest: Bytes)
    requires CONTINUED <= rest
    ensures |rest| >= 4
  {
  }

  /** One chunk of a word, up to the next quote. */
  lemma TailMore(value: Bytes, rest: Bytes, i: int)
    requires i == IndexOf(rest, QUOTE) >= 0
    ensures
      var more := rest[i + 1..];
      Prefixed(value, Tail(rest)) ==
        if CONTINUED <= more then Prefixed(value + rest[..i] + [QUOTE], Tail(more[4..]))
        else Some(Word(value + rest[..i], more))
  {
    var head, more := rest[..i], rest[i + 1..];
    assert rest == head + [QUOTE] + more;
    TailStep(head, more);
    hide Tail;
    if CONTINUED <= more {
      PrefixedTwice(value, head + [QUOTE], Tail(more[4..]));
      Regroup(value, head, [QUOTE]);
    }
  }

  lemma NoTail(value: Bytes, input: Bytes)
    requires QUOTE !in input
    ensures Prefixed(value, Tail(input)).None?
  {
  }

  method ParseWords(input: Bytes) returns (words: Option<seq<Bytes>>)
    ensures words == Parse(input)
  {
    hide Consume;
    if |input| == 0 {
      EmptyIsRefused();
      return None;
    }
    var rest := input;
    var found: seq<Bytes> := [];
    AfterNone(Parse(input));
    while |rest| > 0
      invariant rest != []
      invariant Parse(input) == After(found, Parse(rest))
      decreases |rest|
    {
      var word := ConsumeWord(rest);
      if word.None? {
        return None;
      }
      ghost var before := found;
      found := found + [word.value.value];
      rest := word.value.rest;
      if |rest| == 0 {
        break;
      }
      if rest[0] != SPACE || |rest| == 1 || rest[1] == SPACE {
        return None;
      }
      rest := rest[1..];
      if Parse(rest).Some? {
        Regroup(before, [word.value.value], Parse(rest).value);
      }
    }
    return Some(found);
  }

  ghost function After(found: seq<Bytes>, more: Option<seq<Bytes>>): Option<seq<Bytes>> {
    if more.None? then None else Some(found + more.value)
  }

  lemma AfterNone(more: Option<seq<Bytes>>)
    ensures After([], more) == more
  {
    if more.Some? {
      assert [] + more.value == more.value;
    }
  }

  lemma EmptyIsRefused()
    ensures Consume([]).None? && Parse([]).None?
  {
  }
}
