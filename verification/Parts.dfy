/** Text cut into parts at a separator, and the parts joined again, as JavaScript's `split` and `join` do. */
module Parts {

  function Split(sep: char, s: string): (parts: seq<string>)
    ensures parts != []
    ensures forall i :: 0 <= i < |parts| ==> sep !in parts[i]
  {
    if s == [] then [[]]
    else if s[0] == sep then [[]] + Split(sep, s[1..])
    else
      var rest := Split(sep, s[1..]);
      [[s[0]] + rest[0]] + rest[1..]
  }

  function Join(sep: char, parts: seq<string>): string {
    if parts == [] then []
    else if |parts| == 1 then parts[0]
    else parts[0] + [sep] + Join(sep, parts[1..])
  }

  lemma {:induction false} SplitPlain(sep: char, part: string)
    requires sep !in part
    ensures Split(sep, part) == [part]
  {
    if part != [] {
      SplitPlain(sep, part[1..]);
      assert part == [part[0]] + part[1..];
    }
  }

  /** The parts of a text with `c` put before it. */
  function Grown(sep: char, c: char, parts: seq<string>): seq<string>
    requires parts != []
  {
    if c == sep then [[]] + parts else [[c] + parts[0]] + parts[1..]
  }

  lemma SplitNext(sep: char, c: char, s: string)
    ensures Split(sep, [c] + s) == Grown(sep, c, Split(sep, s))
  {
    assert ([c] + s)[1..] == s;
  }

  lemma JoinGrown(sep: char, c: char, parts: seq<string>)
    requires parts != []
    ensures Join(sep, Grown(sep, c, parts)) == [c] + Join(sep, parts)
  {
    if c == sep {
      assert ([[]] + parts)[1..] == parts;
    } else {
      assert ([[c] + parts[0]] + parts[1..])[1..] == parts[1..];
    }
  }

  /** A text's parts join back to the text. */
  lemma {:induction false} JoinSplit(sep: char, s: string)
    ensures Join(sep, Split(sep, s)) == s
  {
    if s != [] {
      JoinSplit(sep, s[1..]);
      assert s == [s[0]] + s[1..];
      SplitNext(sep, s[0], s[1..]);
      JoinGrown(sep, s[0], Split(sep, s[1..]));
    }
  }

  lemma GrownAppend(sep: char, c: char, a: seq<string>, b: seq<string>)
    requires a != []
    ensures Grown(sep, c, a + b) == Grown(sep, c, a) + b
  {
    assert (a + b)[1..] == a[1..] + b;
  }

  /** A text made of two around a separator has the parts of the first and then those of the second. */
  lemma {:induction false} SplitAppend(sep: char, a: string, b: string)
    ensures Split(sep, a + [sep] + b) == Split(sep, a) + Split(sep, b)
  {
    if a == [] {
      SplitNext(sep, sep, b);
      assert a + [sep] + b == [sep] + b;
    } else {
      var a' := a[1..];
      var s' := a' + [sep] + b;
      assert a + [sep] + b == [a[0]] + s' && a == [a[0]] + a';
      SplitAppend(sep, a', b);
      SplitNext(sep, a[0], s');
      SplitNext(sep, a[0], a');
      GrownAppend(sep, a[0], Split(sep, a'), Split(sep, b));
    }
  }

  lemma {:induction false} JoinAppend(sep: char, a: seq<string>, b: seq<string>)
    requires a != [] && b != []
    ensures Join(sep, a + b) == Join(sep, a) + [sep] + Join(sep, b)
  {
    assert (a + b)[1..] == a[1..] + b;
    if |a| > 1 {
      JoinAppend(sep, a[1..], b);
    }
  }

  /** Parts without the separator are read back from their join. */
  lemma {:induction false} SplitJoin(sep: char, parts: seq<string>)
    requires parts != [] && forall i :: 0 <= i < |parts| ==> sep !in parts[i]
    ensures Split(sep, Join(sep, parts)) == parts
  {
    SplitPlain(sep, parts[0]);
    if |parts| > 1 {
      var rest := Join(sep, parts[1..]);
      SplitJoin(sep, parts[1..]);
      SplitAppend(sep, parts[0], rest);
      assert Join(sep, parts) == parts[0] + [sep] + rest;
    }
  }

  lemma JoinThree(sep: char, a: seq<string>, b: seq<string>, c: seq<string>)
    requires a != [] && b != [] && c != []
    ensures Join(sep, a + b + c) == Join(sep, a) + [sep] + Join(sep, b) + [sep] + Join(sep, c)
  {
    JoinAppend(sep, a + b, c);
    JoinAppend(sep, a, b);
  }

  lemma SplitThree(sep: char, a: string, b: string, c: string)
    ensures Split(sep, a + [sep] + b + [sep] + c) == Split(sep, a) + Split(sep, b) + Split(sep, c)
  {
    SplitAppend(sep, a + [sep] + b, c);
    SplitAppend(sep, a, b);
  }

  /** Joining the first parts, and the last, beforehand changes nothing. */
  lemma JoinAround(sep: char, a: seq<string>, b: seq<string>, c: seq<string>)
    requires a != [] && b != [] && c != []
    ensures Join(sep, [Join(sep, a)] + b + [Join(sep, c)]) == Join(sep, a + b + c)
  {
    JoinThree(sep, a, b, c);
    JoinThree(sep, [Join(sep, a)], b, [Join(sep, c)]);
  }
}
