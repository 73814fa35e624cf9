/**
 The capture fingerprint: lower-case, collapse and trim the free text, join six
 fields by newlines in a fixed order, and hash. What two captures must share to
 get one fingerprint depends on where newlines can stand.
 */
module Mailroom {
  import opened Parts
  import opened Wrappers

  /** JavaScript's white space and line terminators: what `\s` matches and `trim` strips. */
  predicate IsSpace(c: char) {
    || '\t' <= c <= '\r' || c == ' ' || c == '\U{00A0}' || c == '\U{1680}' || '\U{2000}' <= c <= '\U{200A}'
    || c == '\U{2028}' || c == '\U{2029}' || c == '\U{202F}' || c == '\U{205F}' || c == '\U{3000}' || c == '\U{FEFF}'
  }

  /** What lower-casing character by character is taken to do, on every character. */
  ghost predicate LowerCasing(lower: char -> string) {
    forall c :: LowersWell(lower, c)
  }

  /** Space stays, the rest becomes settled non-space, a small letter stays, and `T` becomes `t`. */
  ghost predicate LowersWell(lower: char -> string, c: char) {
    && (if IsSpace(c) then lower(c) == [c] else lower(c) != [] && Plain(lower(c)) && Settled(lower, lower(c)))
    && ('a' <= c <= 'z' ==> lower(c) == [c])
    && (c == 'T' ==> lower(c) == "t")
  }

  ghost predicate Settled(lower: char -> string, s: string) {
    forall i :: 0 <= i < |s| ==> lower(s[i]) == [s[i]]
  }

  ghost predicate Plain(s: string) {
    forall i :: 0 <= i < |s| ==> !IsSpace(s[i])
  }

  function Lower(lower: char -> string, s: string): string {
    if s == [] then [] else lower(s[0]) + Lower(lower, s[1..])
  }

  /** Each run of space becomes one blank, written for the run's last character. */
  function Collapse(s: string): string {
    if s == [] then []
    else if !IsSpace(s[0]) then [s[0]] + Collapse(s[1..])
    else if |s| > 1 && IsSpace(s[1]) then Collapse(s[1..])
    else " " + Collapse(s[1..])
  }

  function TrimLeft(s: string): string {
    if s != [] && IsSpace(s[0]) then TrimLeft(s[1..]) else s
  }

  function TrimRight(s: string): string {
    if s != [] && IsSpace(s[|s| - 1]) then TrimRight(s[..|s| - 1]) else s
  }

  function Normalize(lower: char -> string, text: string): string {
    TrimRight(TrimLeft(Collapse(Lower(lower, text))))
  }

  // ----- Normalizing keeps the words and nothing else -----

  /** The runs of non-space characters, in order. */
  function Words(s: string): (words: seq<string>)
    ensures s != [] && !IsSpace(s[0]) ==> words != []
  {
    if s == [] then []
    else if IsSpace(s[0]) then Words(s[1..])
    else if |s| == 1 || IsSpace(s[1]) then [[s[0]]] + Words(s[1..])
    else var rest := Words(s[1..]); [[s[0]] + rest[0]] + rest[1..]
  }

  function Spaced(words: seq<string>): string {
    Join(' ', words)
  }

  ghost predicate AreWords(words: seq<string>) {
    forall i :: 0 <= i < |words| ==> words[i] != [] && Plain(words[i])
  }

  lemma {:induction false} WordsAre(s: string)
    ensures AreWords(Words(s))
    ensures s != [] && Words(s) == [] ==> IsSpace(s[|s| - 1])
  {
    if s != [] {
      WordsAre(s[1..]);
    }
  }

  /** The blank a leading, or a trailing, run of space leaves. */
  function Lead(s: string): string {
    if s != [] && IsSpace(s[0]) then " " else ""
  }

  function Trail(s: string): string {
    if Words(s) != [] && IsSpace(s[|s| - 1]) then " " else ""
  }

  lemma SpacedNext(word: string, words: seq<string>)
    ensures words != [] ==> Spaced([word] + words) == word + " " + Spaced(words)
    ensures words == [] ==> Spaced([word] + words) == word
  {
    assert ([word] + words)[1..] == words;
  }

  lemma SpacedGrows(c: char, words: seq<string>)
    requires words != []
    ensures Spaced([[c] + words[0]] + words[1..]) == [c] + Spaced(words)
  {
    assert ([[c] + words[0]] + words[1..])[1..] == words[1..];
  }

  lemma TrailOf(s: string)
    requires s != [] && IsSpace(s[0])
    ensures Words(s) == Words(s[1..]) && Trail(s) == Trail(s[1..])
  {
    var s' := s[1..];
    assert s' != [] ==> s'[|s'| - 1] == s[|s| - 1];
  }

  lemma Unlead(c: string, d: string)
    ensures " " + ("" + c + d) == " " + c + d
  {
    assert "" + c == c;
  }

  lemma CollapseBlank(s: string)
    requires s != [] && IsSpace(s[0])
    requires Collapse(s[1..]) == Lead(s[1..]) + Spaced(Words(s[1..])) + Trail(s[1..])
    ensures Collapse(s) == Lead(s) + Spaced(Words(s)) + Trail(s)
  {
    TrailOf(s);
    if |s| == 1 || !IsSpace(s[1]) {
      Unlead(Spaced(Words(s[1..])), Trail(s[1..]));
    }
  }

  /** Before a letter, a letter grows the first word. */
  lemma InWord(s: string)
    requires |s| > 1 && !IsSpace(s[0]) && !IsSpace(s[1])
    ensures Spaced(Words(s)) == [s[0]] + Spaced(Words(s[1..])) && Trail(s) == Trail(s[1..])
    ensures Lead(s) == "" && Lead(s[1..]) == ""
  {
    SpacedGrows(s[0], Words(s[1..]));
  }

  lemma LetterFirst(a: string, w: string, t: string)
    ensures a + ("" + w + t) == "" + (a + w) + t
  {
    assert "" + w == w && "" + (a + w) == a + w;
  }

  lemma CollapseInWord(s: string)
    requires |s| > 1 && !IsSpace(s[0]) && !IsSpace(s[1])
    requires Collapse(s[1..]) == Lead(s[1..]) + Spaced(Words(s[1..])) + Trail(s[1..])
    ensures Collapse(s) == Lead(s) + Spaced(Words(s)) + Trail(s)
  {
    InWord(s);
    LetterFirst([s[0]], Spaced(Words(s[1..])), Trail(s[1..]));
  }

  /** Before space, a letter is a word of its own. */
  lemma WordEnd(s: string)
    requires |s| > 1 && !IsSpace(s[0]) && IsSpace(s[1])
    ensures var w := Words(s[1..]);
      && Spaced(Words(s)) == (if w == [] then [s[0]] else [s[0]] + " " + Spaced(w))
      && Trail(s) == (if w == [] then " " else Trail(s[1..]))
    ensures Lead(s) == "" && Lead(s[1..]) == " "
  {
    SpacedNext([s[0]], Words(s[1..]));
    WordsAre(s[1..]);
    assert s[1..][|s| - 2] == s[|s| - 1];
  }

  lemma WordThenBlank(a: string, w: string, t: string)
    ensures a + (" " + w + t) == "" + (a + " " + w) + t && a + (" " + "" + "") == "" + a + " "
  {
    assert "" + (a + " " + w) == a + " " + w && "" + a == a;
  }

  lemma CollapseWordEnd(s: string)
    requires |s| > 1 && !IsSpace(s[0]) && IsSpace(s[1])
    requires Collapse(s[1..]) == Lead(s[1..]) + Spaced(Words(s[1..])) + Trail(s[1..])
    ensures Collapse(s) == Lead(s) + Spaced(Words(s)) + Trail(s)
  {
    WordEnd(s);
    WordThenBlank([s[0]], Spaced(Words(s[1..])), Trail(s[1..]));
  }

  lemma {:induction false} CollapseShape(s: string)
    ensures Collapse(s) == Lead(s) + Spaced(Words(s)) + Trail(s)
  {
    if s != [] {
      CollapseShape(s[1..]);
      if IsSpace(s[0]) {
        CollapseBlank(s);
      } else if |s| > 1 && !IsSpace(s[1]) {
        CollapseInWord(s);
      } else if |s| > 1 {
        CollapseWordEnd(s);
      }
    }
  }

  lemma {:induction false} SpacedEnds(words: seq<string>)
    requires AreWords(words) && words != []
    ensures Spaced(words) != [] && !IsSpace(Spaced(words)[0]) && !IsSpace(Spaced(words)[|Spaced(words)| - 1])
  {
    assert Plain(words[0]);
    if |words| > 1 {
      SpacedEnds(words[1..]);
    }
  }

  lemma TrimFramed(a: string, middle: string, b: string)
    requires (a == "" || a == " ") && (b == "" || b == " ")
    requires middle == [] ==> b == ""
    requires middle != [] ==> !IsSpace(middle[0]) && !IsSpace(middle[|middle| - 1])
    ensures TrimRight(TrimLeft(a + middle + b)) == middle
  {
    assert TrimLeft(a + middle + b) == middle + b by {
      if a == " " {
        assert (a + middle + b)[1..] == middle + b;
      } else {
        assert a + middle + b == middle + b;
      }
    }
    if b == " " {
      assert (middle + b)[..|middle + b| - 1] == middle;
    } else {
      assert middle + b == middle;
    }
  }

  /** A normalized text is its lower-cased words, one blank between. */
  lemma NormalizedIsWords(lower: char -> string, text: string)
    ensures Normalize(lower, text) == Spaced(Words(Lower(lower, text)))
  {
    var s := Lower(lower, text);
    CollapseShape(s);
    WordsAre(s);
    if Words(s) != [] {
      SpacedEnds(Words(s));
    }
    TrimFramed(if s != [] && IsSpace(s[0]) then " " else "", Spaced(Words(s)),
               if Words(s) != [] && IsSpace(s[|s| - 1]) then " " else "");
  }

  lemma {:induction false} WordsOfWord(word: string, rest: string)
    requires word != [] && Plain(word) && (rest == [] || IsSpace(rest[0]))
    ensures Words(word + rest) == [word] + Words(rest)
  {
    var s := word + rest;
    assert s[1..] == word[1..] + rest && s[0] == word[0] && !IsSpace(word[0]);
    if |word| > 1 {
      WordsOfWord(word[1..], rest);
      assert !IsSpace(word[1]) && s[1] == word[1];
      assert [word[0]] + word[1..] == word;
      assert ([word[1..]] + Words(rest))[1..] == Words(rest);
    } else {
      assert s[1..] == rest && word == [s[0]];
      assert rest != [] ==> s[1] == rest[0];
    }
  }

  /** Words are read back from their spaced form. */
  lemma {:induction false} WordsOfSpaced(words: seq<string>)
    requires AreWords(words)
    ensures Words(Spaced(words)) == words
  {
    if words != [] {
      if |words| == 1 {
        WordsOfWord(words[0], []);
        assert words[0] + [] == words[0];
      } else {
        WordsOfSpaced(words[1..]);
        var rest := " " + Spaced(words[1..]);
        assert rest[1..] == Spaced(words[1..]);
        WordsOfWord(words[0], rest);
        assert words[0] + rest == words[0] + " " + Spaced(words[1..]);
      }
    }
  }

  /** Two texts normalize alike exactly when they are the same words once lower-cased. */
  lemma NormalizesAlike(lower: char -> string, a: string, b: string)
    ensures Normalize(lower, a) == Normalize(lower, b) <==> Words(Lower(lower, a)) == Words(Lower(lower, b))
  {
    NormalizedIsWords(lower, a);
    NormalizedIsWords(lower, b);
    WordsAre(Lower(lower, a));
    WordsAre(Lower(lower, b));
    WordsOfSpaced(Words(Lower(lower, a)));
    WordsOfSpaced(Words(Lower(lower, b)));
  }

  lemma {:induction false} LowerSettles(lower: char -> string, s: string)
    requires LowerCasing(lower)
    ensures Settled(lower, Lower(lower, s))
    ensures Settled(lower, s) ==> Lower(lower, s) == s
  {
    if s != [] {
      LowerSettles(lower, s[1..]);
      assert LowersWell(lower, s[0]);
      if Settled(lower, s) {
        assert s == [s[0]] + s[1..];
      }
    }
  }

  /** Every character of the words, and so of their spaced form, is one of the text's. */
  lemma {:induction false} WordsSettle(lower: char -> string, s: string)
    requires Settled(lower, s)
    ensures forall i :: 0 <= i < |Words(s)| ==> Settled(lower, Words(s)[i])
  {
    if s != [] {
      WordsSettle(lower, s[1..]);
    }
  }

  lemma {:induction false} SpacedSettles(lower: char -> string, words: seq<string>)
    requires lower(' ') == " " && forall i :: 0 <= i < |words| ==> Settled(lower, words[i])
    ensures Settled(lower, Spaced(words))
  {
    if words != [] {
      SpacedSettles(lower, words[1..]);
    }
  }

  lemma {:induction false} SpacedHasNoNewline(words: seq<string>)
    requires AreWords(words)
    ensures '\n' !in Spaced(words)
  {
    if words != [] {
      SpacedHasNoNewline(words[1..]);
      assert Plain(words[0]);
    }
  }

  /** Normalizing twice is normalizing once, and what it gives holds no newline. */
  lemma NormalizeIsNormal(lower: char -> string, text: string)
    requires LowerCasing(lower)
    ensures Normalize(lower, Normalize(lower, text)) == Normalize(lower, text)
    ensures '\n' !in Normalize(lower, text) && Settled(lower, Normalize(lower, text))
  {
    var s, t := Lower(lower, text), Normalize(lower, text);
    assert LowersWell(lower, ' ');
    NormalizedIsWords(lower, text);
    WordsAre(s);
    LowerSettles(lower, text);
    WordsSettle(lower, s);
    SpacedSettles(lower, Words(s));
    LowerSettles(lower, t);
    NormalizedIsWords(lower, t);
    WordsOfSpaced(Words(s));
    SpacedHasNoNewline(Words(s));
  }

  // ----- The tuple -----

  datatype Kind = Thought | Journal | Task | Memory | Goal | Decision | Topic {
    function Text(): (text: string)
      ensures text != "" && '\n' !in text && '/' !in text && 'T' !in text
    {
      match this
      case Thought => "thought"
      case Journal => "journal"
      case Task => "task"
      case Memory => "memory"
      case Goal => "goal"
      case Decision => "decision"
      case Topic => "topic"
    }
  }

  lemma KindTextsDiffer(a: Kind, b: Kind)
    ensures a.Text() == b.Text() <==> a == b
  {
    assert |a.Text()| == |b.Text()| && a.Text()[0] == b.Text()[0] ==> a == b;
  }

  datatype Capture = Capture(conversationId: string, kind: Kind, content: string, situation: string,
                             occurredAt: Option<string>, source: Option<string>)

  function OrEmpty(s: Option<string>): string {
    if s.Some? then s.value else ""
  }

  function Fields(lower: char -> string, c: Capture): seq<string> {
    [c.conversationId, c.kind.Text(), Normalize(lower, c.content), Normalize(lower, c.situation),
     OrEmpty(c.occurredAt), OrEmpty(c.source)]
  }

  function Tuple(lower: char -> string, c: Capture): string {
    Join('\n', Fields(lower, c))
  }

  function Fingerprint(lower: char -> string, digest: string -> string, c: Capture): string {
    digest(Tuple(lower, c))
  }

  /** What the capture schema ensures of `occurredAt`, an ISO 8601 date and time or null. */
  predicate IsTimeLine(c: Capture) {
    '\n' !in OrEmpty(c.occurredAt)
  }

  /** The fields a fingerprint covers, and no more: null and empty are one, and texts count up to their words. */
  ghost predicate SameCapture(lower: char -> string, a: Capture, b: Capture) {
    && a.conversationId == b.conversationId && a.kind == b.kind
    && Words(Lower(lower, a.content)) == Words(Lower(lower, b.content))
    && Words(Lower(lower, a.situation)) == Words(Lower(lower, b.situation))
    && OrEmpty(a.occurredAt) == OrEmpty(b.occurredAt) && OrEmpty(a.source) == OrEmpty(b.source)
  }

  lemma SameFields(lower: char -> string, a: Capture, b: Capture)
    ensures Fields(lower, a) == Fields(lower, b) <==> SameCapture(lower, a, b)
  {
    NormalizesAlike(lower, a.content, b.content);
    NormalizesAlike(lower, a.situation, b.situation);
    KindTextsDiffer(a.kind, b.kind);
    var fa, fb := Fields(lower, a), Fields(lower, b);
    assert fa == fb <==> forall i :: 0 <= i < 6 ==> fa[i] == fb[i];
  }

  // ----- The tuple's lines -----

  function Newlines(s: string): nat {
    |Split('\n', s)| - 1
  }

  /** The four fields of one line each. */
  function FourLines(lower: char -> string, c: Capture): seq<string> {
    [c.kind.Text(), Normalize(lower, c.content), Normalize(lower, c.situation), OrEmpty(c.occurredAt)]
  }

  /** The tuple's lines are those of the conversation id, the four, and those of the source. */
  lemma TupleLines(lower: char -> string, c: Capture)
    requires LowerCasing(lower) && IsTimeLine(c)
    ensures Split('\n', Tuple(lower, c))
         == Split('\n', c.conversationId) + FourLines(lower, c) + Split('\n', OrEmpty(c.source))
  {
    var four := FourLines(lower, c);
    FourAreLines(lower, c);
    assert Fields(lower, c) == [c.conversationId] + four + [OrEmpty(c.source)];
    JoinThree('\n', [c.conversationId], four, [OrEmpty(c.source)]);
    SplitThree('\n', c.conversationId, Join('\n', four), OrEmpty(c.source));
    SplitJoin('\n', four);
  }

  lemma FourAreLines(lower: char -> string, c: Capture)
    requires LowerCasing(lower) && IsTimeLine(c)
    ensures forall i :: 0 <= i < 4 ==> '\n' !in FourLines(lower, c)[i]
  {
    NormalizeIsNormal(lower, c.content);
    NormalizeIsNormal(lower, c.situation);
  }

  lemma SlicesOf(id: seq<string>, four: seq<string>, source: seq<string>)
    requires |four| == 4
    ensures var lines, n := id + four + source, |id|;
      && lines[..n] == id && lines[n..n + 4] == four && lines[n + 4..] == source
      && lines[n] == four[0] && lines[n + 1] == four[1] && lines[n + 2] == four[2] && lines[n + 3] == four[3]
  {
  }

  /** The six fields of a tuple whose conversation id holds `n` newlines. */
  function ReadBack(tuple: string, n: nat): seq<string> {
    var lines := Split('\n', tuple);
    if |lines| < n + 6 then []
    else [Join('\n', lines[..n + 1])] + lines[n + 1..n + 1 + 4] + [Join('\n', lines[n + 1 + 4..])]
  }

  lemma TupleReadsBack(lower: char -> string, c: Capture)
    requires LowerCasing(lower) && IsTimeLine(c)
    ensures ReadBack(Tuple(lower, c), Newlines(c.conversationId)) == Fields(lower, c)
  {
    TupleLines(lower, c);
    SlicesOf(Split('\n', c.conversationId), FourLines(lower, c), Split('\n', OrEmpty(c.source)));
    JoinSplit('\n', c.conversationId);
    JoinSplit('\n', OrEmpty(c.source));
  }

  lemma FirstLine(lower: char -> string, c: Capture)
    requires ReadBack(Tuple(lower, c), 0) == Fields(lower, c)
    ensures '\n' !in c.conversationId
  {
    var lines := Split('\n', Tuple(lower, c));
    assert Fields(lower, c)[0] == c.conversationId;
    assert Join('\n', lines[..1]) == lines[0];
  }

  /**
   The fields are read back from the tuple by whoever knows how many newlines the
   conversation id holds; taking it to be the first line is right exactly when it
   holds none.
   */
  lemma TupleDecodes(lower: char -> string, c: Capture)
    requires LowerCasing(lower) && IsTimeLine(c)
    ensures ReadBack(Tuple(lower, c), Newlines(c.conversationId)) == Fields(lower, c)
    ensures ReadBack(Tuple(lower, c), 0) == Fields(lower, c) <==> '\n' !in c.conversationId
  {
    TupleReadsBack(lower, c);
    if '\n' !in c.conversationId {
      SplitPlain('\n', c.conversationId);
    }
    if ReadBack(Tuple(lower, c), 0) == Fields(lower, c) {
      FirstLine(lower, c);
    }
  }

  /** Captures are the same exactly when their tuples are and their conversation ids hold equally many newlines. */
  lemma TupleIsTheCapture(lower: char -> string, a: Capture, b: Capture)
    requires LowerCasing(lower) && IsTimeLine(a) && IsTimeLine(b)
    ensures SameCapture(lower, a, b)
       <==> Tuple(lower, a) == Tuple(lower, b) && Newlines(a.conversationId) == Newlines(b.conversationId)
  {
    TupleDecodes(lower, a);
    TupleDecodes(lower, b);
    SameFields(lower, a, b);
  }

  /** So a shared fingerprint means the same capture, or two tuples on which the digest collides. */
  lemma FingerprintIsTheCapture(lower: char -> string, digest: string -> string, a: Capture, b: Capture)
    requires LowerCasing(lower) && IsTimeLine(a) && IsTimeLine(b)
    requires Newlines(a.conversationId) == Newlines(b.conversationId)
    ensures Fingerprint(lower, digest, a) == Fingerprint(lower, digest, b)
       <==> (SameCapture(lower, a, b)
             || (Tuple(lower, a) != Tuple(lower, b) && digest(Tuple(lower, a)) == digest(Tuple(lower, b))))
  {
    TupleIsTheCapture(lower, a, b);
  }

  // ----- When another capture has the same tuple -----

  /** A text that is not blank and within the schema's length. */
  predicate IsText(s: string) {
    |s| <= 20_000 && exists i :: 0 <= i < |s| && !IsSpace(s[i])
  }

  /** What the capture schema lets in; `isTime` says which texts it takes for a date and time. */
  predicate Accepted(isTime: string -> bool, c: Capture) {
    && 1 <= |c.conversationId| <= 200 && IsText(c.content) && IsText(c.situation)
    && (c.occurredAt.Some? ==> isTime(c.occurredAt.value))
    && (c.source.Some? ==> |c.source.value| <= 500)
  }

  /** A date and time has a `T` between the two and stands on one line. */
  ghost predicate IsoTimes(isTime: string -> bool) {
    forall t :: isTime(t) ==> 'T' in t && '\n' !in t
  }

  /** A text as the fingerprint covers it: normalized, and with a word in it. */
  function NormalText(lower: char -> string): string -> bool {
    (line: string) => line != "" && Normalize(lower, line) == line
  }

  predicate SpellsKind(line: string) {
    exists kind: Kind :: kind.Text() == line
  }

  /** A line that can end a reading: a time, or none. */
  predicate Ends(isTime: string -> bool, line: string) {
    line == "" || isTime(line)
  }

  /** Four lines from the `i`-th read as a kind, two texts and a time or none. */
  predicate Reads(isText: string -> bool, isTime: string -> bool, lines: seq<string>, i: nat) {
    && i + 4 <= |lines| && SpellsKind(lines[i]) && isText(lines[i + 1]) && isText(lines[i + 2])
    && Ends(isTime, lines[i + 3])
  }

  /** The lines around those four are a conversation id and a source the schema lets in. */
  predicate TwinAt(isText: string -> bool, isTime: string -> bool, lines: seq<string>, i: nat) {
    && 1 <= i && i + 4 < |lines| && Reads(isText, isTime, lines, i)
    && 1 <= |Join('\n', lines[..i])| <= 200 && |Join('\n', lines[i + 4..])| <= 500
  }

  ghost predicate IsTwin(lower: char -> string, isTime: string -> bool, c: Capture, d: Capture) {
    Accepted(isTime, d) && Tuple(lower, d) == Tuple(lower, c) && !SameCapture(lower, c, d)
  }

  lemma {:induction false} HasWord(s: string, i: nat)
    requires i < |s| && !IsSpace(s[i])
    ensures Words(s) != []
  {
    if i > 0 {
      HasWord(s[1..], i - 1);
    }
  }

  lemma {:induction false} WordsStay(head: string, rest: string)
    requires Words(rest) != []
    ensures Words(head + rest) != []
  {
    if head == [] {
      assert head + rest == rest;
    } else {
      WordsStay(head[1..], rest);
      assert (head + rest)[1..] == head[1..] + rest;
    }
  }

  lemma {:induction false} LowerKeepsAWord(lower: char -> string, s: string, i: nat)
    requires LowerCasing(lower) && i < |s| && !IsSpace(s[i])
    ensures Words(Lower(lower, s)) != []
  {
    var head, rest := lower(s[0]), Lower(lower, s[1..]);
    assert LowersWell(lower, s[0]);
    if i == 0 {
      assert !IsSpace(head[0]) && (head + rest)[0] == head[0];
    } else {
      LowerKeepsAWord(lower, s[1..], i - 1);
      WordsStay(head, rest);
    }
  }

  /** A text the schema lets in normalizes to a normal text. */
  lemma TextIsNormal(lower: char -> string, s: string)
    requires LowerCasing(lower) && IsText(s)
    ensures NormalText(lower)(Normalize(lower, s))
  {
    var i :| 0 <= i < |s| && !IsSpace(s[i]);
    LowerKeepsAWord(lower, s, i);
    NormalizedIsWords(lower, s);
    WordsAre(Lower(lower, s));
    SpacedEnds(Words(Lower(lower, s)));
    NormalizeIsNormal(lower, s);
  }

  /** A normal line within the length is a text the schema lets in. */
  lemma NormalIsText(lower: char -> string, line: string)
    requires NormalText(lower)(line) && |line| <= 20_000
    ensures IsText(line)
  {
    var words := Words(Lower(lower, line));
    NormalizedIsWords(lower, line);
    WordsAre(Lower(lower, line));
    SpacedEnds(words);
    assert !IsSpace(line[0]);
  }

  lemma NormalDoesNotEnd(lower: char -> string, isTime: string -> bool, line: string)
    requires LowerCasing(lower) && IsoTimes(isTime) && NormalText(lower)(line)
    ensures !Ends(isTime, line)
  {
    NormalizeIsNormal(lower, line);
    assert LowersWell(lower, 'T');
    assert 'T' !in line by {
      forall i | 0 <= i < |line| ensures line[i] != 'T' {
        assert lower(line[i]) == [line[i]];
      }
    }
  }

  lemma KindDoesNotEnd(isTime: string -> bool, line: string)
    requires IsoTimes(isTime) && SpellsKind(line)
    ensures !Ends(isTime, line)
  {
    var kind: Kind :| kind.Text() == line;
  }

  /** No text can be taken for a time or for none. */
  ghost predicate TextsDoNotEnd(isText: string -> bool, isTime: string -> bool) {
    forall t :: isText(t) ==> !Ends(isTime, t)
  }

  lemma NormalTextsDoNotEnd(lower: char -> string, isTime: string -> bool)
    requires LowerCasing(lower) && IsoTimes(isTime)
    ensures TextsDoNotEnd(NormalText(lower), isTime)
  {
    forall t | NormalText(lower)(t) ensures !Ends(isTime, t) {
      NormalDoesNotEnd(lower, isTime, t);
    }
  }

  /** Two readings of the same lines never overlap. */
  lemma ReadingsStandApart(isText: string -> bool, isTime: string -> bool, lines: seq<string>, i: nat, j: nat)
    requires IsoTimes(isTime) && TextsDoNotEnd(isText, isTime)
    requires Reads(isText, isTime, lines, i) && Reads(isText, isTime, lines, j) && i < j
    ensures i + 4 <= j
  {
    KindDoesNotEnd(isTime, lines[j]);
    assert !Ends(isTime, lines[j + 1]) && !Ends(isTime, lines[j + 2]);
  }

  lemma FourRead(lower: char -> string, isTime: string -> bool, c: Capture)
    requires LowerCasing(lower) && Accepted(isTime, c)
    ensures Reads(NormalText(lower), isTime, FourLines(lower, c), 0)
  {
    TextIsNormal(lower, c.content);
    TextIsNormal(lower, c.situation);
    assert SpellsKind(c.kind.Text());
  }

  lemma SlicesMake(lines: seq<string>, i: nat)
    requires i + 4 <= |lines|
    ensures lines[..i] + lines[i..i + 4] + lines[i + 4..] == lines
  {
  }

  /** Four lines that read, between an id's and a source's. */
  lemma ReadsBetween(isText: string -> bool, isTime: string -> bool, id: seq<string>, four: seq<string>,
                     source: seq<string>)
    requires |four| == 4 && Reads(isText, isTime, four, 0) && id != [] && source != []
    requires 1 <= |Join('\n', id)| <= 200 && |Join('\n', source)| <= 500
    ensures var lines := id + four + source;
      TwinAt(isText, isTime, lines, |id|) && lines[..|id|] == id && lines[|id| + 4..] == source
  {
    SlicesOf(id, four, source);
  }

  /** A capture is one reading of its tuple's lines, right behind its conversation id's. */
  lemma ReadsItself(lower: char -> string, isTime: string -> bool, c: Capture) returns (lines: seq<string>, n: nat)
    requires LowerCasing(lower) && IsoTimes(isTime) && Accepted(isTime, c)
    ensures lines == Split('\n', Tuple(lower, c)) && n == Newlines(c.conversationId) + 1
    ensures TwinAt(NormalText(lower), isTime, lines, n)
  {
    lines, n := Split('\n', Tuple(lower, c)), Newlines(c.conversationId) + 1;
    TupleLines(lower, c);
    JoinSplit('\n', c.conversationId);
    JoinSplit('\n', OrEmpty(c.source));
    FourRead(lower, isTime, c);
    var id, source := Split('\n', c.conversationId), Split('\n', OrEmpty(c.source));
    ReadsBetween(NormalText(lower), isTime, id, FourLines(lower, c), source);
  }

  lemma {:induction false} PartIsShorter(sep: char, parts: seq<string>, i: nat)
    requires i < |parts|
    ensures |parts[i]| <= |Join(sep, parts)|
  {
    if |parts| > 1 && i > 0 {
      PartIsShorter(sep, parts[1..], i - 1);
    }
  }

  /** The capture another reading gives. */
  function TwinOf(lines: seq<string>, i: nat, kind: Kind): (d: Capture)
    requires 1 <= i && i + 4 < |lines|
  {
    Capture(Join('\n', lines[..i]), kind, lines[i + 1], lines[i + 2],
            if lines[i + 3] == "" then None else Some(lines[i + 3]), Some(Join('\n', lines[i + 4..])))
  }

  lemma FieldsAre(lower: char -> string, c: Capture, four: seq<string>)
    requires |four| == 4 && four[0] == c.kind.Text() && four[3] == OrEmpty(c.occurredAt)
    requires Normalize(lower, c.content) == four[1] && Normalize(lower, c.situation) == four[2]
    ensures Fields(lower, c) == [c.conversationId] + four + [OrEmpty(c.source)]
  {
  }

  lemma TwinHasTheTuple(lower: char -> string, isTime: string -> bool, lines: seq<string>, i: nat, kind: Kind)
    requires TwinAt(NormalText(lower), isTime, lines, i) && kind.Text() == lines[i]
    ensures Tuple(lower, TwinOf(lines, i, kind)) == Join('\n', lines)
  {
    FieldsAre(lower, TwinOf(lines, i, kind), lines[i..i + 4]);
    JoinAround('\n', lines[..i], lines[i..i + 4], lines[i + 4..]);
    SlicesMake(lines, i);
  }

  /** Another reading stands wholly before or wholly behind. */
  lemma OnOneSide(lower: char -> string, isTime: string -> bool, lines: seq<string>, n: nat, i: nat)
    requires LowerCasing(lower) && IsoTimes(isTime) && i != n
    requires TwinAt(NormalText(lower), isTime, lines, n) && TwinAt(NormalText(lower), isTime, lines, i)
    ensures i + 4 <= n || n + 4 <= i
  {
    NormalTextsDoNotEnd(lower, isTime);
    if i < n {
      ReadingsStandApart(NormalText(lower), isTime, lines, i, n);
    } else {
      ReadingsStandApart(NormalText(lower), isTime, lines, n, i);
    }
  }

  /** A line of the conversation id or of the source is short enough for a text. */
  lemma OuterLineIsShort(lines: seq<string>, n: nat, k: nat)
    requires n + 4 < |lines| && k < |lines| && (k < n || n + 4 <= k)
    requires |Join('\n', lines[..n])| <= 200 && |Join('\n', lines[n + 4..])| <= 500
    ensures |lines[k]| <= 500
  {
    if k < n {
      PartIsShorter('\n', lines[..n], k);
    } else {
      PartIsShorter('\n', lines[n + 4..], k - n - 4);
    }
  }

  lemma TwinIsAccepted(isTime: string -> bool, lines: seq<string>, i: nat, kind: Kind)
    requires 1 <= i && i + 4 < |lines| && IsText(lines[i + 1]) && IsText(lines[i + 2]) && Ends(isTime, lines[i + 3])
    requires 1 <= |Join('\n', lines[..i])| <= 200 && |Join('\n', lines[i + 4..])| <= 500
    ensures Accepted(isTime, TwinOf(lines, i, kind))
  {
  }

  ghost predicate TextsAreTexts(isText: string -> bool) {
    forall line :: isText(line) && |line| <= 20_000 ==> IsText(line)
  }

  lemma NormalTextsAreTexts(lower: char -> string)
    ensures TextsAreTexts(NormalText(lower))
  {
    forall line | NormalText(lower)(line) && |line| <= 20_000 ensures IsText(line) {
      NormalIsText(lower, line);
    }
  }

  lemma OuterTextIsText(isText: string -> bool, lines: seq<string>, n: nat, k: nat)
    requires TextsAreTexts(isText) && n + 4 < |lines| && k < |lines| && (k < n || n + 4 <= k) && isText(lines[k])
    requires |Join('\n', lines[..n])| <= 200 && |Join('\n', lines[n + 4..])| <= 500
    ensures IsText(lines[k])
  {
    OuterLineIsShort(lines, n, k);
  }

  lemma TwinTexts(isText: string -> bool, isTime: string -> bool, lines: seq<string>, n: nat, i: nat)
    requires TextsAreTexts(isText) && TwinAt(isText, isTime, lines, n) && TwinAt(isText, isTime, lines, i)
    requires i + 4 <= n || n + 4 <= i
    ensures IsText(lines[i + 1]) && IsText(lines[i + 2])
  {
    OuterTextIsText(isText, lines, n, i + 1);
    OuterTextIsText(isText, lines, n, i + 2);
  }

  lemma AnotherReadingIsAccepted(lower: char -> string, isTime: string -> bool, lines: seq<string>, n: nat, i: nat,
                                 kind: Kind)
    requires LowerCasing(lower) && IsoTimes(isTime) && i != n
    requires TwinAt(NormalText(lower), isTime, lines, n) && TwinAt(NormalText(lower), isTime, lines, i)
    ensures Accepted(isTime, TwinOf(lines, i, kind))
  {
    OnOneSide(lower, isTime, lines, n, i);
    NormalTextsAreTexts(lower);
    TwinTexts(NormalText(lower), isTime, lines, n, i);
    TwinIsAccepted(isTime, lines, i, kind);
  }

  /** Some other capture the schema lets in has the tuple of `c`. */
  ghost predicate HasTwin(lower: char -> string, isTime: string -> bool, c: Capture) {
    exists d :: IsTwin(lower, isTime, c, d)
  }

  /** Besides the `n`-th, four lines read as a capture's between an id and a source of the schema's lengths. */
  ghost predicate ReadsOtherwise(lower: char -> string, isTime: string -> bool, lines: seq<string>, n: nat) {
    exists i: nat :: i != n && TwinAt(NormalText(lower), isTime, lines, i)
  }

  lemma TwinIsAReading(lower: char -> string, isTime: string -> bool, c: Capture, d: Capture)
    requires LowerCasing(lower) && IsoTimes(isTime) && Accepted(isTime, c) && IsTwin(lower, isTime, c, d)
    ensures ReadsOtherwise(lower, isTime, Split('\n', Tuple(lower, c)), Newlines(c.conversationId) + 1)
  {
    var lines, m := ReadsItself(lower, isTime, d);
    TupleIsTheCapture(lower, c, d);
  }

  lemma ReadingIsATwin(lower: char -> string, isTime: string -> bool, c: Capture, lines: seq<string>, n: nat, i: nat)
    requires LowerCasing(lower) && IsoTimes(isTime) && lines == Split('\n', Tuple(lower, c))
    requires n == Newlines(c.conversationId) + 1 && i != n
    requires TwinAt(NormalText(lower), isTime, lines, n) && TwinAt(NormalText(lower), isTime, lines, i)
    ensures HasTwin(lower, isTime, c)
  {
    var kind: Kind :| kind.Text() == lines[i];
    AnotherReadingIsAccepted(lower, isTime, lines, n, i, kind);
    TwinHasTheTuple(lower, isTime, lines, i, kind);
    JoinSplit('\n', Tuple(lower, c));
    SplitJoin('\n', lines[..i]);
    assert Newlines(TwinOf(lines, i, kind).conversationId) == i - 1;
    assert IsTwin(lower, isTime, c, TwinOf(lines, i, kind));
  }

  /**
   A capture shares its tuple with another one the schema lets in exactly when some
   four other lines of the tuple read as a kind, two normalized texts and a time or
   none, between a conversation id and a source of the schema's lengths.
   */
  lemma TwinExactly(lower: char -> string, isTime: string -> bool, c: Capture)
    requires LowerCasing(lower) && IsoTimes(isTime) && Accepted(isTime, c)
    ensures HasTwin(lower, isTime, c)
       <==> ReadsOtherwise(lower, isTime, Split('\n', Tuple(lower, c)), Newlines(c.conversationId) + 1)
  {
    var lines, n := ReadsItself(lower, isTime, c);
    if HasTwin(lower, isTime, c) {
      var d :| IsTwin(lower, isTime, c, d);
      TwinIsAReading(lower, isTime, c, d);
    }
    if ReadsOtherwise(lower, isTime, lines, n) {
      var i: nat :| i != n && TwinAt(NormalText(lower), isTime, lines, i);
      ReadingIsATwin(lower, isTime, c, lines, n, i);
    }
  }

  /** Two captures the schema lets in that share a tuple are the same, or one id holds at least four newlines more. */
  lemma TradingTakesFourNewlines(lower: char -> string, isTime: string -> bool, a: Capture, b: Capture)
    requires LowerCasing(lower) && IsoTimes(isTime) && Accepted(isTime, a) && Accepted(isTime, b)
    requires Tuple(lower, a) == Tuple(lower, b)
    ensures SameCapture(lower, a, b) || Newlines(a.conversationId) + 4 <= Newlines(b.conversationId)
         || Newlines(b.conversationId) + 4 <= Newlines(a.conversationId)
  {
    var lines, n := ReadsItself(lower, isTime, a);
    var _, m := ReadsItself(lower, isTime, b);
    if n == m {
      TupleIsTheCapture(lower, a, b);
    } else {
      OnOneSide(lower, isTime, lines, n, m);
    }
  }

  lemma NormalizeLetter(lower: char -> string, c: char)
    requires !IsSpace(c) && lower(c) == [c]
    ensures Normalize(lower, [c]) == [c]
  {
    assert [c][1..] == [];
    assert Lower(lower, [c]) == [c];
    NormalizedIsWords(lower, [c]);
    assert Words([c]) == [[c]];
  }

  const LETTERS := ["task", "p", "q", ""]

  /** A task of two letters and no time, between other lines. */
  lemma LetterTuple(lower: char -> string, id: seq<string>, source: seq<string>, c: Capture)
    requires LowerCasing(lower) && id != [] && source != []
    requires c.kind == Task && c.content == "p" && c.situation == "q" && c.occurredAt == None
    requires c.conversationId == Join('\n', id) && OrEmpty(c.source) == Join('\n', source)
    ensures Tuple(lower, c) == Join('\n', id + LETTERS + source)
  {
    assert LowersWell(lower, 'p') && LowersWell(lower, 'q');
    NormalizeLetter(lower, 'p');
    NormalizeLetter(lower, 'q');
    JoinAround('\n', id, LETTERS, source);
    assert Fields(lower, c) == [c.conversationId] + LETTERS + [OrEmpty(c.source)];
  }

  lemma JoinLetters(first: string, last: string)
    ensures Join('\n', [first] + LETTERS + [last]) == first + "\ntask\np\nq\n\n" + last
  {
    assert ["q", ""][1..] == [""] && ["p", "q", ""][1..] == ["q", ""] && LETTERS[1..] == ["p", "q", ""];
    assert Join('\n', ["q", ""]) == "q\n";
    assert Join('\n', ["p", "q", ""]) == "p\nq\n";
    assert Join('\n', LETTERS) == "task\np\nq\n";
    JoinThree('\n', [first], LETTERS, [last]);
  }

  lemma Trade(a: string, z: string, l: seq<string>)
    ensures [a] + l + ([z] + l + [""]) == [a] + l + [z] + l + [""]
  {
  }

  const SMALL := Capture("a", Task, "p", "q", None, Some("z\ntask\np\nq\n\n"))
  const TWIN := Capture("a\ntask\np\nq\n\nz", Task, "p", "q", None, None)

  lemma SmallAreAccepted(isTime: string -> bool)
    ensures Accepted(isTime, SMALL) && Accepted(isTime, TWIN)
  {
    assert SMALL.content[0] == 'p' && SMALL.situation[0] == 'q' && TWIN.content[0] == 'p' && TWIN.situation[0] == 'q';
  }

  lemma SmallTuple(lower: char -> string)
    requires LowerCasing(lower)
    ensures Tuple(lower, SMALL) == Join('\n', ["a"] + LETTERS + (["z"] + LETTERS + [""]))
  {
    JoinLetters("z", "");
    LetterTuple(lower, ["a"], ["z"] + LETTERS + [""], SMALL);
  }

  lemma TwinTuple(lower: char -> string)
    requires LowerCasing(lower)
    ensures Tuple(lower, TWIN) == Join('\n', ["a"] + LETTERS + ["z"] + LETTERS + [""])
  {
    JoinLetters("a", "z");
    LetterTuple(lower, ["a"] + LETTERS + ["z"], [""], TWIN);
  }

  /** It happens: two small captures trade lines between conversation id and source, and share every fingerprint. */
  lemma ConversationTradesLines(lower: char -> string, isTime: string -> bool)
    requires LowerCasing(lower)
    ensures Accepted(isTime, SMALL) && IsTwin(lower, isTime, SMALL, TWIN)
  {
    SmallAreAccepted(isTime);
    SmallTuple(lower);
    TwinTuple(lower);
    Trade("a", "z", LETTERS);
    assert |TWIN.conversationId| > |SMALL.conversationId|;
  }
}
