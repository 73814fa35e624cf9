/**
 The names of a harness session's place: an id written as a path segment, and a
 session's branch from its flow kind, tenant and id.

 Text is UTF-16, so an id may hold a lone surrogate. The digest is any function
 to 64 hex digits; two long ids share a segment exactly when they share a digest.
 */
module SessionPlace {
  import opened Wrappers

  type Unit = u: int | 0 <= u < 0x1_0000
  type Text = seq<Unit>

  const DASH: Unit := 45
  const SLASH: Unit := 47
  const UNDERSCORE: Unit := 95
  const LETTER_E: Unit := 101
  const LETTER_H: Unit := 104
  const MAX_SEGMENT := 64

  /** `kitchen-sink/` */
  const BRANCH_ROOT: Text := [107, 105, 116, 99, 104, 101, 110, 45, 115, 105, 110, 107, 47]

  // ----- One id as one segment -----

  predicate AlphaNumeric(u: Unit) {
    97 <= u <= 122 || 48 <= u <= 57
  }

  /** The units a segment keeps as they are. */
  predicate Kept(u: Unit) {
    AlphaNumeric(u) || u == DASH
  }

  predicate HexDigit(u: Unit) {
    48 <= u <= 57 || 97 <= u <= 102
  }

  function ToHex(n: int): Unit
    requires 0 <= n < 16
  {
    if n < 10 then 48 + n else 87 + n
  }

  function FromHex(u: Unit): (n: int)
    requires HexDigit(u)
    ensures 0 <= n < 16
  {
    if u <= 57 then u - 48 else u - 87
  }

  function Hex4(u: Unit): Text {
    [ToHex(u / 4096), ToHex(u % 4096 / 256), ToHex(u % 256 / 16), ToHex(u % 16)]
  }

  function EscapeUnit(u: Unit): Text {
    if u == UNDERSCORE then [UNDERSCORE, UNDERSCORE] else if Kept(u) then [u] else [UNDERSCORE] + Hex4(u)
  }

  function Escape(value: Text): Text {
    if value == [] then [] else EscapeUnit(value[0]) + Escape(value[1..])
  }

  /** An id whose escaped form is too long for a filename. */
  predicate Long(value: Text) {
    |Escape(value)| > MAX_SEGMENT
  }

  function Segment(value: Text, digest: Text -> Text): Text {
    if Escape(value) == [] then [UNDERSCORE, LETTER_E]
    else if !Long(value) then Escape(value)
    else [UNDERSCORE, LETTER_H] + digest(value)
  }

  lemma {:induction false} EscapeSnoc(value: Text, u: Unit)
    ensures Escape(value + [u]) == Escape(value) + EscapeUnit(u)
  {
    if value == [] {
      assert value + [u] == [u];
    } else {
      assert (value + [u])[1..] == value[1..] + [u];
      EscapeSnoc(value[1..], u);
    }
  }

  /** The segment as it is built: one unit at a time. */
  method IdSegment(value: Text, digest: Text -> Text) returns (segment: Text)
    ensures segment == Segment(value, digest)
  {
    var out: Text := [];
    var i := 0;
    while i < |value|
      invariant 0 <= i <= |value|
      invariant out == Escape(value[..i])
    {
      var unit := value[i];
      EscapeSnoc(value[..i], unit);
      assert value[..i + 1] == value[..i] + [unit];
      if unit == UNDERSCORE {
        out := out + [UNDERSCORE, UNDERSCORE];
      } else if Kept(unit) {
        out := out + [unit];
      } else {
        out := out + ([UNDERSCORE] + Hex4(unit));
      }
      i := i + 1;
    }
    assert value[..i] == value;
    if out == [] {
      return [UNDERSCORE, LETTER_E];
    }
    if |out| <= MAX_SEGMENT {
      return out;
    }
    segment := [UNDERSCORE, LETTER_H] + digest(value);
  }

  // ----- How ids are spelled -----

  /** A lower-case letter, a digit or `-`. */
  predicate Plain(u: Unit) {
    'a' as int <= u <= 'z' as int || '0' as int <= u <= '9' as int || u == '-' as int
  }

  /** How one unit is written: itself, `__` for `_`, and `_` with four hex digits for any other. */
  ghost predicate Spells(x: Text, u: Unit) {
    && (Plain(u) ==> x == [u])
    && (u == '_' as int ==> x == [u, u])
    && (!Plain(u) && u != '_' as int ==>
          && |x| == 5 && x[0] == '_' as int && (forall k :: 1 <= k < 5 ==> HexDigit(x[k])) && Value4(x[1..]) == u)
  }

  lemma {:induction false} EscapeAppend(a: Text, b: Text)
    ensures Escape(a + b) == Escape(a) + Escape(b)
  {
    if a == [] {
      assert a + b == b;
    } else {
      assert (a + b)[1..] == a[1..] + b;
      EscapeAppend(a[1..], b);
    }
  }

  lemma UnitSpelled(u: Unit)
    ensures Spells(EscapeUnit(u), u)
  {
    if !Kept(u) && u != UNDERSCORE {
      Hex4RoundTrip(u);
      var x := EscapeUnit(u);
      assert x[1..] == Hex4(u);
      assert HexDigit(x[1]) && HexDigit(x[2]) && HexDigit(x[3]) && HexDigit(x[4]);
    }
  }

  /** Each unit is spelled by itself, wherever it stands in the id. */
  lemma SpellsEach(a: Text, u: Unit, b: Text) returns (x: Text)
    ensures Escape(a + [u] + b) == Escape(a) + x + Escape(b) && Spells(x, u)
  {
    x := EscapeUnit(u);
    UnitSpelled(u);
    EscapeSnoc(a, u);
    EscapeAppend(a + [u], b);
  }

  lemma {:induction false} PlainEscapes(value: Text)
    requires forall u :: u in value ==> Plain(u)
    ensures Escape(value) == value
  {
    if value != [] {
      assert value == [value[0]] + value[1..];
      assert Plain(value[0]) && EscapeUnit(value[0]) == [value[0]];
      PlainEscapes(value[1..]);
    }
  }

  /** An id of plain units reads as itself up to 64 of them; a longer one is `_h` and its digest, no id at all `_e`. */
  lemma PlainIsItself(value: Text, digest: Text -> Text)
    requires forall u :: u in value ==> Plain(u)
    ensures 1 <= |value| <= 64 ==> Segment(value, digest) == value
    ensures |value| > 64 ==> Segment(value, digest) == ['_' as int, 'h' as int] + digest(value)
    ensures value == [] ==> Segment(value, digest) == ['_' as int, 'e' as int]
  {
    PlainEscapes(value);
  }

  // ----- Reading a segment back -----

  function Unescape(s: Text): Option<Text> {
    if s == [] then Some([])
    else if s[0] != UNDERSCORE then
      var rest := Unescape(s[1..]);
      if Kept(s[0]) && rest.Some? then Some([s[0]] + rest.value) else None
    else if |s| >= 2 && s[1] == UNDERSCORE then
      var rest := Unescape(s[2..]);
      if rest.Some? then Some([UNDERSCORE] + rest.value) else None
    else if |s| >= 5 && HexDigit(s[1]) && HexDigit(s[2]) && HexDigit(s[3]) && HexDigit(s[4]) then
      var rest := Unescape(s[5..]);
      var u := ((FromHex(s[1]) * 16 + FromHex(s[2])) * 16 + FromHex(s[3])) * 16 + FromHex(s[4]);
      if rest.Some? then Some([u] + rest.value) else None
    else None
  }

  /** What a segment says of its id: the id itself, or a long id's digest. */
  datatype Named = Id(value: Text) | Digest(hex: Text) | NoId

  function ReadSegment(s: Text): Named {
    if s == [UNDERSCORE, LETTER_E] then Id([])
    else if |s| >= 2 && s[0] == UNDERSCORE && s[1] == LETTER_H then Digest(s[2..])
    else match Unescape(s) case Some(v) => Id(v) case None => NoId
  }

  lemma HexRoundTrip(n: int)
    requires 0 <= n < 16
    ensures HexDigit(ToHex(n)) && FromHex(ToHex(n)) == n
  {
  }

  lemma Digits(u: int)
    requires 0 <= u < 0x1_0000
    ensures 0 <= u / 4096 < 16 && 0 <= u % 4096 / 256 < 16 && 0 <= u % 256 / 16 < 16
    ensures u == ((u / 4096 * 16 + u % 4096 / 256) * 16 + u % 256 / 16) * 16 + u % 16
  {
  }

  function Value4(s: Text): int
    requires |s| == 4 && HexDigit(s[0]) && HexDigit(s[1]) && HexDigit(s[2]) && HexDigit(s[3])
  {
    ((FromHex(s[0]) * 16 + FromHex(s[1])) * 16 + FromHex(s[2])) * 16 + FromHex(s[3])
  }

  lemma ValueOfDigits(a: int, b: int, c: int, d: int)
    requires 0 <= a < 16 && 0 <= b < 16 && 0 <= c < 16 && 0 <= d < 16
    ensures var s: Text := [ToHex(a), ToHex(b), ToHex(c), ToHex(d)];
      && HexDigit(s[0]) && HexDigit(s[1]) && HexDigit(s[2]) && HexDigit(s[3])
      && Value4(s) == ((a * 16 + b) * 16 + c) * 16 + d
  {
    HexRoundTrip(a);
    HexRoundTrip(b);
    HexRoundTrip(c);
    HexRoundTrip(d);
  }

  lemma Hex4RoundTrip(u: Unit)
    ensures HexDigit(Hex4(u)[0]) && HexDigit(Hex4(u)[1]) && HexDigit(Hex4(u)[2]) && HexDigit(Hex4(u)[3])
    ensures Value4(Hex4(u)) == u
  {
    Digits(u);
    ValueOfDigits(u / 4096, u % 4096 / 256, u % 256 / 16, u % 16);
  }

  /** The escape is undone exactly, over every string of code units. */
  lemma {:induction false} EscapeRoundTrip(value: Text)
    ensures Unescape(Escape(value)) == Some(value)
  {
    if value != [] {
      var u, rest := value[0], Escape(value[1..]);
      EscapeRoundTrip(value[1..]);
      assert value == [u] + value[1..];
      var s := Escape(value);
      if u == UNDERSCORE {
        assert s[2..] == rest;
      } else if Kept(u) {
        assert s[1..] == rest;
      } else {
        Hex4RoundTrip(u);
        assert s[1] == Hex4(u)[0] && s[2] == Hex4(u)[1] && s[3] == Hex4(u)[2] && s[4] == Hex4(u)[3];
        assert s[5..] == rest;
      }
    }
  }

  /** No escape spells `_e` or begins `_h`. */
  lemma EscapeStart(value: Text)
    ensures var s := Escape(value);
      && (value != [] ==> s != [])
      && (|s| >= 2 && s[0] == UNDERSCORE && s[1] != UNDERSCORE ==> |s| >= 5 && HexDigit(s[1]))
  {
    if value != [] && !Kept(value[0]) && value[0] != UNDERSCORE {
      Hex4RoundTrip(value[0]);
      assert Escape(value)[1] == Hex4(value[0])[0];
    }
  }

  /** A segment names its id: exactly, or for a long id by its digest, and the two never look alike. */
  lemma SegmentRoundTrip(value: Text, digest: Text -> Text)
    ensures ReadSegment(Segment(value, digest)) == if Long(value) then Digest(digest(value)) else Id(value)
  {
    EscapeRoundTrip(value);
    EscapeStart(value);
    if Long(value) {
      assert ([UNDERSCORE, LETTER_H] + digest(value))[2..] == digest(value);
    }
  }

  predicate SameId(a: Text, b: Text, digest: Text -> Text) {
    a == b || (Long(a) && Long(b) && digest(a) == digest(b))
  }

  /** Two ids share a segment only if they are one id, or two long ids whose digests collide. */
  lemma SegmentInjective(a: Text, b: Text, digest: Text -> Text)
    ensures Segment(a, digest) == Segment(b, digest) <==> SameId(a, b, digest)
  {
    SegmentRoundTrip(a, digest);
    SegmentRoundTrip(b, digest);
  }

  ghost predicate HexDigest(digest: Text -> Text) {
    forall v :: |digest(v)| == 64 && forall u :: u in digest(v) ==> HexDigit(u)
  }

  predicate SegmentUnit(u: Unit) {
    Kept(u) || u == UNDERSCORE
  }

  lemma {:induction false} EscapeUnits(value: Text, u: Unit)
    requires u in Escape(value)
    ensures SegmentUnit(u)
  {
    var s := EscapeUnit(value[0]);
    if u in s {
      if !Kept(value[0]) && value[0] != UNDERSCORE {
        Hex4RoundTrip(value[0]);
      }
    } else {
      EscapeUnits(value[1..], u);
    }
  }

  /** A segment is a safe file and branch name: not empty, at most 66 units, all of `[a-z0-9_-]`. */
  lemma SegmentIsSafe(value: Text, digest: Text -> Text)
    requires HexDigest(digest)
    ensures 1 <= |Segment(value, digest)| <= 66
    ensures forall u :: u in Segment(value, digest) ==> SegmentUnit(u)
  {
    forall u | u in Segment(value, digest) ensures SegmentUnit(u) {
      if u in Escape(value) {
        EscapeUnits(value, u);
      }
    }
  }

  // ----- A session's branch -----

  datatype SessionPlace = SessionPlace(flowKind: Text, tenantId: Option<Text>, sessionId: Text)

  /** Words joined by single dashes, read after the first letter of a word. */
  predicate InWords(s: Text) {
    s == []
    || (AlphaNumeric(s[0]) && InWords(s[1..]))
    || (s[0] == DASH && |s| > 1 && AlphaNumeric(s[1]) && InWords(s[2..]))
  }

  predicate FlowKind(s: Text) {
    s != [] && AlphaNumeric(s[0]) && InWords(s[1..])
  }

  /** Only letters, digits and dashes, no two dashes in a row, and none at the end. */
  ghost predicate SingleDashed(s: Text) {
    && (forall i :: 0 <= i < |s| ==> Plain(s[i]))
    && (forall i :: 0 <= i < |s| - 1 ==> !(s[i] == DASH && s[i + 1] == DASH))
    && (s != [] ==> s[|s| - 1] != DASH)
  }

  lemma SingleDashedRest(s: Text)
    requires s != []
    ensures SingleDashed(s)
      <==> (Plain(s[0]) && SingleDashed(s[1..])
            && (s[0] == DASH ==> |s| > 1 && s[1] != DASH))
  {
    if SingleDashed(s) && |s| > 1 {
      assert s[1..][|s| - 2] == s[|s| - 1];
      forall i | 0 <= i < |s[1..]| - 1 ensures !(s[1..][i] == DASH && s[1..][i + 1] == DASH) {
        assert !(s[i + 1] == DASH && s[i + 2] == DASH);
      }
    }
    if Plain(s[0]) && SingleDashed(s[1..]) && (s[0] == DASH ==> |s| > 1 && s[1] != DASH) {
      forall i | 0 <= i < |s| ensures Plain(s[i]) {
        assert i > 0 ==> s[i] == s[1..][i - 1];
      }
      forall i | 0 <= i < |s| - 1 ensures !(s[i] == DASH && s[i + 1] == DASH) {
        assert i > 0 ==> s[i] == s[1..][i - 1] && s[i + 1] == s[1..][i];
      }
      assert |s| > 1 ==> s[|s| - 1] == s[1..][|s| - 2];
    }
  }

  lemma {:induction false} InWordsIs(s: Text)
    ensures InWords(s) <==> SingleDashed(s)
  {
    if s != [] {
      SingleDashedRest(s);
      if AlphaNumeric(s[0]) {
        InWordsIs(s[1..]);
      } else if |s| > 1 {
        SingleDashedRest(s[1..]);
        assert s[1..][1..] == s[2..];
        InWordsIs(s[2..]);
      }
    }
  }

  /** A flow kind is lower-case words joined by single dashes: plain units, no dash at an end, no two in a row. */
  lemma FlowKindIs(s: Text)
    ensures FlowKind(s) <==> s != [] && SingleDashed(s) && s[0] != DASH
  {
    if s != [] {
      SingleDashedRest(s);
      InWordsIs(s[1..]);
    }
  }

  /** The two segments under the root, or none where the source throws. */
  function PlaceSegments(place: SessionPlace, digest: Text -> Text): Option<(Text, Text)> {
    if !FlowKind(place.flowKind) then None
    else
      var kind := if place.tenantId.None? then place.flowKind
                  else place.flowKind + [DASH, DASH] + Segment(place.tenantId.value, digest);
      Some((kind, Segment(place.sessionId, digest)))
  }

  function SessionBranch(place: SessionPlace, digest: Text -> Text): Option<Text> {
    match PlaceSegments(place, digest)
    case None => None
    case Some((kind, session)) => Some(BRANCH_ROOT + (kind + [SLASH] + session))
  }

  /** A branch spells its place from the root down; a flow kind that is no words joined by single dashes has none. */
  lemma BranchSpells(place: SessionPlace, digest: Text -> Text)
    ensures var kind := place.flowKind;
      if kind != [] && SingleDashed(kind) && kind[0] != DASH then
        var tenant := if place.tenantId.Some? then [45, 45] + Segment(place.tenantId.value, digest) else [];
        SessionBranch(place, digest)
          == Some(BRANCH_ROOT + kind + tenant + [47] + Segment(place.sessionId, digest))
      else SessionBranch(place, digest) == None
  {
    var kind := place.flowKind;
    FlowKindIs(kind);
    if FlowKind(kind) {
      var session := Segment(place.sessionId, digest);
      var tenant := if place.tenantId.Some? then [45, 45] + Segment(place.tenantId.value, digest) else [];
      assert PlaceSegments(place, digest).value.0 == kind + tenant;
      assert BRANCH_ROOT + ((kind + tenant) + [SLASH] + session) == BRANCH_ROOT + kind + tenant + [47] + session;
    }
  }

  predicate SamePlace(p: SessionPlace, q: SessionPlace, digest: Text -> Text) {
    && p.flowKind == q.flowKind
    && SameId(p.sessionId, q.sessionId, digest)
    && (if p.tenantId.Some? && q.tenantId.Some? then SameId(p.tenantId.value, q.tenantId.value, digest)
        else p.tenantId == q.tenantId)
  }

  lemma {:induction false} InWordsKept(s: Text, u: Unit)
    requires InWords(s) && u in s
    ensures Kept(u)
  {
    if u != s[0] {
      if AlphaNumeric(s[0]) {
        InWordsKept(s[1..], u);
      } else if u != s[1] {
        InWordsKept(s[2..], u);
      }
    }
  }

  /** Where `--` first stands, or the end. */
  function FirstFrame(s: Text): nat {
    if |s| < 2 then |s|
    else if s[0] == DASH && s[1] == DASH then 0
    else 1 + FirstFrame(s[1..])
  }

  /** Words hold no `--` and do not run into one, so the first `--` after them frames what follows. */
  lemma {:induction false} WordsEndAtFrame(s: Text, t: Text)
    requires InWords(s)
    ensures FirstFrame(s) == |s| && FirstFrame(s + [DASH, DASH] + t) == |s|
  {
    if s == [] {
      assert s + [DASH, DASH] + t == [DASH, DASH] + t;
    } else if AlphaNumeric(s[0]) {
      WordsEndAtFrame(s[1..], t);
      assert (s + [DASH, DASH] + t)[1..] == s[1..] + [DASH, DASH] + t;
    } else {
      WordsEndAtFrame(s[2..], t);
      assert (s + [DASH, DASH] + t)[1..][1..] == s[2..] + [DASH, DASH] + t;
      assert s[1..][1..] == s[2..];
    }
  }

  lemma FlowKindEndsAtFrame(s: Text, t: Text)
    requires FlowKind(s)
    ensures FirstFrame(s) == |s| && FirstFrame(s + [DASH, DASH] + t) == |s|
  {
    WordsEndAtFrame(s[1..], t);
    assert (s + [DASH, DASH] + t)[1..] == s[1..] + [DASH, DASH] + t;
  }

  /** Where `c` first stands, or the end. */
  function FirstIndex(s: Text, c: Unit): nat {
    if s == [] || s[0] == c then 0 else 1 + FirstIndex(s[1..], c)
  }

  lemma {:induction false} FirstIndexAfter(x: Text, c: Unit, y: Text)
    requires c !in x
    ensures FirstIndex(x + [c] + y, c) == |x|
  {
    if x == [] {
      assert x + [c] + y == [c] + y;
    } else {
      FirstIndexAfter(x[1..], c, y);
      assert (x + [c] + y)[1..] == x[1..] + [c] + y;
    }
  }

  /** Two texts joined by a unit neither first part holds are joined at the same place. */
  lemma SameSplit(x: Text, y: Text, x': Text, y': Text, c: Unit)
    requires c !in x && c !in x' && x + [c] + y == x' + [c] + y'
    ensures x == x' && y == y'
  {
    FirstIndexAfter(x, c, y);
    FirstIndexAfter(x', c, y');
    SameParts(x + [c], y, x' + [c], y');
    assert x == (x + [c])[..|x|] && x' == (x' + [c])[..|x'|];
  }

  lemma SameParts(x: Text, y: Text, x': Text, y': Text)
    requires x + y == x' + y' && |x| == |x'|
    ensures x == x' && y == y'
  {
    assert x == (x + y)[..|x|] && x' == (x' + y')[..|x'|];
    assert y == (x + y)[|x|..] && y' == (x' + y')[|x'|..];
  }

  lemma KindHasNoSlash(place: SessionPlace, digest: Text -> Text)
    requires HexDigest(digest) && FlowKind(place.flowKind)
    ensures SLASH !in PlaceSegments(place, digest).value.0
    ensures SLASH !in PlaceSegments(place, digest).value.1
  {
    if SLASH in place.flowKind {
      InWordsKept(place.flowKind[1..], SLASH);
    }
    SegmentIsSafe(place.sessionId, digest);
    if place.tenantId.Some? {
      SegmentIsSafe(place.tenantId.value, digest);
    }
  }

  lemma KindInjective(p: SessionPlace, q: SessionPlace, digest: Text -> Text)
    requires FlowKind(p.flowKind) && FlowKind(q.flowKind)
    requires PlaceSegments(p, digest).value.0 == PlaceSegments(q, digest).value.0
    ensures p.flowKind == q.flowKind
    ensures if p.tenantId.Some? && q.tenantId.Some? then SameId(p.tenantId.value, q.tenantId.value, digest)
            else p.tenantId == q.tenantId
  {
    var s := if p.tenantId.Some? then Segment(p.tenantId.value, digest) else [];
    var t := if q.tenantId.Some? then Segment(q.tenantId.value, digest) else [];
    FlowKindEndsAtFrame(p.flowKind, s);
    FlowKindEndsAtFrame(q.flowKind, t);
    if p.tenantId.Some? && q.tenantId.Some? {
      SameParts(p.flowKind + [DASH, DASH], s, q.flowKind + [DASH, DASH], t);
      SameParts(p.flowKind, [DASH, DASH], q.flowKind, [DASH, DASH]);
      SegmentInjective(p.tenantId.value, q.tenantId.value, digest);
    }
  }

  /** Two sessions share a branch exactly when they are one place, up to a digest collision of long ids. */
  lemma BranchInjective(p: SessionPlace, q: SessionPlace, digest: Text -> Text)
    requires HexDigest(digest) && FlowKind(p.flowKind) && FlowKind(q.flowKind)
    ensures SessionBranch(p, digest) == SessionBranch(q, digest) <==> SamePlace(p, q, digest)
  {
    var (k, s) := PlaceSegments(p, digest).value;
    var (k', s') := PlaceSegments(q, digest).value;
    SegmentInjective(p.sessionId, q.sessionId, digest);
    if SessionBranch(p, digest) == SessionBranch(q, digest) {
      SameParts(BRANCH_ROOT, k + [SLASH] + s, BRANCH_ROOT, k' + [SLASH] + s');
      KindHasNoSlash(p, digest);
      KindHasNoSlash(q, digest);
      SameSplit(k, s, k', s', SLASH);
      KindInjective(p, q, digest);
    }
    if SamePlace(p, q, digest) && p.tenantId.Some? {
      SegmentInjective(p.tenantId.value, q.tenantId.value, digest);
    }
  }

  /** No session's branch is a directory on the way to another's, so git can hold them all. */
  lemma BranchNeverNests(p: SessionPlace, q: SessionPlace, digest: Text -> Text)
    requires HexDigest(digest) && FlowKind(p.flowKind) && FlowKind(q.flowKind)
    ensures !(SessionBranch(p, digest).value + [SLASH] <= SessionBranch(q, digest).value)
  {
    var (k, s) := PlaceSegments(p, digest).value;
    var (k', s') := PlaceSegments(q, digest).value;
    KindHasNoSlash(p, digest);
    KindHasNoSlash(q, digest);
    TwoPartsNeverNest(BRANCH_ROOT, k, s, k', s');
  }

  lemma TwoPartsNeverNest(root: Text, k: Text, s: Text, k': Text, s': Text)
    requires SLASH !in k && SLASH !in k' && SLASH !in s'
    ensures !(root + (k + [SLASH] + s) + [SLASH] <= root + (k' + [SLASH] + s'))
  {
    var b, b' := root + (k + [SLASH] + s), root + (k' + [SLASH] + s');
    if b + [SLASH] <= b' {
      var y := b'[|b| + 1..];
      assert b' == b + [SLASH] + y;
      assert b + [SLASH] + y == root + (k + [SLASH] + (s + [SLASH] + y));
      SameParts(root, k' + [SLASH] + s', root, k + [SLASH] + (s + [SLASH] + y));
      assert (s + [SLASH] + y)[|s|] == SLASH;
      SameSplit(k', s', k, s + [SLASH] + y, SLASH);
    }
  }
}
