/**
 A concept's frontmatter and the collection state it is kept as: known fields
 are typed, unknown keys are preserved as text, and export writes them back in a
 fixed order.
 */
module Concepts {
  import opened Wrappers
  import Sorting

  /** A YAML value; `Other` stands for numbers, booleans and mappings. */
  datatype Value = Nil | Text(text: string) | List(items: seq<Value>) | Other(yaml: string)

  datatype Entry<V> = Entry(key: string, value: V)

  /** A JavaScript object: entries of distinct keys in the order they were set. */
  type Frontmatter = seq<Entry<Value>>

  datatype State = State(kind: string, title: Option<string>, description: Option<string>, resource: Option<string>,
                         tags: seq<string>, timestamp: Option<string>, extra: seq<Entry<string>>)

  /**
   The YAML library and the platform: `parse` may refuse a text; `show` is
   `String(value)` on what is not a string.
   */
  datatype Codec = Codec(serialize: Value -> string, parse: string -> Option<Value>, show: Value -> string,
                         keyLe: (string, string) -> bool)

  const KNOWN := ["type", "title", "description", "resource", "tags", "timestamp"]
  const DEFAULT_TYPE := "concept"

  /** The names every JavaScript object answers to with `in`, whatever was set on it. */
  const INHERITED := {"constructor", "hasOwnProperty", "isPrototypeOf", "propertyIsEnumerable", "toLocaleString",
                      "toString", "valueOf", "__proto__", "__defineGetter__", "__defineSetter__",
                      "__lookupGetter__", "__lookupSetter__"}

  function Keys<V>(xs: seq<Entry<V>>): set<string> {
    if xs == [] then {} else {xs[0].key} + Keys(xs[1..])
  }

  ghost predicate Distinct<V>(xs: seq<Entry<V>>) {
    xs == [] || (xs[0].key !in Keys(xs[1..]) && Distinct(xs[1..]))
  }

  function Get<V>(fm: seq<Entry<V>>, key: string): Option<V> {
    if fm == [] then None else if fm[0].key == key then Some(fm[0].value) else Get(fm[1..], key)
  }

  function ByKey<V>(c: Codec): (Entry<V>, Entry<V>) -> bool {
    (a: Entry<V>, b: Entry<V>) => c.keyLe(a.key, b.key)
  }

  // ----- Import -----

  function StringOf(c: Codec, v: Value): string {
    if v.Text? then v.text else c.show(v)
  }

  function StringOrNull(c: Codec, v: Option<Value>): Option<string> {
    if v.None? || v.value.Nil? then None else Some(StringOf(c, v.value))
  }

  function Strings(c: Codec, items: seq<Value>): seq<string> {
    if items == [] then [] else [StringOf(c, items[0])] + Strings(c, items[1..])
  }

  function TagsOf(c: Codec, v: Option<Value>): seq<string> {
    if v.Some? && v.value.List? then Strings(c, v.value.items) else []
  }

  predicate HasType(fm: Frontmatter) {
    var t := Get(fm, "type");
    t.Some? && t.value.Text? && t.value.text != ""
  }

  /** The unknown entries, serialized, in the order they stand. */
  function Unknown(c: Codec, fm: Frontmatter): seq<Entry<string>> {
    if fm == [] then []
    else (if fm[0].key in KNOWN then [] else [Entry(fm[0].key, c.serialize(fm[0].value))]) + Unknown(c, fm[1..])
  }

  function Imported(c: Codec, fm: Frontmatter): State {
    State(if HasType(fm) then Get(fm, "type").value.text else DEFAULT_TYPE,
          StringOrNull(c, Get(fm, "title")), StringOrNull(c, Get(fm, "description")),
          StringOrNull(c, Get(fm, "resource")),
          TagsOf(c, Get(fm, "tags")), StringOrNull(c, Get(fm, "timestamp")),
          Sorting.Sort(ByKey(c), Unknown(c, fm)))
  }

  function Warning(id: string): string {
    id + ": missing required \"type\"; defaulted to \"" + DEFAULT_TYPE + "\""
  }

  lemma WarningIs(id: string)
    ensures Warning(id) == id + ": missing required \"type\"; defaulted to \"concept\""
  {
    var tail := ": missing required \"type\"; defaulted to \"concept\"";
    assert ": missing required \"type\"; defaulted to \"" + DEFAULT_TYPE + "\"" == tail;
    assert Warning(id) == id + (": missing required \"type\"; defaulted to \"" + DEFAULT_TYPE + "\"");
  }

  /** The frontmatter names a type: a text that is not empty. */
  ghost predicate NamesType(fm: Frontmatter, kind: string) {
    kind != "" && Get(fm, "type") == Some(Text(kind))
  }

  lemma {:induction false} UnknownNext(c: Codec, a: Frontmatter, e: Entry<Value>)
    ensures Unknown(c, a + [e]) == Unknown(c, a) + (if e.key in KNOWN then [] else [Entry(e.key, c.serialize(e.value))])
  {
    if a == [] {
      assert a + [e] == [e];
    } else {
      UnknownNext(c, a[1..], e);
      assert (a + [e])[1..] == a[1..] + [e];
    }
  }

  method FrontmatterToState(c: Codec, fm: Frontmatter, conceptId: string, warnings: seq<string>)
    returns (state: State, warnings': seq<string>)
    ensures state == Imported(c, fm)
    ensures (exists kind :: NamesType(fm, kind)) ==> warnings' == warnings
    ensures !(exists kind :: NamesType(fm, kind)) ==>
      warnings' == warnings + [conceptId + ": missing required \"type\"; defaulted to \"concept\""]
  {
    WarningIs(conceptId);
    warnings' := warnings;
    var rawType := Get(fm, "type");
    var kind := DEFAULT_TYPE;
    if rawType.Some? && rawType.value.Text? && |rawType.value.text| > 0 {
      kind := rawType.value.text;
      assert NamesType(fm, kind);
    } else {
      warnings' := warnings' + [Warning(conceptId)];
    }
    var extra: seq<Entry<string>> := [];
    for i := 0 to |fm|
      invariant extra == Unknown(c, fm[..i])
    {
      UnknownNext(c, fm[..i], fm[i]);
      assert fm[..i] + [fm[i]] == fm[..i + 1];
      if fm[i].key in KNOWN { continue; }
      extra := extra + [Entry(fm[i].key, c.serialize(fm[i].value))];
    }
    assert fm[..|fm|] == fm;
    extra := Sorting.Sort(ByKey(c), extra);
    state := State(kind, StringOrNull(c, Get(fm, "title")), StringOrNull(c, Get(fm, "description")),
                   StringOrNull(c, Get(fm, "resource")), TagsOf(c, Get(fm, "tags")),
                   StringOrNull(c, Get(fm, "timestamp")), extra);
  }

  // ----- Export -----

  function Texts(tags: seq<string>): seq<Value> {
    if tags == [] then [] else [Text(tags[0])] + Texts(tags[1..])
  }

  function TextOf(s: Option<string>): Option<Value> {
    if s.Some? then Some(Text(s.value)) else None
  }

  /** What each known field holds, in the fixed order of the known fields. */
  function FieldsOf(s: State): seq<Option<Value>> {
    [Some(Text(s.kind)), TextOf(s.title), TextOf(s.description), TextOf(s.resource),
     if s.tags == [] then None else Some(List(Texts(s.tags))), TextOf(s.timestamp)]
  }

  function Slots(keys: seq<string>, values: seq<Option<Value>>): Frontmatter
    requires |keys| == |values|
  {
    if keys == [] then []
    else (if values[0].Some? then [Entry(keys[0], values[0].value)] else []) + Slots(keys[1..], values[1..])
  }

  /** The known fields that hold something, in their fixed order. */
  function KnownOf(s: State): Frontmatter {
    Slots(KNOWN, FieldsOf(s))
  }

  /** JavaScript's `key in out`. */
  predicate IsIn(key: string, out: Frontmatter) {
    key in Keys(out) || key in INHERITED
  }

  /** Set each extra key that is not in the object yet; a value the parser refuses fails the export. */
  function Emit(c: Codec, out: Frontmatter, extra: seq<Entry<string>>): Option<Frontmatter>
    decreases |extra|
  {
    if extra == [] then Some(out)
    else if IsIn(extra[0].key, out) then Emit(c, out, extra[1..])
    else
      var value := c.parse(extra[0].value);
      if value.None? then None else Emit(c, out + [Entry(extra[0].key, value.value)], extra[1..])
  }

  function Exported(c: Codec, s: State): Option<Frontmatter> {
    Emit(c, KnownOf(s), Sorting.Sort(ByKey(c), s.extra))
  }

  function Slot(key: string, value: Option<Value>): Frontmatter {
    if value.Some? then [Entry(key, value.value)] else []
  }

  lemma {:induction false} SlotsNext(keys: seq<string>, key: string, values: seq<Option<Value>>, value: Option<Value>)
    requires |keys| == |values|
    ensures Slots(keys + [key], values + [value]) == Slots(keys, values) + Slot(key, value)
  {
    var keys', values' := keys + [key], values + [value];
    if keys == [] {
      assert keys' == [key] && values' == [value];
    } else {
      SlotsNext(keys[1..], key, values[1..], value);
      assert keys'[1..] == keys[1..] + [key] && values'[1..] == values[1..] + [value];
      assert keys'[0] == keys[0] && values'[0] == values[0];
      var head, rest := Slot(keys[0], values[0]), Slots(keys[1..], values[1..]);
      assert Slots(keys', values') == head + (rest + Slot(key, value));
      assert Slots(keys, values) == head + rest;
    }
  }

  /** The known fields up to the `n`-th. */
  function KnownUpTo(s: State, n: nat): Frontmatter
    requires n <= 6
  {
    Slots(KNOWN[..n], FieldsOf(s)[..n])
  }

  lemma KnownGrows(s: State, n: nat)
    requires n < 6
    ensures KnownUpTo(s, n + 1) == KnownUpTo(s, n) + Slot(KNOWN[n], FieldsOf(s)[n])
  {
    var f := FieldsOf(s);
    SlotsNext(KNOWN[..n], KNOWN[n], f[..n], f[n]);
    assert KNOWN[..n] + [KNOWN[n]] == KNOWN[..n + 1] && f[..n] + [f[n]] == f[..n + 1];
  }

  lemma KnownEnds(s: State)
    ensures KnownUpTo(s, 1) == [Entry("type", Text(s.kind))] && KnownUpTo(s, 6) == KnownOf(s)
  {
    KnownGrows(s, 0);
    assert KnownUpTo(s, 0) == [];
    assert KNOWN[..6] == KNOWN && FieldsOf(s)[..6] == FieldsOf(s);
  }

  method KnownFields(s: State) returns (out: Frontmatter)
    ensures out == KnownOf(s)
  {
    KnownEnds(s);
    out := [Entry("type", Text(s.kind))];
    KnownGrows(s, 1);
    if s.title.Some? { out := out + [Entry("title", Text(s.title.value))]; }
    assert out == KnownUpTo(s, 2);
    KnownGrows(s, 2);
    if s.description.Some? { out := out + [Entry("description", Text(s.description.value))]; }
    assert out == KnownUpTo(s, 3);
    KnownGrows(s, 3);
    if s.resource.Some? { out := out + [Entry("resource", Text(s.resource.value))]; }
    assert out == KnownUpTo(s, 4);
    KnownGrows(s, 4);
    if |s.tags| > 0 { out := out + [Entry("tags", List(Texts(s.tags)))]; }
    assert out == KnownUpTo(s, 5);
    KnownGrows(s, 5);
    if s.timestamp.Some? { out := out + [Entry("timestamp", Text(s.timestamp.value))]; }
  }

  method StateToFrontmatter(c: Codec, s: State) returns (result: Option<Frontmatter>)
    ensures result == Exported(c, s)
  {
    var out := KnownFields(s);
    var extra := Sorting.Sort(ByKey(c), s.extra);
    var i := 0;
    while i < |extra|
      invariant 0 <= i <= |extra|
      invariant Emit(c, out, extra[i..]) == Exported(c, s)
    {
      if !IsIn(extra[i].key, out) {
        var value := c.parse(extra[i].value);
        if value.None? {
          return None;
        }
        out := out + [Entry(extra[i].key, value.value)];
      }
      assert extra[i..][1..] == extra[i + 1..];
      i := i + 1;
    }
    result := Some(out);
  }

  // ----- Facts on entries -----

  lemma {:induction false} KeysAppend<V>(a: seq<Entry<V>>, b: seq<Entry<V>>)
    ensures Keys(a + b) == Keys(a) + Keys(b)
  {
    if a == [] {
      assert a + b == b;
    } else {
      KeysAppend(a[1..], b);
      assert (a + b)[1..] == a[1..] + b;
    }
  }

  lemma {:induction false} DistinctAppend<V>(a: seq<Entry<V>>, b: seq<Entry<V>>)
    ensures Distinct(a + b) <==> Distinct(a) && Distinct(b) && Keys(a) !! Keys(b)
  {
    if a == [] {
      assert a + b == b;
    } else {
      DistinctAppend(a[1..], b);
      KeysAppend(a[1..], b);
      assert (a + b)[1..] == a[1..] + b;
    }
  }

  lemma {:induction false} InsertKeepsKeys<V>(le: (Entry<V>, Entry<V>) -> bool, x: Entry<V>, xs: seq<Entry<V>>)
    ensures Keys(Sorting.Insert(le, x, xs)) == {x.key} + Keys(xs)
    ensures x.key !in Keys(xs) && Distinct(xs) ==> Distinct(Sorting.Insert(le, x, xs))
  {
    assert ([x] + xs)[1..] == xs;
    if xs != [] && !le(x, xs[0]) {
      InsertKeepsKeys(le, x, xs[1..]);
      var rest := Sorting.Insert(le, x, xs[1..]);
      assert ([xs[0]] + rest)[1..] == rest;
    }
  }

  lemma {:induction false} SortKeepsKeys<V>(le: (Entry<V>, Entry<V>) -> bool, xs: seq<Entry<V>>)
    ensures Keys(Sorting.Sort(le, xs)) == Keys(xs)
    ensures Distinct(xs) ==> Distinct(Sorting.Sort(le, xs))
  {
    if xs != [] {
      SortKeepsKeys(le, xs[1..]);
      InsertKeepsKeys(le, xs[0], Sorting.Sort(le, xs[1..]));
    }
  }

  lemma {:induction false} GetAppend(a: Frontmatter, b: Frontmatter, key: string)
    ensures Get(a + b, key) == if key in Keys(a) then Get(a, key) else Get(b, key)
    ensures key !in Keys(a) ==> Get(a, key) == None
  {
    if a == [] {
      assert a + b == b;
    } else {
      GetAppend(a[1..], b, key);
      assert (a + b)[1..] == a[1..] + b;
    }
  }

  ghost predicate NoneKnown<V>(xs: seq<Entry<V>>) {
    forall key :: key in KNOWN ==> key !in Keys(xs)
  }

  lemma {:induction false} UnknownKeys(c: Codec, fm: Frontmatter)
    ensures forall key :: key in Keys(Unknown(c, fm)) <==> key in Keys(fm) && key !in KNOWN
    ensures Distinct(fm) ==> Distinct(Unknown(c, fm))
  {
    if fm != [] {
      UnknownKeys(c, fm[1..]);
      var rest := Unknown(c, fm[1..]);
      assert fm[0].key !in KNOWN ==> Unknown(c, fm)[1..] == rest;
      assert fm[0].key in KNOWN ==> Unknown(c, fm) == rest;
    }
  }

  // ----- The round trip -----

  ghost predicate AllParse(c: Codec, extra: seq<Entry<string>>) {
    extra == [] || (c.parse(extra[0].value).Some? && AllParse(c, extra[1..]))
  }

  function Parsed(c: Codec, extra: seq<Entry<string>>): Frontmatter
    requires AllParse(c, extra)
  {
    if extra == [] then [] else [Entry(extra[0].key, c.parse(extra[0].value).value)] + Parsed(c, extra[1..])
  }

  /** Every text is what its value serializes to. */
  ghost predicate Stable(c: Codec, extra: seq<Entry<string>>) {
    extra == []
    || (c.parse(extra[0].value).Some? && c.serialize(c.parse(extra[0].value).value) == extra[0].value
        && Stable(c, extra[1..]))
  }

  lemma {:induction false} ParsedKeys(c: Codec, extra: seq<Entry<string>>)
    requires AllParse(c, extra)
    ensures Keys(Parsed(c, extra)) == Keys(extra)
  {
    if extra != [] {
      ParsedKeys(c, extra[1..]);
    }
  }

  /** Extras of distinct new keys are all emitted, in order, when they parse; and nothing is otherwise. */
  lemma {:induction false} EmitAll(c: Codec, out: Frontmatter, extra: seq<Entry<string>>)
    requires Distinct(extra) && Keys(out) + INHERITED !! Keys(extra)
    ensures Emit(c, out, extra) == if AllParse(c, extra) then Some(out + Parsed(c, extra)) else None
    decreases |extra|
  {
    if extra == [] {
      assert out + [] == out;
    } else if c.parse(extra[0].value).Some? {
      var e := Entry(extra[0].key, c.parse(extra[0].value).value);
      KeysAppend(out, [e]);
      EmitAll(c, out + [e], extra[1..]);
      if AllParse(c, extra) {
        assert out + [e] + Parsed(c, extra[1..]) == out + Parsed(c, extra);
      }
    }
  }

  /** Export sets no key twice, whatever the extras hold. */
  lemma {:induction false} EmitDistinct(c: Codec, out: Frontmatter, extra: seq<Entry<string>>)
    requires Distinct(out) && Emit(c, out, extra).Some?
    ensures Distinct(Emit(c, out, extra).value)
    ensures out <= Emit(c, out, extra).value
    ensures Keys(out) !! INHERITED ==> Keys(Emit(c, out, extra).value) !! INHERITED
    decreases |extra|
  {
    if extra != [] {
      if IsIn(extra[0].key, out) {
        EmitDistinct(c, out, extra[1..]);
      } else {
        var e := Entry(extra[0].key, c.parse(extra[0].value).value);
        DistinctAppend(out, [e]);
        KeysAppend(out, [e]);
        EmitDistinct(c, out + [e], extra[1..]);
      }
    }
  }

  /** Slots of different names are distinct, and each is read back under its name. */
  lemma {:induction false} SlotsHold(keys: seq<string>, values: seq<Option<Value>>)
    requires |keys| == |values| && forall i, j :: 0 <= i < j < |keys| ==> keys[i] != keys[j]
    ensures Distinct(Slots(keys, values)) && forall key :: key in Keys(Slots(keys, values)) ==> key in keys
    ensures forall i :: 0 <= i < |keys| ==> Get(Slots(keys, values), keys[i]) == values[i]
  {
    if keys != [] {
      var head, rest := Slot(keys[0], values[0]), Slots(keys[1..], values[1..]);
      SlotsHold(keys[1..], values[1..]);
      assert Slots(keys, values) == head + rest;
      DistinctAppend(head, rest);
      KeysAppend(head, rest);
      forall i | 0 <= i < |keys| ensures Get(head + rest, keys[i]) == values[i] {
        GetAppend(head, rest, keys[i]);
        if i > 0 {
          assert keys[i] == keys[1..][i - 1];
        } else {
          GetAppend(rest, [], keys[0]);
          assert rest + [] == rest;
        }
      }
    }
  }

  lemma KnownAreDistinct(s: State)
    ensures Distinct(KnownOf(s)) && forall key :: key in Keys(KnownOf(s)) ==> key in KNOWN
    ensures Keys(KnownOf(s)) !! INHERITED
  {
    KnownDiffer();
    KnownAreOwn();
    SlotsHold(KNOWN, FieldsOf(s));
  }

  /** What tells an inherited name from a known field. */
  predicate BeginsAsInherited(key: string) {
    |key| > 1 && key[0] != 'd' && key[0] != 'r' && (key[0] == 't' ==> key[1] == 'o')
  }

  lemma InheritedBegin(key: string)
    requires key in INHERITED
    ensures BeginsAsInherited(key)
  {
  }

  lemma KnownBegin(i: nat)
    requires i < 6
    ensures !BeginsAsInherited(KNOWN[i])
  {
  }

  lemma KnownAreOwn()
    ensures forall key :: key in KNOWN ==> key !in INHERITED
  {
    forall key | key in KNOWN ensures key !in INHERITED {
      var i :| 0 <= i < |KNOWN| && KNOWN[i] == key;
      KnownBegin(i);
      if key in INHERITED {
        InheritedBegin(key);
      }
    }
  }

  lemma KnownDiffer()
    ensures forall i, j :: 0 <= i < j < |KNOWN| ==> KNOWN[i] != KNOWN[j]
  {
    forall i, j | 0 <= i < j < |KNOWN| ensures KNOWN[i] != KNOWN[j] {
      assert |KNOWN[i]| != |KNOWN[j]| || KNOWN[i][0] != KNOWN[j][0] || KNOWN[i][1] != KNOWN[j][1];
    }
  }

  lemma {:induction false} TagsReadBack(c: Codec, tags: seq<string>)
    ensures Strings(c, Texts(tags)) == tags && (tags != [] ==> Texts(tags) != [])
  {
    if tags != [] {
      TagsReadBack(c, tags[1..]);
    }
  }

  lemma {:induction false} UnknownAppend(c: Codec, a: Frontmatter, b: Frontmatter)
    ensures Unknown(c, a + b) == Unknown(c, a) + Unknown(c, b)
  {
    if a == [] {
      assert a + b == b;
    } else {
      UnknownAppend(c, a[1..], b);
      assert (a + b)[1..] == a[1..] + b;
    }
  }

  lemma {:induction false} KnownIsNotUnknown(c: Codec, fm: Frontmatter)
    requires forall key :: key in Keys(fm) ==> key in KNOWN
    ensures Unknown(c, fm) == []
  {
    if fm != [] {
      assert fm[0].key in Keys(fm);
      KnownIsNotUnknown(c, fm[1..]);
    }
  }

  /** Parsing and serializing again leaves the keys, and the texts just when they are stable. */
  lemma {:induction false} UnknownOfParsed(c: Codec, extra: seq<Entry<string>>)
    requires AllParse(c, extra) && NoneKnown(extra)
    ensures var again := Unknown(c, Parsed(c, extra));
      && |again| == |extra| && (forall i :: 0 <= i < |extra| ==> again[i].key == extra[i].key)
      && (again == extra <==> Stable(c, extra))
  {
    if extra != [] {
      var rest, e := Unknown(c, Parsed(c, extra[1..])), Parsed(c, extra)[0];
      UnknownOfParsed(c, extra[1..]);
      assert e.key in Keys(extra);
      assert Unknown(c, Parsed(c, extra)) == [Entry(e.key, c.serialize(e.value))] + rest;
      assert extra == [extra[0]] + extra[1..];
    }
  }

  /** The states export and import give back. */
  ghost predicate Normal(c: Codec, s: State) {
    && s.kind != "" && Sorting.Sorted(ByKey(c), s.extra)
    && Distinct(s.extra) && NoneKnown(s.extra) && Keys(s.extra) !! INHERITED && Stable(c, s.extra)
  }

  ghost predicate RoundTrips(c: Codec, s: State) {
    var fm := Exported(c, s);
    fm.Some? && HasType(fm.value) && Imported(c, fm.value) == s
  }

  lemma {:induction false} StableParses(c: Codec, extra: seq<Entry<string>>)
    requires Stable(c, extra)
    ensures AllParse(c, extra)
  {
    if extra != [] {
      StableParses(c, extra[1..]);
    }
  }

  /** A state whose extras are sorted, distinct and unknown exports to its known fields and then its extras. */
  lemma ExportOf(c: Codec, s: State)
    requires Sorting.Sorted(ByKey(c), s.extra) && Distinct(s.extra) && NoneKnown(s.extra)
    requires Keys(s.extra) !! INHERITED
    ensures Exported(c, s) == if AllParse(c, s.extra) then Some(KnownOf(s) + Parsed(c, s.extra)) else None
  {
    KnownAreDistinct(s);
    Sorting.SortOfSorted(ByKey(c), s.extra);
    EmitAll(c, KnownOf(s), s.extra);
  }

  /** What import reads of such an export: the extras once more, sorted as they were. */
  lemma ExtraReadBack(c: Codec, s: State)
    requires Sorting.Sorted(ByKey(c), s.extra) && NoneKnown(s.extra) && AllParse(c, s.extra)
    ensures Imported(c, KnownOf(s) + Parsed(c, s.extra)).extra == s.extra <==> Stable(c, s.extra)
  {
    var again := Unknown(c, Parsed(c, s.extra));
    KnownAreDistinct(s);
    UnknownAppend(c, KnownOf(s), Parsed(c, s.extra));
    KnownIsNotUnknown(c, KnownOf(s));
    UnknownOfParsed(c, s.extra);
    assert Unknown(c, KnownOf(s) + Parsed(c, s.extra)) == again;
    forall i, j | 0 <= i < j < |again| ensures ByKey<string>(c)(again[i], again[j]) {
      assert ByKey<string>(c)(s.extra[i], s.extra[j]);
    }
    Sorting.SortOfSorted(ByKey(c), again);
  }

  lemma KnownReadBack(c: Codec, s: State, tail: Frontmatter)
    requires NoneKnown(tail)
    ensures var fm := KnownOf(s) + tail;
      && Get(fm, "type") == Some(Text(s.kind))
      && StringOrNull(c, Get(fm, "title")) == s.title && StringOrNull(c, Get(fm, "description")) == s.description
      && StringOrNull(c, Get(fm, "resource")) == s.resource && TagsOf(c, Get(fm, "tags")) == s.tags
      && StringOrNull(c, Get(fm, "timestamp")) == s.timestamp
  {
    var fm, f := KnownOf(s) + tail, FieldsOf(s);
    KnownDiffer();
    SlotsHold(KNOWN, f);
    forall i | 0 <= i < 6 ensures Get(fm, KNOWN[i]) == f[i] {
      GetAppend(KnownOf(s), tail, KNOWN[i]);
      GetAppend(tail, [], KNOWN[i]);
      assert tail + [] == tail;
    }
    assert Get(fm, KNOWN[0]) == f[0] && Get(fm, KNOWN[1]) == f[1] && Get(fm, KNOWN[2]) == f[2];
    assert Get(fm, KNOWN[3]) == f[3] && Get(fm, KNOWN[4]) == f[4] && Get(fm, KNOWN[5]) == f[5];
    TagsReadBack(c, s.tags);
  }

  /** What import makes of any frontmatter but for stable texts: a type, and extras sorted, distinct and unknown. */
  lemma ImportedShape(c: Codec, fm: Frontmatter)
    requires Sorting.TotalPreorder(c.keyLe) && Distinct(fm)
    ensures var s := Imported(c, fm);
      && s.kind != "" && Sorting.Sorted(ByKey(c), s.extra) && Distinct(s.extra) && NoneKnown(s.extra)
      && (forall key :: key in Keys(s.extra) <==> key in Keys(fm) && key !in KNOWN)
  {
    var le, extra := ByKey<string>(c), Unknown(c, fm);
    UnknownKeys(c, fm);
    SortKeepsKeys(le, extra);
    ByKeyOrders(c);
    Sorting.SortSorts(le, extra);
  }

  lemma ByKeyOrders(c: Codec)
    requires Sorting.TotalPreorder(c.keyLe)
    ensures Sorting.TotalPreorder(ByKey<string>(c))
  {
    var le := ByKey<string>(c);
    forall x, y ensures le(x, y) || le(y, x) {
      assert c.keyLe(x.key, y.key) || c.keyLe(y.key, x.key);
    }
    forall x, y, z | le(x, y) && le(y, z) ensures le(x, z) {
      assert c.keyLe(x.key, y.key) && c.keyLe(y.key, z.key);
    }
  }

  lemma NormalRoundTrips(c: Codec, s: State)
    requires Normal(c, s)
    ensures RoundTrips(c, s)
  {
    StableParses(c, s.extra);
    ExportOf(c, s);
    ExtraReadBack(c, s);
    ParsedKeys(c, s.extra);
    KnownReadBack(c, s, Parsed(c, s.extra));
  }

  /** Exporting a state and importing it again gives it back without a warning exactly when it is normal. */
  lemma RoundTrip(c: Codec, s: State)
    requires Sorting.TotalPreorder(c.keyLe)
    ensures RoundTrips(c, s) <==> Normal(c, s)
  {
    if Normal(c, s) {
      NormalRoundTrips(c, s);
    }
    if RoundTrips(c, s) {
      var fm := Exported(c, s).value;
      KnownAreDistinct(s);
      EmitDistinct(c, KnownOf(s), Sorting.Sort(ByKey(c), s.extra));
      ImportedShape(c, fm);
      ExportOf(c, s);
      ExtraReadBack(c, s);
    }
  }

  /** What the YAML library gives: every value it writes it reads, and writing what was read gives the same text. */
  ghost predicate Rewrites(c: Codec) {
    forall v :: c.parse(c.serialize(v)).Some? && c.serialize(c.parse(c.serialize(v)).value) == c.serialize(v)
  }

  /** An entry list of which each text was written by the serializer. */
  ghost predicate Written(c: Codec, extra: seq<Entry<string>>) {
    forall e :: e in extra ==> exists v :: e.value == c.serialize(v)
  }

  lemma {:induction false} WrittenIsStable(c: Codec, extra: seq<Entry<string>>)
    requires Rewrites(c) && Written(c, extra)
    ensures Stable(c, extra)
  {
    if extra != [] {
      assert extra[0] in extra;
      var v :| extra[0].value == c.serialize(v);
      WrittenIsStable(c, extra[1..]);
    }
  }

  lemma {:induction false} UnknownIsWritten(c: Codec, fm: Frontmatter)
    ensures Written(c, Unknown(c, fm))
  {
    if fm != [] {
      UnknownIsWritten(c, fm[1..]);
    }
  }

  /** What an import gives is normal unless the frontmatter holds an inherited name. */
  lemma ImportedIsNormal(c: Codec, fm: Frontmatter)
    requires Sorting.TotalPreorder(c.keyLe) && Distinct(fm) && Rewrites(c)
    ensures Normal(c, Imported(c, fm)) <==> Keys(fm) !! INHERITED
    ensures Stable(c, Imported(c, fm).extra)
  {
    ImportedShape(c, fm);
    KnownAreOwn();
    UnknownIsWritten(c, fm);
    var extra := Unknown(c, fm);
    Sorting.SortPermutes(ByKey(c), extra);
    forall e | e in Sorting.Sort(ByKey(c), extra) ensures exists v :: e.value == c.serialize(v) {
      assert e in multiset(Sorting.Sort(ByKey(c), extra));
      assert e in extra;
    }
    WrittenIsStable(c, Sorting.Sort(ByKey(c), extra));
    var keys := Keys(Imported(c, fm).extra);
    if key :| key in Keys(fm) && key in INHERITED {
      assert key in keys;
    }
  }

  /**
   Exporting an imported concept and importing it again changes nothing exactly
   when no key of its frontmatter is a name every object inherits.
   */
  lemma SecondPassChangesNothing(c: Codec, fm: Frontmatter)
    requires Sorting.TotalPreorder(c.keyLe) && Distinct(fm) && Rewrites(c)
    ensures RoundTrips(c, Imported(c, fm)) <==> Keys(fm) !! INHERITED
  {
    ImportedIsNormal(c, fm);
    RoundTrip(c, Imported(c, fm));
  }

  lemma {:induction false} EmitsWhatParses(c: Codec, out: Frontmatter, extra: seq<Entry<string>>)
    requires AllParse(c, extra)
    ensures Emit(c, out, extra).Some?
    decreases |extra|
  {
    if extra != [] {
      EmitsWhatParses(c, if IsIn(extra[0].key, out) then out
                         else out + [Entry(extra[0].key, c.parse(extra[0].value).value)], extra[1..]);
    }
  }

  lemma ExportOfImport(c: Codec, fm: Frontmatter)
    requires Sorting.TotalPreorder(c.keyLe) && Distinct(fm) && Rewrites(c)
    ensures Exported(c, Imported(c, fm)).Some?
    ensures Imported(c, fm).extra == Sorting.Sort(ByKey(c), Imported(c, fm).extra)
  {
    var s := Imported(c, fm);
    ImportedShape(c, fm);
    ImportedIsNormal(c, fm);
    StableParses(c, s.extra);
    Sorting.SortOfSorted(ByKey(c), s.extra);
    EmitsWhatParses(c, KnownOf(s), s.extra);
  }

  /** Whatever was imported, its export holds no inherited name, so from then on nothing changes any more. */
  lemma SettlesAfterOneExport(c: Codec, fm: Frontmatter)
    requires Sorting.TotalPreorder(c.keyLe) && Distinct(fm) && Rewrites(c)
    ensures Exported(c, Imported(c, fm)).Some? && RoundTrips(c, Imported(c, Exported(c, Imported(c, fm)).value))
  {
    var s := Imported(c, fm);
    ExportOfImport(c, fm);
    KnownAreDistinct(s);
    EmitDistinct(c, KnownOf(s), s.extra);
    SecondPassChangesNothing(c, Exported(c, s).value);
  }

  lemma {:induction false} UnknownGet(c: Codec, fm: Frontmatter, key: string)
    requires key !in KNOWN
    ensures Get(Unknown(c, fm), key)
         == if Get(fm, key).Some? then Some(c.serialize(Get(fm, key).value)) else None
  {
    if fm != [] {
      UnknownGet(c, fm[1..], key);
      var rest := Unknown(c, fm[1..]);
      assert fm[0].key !in KNOWN ==> Unknown(c, fm)[1..] == rest;
      assert fm[0].key in KNOWN ==> Unknown(c, fm) == rest;
    }
  }

  /**
   What becomes of an unknown key by import and export: it keeps the value its text
   parses to, unless it is a name every object inherits, and then it is lost.
   */
  lemma UnknownKeysSurvive(c: Codec, fm: Frontmatter, key: string)
    requires Sorting.TotalPreorder(c.keyLe) && Distinct(fm) && Rewrites(c)
    requires key !in KNOWN && key in Keys(fm)
    ensures var out := Exported(c, Imported(c, fm));
      && out.Some? && Get(fm, key).Some?
      && Get(out.value, key) == if key in INHERITED then None else c.parse(c.serialize(Get(fm, key).value))
  {
    var s := Imported(c, fm);
    ExportOfImport(c, fm);
    KnownAreDistinct(s);
    GetIsKey(fm, key);
    UnknownGet(c, fm, key);
    SortKeepsFirst(c, Unknown(c, fm), key);
    EmitGet(c, KnownOf(s), s.extra, key);
  }

  /** It happens: a frontmatter whose one key is `toString` exports without it. */
  lemma InheritedNameIsLost(c: Codec, v: Value)
    requires Sorting.TotalPreorder(c.keyLe) && Rewrites(c)
    ensures var out := Exported(c, Imported(c, [Entry("toString", v)]));
      out.Some? && Get(out.value, "toString") == None
  {
    var fm := [Entry("toString", v)];
    KnownAreOwn();
    assert "toString" in INHERITED;
    UnknownKeysSurvive(c, fm, "toString");
  }

  /** What an export holds under a key: what was set before the extras, or what the first of that name parses to. */
  lemma {:induction false} EmitGet(c: Codec, out: Frontmatter, extra: seq<Entry<string>>, key: string)
    requires Emit(c, out, extra).Some?
    ensures Get(Emit(c, out, extra).value, key)
         == if key in Keys(out) then Get(out, key)
            else if key !in INHERITED && Get(extra, key).Some? then c.parse(Get(extra, key).value) else None
    decreases |extra|
  {
    GetIsKey(out, key);
    if extra != [] {
      if IsIn(extra[0].key, out) {
        EmitGet(c, out, extra[1..], key);
      } else {
        var e := Entry(extra[0].key, c.parse(extra[0].value).value);
        KeysAppend(out, [e]);
        GetAppend(out, [e], key);
        EmitGet(c, out + [e], extra[1..], key);
      }
    }
  }

  lemma {:induction false} InsertKeepsFirst(c: Codec, x: Entry<string>, xs: seq<Entry<string>>, key: string)
    requires Sorting.TotalPreorder(c.keyLe)
    ensures Get(Sorting.Insert(ByKey(c), x, xs), key) == if x.key == key then Some(x.value) else Get(xs, key)
  {
    assert c.keyLe(x.key, x.key);
    assert ([x] + xs)[1..] == xs;
    if xs != [] && !ByKey<string>(c)(x, xs[0]) {
      InsertKeepsFirst(c, x, xs[1..], key);
      var rest := Sorting.Insert(ByKey(c), x, xs[1..]);
      assert ([xs[0]] + rest)[1..] == rest;
    }
  }

  /** The sort is stable, so of extras with one name the first stays the first. */
  lemma {:induction false} SortKeepsFirst(c: Codec, xs: seq<Entry<string>>, key: string)
    requires Sorting.TotalPreorder(c.keyLe)
    ensures Get(Sorting.Sort(ByKey(c), xs), key) == Get(xs, key)
  {
    if xs != [] {
      SortKeepsFirst(c, xs[1..], key);
      InsertKeepsFirst(c, xs[0], Sorting.Sort(ByKey(c), xs[1..]), key);
    }
  }

  /**
   A known field that holds something is exported as it is, past any extra of its
   name; one that holds nothing is written with what the first extra of its name
   parses to, and is absent only when there is none.
   */
  lemma TypedFieldWins(c: Codec, s: State, i: nat)
    requires Sorting.TotalPreorder(c.keyLe) && Exported(c, s).Some? && i < 6
    ensures Get(Exported(c, s).value, KNOWN[i])
         == if FieldsOf(s)[i].Some? then FieldsOf(s)[i]
            else if Get(s.extra, KNOWN[i]).Some? then c.parse(Get(s.extra, KNOWN[i]).value) else None
  {
    KnownDiffer();
    SlotsHold(KNOWN, FieldsOf(s));
    GetIsKey(KnownOf(s), KNOWN[i]);
    SortKeepsFirst(c, s.extra, KNOWN[i]);
    KnownAreOwn();
    assert KNOWN[i] !in INHERITED;
    EmitGet(c, KnownOf(s), Sorting.Sort(ByKey(c), s.extra), KNOWN[i]);
  }

  // ----- Field by field -----

  /** A text field read from `v`: nothing is nothing, a text itself, anything else as it is shown. */
  ghost predicate ReadsAs(c: Codec, v: Option<Value>, field: Option<string>) {
    && (v == None || v == Some(Nil) ==> field == None)
    && (v.Some? && v.value.Text? ==> field == Some(v.value.text))
    && (v.Some? && !v.value.Text? && v.value != Nil ==> field == Some(c.show(v.value)))
  }

  ghost predicate TagsReadAs(c: Codec, v: Option<Value>, tags: seq<string>) {
    && (v.Some? && v.value.List? ==>
          && |tags| == |v.value.items|
          && forall i :: 0 <= i < |tags| ==> ReadsTag(c, v.value.items[i], tags[i]))
    && (v.None? || !v.value.List? ==> tags == [])
  }

  ghost predicate ReadsTag(c: Codec, item: Value, tag: string) {
    tag == if item.Text? then item.text else c.show(item)
  }

  lemma {:induction false} StringsAre(c: Codec, items: seq<Value>)
    ensures |Strings(c, items)| == |items|
    ensures forall i :: 0 <= i < |items| ==> ReadsTag(c, items[i], Strings(c, items)[i])
  {
    if items != [] {
      StringsAre(c, items[1..]);
    }
  }

  /** What import reads into each field, and which keys it keeps: every other one, once, by name, serialized. */
  lemma ImportReads(c: Codec, fm: Frontmatter)
    requires Sorting.TotalPreorder(c.keyLe) && Distinct(fm)
    ensures var s := Imported(c, fm);
      && (NamesType(fm, s.kind) || (s.kind == "concept" && !exists kind :: NamesType(fm, kind)))
      && ReadsAs(c, Get(fm, "title"), s.title) && ReadsAs(c, Get(fm, "description"), s.description)
      && ReadsAs(c, Get(fm, "resource"), s.resource) && ReadsAs(c, Get(fm, "timestamp"), s.timestamp)
      && TagsReadAs(c, Get(fm, "tags"), s.tags)
      && Distinct(s.extra) && (forall i, j :: 0 <= i < j < |s.extra| ==> c.keyLe(s.extra[i].key, s.extra[j].key))
    ensures forall key :: key !in ["type", "title", "description", "resource", "tags", "timestamp"] ==>
      Get(Imported(c, fm).extra, key) == if Get(fm, key).Some? then Some(c.serialize(Get(fm, key).value)) else None
    ensures forall key :: key in ["type", "title", "description", "resource", "tags", "timestamp"] ==>
      Get(Imported(c, fm).extra, key) == None
  {
    var s := Imported(c, fm);
    ImportedShape(c, fm);
    if !HasType(fm) {
      forall kind ensures !NamesType(fm, kind) {
      }
    }
    var tags := Get(fm, "tags");
    if tags.Some? && tags.value.List? {
      StringsAre(c, tags.value.items);
    }
    forall i, j | 0 <= i < j < |s.extra| ensures c.keyLe(s.extra[i].key, s.extra[j].key) {
      assert ByKey<string>(c)(s.extra[i], s.extra[j]);
    }
    forall key ensures key !in KNOWN ==>
      Get(s.extra, key) == if Get(fm, key).Some? then Some(c.serialize(Get(fm, key).value)) else None {
      SortKeepsFirst(c, Unknown(c, fm), key);
      if key !in KNOWN {
        UnknownGet(c, fm, key);
      }
    }
    forall key | key in KNOWN ensures Get(s.extra, key) == None {
      ExtraIsKey(s.extra, key);
    }
  }

  lemma {:induction false} ExtraIsKey(extra: seq<Entry<string>>, key: string)
    ensures Get(extra, key).Some? <==> key in Keys(extra)
  {
    if extra != [] {
      ExtraIsKey(extra[1..], key);
    }
  }

  /** A text field is written as its text; an empty one with what the first extra of its name parses to. */
  ghost predicate WrittenAs(c: Codec, s: State, key: string, field: Option<string>, v: Option<Value>) {
    && (field.Some? ==> v == Some(Text(field.value)))
    && (field.None? && Get(s.extra, key).Some? ==> v == c.parse(Get(s.extra, key).value))
    && (field.None? && Get(s.extra, key).None? ==> v == None)
  }

  ghost predicate TagsWrittenAs(c: Codec, s: State, v: Option<Value>) {
    && (s.tags != [] ==>
          && v.Some? && v.value.List? && |v.value.items| == |s.tags|
          && forall i :: 0 <= i < |s.tags| ==> v.value.items[i] == Text(s.tags[i]))
    && (s.tags == [] && Get(s.extra, "tags").Some? ==> v == c.parse(Get(s.extra, "tags").value))
    && (s.tags == [] && Get(s.extra, "tags").None? ==> v == None)
  }

  lemma {:induction false} TextsAre(tags: seq<string>)
    ensures |Texts(tags)| == |tags| && forall i :: 0 <= i < |tags| ==> Texts(tags)[i] == Text(tags[i])
  {
    if tags != [] {
      TextsAre(tags[1..]);
    }
  }

  /** What export writes for each known field. */
  lemma ExportWrites(c: Codec, s: State)
    requires Sorting.TotalPreorder(c.keyLe) && Exported(c, s).Some?
    ensures var out := Exported(c, s).value;
      && Get(out, "type") == Some(Text(s.kind))
      && WrittenAs(c, s, "title", s.title, Get(out, "title"))
      && WrittenAs(c, s, "description", s.description, Get(out, "description"))
      && WrittenAs(c, s, "resource", s.resource, Get(out, "resource"))
      && TagsWrittenAs(c, s, Get(out, "tags"))
      && WrittenAs(c, s, "timestamp", s.timestamp, Get(out, "timestamp"))
  {
    TextsAre(s.tags);
    for i := 0 to 6
      invariant forall j :: 0 <= j < i ==> WritesField(c, s, j)
    {
      TypedFieldWins(c, s, i);
    }
    assert WritesField(c, s, 0) && WritesField(c, s, 1) && WritesField(c, s, 2);
    assert WritesField(c, s, 3) && WritesField(c, s, 4) && WritesField(c, s, 5);
  }

  ghost predicate WritesField(c: Codec, s: State, i: nat)
    requires Exported(c, s).Some? && i < 6
  {
    Get(Exported(c, s).value, KNOWN[i])
      == if FieldsOf(s)[i].Some? then FieldsOf(s)[i]
         else if Get(s.extra, KNOWN[i]).Some? then c.parse(Get(s.extra, KNOWN[i]).value) else None
  }

  /** The place of a known field in an export. */
  function Rank(key: string): nat {
    if key == "type" then 0 else if key == "title" then 1 else if key == "description" then 2
    else if key == "resource" then 3 else if key == "tags" then 4 else if key == "timestamp" then 5 else 6
  }

  /** The first `n` entries are known fields in their fixed order, and the rest stands by name. */
  ghost predicate InOrder(c: Codec, out: Frontmatter, n: nat) {
    && n <= |out|
    && (forall i :: 0 <= i < n ==> Rank(out[i].key) < 6)
    && (forall i, j :: 0 <= i < j < n ==> Rank(out[i].key) < Rank(out[j].key))
    && (forall i, j :: n <= i < j < |out| ==> c.keyLe(out[i].key, out[j].key))
  }

  lemma RankOf(n: nat)
    requires n < 6
    ensures Rank(KNOWN[n]) == n
  {
    KnownDiffer();
    assert KNOWN[0] == "type" && KNOWN[1] == "title" && KNOWN[2] == "description";
    assert KNOWN[3] == "resource" && KNOWN[4] == "tags" && KNOWN[5] == "timestamp";
  }

  lemma {:induction false} KnownInOrder(s: State, n: nat)
    requires n <= 6
    ensures var out := KnownUpTo(s, n);
      && (forall i :: 0 <= i < |out| ==> Rank(out[i].key) < n)
      && (forall i, j :: 0 <= i < j < |out| ==> Rank(out[i].key) < Rank(out[j].key))
  {
    if n == 0 {
      assert KNOWN[..0] == [];
    } else {
      KnownInOrder(s, n - 1);
      KnownGrows(s, n - 1);
      RankOf(n - 1);
    }
  }

  /** Extras sorted by name are emitted in that order behind what is there. */
  lemma {:induction false} EmitInOrder(c: Codec, out: Frontmatter, extra: seq<Entry<string>>, n: nat)
    requires Emit(c, out, extra).Some? && InOrder(c, out, n) && Sorting.Sorted(ByKey(c), extra)
    requires forall i, e :: n <= i < |out| && e in extra ==> c.keyLe(out[i].key, e.key)
    ensures InOrder(c, Emit(c, out, extra).value, n)
    decreases |extra|
  {
    if extra != [] {
      assert extra[0] in extra && forall e :: e in extra[1..] ==> e in extra;
      forall e | e in extra[1..] ensures c.keyLe(extra[0].key, e.key) {
        var k :| 0 <= k < |extra[1..]| && extra[1..][k] == e;
        assert ByKey<string>(c)(extra[0], extra[k + 1]);
      }
      if IsIn(extra[0].key, out) {
        EmitInOrder(c, out, extra[1..], n);
      } else {
        EmitInOrder(c, out + [Entry(extra[0].key, c.parse(extra[0].value).value)], extra[1..], n);
      }
    }
  }

  /** Entries are set in a fixed order: the known fields that hold something, `type` first, then the rest by name. */
  lemma ExportsInOrder(c: Codec, s: State) returns (n: nat)
    requires Sorting.TotalPreorder(c.keyLe) && Exported(c, s).Some?
    ensures 0 < n && InOrder(c, Exported(c, s).value, n) && Exported(c, s).value[0] == Entry("type", Text(s.kind))
    ensures n == 1 + (if s.title.Some? then 1 else 0) + (if s.description.Some? then 1 else 0)
                 + (if s.resource.Some? then 1 else 0) + (if s.tags != [] then 1 else 0)
                 + (if s.timestamp.Some? then 1 else 0)
    ensures Distinct(Exported(c, s).value)
  {
    var extra := Sorting.Sort(ByKey(c), s.extra);
    n := |KnownOf(s)|;
    KnownCount(s);
    KnownInOrder(s, 6);
    KnownEnds(s);
    KnownAreDistinct(s);
    ByKeyOrders(c);
    Sorting.SortSorts(ByKey(c), s.extra);
    EmitInOrder(c, KnownOf(s), extra, n);
    EmitDistinct(c, KnownOf(s), extra);
  }

  lemma KnownCount(s: State)
    ensures |KnownOf(s)| == 1 + (if s.title.Some? then 1 else 0) + (if s.description.Some? then 1 else 0)
                          + (if s.resource.Some? then 1 else 0) + (if s.tags != [] then 1 else 0)
                          + (if s.timestamp.Some? then 1 else 0)
    ensures KnownOf(s)[0] == Entry("type", Text(s.kind))
  {
    KnownEnds(s);
    for i := 1 to 6
      invariant |KnownUpTo(s, i)| == 1 + (if i > 1 && s.title.Some? then 1 else 0)
                                    + (if i > 2 && s.description.Some? then 1 else 0)
                                    + (if i > 3 && s.resource.Some? then 1 else 0)
                                    + (if i > 4 && s.tags != [] then 1 else 0)
                                    + (if i > 5 && s.timestamp.Some? then 1 else 0)
      invariant KnownUpTo(s, i)[0] == Entry("type", Text(s.kind))
    {
      KnownGrows(s, i);
    }
  }

  /** It happens: an extra named `title` beside an empty title is written as the title, and does not come back. */
  lemma ExtraTakesTheTitle(c: Codec, v: Value)
    requires Sorting.TotalPreorder(c.keyLe) && c.parse("t") == Some(v)
    ensures var s := State("note", None, None, None, [], None, [Entry("title", "t")]);
      && Exported(c, s).Some? && Get(Exported(c, s).value, "title") == Some(v)
      && !RoundTrips(c, s)
  {
    var s := State("note", None, None, None, [], None, [Entry("title", "t")]);
    Sorting.SortOfSorted(ByKey(c), s.extra);
    EmitsWhatParses(c, KnownOf(s), s.extra);
    ExportWrites(c, s);
    RoundTrip(c, s);
    assert "title" in KNOWN by {
      assert KNOWN[1] == "title";
    }
  }

  lemma {:induction false} GetIsKey(fm: Frontmatter, key: string)
    ensures Get(fm, key).Some? <==> key in Keys(fm)
  {
    if fm != [] {
      GetIsKey(fm[1..], key);
    }
  }
}
