/**
 Scheduler ids made of a storage cell and a key, both of which may hold `:`,
 and the index that keeps one scheduler per cell and key.
 */
module ScheduleIndex {
  import opened Wrappers

  // ----- Unescaped colons -----

  /** A `:` that no `\` before it escapes. */
  predicate HasUnescapedColon(s: string) {
    if s == [] then false
    else if s[0] == '\\' then |s| > 1 && HasUnescapedColon(s[2..])
    else s[0] == ':' || HasUnescapedColon(s[1..])
  }

  /** The text ends in a `\` that has nothing to escape. */
  predicate Dangling(s: string) {
    if s == [] then false
    else if s[0] == '\\' then |s| == 1 || Dangling(s[2..])
    else Dangling(s[1..])
  }

  /** How many `\` stand directly before position `i`. */
  function Backslashes(s: string, i: nat): nat
    requires i <= |s|
  {
    if i == 0 || s[i - 1] != '\\' then 0 else 1 + Backslashes(s, i - 1)
  }

  /** An even run of `\` before a `:` escapes itself and leaves the `:` as it is. */
  predicate UnescapedAt(s: string, i: nat)
    requires i < |s|
  {
    s[i] == ':' && Backslashes(s, i) % 2 == 0
  }

  lemma {:induction false} BackslashesPast(s: string, n: nat, i: nat)
    requires s != [] && n == (if s[0] == '\\' then 2 else 1) && n <= i <= |s|
    ensures Backslashes(s, i) % 2 == Backslashes(s[n..], i - n) % 2
    decreases i
  {
    if i > n {
      BackslashesPast(s, n, i - 1);
      assert s[n..][i - n - 1] == s[i - 1];
    } else if n == 2 {
      assert Backslashes(s, 1) == 1;
    }
  }

  /** Both recursive readings count backslashes: one before each `:`, the other at the end. */
  lemma {:induction false} EscapesByParity(s: string)
    ensures HasUnescapedColon(s) <==> exists i :: 0 <= i < |s| && UnescapedAt(s, i)
    ensures Dangling(s) <==> Backslashes(s, |s|) % 2 == 1
  {
    if s != [] && s != ['\\'] {
      var n := if s[0] == '\\' then 2 else 1;
      EscapesByParity(s[n..]);
      BackslashesPast(s, n, |s|);
      forall i | n <= i < |s| ensures UnescapedAt(s, i) <==> UnescapedAt(s[n..], i - n) {
        BackslashesPast(s, n, i);
      }
      if HasUnescapedColon(s[n..]) {
        var i :| 0 <= i < |s[n..]| && UnescapedAt(s[n..], i);
        assert UnescapedAt(s, i + n);
      }
      assert s[0] == ':' ==> UnescapedAt(s, 0);
      if i :| 0 <= i < |s| && UnescapedAt(s, i) {
        assert i >= n ==> UnescapedAt(s[n..], i - n);
        assert n == 2 && i == 1 ==> Backslashes(s, 1) == 1;
      }
    }
  }

  method FindUnescapedColon(cell: string) returns (found: bool)
    ensures found <==> exists i :: 0 <= i < |cell| && UnescapedAt(cell, i)
  {
    EscapesByParity(cell);
    var i := 0;
    while i < |cell|
      invariant 0 <= i <= |cell| + 1
      invariant HasUnescapedColon(cell) == (i <= |cell| && HasUnescapedColon(cell[i..]))
    {
      assert cell[i..][1..] == cell[i + 1..] && (i + 2 <= |cell| ==> cell[i..][2..] == cell[i + 2..]);
      if cell[i] == '\\' {
        i := i + 1;
      } else if cell[i] == ':' {
        return true;
      }
      i := i + 1;
    }
    found := false;
  }

  /** `key` with each `\` and `:` behind a `\` of its own. */
  function EscapeKey(key: string): string {
    if key == [] then []
    else (if key[0] == '\\' || key[0] == ':' then ['\\', key[0]] else [key[0]]) + EscapeKey(key[1..])
  }

  /** No character but `\` and `:` gets a `\`, and each of those gets one. */
  lemma {:induction false} EscapesOnlyTheTwo(key: string)
    ensures |EscapeKey(key)| == |key| + multiset(key)['\\'] + multiset(key)[':']
  {
    if key != [] {
      EscapesOnlyTheTwo(key[1..]);
      assert key == [key[0]] + key[1..];
    }
  }

  function SchedulerId(prefix: string, cell: string, key: string): string {
    if !HasUnescapedColon(cell) then prefix + ([':'] + (cell + [':'] + key))
    else prefix + (['@'] + (cell + [':'] + EscapeKey(key)))
  }

  // ----- Reading an id back -----

  datatype Split = Split(before: string, after: string)

  function Behind(s: string, split: Option<Split>): Option<Split> {
    if split.Some? then Some(Split(s + split.value.before, split.value.after)) else None
  }

  function SplitFirst(s: string): Option<Split> {
    if s == [] then None
    else if s[0] == '\\' then if |s| == 1 then None else Behind(s[..2], SplitFirst(s[2..]))
    else if s[0] == ':' then Some(Split([], s[1..]))
    else Behind(s[..1], SplitFirst(s[1..]))
  }

  function SplitLast(s: string): Option<Split> {
    if s == [] then None
    else if s[0] == '\\' then if |s| == 1 then None else Behind(s[..2], SplitLast(s[2..]))
    else if s[0] == ':' && SplitLast(s[1..]) == None then Some(Split([], s[1..]))
    else Behind(s[..1], SplitLast(s[1..]))
  }

  function UnescapeKey(s: string): string {
    if s == [] then []
    else if s[0] == '\\' && |s| > 1 then [s[1]] + UnescapeKey(s[2..])
    else [s[0]] + UnescapeKey(s[1..])
  }

  /** The cell and key an id names: the sign after the prefix says which way it splits. */
  function ReadId(prefix: string, id: string): Option<(string, string)> {
    if |id| <= |prefix| then None
    else
      var rest := id[|prefix| + 1..];
      if id[|prefix|] == ':' then
        match SplitFirst(rest) case None => None case Some(s) => Some((s.before, s.after))
      else
        match SplitLast(rest) case None => None case Some(s) => Some((s.before, UnescapeKey(s.after)))
  }

  lemma {:induction false} EscapedKeyRoundTrip(key: string)
    ensures UnescapeKey(EscapeKey(key)) == key && !HasUnescapedColon(EscapeKey(key))
  {
    if key != [] {
      EscapedKeyRoundTrip(key[1..]);
      var s := EscapeKey(key);
      if key[0] == '\\' || key[0] == ':' {
        assert s[0] == '\\' && s[1] == key[0] && s[2..] == EscapeKey(key[1..]);
      } else {
        assert s[0] == key[0] && s[1..] == EscapeKey(key[1..]);
      }
    }
  }

  lemma {:induction false} FirstIsAfterCell(cell: string, key: string)
    requires !HasUnescapedColon(cell) && !Dangling(cell)
    ensures SplitFirst(cell + [':'] + key) == Some(Split(cell, key))
  {
    var s := cell + [':'] + key;
    if cell == [] {
      assert s[1..] == key;
    } else {
      var n := if cell[0] == '\\' then 2 else 1;
      FirstIsAfterCell(cell[n..], key);
      assert s[n..] == cell[n..] + [':'] + key;
      assert s[..n] + cell[n..] == cell;
    }
  }

  lemma {:induction false} NoColonNoLast(s: string)
    requires !HasUnescapedColon(s)
    ensures SplitLast(s) == None
  {
    if s != [] && !(s[0] == '\\' && |s| == 1) {
      NoColonNoLast(s[if s[0] == '\\' then 2 else 1..]);
    }
  }

  lemma {:induction false} LastIsAfterCell(cell: string, rest: string)
    requires !Dangling(cell) && !HasUnescapedColon(rest)
    ensures SplitLast(cell + [':'] + rest) == Some(Split(cell, rest))
  {
    var s := cell + [':'] + rest;
    if cell == [] {
      assert s[1..] == rest;
      NoColonNoLast(rest);
    } else {
      var n := if cell[0] == '\\' then 2 else 1;
      LastIsAfterCell(cell[n..], rest);
      assert s[n..] == cell[n..] + [':'] + rest;
      assert s[..n] + cell[n..] == cell;
    }
  }

  /** A cell read back never ends in an unfinished escape, because its `:` was not escaped. */
  lemma {:induction false} SplitsAreClosed(s: string)
    ensures SplitFirst(s).Some? ==> !Dangling(SplitFirst(s).value.before)
    ensures SplitLast(s).Some? ==> !Dangling(SplitLast(s).value.before)
  {
    if s != [] && !(s[0] == '\\' && |s| == 1) {
      var n := if s[0] == '\\' then 2 else 1;
      SplitsAreClosed(s[n..]);
      if SplitFirst(s[n..]).Some? {
        assert (s[..n] + SplitFirst(s[n..]).value.before)[n..] == SplitFirst(s[n..]).value.before;
      }
      if SplitLast(s[n..]).Some? {
        assert (s[..n] + SplitLast(s[n..]).value.before)[n..] == SplitLast(s[n..]).value.before;
      }
    }
  }

  /**
   An id names its cell and key exactly when the cell does not end in an
   unfinished escape. The two forms are told apart by the sign after the prefix.
   */
  lemma IdNamesItsRow(prefix: string, cell: string, key: string)
    ensures ReadId(prefix, SchedulerId(prefix, cell, key)) == Some((cell, key)) <==> !Dangling(cell)
  {
    var id := SchedulerId(prefix, cell, key);
    var multi := HasUnescapedColon(cell);
    var rest := cell + [':'] + (if multi then EscapeKey(key) else key);
    assert id[|prefix|] == (if multi then '@' else ':') && id[|prefix| + 1..] == rest;
    SplitsAreClosed(rest);
    if !Dangling(cell) {
      if multi {
        EscapedKeyRoundTrip(key);
        LastIsAfterCell(cell, EscapeKey(key));
      } else {
        FirstIsAfterCell(cell, key);
      }
    }
  }

  /** Two rows of cells without an unfinished escape share an id only if they are one row. */
  lemma IdsInjective(prefix: string, cell: string, key: string, cell': string, key': string)
    requires !Dangling(cell) && !Dangling(cell')
    ensures SchedulerId(prefix, cell, key) == SchedulerId(prefix, cell', key') <==> cell == cell' && key == key'
  {
    IdNamesItsRow(prefix, cell, key);
    IdNamesItsRow(prefix, cell', key');
  }

  lemma {:induction false} DanglingThenColon(cell: string)
    requires Dangling(cell)
    ensures HasUnescapedColon(cell + [':']) == HasUnescapedColon(cell)
    ensures HasUnescapedColon(cell) ==> HasUnescapedColon(cell + [':', '\\'])
  {
    if |cell| == 1 {
      assert (cell + [':'])[2..] == [];
    } else {
      var n := if cell[0] == '\\' then 2 else 1;
      assert cell != [];
      if !(cell[0] == ':') {
        DanglingThenColon(cell[n..]);
        assert (cell + [':'])[n..] == cell[n..] + [':'];
        assert (cell + [':', '\\'])[n..] == cell[n..] + [':', '\\'];
      }
    }
  }

  /** Every cell that does end in an unfinished escape has an id that is another row's too. */
  lemma DanglingCellsCollide(prefix: string, cell: string)
    requires Dangling(cell)
    ensures exists cell', key, key' ::
      cell' != cell && SchedulerId(prefix, cell, key) == SchedulerId(prefix, cell', key')
  {
    DanglingThenColon(cell);
    if HasUnescapedColon(cell) {
      var cell' := cell + [':', '\\'];
      assert EscapeKey([':']) == ['\\', ':'] && EscapeKey([]) == [];
      assert cell + [':'] + ['\\', ':'] == cell' + [':'] + [];
      assert SchedulerId(prefix, cell, [':']) == SchedulerId(prefix, cell', []);
    } else {
      var cell' := cell + [':'];
      assert cell + [':'] + [':'] == cell' + [':'] + [];
      assert SchedulerId(prefix, cell, [':']) == SchedulerId(prefix, cell', []);
    }
  }

  // ----- The index -----

  datatype Row = Row(cell: string, key: string, orgId: string, userId: string, cron: string, timezone: Option<string>)

  datatype Template = Template(
    pattern: string, tz: Option<string>,
    flowKind: string, orgId: string, userId: string, key: string, cron: string, timezone: Option<string>)

  /** What the queue is given for a row; an empty timezone is left out of the repeat options. */
  function TemplateOf(flowKind: string, row: Row): Template {
    Template(row.cron, if row.timezone == Some("") then None else row.timezone,
             flowKind, row.orgId, row.userId, row.key, row.cron, row.timezone)
  }

  /** A scheduler fires by the row's cron in its timezone, if that is not empty, and its job carries the row. */
  ghost predicate Carries(t: Template, flowKind: string, row: Row) {
    && t.pattern == row.cron
    && (row.timezone == None || row.timezone == Some("") ==> t.tz == None)
    && (row.timezone.Some? && row.timezone.value != "" ==> t.tz == row.timezone)
    && t.flowKind == flowKind && t.orgId == row.orgId && t.userId == row.userId
    && t.key == row.key && t.cron == row.cron && t.timezone == row.timezone
  }

  datatype Op = Upsert(row: Row) | Remove(cell: string, key: string)

  function CellOf(op: Op): string {
    if op.Upsert? then op.row.cell else op.cell
  }

  function Apply(prefix: string, flowKind: string, schedulers: map<string, Template>, op: Op): map<string, Template> {
    match op
    case Upsert(row) => schedulers[SchedulerId(prefix, row.cell, row.key) := TemplateOf(flowKind, row)]
    case Remove(cell, key) => schedulers - {SchedulerId(prefix, cell, key)}
  }

  function Schedulers(prefix: string, flowKind: string, ops: seq<Op>): map<string, Template> {
    if ops == [] then map[]
    else Apply(prefix, flowKind, Schedulers(prefix, flowKind, ops[..|ops| - 1]), ops[|ops| - 1])
  }

  /** The plain table the index stands for: one row per cell and key. */
  function Table(ops: seq<Op>): map<(string, string), Row> {
    if ops == [] then map[]
    else
      var rows := Table(ops[..|ops| - 1]);
      match ops[|ops| - 1]
      case Upsert(row) => rows[(row.cell, row.key) := row]
      case Remove(cell, key) => rows - {(cell, key)}
  }

  /**
   Over any run of upserts and removes on cells without an unfinished escape,
   the queue holds exactly one scheduler per row of the plain table, under that
   row's id and with its latest values, and a row's scheduler is never touched
   by another row's upsert or remove.
   */
  lemma {:induction false} IndexIsATable(prefix: string, flowKind: string, ops: seq<Op>, cell: string, key: string)
    requires forall op :: op in ops ==> !Dangling(CellOf(op))
    requires !Dangling(cell)
    ensures var schedulers, id := Schedulers(prefix, flowKind, ops), SchedulerId(prefix, cell, key);
      && (id in schedulers <==> (cell, key) in Table(ops))
      && (id in schedulers ==> Carries(schedulers[id], flowKind, Table(ops)[(cell, key)]))
  {
    if ops != [] {
      var op := ops[|ops| - 1];
      assert op in ops;
      IndexIsATable(prefix, flowKind, ops[..|ops| - 1], cell, key);
      IdsInjective(prefix, cell, key, CellOf(op), if op.Upsert? then op.row.key else op.key);
    }
  }

  lemma {:induction false} NoStrayScheduler(prefix: string, flowKind: string, ops: seq<Op>, id: string)
    requires forall op :: op in ops ==> !Dangling(CellOf(op))
    requires id in Schedulers(prefix, flowKind, ops)
    ensures exists cell, key :: (cell, key) in Table(ops) && !Dangling(cell) && id == SchedulerId(prefix, cell, key)
  {
    var op := ops[|ops| - 1];
    assert op in ops;
    if op.Upsert? && id == SchedulerId(prefix, op.row.cell, op.row.key) {
      assert (op.row.cell, op.row.key) in Table(ops);
    } else {
      NoStrayScheduler(prefix, flowKind, ops[..|ops| - 1], id);
      var cell, key :|
        (cell, key) in Table(ops[..|ops| - 1]) && !Dangling(cell) && id == SchedulerId(prefix, cell, key);
      assert (cell, key) in Table(ops);
    }
  }

  class BullmqScheduleIndex {
    /** The queue's job schedulers, by id. */
    var schedulers: map<string, Template>
    const prefix: string
    const flowKind: string

    constructor (prefix: Option<string>, flowKind: string)
      ensures schedulers == map[] && this.flowKind == flowKind
      ensures this.prefix == if prefix.Some? then prefix.value else "fsd-sched"
    {
      this.prefix := if prefix.Some? then prefix.value else "fsd-sched";
      this.flowKind, schedulers := flowKind, map[];
    }

    method IdOf(cell: string, key: string) returns (id: string)
      ensures id == SchedulerId(prefix, cell, key)
      ensures id == if exists i :: 0 <= i < |cell| && UnescapedAt(cell, i)
                    then prefix + "@" + cell + ":" + EscapeKey(key) else prefix + ":" + cell + ":" + key
    {
      EscapesByParity(cell);
      var multi := FindUnescapedColon(cell);
      if !multi {
        return prefix + ([':'] + (cell + [':'] + key));
      }
      id := prefix + (['@'] + (cell + [':'] + EscapeKey(key)));
    }

    method UpsertRow(row: Row)
      modifies this
      ensures schedulers == Apply(prefix, flowKind, old(schedulers), Upsert(row))
      ensures var id := SchedulerId(prefix, row.cell, row.key);
        id in schedulers && Carries(schedulers[id], flowKind, row) && schedulers - {id} == old(schedulers) - {id}
    {
      var id := IdOf(row.cell, row.key);
      var tz := if row.timezone == Some("") then None else row.timezone;
      var template := Template(row.cron, tz, flowKind, row.orgId, row.userId, row.key, row.cron, row.timezone);
      schedulers := schedulers[id := template];
    }

    method RemoveRow(cell: string, key: string)
      modifies this
      ensures schedulers == Apply(prefix, flowKind, old(schedulers), Remove(cell, key))
    {
      var id := IdOf(cell, key);
      schedulers := schedulers - {id};
    }
  }
}
