/**
  * The `spool_usage` counters (`apps/janjanode/src/store.ts`): triggers keep running totals of what the
  * `attachments` and `spool` tables hold, so that quotas are checked without summing the tables.
  *
  * An SQL statement with its triggers is one atomic step on two maps.
  */
module SpoolUsage {
  import opened Community

  datatype RowId = Attachment(asset: string) | Message(message: string)

  datatype Item = Item(owner: string, size: nat)

  datatype Scope = Global | Member(owner: string)

  type Rows = map<RowId, Item>
  type Usage = map<Scope, nat>

  // ---------------------------------------------------------------- the triggers

  /** `INSERT … VALUES (scope, size) ON CONFLICT DO UPDATE SET size_bytes = size_bytes + size` */
  function Raise(u: Usage, scope: Scope, size: nat): Usage {
    u[scope := if scope in u then u[scope] + size else size]
  }

  /** `MAX(0, a - b)` */
  function Clamped(a: nat, b: nat): nat {
    if a >= b then a - b else 0
  }

  /** `INSERT … VALUES (scope, 0) ON CONFLICT DO UPDATE SET size_bytes = MAX(0, size_bytes - size)` */
  function Lower(u: Usage, scope: Scope, size: nat): Usage {
    u[scope := if scope in u then Clamped(u[scope], size) else 0]
  }

  function OnInsert(u: Usage, item: Item): Usage {
    Raise(Raise(u, Global, item.size), Member(item.owner), item.size)
  }

  function OnDelete(u: Usage, item: Item): Usage {
    Lower(Lower(u, Global, item.size), Member(item.owner), item.size)
  }

  /** The update trigger writes the global row once and the member rows one after the other. */
  function OnUpdate(u: Usage, before: Item, after: Item): Usage {
    var globally := u[Global := if Global in u then Clamped(u[Global], before.size) + after.size else 0];
    Raise(Lower(globally, Member(before.owner), before.size), Member(after.owner), after.size)
  }

  // ---------------------------------------------------------------- real sums

  /** What the rows hold in all. */
  ghost function Sum(rows: Rows): nat {
    if rows == map[] then 0
    else
      var k :| k in rows;
      rows[k].size + Sum(rows - {k})
  }

  function Owned(rows: Rows, owner: string): Rows {
    map k | k in rows && rows[k].owner == owner :: rows[k]
  }

  ghost function Held(rows: Rows, scope: Scope): nat {
    match scope case Global => Sum(rows) case Member(owner) => Sum(Owned(rows, owner))
  }

  /** The sum does not depend on which row is taken first. */
  lemma {:induction false} SumWithout(rows: Rows, k: RowId)
    requires k in rows
    ensures Sum(rows) == rows[k].size + Sum(rows - {k})
    decreases |rows|
  {
    var j :| j in rows && Sum(rows) == rows[j].size + Sum(rows - {j});
    if j != k {
      SumWithout(rows - {j}, k);
      SumWithout(rows - {k}, j);
      assert (rows - {j}) - {k} == (rows - {k}) - {j};
    }
  }

  lemma SumWith(rows: Rows, k: RowId, item: Item)
    requires k !in rows
    ensures Sum(rows[k := item]) == Sum(rows) + item.size
  {
    SumWithout(rows[k := item], k);
    assert rows[k := item] - {k} == rows;
  }

  /** Adding a row raises the global sum and its owner's, and nobody else's. */
  lemma HeldWith(rows: Rows, k: RowId, item: Item, scope: Scope)
    requires k !in rows
    ensures Held(rows[k := item], scope) == Held(rows, scope) + if scope == Global || scope == Member(item.owner) then item.size else 0
  {
    match scope {
      case Global => SumWith(rows, k, item);
      case Member(owner) =>
        if owner == item.owner {
          assert Owned(rows[k := item], owner) == Owned(rows, owner)[k := item];
          SumWith(Owned(rows, owner), k, item);
        } else {
          assert Owned(rows[k := item], owner) == Owned(rows, owner);
        }
    }
  }

  lemma HeldWithout(rows: Rows, k: RowId, scope: Scope)
    requires k in rows
    ensures Held(rows, scope) == Held(rows - {k}, scope) + if scope == Global || scope == Member(rows[k].owner) then rows[k].size else 0
  {
    HeldWith(rows - {k}, k, rows[k], scope);
    assert (rows - {k})[k := rows[k]] == rows;
  }

  // ---------------------------------------------------------------- what every statement keeps

  /** The counters are the sums, globally and for every member, and nobody with rows is without one. */
  ghost predicate Exact(rows: Rows, u: Usage) {
    && (forall s | s in u && s != Member("") :: u[s] == Held(rows, s))
    && (rows != map[] ==> Global in u)
    && (forall k | k in rows && rows[k].owner != "" :: Member(rows[k].owner) in u)
  }

  /** Subtracting never had to be clamped: the counter covers what is taken off it. */
  predicate Covers(u: Usage, item: Item) {
    && (Global in u && u[Global] >= item.size)
    && (item.owner != "" ==> Member(item.owner) in u && u[Member(item.owner)] >= item.size)
  }

  lemma NobodyWithoutRows(rows: Rows, owner: string)
    requires forall k | k in rows :: rows[k].owner != owner
    ensures Held(rows, Member(owner)) == 0
  {
    assert Owned(rows, owner) == map[];
  }

  lemma InsertIsExact(rows: Rows, u: Usage, k: RowId, item: Item)
    requires Exact(rows, u) && k !in rows
    ensures Exact(rows[k := item], OnInsert(u, item))
  {
    var after := OnInsert(u, item);
    forall s | s in after && s != Member("") ensures after[s] == Held(rows[k := item], s) {
      HeldWith(rows, k, item, s);
      if s !in u {
        if s == Global { assert rows == map[]; } else { NobodyWithoutRows(rows, s.owner); }
      }
    }
  }

  lemma DeleteIsExact(rows: Rows, u: Usage, k: RowId)
    requires Exact(rows, u) && k in rows
    ensures Covers(u, rows[k]) && Exact(rows - {k}, OnDelete(u, rows[k]))
  {
    var item, after := rows[k], OnDelete(u, rows[k]);
    HeldWithout(rows, k, Global);
    HeldWithout(rows, k, Member(item.owner));
    forall s | s in after && s != Member("") ensures after[s] == Held(rows - {k}, s) {
      HeldWithout(rows, k, s);
    }
  }

  lemma UpdateIsExact(rows: Rows, u: Usage, k: RowId, item: Item)
    requires Exact(rows, u) && k in rows
    ensures Covers(u, rows[k]) && Exact(rows[k := item], OnUpdate(u, rows[k], item))
  {
    var before, rest := rows[k], rows - {k};
    DeleteIsExact(rows, u, k);
    var after := OnUpdate(u, before, item);
    assert rows[k := item] == rest[k := item];
    forall s | s in after && s != Member("") ensures after[s] == Held(rows[k := item], s) {
      HeldWithout(rows, k, s);
      HeldWith(rest, k, item, s);
      if s !in u { NobodyWithoutRows(rows, s.owner); }
    }
  }

  /** `ensureSpoolAccounting` recomputes everything from the tables; rows without an owner get no counter of their own. */
  ghost function Rebuilt(rows: Rows): Usage {
    map s | s in Scopes(rows) :: Held(rows, s)
  }

  function Scopes(rows: Rows): set<Scope> {
    {Global} + set k | k in rows && rows[k].owner != "" :: Member(rows[k].owner)
  }

  lemma RebuiltIsExact(rows: Rows)
    ensures Exact(rows, Rebuilt(rows))
  {
  }

  // ---------------------------------------------------------------- runs and quotas

  datatype Statement =
    | Insert(row: RowId, item: Item)
    | Delete(row: RowId)
    | Update(row: RowId, item: Item)
    | Rebuild

  datatype Tables = Tables(rows: Rows, usage: Usage)

  /** A statement on a missing or duplicate row changes nothing and fires no trigger. */
  ghost function Execute(t: Tables, s: Statement): Tables {
    match s
    case Insert(k, item) => if k in t.rows then t else Tables(t.rows[k := item], OnInsert(t.usage, item))
    case Delete(k) => if k !in t.rows then t else Tables(t.rows - {k}, OnDelete(t.usage, t.rows[k]))
    case Update(k, item) => if k !in t.rows then t else Tables(t.rows[k := item], OnUpdate(t.usage, t.rows[k], item))
    case Rebuild => t.(usage := Rebuilt(t.rows))
  }

  ghost function ExecuteAll(t: Tables, ss: seq<Statement>): Tables {
    if ss == [] then t else Execute(ExecuteAll(t, ss[..|ss| - 1]), ss[|ss| - 1])
  }

  /** After every run the counters are the sums; no subtraction on the way there needed its clamp. */
  lemma {:induction false} CountersAreSums(t: Tables, ss: seq<Statement>)
    requires Exact(t.rows, t.usage)
    ensures var after := ExecuteAll(t, ss); Exact(after.rows, after.usage)
    ensures var after := ExecuteAll(t, ss); forall k | k in after.rows :: Covers(after.usage, after.rows[k])
  {
    if ss != [] {
      var n := |ss| - 1;
      CountersAreSums(t, ss[..n]);
      var mid := ExecuteAll(t, ss[..n]);
      match ss[n] {
        case Insert(k, item) => if k !in mid.rows { InsertIsExact(mid.rows, mid.usage, k, item); }
        case Delete(k) => if k in mid.rows { DeleteIsExact(mid.rows, mid.usage, k); }
        case Update(k, item) => if k in mid.rows { UpdateIsExact(mid.rows, mid.usage, k, item); }
        case Rebuild => RebuiltIsExact(mid.rows);
      }
    }
    var after := ExecuteAll(t, ss);
    forall k | k in after.rows ensures Covers(after.usage, after.rows[k]) {
      DeleteIsExact(after.rows, after.usage, k);
    }
  }

  function Counter(u: Usage, s: Scope): nat {
    if s in u then u[s] else 0
  }

  /** The admission check of `sendEnvelope` and `attachmentUploadBegin`. */
  predicate Admits(u: Usage, item: Item, total: nat, each: nat) {
    Counter(u, Global) + item.size <= total && Counter(u, Member(item.owner)) + item.size <= each
  }

  /** Rows are only added when the counters admit them, always have an owner, and never change size or owner. */
  predicate Guarded(t: Tables, s: Statement, total: nat, each: nat) {
    match s
    case Insert(k, item) => item.owner != "" && Admits(t.usage, item, total, each)
    case Update(k, item) => k in t.rows ==> item == t.rows[k]
    case _ => true
  }

  ghost predicate WithinQuota(rows: Rows, total: nat, each: nat) {
    Held(rows, Global) <= total && forall owner | owner != "" :: Held(rows, Member(owner)) <= each
  }

  lemma CounterIsHeld(rows: Rows, u: Usage, s: Scope)
    requires Exact(rows, u) && s != Member("")
    ensures Counter(u, s) == Held(rows, s)
  {
    if s !in u {
      if s == Global { assert rows == map[]; } else { NobodyWithoutRows(rows, s.owner); }
    }
  }

  lemma InsertKeepsQuota(rows: Rows, u: Usage, k: RowId, item: Item, total: nat, each: nat)
    requires Exact(rows, u) && WithinQuota(rows, total, each) && k !in rows && item.owner != "" && Admits(u, item, total, each)
    ensures WithinQuota(rows[k := item], total, each)
  {
    CounterIsHeld(rows, u, Global);
    CounterIsHeld(rows, u, Member(item.owner));
    HeldWith(rows, k, item, Global);
    forall owner | owner != "" ensures Held(rows[k := item], Member(owner)) <= each {
      HeldWith(rows, k, item, Member(owner));
    }
  }

  lemma DeleteKeepsQuota(rows: Rows, k: RowId, total: nat, each: nat)
    requires WithinQuota(rows, total, each) && k in rows
    ensures WithinQuota(rows - {k}, total, each)
  {
    HeldWithout(rows, k, Global);
    forall owner | owner != "" ensures Held(rows - {k}, Member(owner)) <= each {
      HeldWithout(rows, k, Member(owner));
    }
  }

  /** With fixed quotas the real totals never exceed them, globally or for any member. */
  lemma {:induction false} QuotasHold(t: Tables, ss: seq<Statement>, total: nat, each: nat)
    requires Exact(t.rows, t.usage) && WithinQuota(t.rows, total, each)
    requires forall i | 0 <= i < |ss| :: Guarded(ExecuteAll(t, ss[..i]), ss[i], total, each)
    ensures WithinQuota(ExecuteAll(t, ss).rows, total, each)
  {
    hide Exact, WithinQuota, Admits, OnInsert, OnDelete, OnUpdate, Rebuilt;
    if ss != [] {
      var n := |ss| - 1;
      var front := ss[..n];
      assert forall i | 0 <= i < n :: front[..i] == ss[..i] && front[i] == ss[i];
      QuotasHold(t, front, total, each);
      CountersAreSums(t, front);
      var mid := ExecuteAll(t, front);
      assert Guarded(mid, ss[n], total, each);
      if ss[n].Insert? && ss[n].row !in mid.rows {
        InsertKeepsQuota(mid.rows, mid.usage, ss[n].row, ss[n].item, total, each);
      } else if ss[n].Delete? && ss[n].row in mid.rows {
        DeleteKeepsQuota(mid.rows, ss[n].row, total, each);
      } else if ss[n].Update? && ss[n].row in mid.rows {
        assert mid.rows[ss[n].row := ss[n].item] == mid.rows;
      }
    }
  }

  // ---------------------------------------------------------------- the tables in place

  /** The two tables and their counters; each method is one statement with the trigger it fires. */
  class SpoolStore {
    var rows: Rows
    var usage: Usage

    ghost function Value(): Tables
      reads this
    {
      Tables(rows, usage)
    }

    ghost predicate Valid()
      reads this
    {
      Exact(rows, usage)
    }

    constructor ()
      ensures Valid() && rows == map[]
    {
      rows, usage := map[], map[];
    }

    /** `ON CONFLICT DO UPDATE SET size_bytes = size_bytes + size` */
    method Add(scope: Scope, size: nat)
      modifies this`usage
      ensures usage == Raise(old(usage), scope, size)
    {
      if scope in usage { usage := usage[scope := usage[scope] + size]; } else { usage := usage[scope := size]; }
    }

    method Subtract(scope: Scope, size: nat)
      modifies this`usage
      ensures usage == Lower(old(usage), scope, size)
    {
      if scope in usage { usage := usage[scope := Clamped(usage[scope], size)]; } else { usage := usage[scope := 0]; }
    }

    method InsertRow(k: RowId, item: Item)
      requires Valid()
      modifies this
      ensures Valid() && Value() == Execute(old(Value()), Statement.Insert(k, item))
    {
      hide Exact;
      if k in rows { return; }
      InsertIsExact(rows, usage, k, item);
      rows := rows[k := item];
      Add(Global, item.size);
      Add(Member(item.owner), item.size);
    }

    method DeleteRow(k: RowId)
      requires Valid()
      modifies this
      ensures Valid() && Value() == Execute(old(Value()), Statement.Delete(k))
    {
      hide Exact;
      if k !in rows { return; }
      DeleteIsExact(rows, usage, k);
      var item := rows[k];
      rows := rows - {k};
      Subtract(Global, item.size);
      Subtract(Member(item.owner), item.size);
    }

    method UpdateRow(k: RowId, item: Item)
      requires Valid()
      modifies this
      ensures Valid() && Value() == Execute(old(Value()), Statement.Update(k, item))
    {
      hide Exact;
      if k !in rows { return; }
      UpdateIsExact(rows, usage, k, item);
      var before := rows[k];
      rows := rows[k := item];
      usage := usage[Global := if Global in usage then Clamped(usage[Global], before.size) + item.size else 0];
      Subtract(Member(before.owner), before.size);
      Add(Member(item.owner), item.size);
    }

    /** `ensureSpoolAccounting`: the sums and groups of its two statements, row by row. */
    method RebuildUsage()
      modifies this`usage
      ensures Valid() && Value() == Execute(old(Value()), Rebuild)
    {
      usage := map[Global := 0];
      var todo := rows.Keys;
      ghost var done: Rows := map[];
      while todo != {}
        invariant todo <= rows.Keys && done == map k | k in rows && k !in todo :: rows[k]
        invariant usage == Rebuilt(done)
      {
        var k :| k in todo;
        RebuiltWith(done, k, rows[k]);
        assert (map j | j in rows && j !in todo - {k} :: rows[j]) == done[k := rows[k]];
        usage := usage[Global := usage[Global] + rows[k].size];
        if rows[k].owner != "" { Add(Member(rows[k].owner), rows[k].size); }
        done := done[k := rows[k]];
        todo := todo - {k};
      }
      assert done == rows;
      RebuiltIsExact(rows);
    }
  }

  lemma ScopesWith(rows: Rows, k: RowId, item: Item)
    requires k !in rows
    ensures Scopes(rows[k := item]) == Scopes(rows) + if item.owner != "" then {Member(item.owner)} else {}
  {
    var more := rows[k := item];
    assert more[k] == item;
    assert forall j | j in rows :: j in more && more[j] == rows[j];
    assert Scopes(rows) <= Scopes(more);
    assert item.owner != "" ==> Member(item.owner) in Scopes(more);
  }

  lemma ScopesHaveRows(rows: Rows, owner: string)
    ensures Global in Scopes(rows) && Member("") !in Scopes(rows)
    ensures Member(owner) !in Scopes(rows) && owner != "" ==> Held(rows, Member(owner)) == 0
  {
    if Member(owner) !in Scopes(rows) && owner != "" { NobodyWithoutRows(rows, owner); }
  }

  lemma RebuiltWith(rows: Rows, k: RowId, item: Item)
    requires k !in rows
    ensures Global in Rebuilt(rows)
    ensures var globally := Rebuilt(rows)[Global := Rebuilt(rows)[Global] + item.size];
      Rebuilt(rows[k := item]) == if item.owner != "" then Raise(globally, Member(item.owner), item.size) else globally
  {
    hide Held, Scopes;
    ScopesWith(rows, k, item);
    ScopesHaveRows(rows, item.owner);
    forall s ensures Held(rows[k := item], s) == Held(rows, s) + if s == Global || s == Member(item.owner) then item.size else 0 {
      HeldWith(rows, k, item, s);
    }
  }
}
