/**
 The migration manager: applies the selected migrations in order inside one
 transaction, skipping those the version table already holds.
 */
module Migrations {
  import opened Outcomes
  import SqlSplitter

  datatype Migration = Migration(version: int, name: string, sql: string)

  /** The committed database: the version table, and every statement it has executed. */
  datatype Database = Database(applied: map<int, string>, executed: seq<string>)

  /** Whether the server, having executed the given statements, accepts the next one. */
  type Server = (seq<string>, string) -> bool

  datatype MigrationError = NameConflict(version: int) | BadScript(version: int) | StatementFailed(version: int)

  datatype Applied = Applied(db: Database, versions: seq<int>)

  function Selected(ms: seq<Migration>, target: Option<int>): seq<Migration> {
    if ms == [] then []
    else if target.None? || ms[0].version <= target.value then [ms[0]] + Selected(ms[1..], target)
    else Selected(ms[1..], target)
  }

  predicate Accepts(server: Server, executed: seq<string>, statements: seq<string>)
    decreases statements
  {
    statements == []
    || (server(executed, statements[0]) && Accepts(server, executed + [statements[0]], statements[1..]))
  }

  /** One migration. `existing` is the version table as it was read at the start of the transaction. */
  function Apply(server: Server, existing: map<int, string>, db: Database,
        m: Migration): Result<Applied, MigrationError> {
    if m.version in existing then
      if existing[m.version] == m.name then Ok(Applied(db, [])) else Err(NameConflict(m.version))
    else
      match SqlSplitter.Split(m.sql)
      case Err(_) => Err(BadScript(m.version))
      case Ok(statements) =>
        if Accepts(server, db.executed, statements) && m.version !in db.applied then
          Ok(Applied(Database(db.applied[m.version := m.name], db.executed + statements), [m.version]))
        else
          Err(StatementFailed(m.version))
  }

  function ApplyAll(server: Server, existing: map<int, string>, db: Database, ms: seq<Migration>):
    Result<Applied, MigrationError>
    decreases ms
  {
    if ms == [] then Ok(Applied(db, []))
    else
      match Apply(server, existing, db, ms[0])
      case Err(e) => Err(e)
      case Ok(first) => After(first, ApplyAll(server, existing, first.db, ms[1..]))
  }

  function After(first: Applied, rest: Result<Applied, MigrationError>): Result<Applied, MigrationError> {
    match rest
    case Err(e) => Err(e)
    case Ok(more) => Ok(Applied(more.db, first.versions + more.versions))
  }

  function Migrate(server: Server, db: Database, ms: seq<Migration>, target: Option<int>):
    Result<Applied, MigrationError>
  {
    ApplyAll(server, db.applied, db, Selected(ms, target))
  }

  /** Versions unique and in order, as the packaged migrations are checked to be. */
  predicate Ordered(ms: seq<Migration>) {
    forall i, j :: 0 <= i < j < |ms| ==> ms[i].version < ms[j].version
  }

  // ----- What one run does -----

  /** The migrations that the table does not hold yet. */
  function Missing(table: map<int, string>, ms: seq<Migration>): seq<Migration> {
    if ms == [] then []
    else (if ms[0].version in table then [] else [ms[0]]) + Missing(table, ms[1..])
  }

  function Versions(ms: seq<Migration>): seq<int> {
    if ms == [] then [] else [ms[0].version] + Versions(ms[1..])
  }

  function Script(ms: seq<Migration>): seq<string> {
    if ms == [] then []
    else (match SqlSplitter.Split(ms[0].sql) case Err(_) => [] case Ok(ss) => ss) + Script(ms[1..])
  }

  function Recorded(table: map<int, string>, ms: seq<Migration>): map<int, string>
    decreases ms
  {
    if ms == [] then table
    else Recorded(if ms[0].version in table then table else table[ms[0].version := ms[0].name], ms[1..])
  }

  lemma {:induction false} MissingExceptFirst(table: map<int, string>, m: Migration, ms: seq<Migration>)
    requires forall i :: 0 <= i < |ms| ==> ms[i].version != m.version
    ensures Missing(table[m.version := m.name], ms) == Missing(table, ms)
  {
    if ms != [] {
      MissingExceptFirst(table, m, ms[1..]);
    }
  }

  ghost predicate Agree(existing: map<int, string>, table: map<int, string>, ms: seq<Migration>) {
    forall i :: 0 <= i < |ms| ==> (ms[i].version in existing <==> ms[i].version in table)
  }

  lemma AgreeAfterFirst(server: Server, existing: map<int, string>, db: Database, ms: seq<Migration>)
    requires ms != [] && Ordered(ms) && Agree(existing, db.applied, ms)
    requires Apply(server, existing, db, ms[0]).Ok?
    ensures Ordered(ms[1..]) && Agree(existing, Apply(server, existing, db, ms[0]).value.db.applied, ms[1..])
    ensures Missing(Apply(server, existing, db, ms[0]).value.db.applied, ms[1..]) == Missing(db.applied, ms[1..])
  {
    assert forall i :: 0 <= i < |ms[1..]| ==> ms[1..][i] == ms[i + 1] && ms[0].version != ms[i + 1].version;
    assert ms[0].version in existing <==> ms[0].version in db.applied;
    if ms[0].version !in existing {
      MissingExceptFirst(db.applied, ms[0], ms[1..]);
    }
  }

  /** What a run is expected to have done once it has succeeded. */
  ghost function Expected(db: Database, ms: seq<Migration>): Applied {
    var missing := Missing(db.applied, ms);
    Applied(Database(Recorded(db.applied, ms), db.executed + Script(missing)), Versions(missing))
  }

  lemma ExpectedStep(server: Server, existing: map<int, string>, db: Database, ms: seq<Migration>, first: Applied)
    requires ms != [] && (ms[0].version in existing <==> ms[0].version in db.applied)
    requires Apply(server, existing, db, ms[0]) == Ok(first)
    requires Missing(first.db.applied, ms[1..]) == Missing(db.applied, ms[1..])
    ensures After(first, Ok(Expected(first.db, ms[1..]))) == Ok(Expected(db, ms))
  {
    var missing, more := Missing(db.applied, ms), Missing(db.applied, ms[1..]);
    if ms[0].version in existing {
      assert missing == more;
      assert [] + Versions(more) == Versions(more);
    } else {
      assert missing[0] == ms[0] && missing[1..] == more;
      var statements := SqlSplitter.Split(ms[0].sql).value;
      assert db.executed + (statements + Script(more)) == db.executed + statements + Script(more);
    }
  }

  /**
   A run that succeeds executes exactly the scripts of the missing selected migrations, in order,
   reports their versions, and records exactly them.
   */
  lemma {:induction false} ApplyAllRunsMissing(server: Server, existing: map<int, string>, db: Database,
        ms: seq<Migration>)
    requires Ordered(ms) && Agree(existing, db.applied, ms)
    requires ApplyAll(server, existing, db, ms).Ok?
    ensures ApplyAll(server, existing, db, ms) == Ok(Expected(db, ms))
    decreases ms
  {
    if ms == [] {
      assert db.executed + [] == db.executed;
    } else {
      var first := Apply(server, existing, db, ms[0]).value;
      AgreeAfterFirst(server, existing, db, ms);
      ApplyAllRunsMissing(server, existing, first.db, ms[1..]);
      ExpectedStep(server, existing, db, ms, first);
    }
  }

  lemma {:induction false} SelectedAreMembers(ms: seq<Migration>, target: Option<int>)
    ensures forall m :: m in Selected(ms, target) ==> m in ms
  {
    if ms != [] {
      SelectedAreMembers(ms[1..], target);
    }
  }

  lemma OrderedCons(m: Migration, ms: seq<Migration>)
    requires Ordered(ms) && forall later :: later in ms ==> m.version < later.version
    ensures Ordered([m] + ms)
  {
    var longer := [m] + ms;
    forall i, j | 0 <= i < j < |longer|
      ensures longer[i].version < longer[j].version
    {
      assert longer[j] == ms[j - 1] && longer[j] in ms;
    }
  }

  lemma {:induction false} SelectedKeepsOrder(ms: seq<Migration>, target: Option<int>)
    requires Ordered(ms)
    ensures Ordered(Selected(ms, target))
  {
    if ms != [] {
      var rest := ms[1..];
      assert forall i :: 0 <= i < |rest| ==> rest[i] == ms[i + 1];
      SelectedKeepsOrder(rest, target);
      SelectedAreMembers(rest, target);
      OrderedCons(ms[0], Selected(rest, target));
    }
  }

  lemma MigrateRunsMissing(server: Server, db: Database, ms: seq<Migration>, target: Option<int>)
    requires Ordered(ms) && Migrate(server, db, ms, target).Ok?
    ensures Migrate(server, db, ms, target) == Ok(Expected(db, Selected(ms, target)))
  {
    SelectedKeepsOrder(ms, target);
    ApplyAllRunsMissing(server, db.applied, db, Selected(ms, target));
  }

  // ----- What is selected, and what makes a run fail -----

  /** Exactly the migrations up to the target are selected. */
  lemma {:induction false} SelectedIff(ms: seq<Migration>, target: Option<int>, m: Migration)
    ensures m in Selected(ms, target) <==> m in ms && (target.Some? ==> m.version <= target.value)
  {
    if ms != [] {
      SelectedIff(ms[1..], target, m);
      assert ms == [ms[0]] + ms[1..];
    }
  }

  /** The server accepts every statement, each after those before it. */
  ghost predicate AllAccepted(server: Server, executed: seq<string>, statements: seq<string>) {
    forall i :: 0 <= i < |statements| ==> server(executed + statements[..i], statements[i])
  }

  lemma {:induction false} AcceptsIff(server: Server, executed: seq<string>, statements: seq<string>)
    ensures Accepts(server, executed, statements) <==> AllAccepted(server, executed, statements)
    decreases statements
  {
    if statements != [] {
      var first, rest := statements[0], statements[1..];
      AcceptsIff(server, executed + [first], rest);
      assert executed + statements[..0] == executed;
      AcceptedAfterFirst(server, executed, statements);
    }
  }

  lemma AcceptedAfterFirst(server: Server, executed: seq<string>, statements: seq<string>)
    requires statements != []
    ensures AllAccepted(server, executed, statements)
            <==> server(executed, statements[0])
                 && AllAccepted(server, executed + [statements[0]], statements[1..])
  {
    var first, rest := statements[0], statements[1..];
    assert executed + statements[..0] == executed;
    forall i | 0 <= i < |rest|
      ensures server(executed + [first] + rest[..i], rest[i])
              == server(executed + statements[..i + 1], statements[i + 1])
    {
      assert [first] + rest[..i] == statements[..i + 1];
      assert executed + [first] + rest[..i] == executed + statements[..i + 1];
    }
    forall i | 1 <= i < |statements|
      ensures server(executed + statements[..i], statements[i])
              == server(executed + [first] + rest[..i - 1], rest[i - 1])
    {
    }
  }

  /** What keeps a migration from being applied: another name under its version, its script, or the database. */
  ghost predicate IsFault(server: Server, existing: map<int, string>, db: Database, m: Migration, e: MigrationError) {
    && e.version == m.version
    && (e.NameConflict? <==> m.version in existing && existing[m.version] != m.name)
    && (e.BadScript? <==> m.version !in existing && SqlSplitter.Split(m.sql).Err?)
    && (e.StatementFailed? <==>
          && m.version !in existing && SqlSplitter.Split(m.sql).Ok?
          && (m.version in db.applied || !AllAccepted(server, db.executed, SqlSplitter.Split(m.sql).value)))
  }

  lemma ApplyFailsIff(server: Server, existing: map<int, string>, db: Database, m: Migration)
    ensures var r := Apply(server, existing, db, m);
            && (r.Err? ==> IsFault(server, existing, db, m, r.error))
            && (r.Ok? ==> forall e :: !IsFault(server, existing, db, m, e))
  {
    if m.version !in existing && SqlSplitter.Split(m.sql).Ok? {
      AcceptsIff(server, db.executed, SqlSplitter.Split(m.sql).value);
    }
  }

  /** A run fails exactly at the first selected migration that has a fault once those before it have been applied. */
  lemma {:induction false} RunFailsAtFault(server: Server, existing: map<int, string>, db: Database,
                                           ms: seq<Migration>) returns (i: nat)
    ensures i <= |ms| && ApplyAll(server, existing, db, ms[..i]).Ok?
    ensures var r := ApplyAll(server, existing, db, ms);
            && (r.Ok? <==> i == |ms|)
            && (r.Err? ==> IsFault(server, existing, ApplyAll(server, existing, db, ms[..i]).value.db, ms[i], r.error))
    decreases ms
  {
    if ms == [] {
      i := 0;
    } else {
      var first := Apply(server, existing, db, ms[0]);
      ApplyFailsIff(server, existing, db, ms[0]);
      if first.Err? {
        i := 0;
        assert ms[..0] == [];
      } else {
        var rest := ms[1..];
        var later := RunFailsAtFault(server, existing, first.value.db, rest);
        i := later + 1;
        assert ms[..i][1..] == rest[..later] && ms[..i][0] == ms[0];
      }
    }
  }

  // ----- Staged and direct runs -----

  lemma AfterAfter(a: Applied, b: Applied, r: Result<Applied, MigrationError>)
    ensures After(a, After(b, r)) == After(Applied(b.db, a.versions + b.versions), r)
  {
    if r.Ok? {
      assert a.versions + (b.versions + r.value.versions) == a.versions + b.versions + r.value.versions;
    }
  }

  lemma AfterNothing(db: Database, r: Result<Applied, MigrationError>)
    ensures After(Applied(db, []), r) == r
  {
    if r.Ok? {
      assert [] + r.value.versions == r.value.versions;
    }
  }

  lemma ApplyAllOne(server: Server, existing: map<int, string>, db: Database, m: Migration)
    ensures ApplyAll(server, existing, db, [m]) == Apply(server, existing, db, m)
  {
    var first := Apply(server, existing, db, m);
    if first.Ok? {
      assert first.value.versions + [] == first.value.versions;
    }
  }

  lemma {:induction false} ApplyAllConcat(server: Server, existing: map<int, string>, db: Database, a: seq<Migration>,
        b: seq<Migration>)
    ensures ApplyAll(server, existing, db, a + b)
            == match ApplyAll(server, existing, db, a)
               case Err(e) => Err(e)
               case Ok(first) => After(first, ApplyAll(server, existing, first.db, b))
    decreases a
  {
    if a == [] {
      assert a + b == b;
      AfterNothing(db, ApplyAll(server, existing, db, b));
    } else {
      assert (a + b)[1..] == a[1..] + b;
      var first := Apply(server, existing, db, a[0]);
      if first.Ok? {
        ApplyAllConcat(server, existing, first.value.db, a[1..], b);
        var second := ApplyAll(server, existing, first.value.db, a[1..]);
        if second.Ok? {
          AfterAfter(first.value, second.value, ApplyAll(server, existing, second.value.db, b));
        }
      }
    }
  }

  ghost predicate Holds(table: map<int, string>, ms: seq<Migration>) {
    forall i :: 0 <= i < |ms| ==> ms[i].version in table && table[ms[i].version] == ms[i].name
  }

  ghost predicate Extends(before: map<int, string>, table: map<int, string>) {
    forall v :: v in before ==> v in table && table[v] == before[v]
  }

  ghost predicate OnlyAdds(before: map<int, string>, table: map<int, string>, ms: seq<Migration>) {
    forall v :: v in table ==> v in before || exists i :: 0 <= i < |ms| && ms[i].version == v
  }

  lemma OnlyAddsFirst(before: map<int, string>, table: map<int, string>, ms: seq<Migration>)
    requires ms != [] && OnlyAdds(before[ms[0].version := ms[0].name], table, ms[1..])
    ensures OnlyAdds(before, table, ms)
  {
    forall v | v in table && v !in before && v != ms[0].version
      ensures exists i :: 0 <= i < |ms| && ms[i].version == v
    {
      var i :| 0 <= i < |ms[1..]| && ms[1..][i].version == v;
      assert ms[i + 1].version == v;
    }
  }

  lemma HoldsFirst(before: map<int, string>, table: map<int, string>, ms: seq<Migration>)
    requires ms != [] && Holds(table, ms[1..]) && Extends(before[ms[0].version := ms[0].name], table)
    ensures Holds(table, ms)
  {
    forall i | 0 <= i < |ms|
      ensures ms[i].version in table && table[ms[i].version] == ms[i].name
    {
      if i > 0 {
        assert ms[1..][i - 1] == ms[i];
      }
    }
  }

  lemma ApplyRecords(server: Server, existing: map<int, string>, db: Database, m: Migration, first: Applied)
    requires Apply(server, existing, db, m) == Ok(first) && Extends(existing, db.applied)
    ensures first.db.applied == db.applied[m.version := m.name] && Extends(db.applied, first.db.applied)
  {
  }

  /** After a successful run every migration it covered is in the table under its own name; other rows are as before. */
  lemma {:induction false} ApplyAllRecords(server: Server, existing: map<int, string>, db: Database, ms: seq<Migration>)
    requires ApplyAll(server, existing, db, ms).Ok? && Extends(existing, db.applied)
    ensures var table := ApplyAll(server, existing, db, ms).value.db.applied;
            Holds(table, ms) && Extends(db.applied, table) && OnlyAdds(db.applied, table, ms)
    decreases ms
  {
    if ms != [] {
      var first := Apply(server, existing, db, ms[0]).value;
      ApplyRecords(server, existing, db, ms[0], first);
      ApplyAllRecords(server, existing, first.db, ms[1..]);
      var table := ApplyAll(server, existing, first.db, ms[1..]).value.db.applied;
      HoldsFirst(db.applied, table, ms);
      OnlyAddsFirst(db.applied, table, ms);
    }
  }

  /** Migrations the table holds under their own names are skipped. */
  lemma {:induction false} ApplyAllSkips(server: Server, existing: map<int, string>, db: Database, ms: seq<Migration>)
    requires forall i :: 0 <= i < |ms| ==> ms[i].version in existing && existing[ms[i].version] == ms[i].name
    ensures ApplyAll(server, existing, db, ms) == Ok(Applied(db, []))
  {
    if ms != [] {
      ApplyAllSkips(server, existing, db, ms[1..]);
      AfterNothing(db, Ok(Applied(db, [])));
    }
  }

  lemma {:induction false} ApplyAllReadsOnlyOwnRows(server: Server, e1: map<int, string>, e2: map<int, string>,
        db: Database, ms: seq<Migration>)
    requires forall i :: 0 <= i < |ms| ==> (ms[i].version in e1 <==> ms[i].version in e2)
    requires forall i :: 0 <= i < |ms| && ms[i].version in e1 ==> e1[ms[i].version] == e2[ms[i].version]
    ensures ApplyAll(server, e1, db, ms) == ApplyAll(server, e2, db, ms)
    decreases ms
  {
    if ms != [] {
      var first := Apply(server, e1, db, ms[0]);
      if first.Ok? {
        ApplyAllReadsOnlyOwnRows(server, e1, e2, first.value.db, ms[1..]);
      }
    }
  }

  function Beyond(ms: seq<Migration>, low: int, target: Option<int>): seq<Migration> {
    if ms == [] then []
    else if low < ms[0].version && (target.None? || ms[0].version <= target.value) then
      [ms[0]] + Beyond(ms[1..], low, target)
    else Beyond(ms[1..], low, target)
  }

  predicate AtLeast(target: Option<int>, low: int) {
    target.None? || low <= target.value
  }

  lemma {:induction false} SelectedSplits(ms: seq<Migration>, low: int, target: Option<int>)
    requires Ordered(ms) && AtLeast(target, low)
    ensures Selected(ms, target) == Selected(ms, Some(low)) + Beyond(ms, low, target)
  {
    if ms != [] {
      assert Ordered(ms[1..]);
      SelectedSplits(ms[1..], low, target);
      if low < ms[0].version {
        NothingSelected(ms, low);
        NothingSelected(ms[1..], low);
      }
    }
  }

  lemma {:induction false} NothingSelected(ms: seq<Migration>, low: int)
    requires forall i :: 0 <= i < |ms| ==> low < ms[i].version
    ensures Selected(ms, Some(low)) == []
  {
    if ms != [] {
      NothingSelected(ms[1..], low);
    }
  }

  lemma {:induction false} SelectedAtMost(ms: seq<Migration>, low: int)
    ensures forall i :: 0 <= i < |Selected(ms, Some(low))| ==> Selected(ms, Some(low))[i].version <= low
  {
    if ms != [] {
      SelectedAtMost(ms[1..], low);
    }
  }

  lemma {:induction false} BeyondAbove(ms: seq<Migration>, low: int, target: Option<int>)
    ensures forall i :: 0 <= i < |Beyond(ms, low, target)| ==> low < Beyond(ms, low, target)[i].version
  {
    if ms != [] {
      BeyondAbove(ms[1..], low, target);
    }
  }

  /** Running again to the same target executes nothing and changes nothing. */
  lemma RepeatRunDoesNothing(server: Server, db: Database, ms: seq<Migration>, target: Option<int>)
    requires Migrate(server, db, ms, target).Ok?
    ensures var after := Migrate(server, db, ms, target).value.db;
            Migrate(server, after, ms, target) == Ok(Applied(after, []))
  {
    var selected := Selected(ms, target);
    ApplyAllRecords(server, db.applied, db, selected);
    var after := Migrate(server, db, ms, target).value.db;
    ApplyAllSkips(server, after.applied, after, selected);
  }

  /**
   Migrating to `low` and then to a target at or above it executes the same statements in the same
   order, leaves the same table and fails in the same way as migrating straight to the target.
   */
  lemma StagedEqualsDirect(server: Server, db: Database, ms: seq<Migration>, low: int, target: Option<int>)
    requires Ordered(ms) && AtLeast(target, low)
    ensures Migrate(server, db, ms, target)
            == match Migrate(server, db, ms, Some(low))
               case Err(e) => Err(e)
               case Ok(first) => After(first, Migrate(server, first.db, ms, target))
  {
    var early, late := Selected(ms, Some(low)), Beyond(ms, low, target);
    SelectedSplits(ms, low, target);
    ApplyAllConcat(server, db.applied, db, early, late);
    var staged := Migrate(server, db, ms, Some(low));
    if staged.Ok? {
      var mid := staged.value.db;
      ApplyAllRecords(server, db.applied, db, early);
      ApplyAllSkips(server, mid.applied, mid, early);
      ApplyAllConcat(server, mid.applied, mid, early, late);
      AfterNothing(mid, ApplyAll(server, mid.applied, mid, late));
      SelectedAtMost(ms, low);
      BeyondAbove(ms, low, target);
      ApplyAllReadsOnlyOwnRows(server, db.applied, mid.applied, mid, late);
    }
  }

  // ----- The manager -----

  /** The run over the first `i + 1` migrations is one more step, and a failure there is the run's. */
  lemma ApplyAllStep(server: Server, existing: map<int, string>, db: Database, ms: seq<Migration>, i: nat, out: Applied)
    requires i < |ms| && ApplyAll(server, existing, db, ms[..i]) == Ok(out)
    ensures ApplyAll(server, existing, db, ms[..i + 1]) == After(out, Apply(server, existing, out.db, ms[i]))
    ensures Apply(server, existing, out.db, ms[i]).Err? ==>
              ApplyAll(server, existing, db, ms) == Err(Apply(server, existing, out.db, ms[i]).error)
  {
    assert ms[..i + 1] == ms[..i] + [ms[i]];
    assert ms == ms[..i + 1] + ms[i + 1..];
    ApplyAllConcat(server, existing, db, ms[..i], [ms[i]]);
    ApplyAllOne(server, existing, out.db, ms[i]);
    ApplyAllConcat(server, existing, db, ms[..i + 1], ms[i + 1..]);
  }

  class MigrationManager {
    const migrations: seq<Migration>
    const server: Server
    var applied: map<int, string>
    var executed: seq<string>

    constructor (migrations: seq<Migration>, server: Server)
      ensures this.migrations == migrations && this.server == server
      ensures applied == map[] && executed == []
    {
      this.migrations, this.server := migrations, server;
      applied, executed := map[], [];
    }

    /** The whole run is one transaction: a failure rolls the table and the statements back. */
    method RunMigrations(target: Option<int>) returns (r: Result<seq<int>, MigrationError>)
      modifies this
      ensures match Migrate(server, old(Database(applied, executed)), migrations, target)
              case Err(e) => r == Err(e) && applied == old(applied) && executed == old(executed)
              case Ok(out) => r == Ok(out.versions) && Database(applied, executed) == out.db
    {
      var selected := Selected(migrations, target);
      var existing, versions: seq<int> := applied, [];
      var table, log := applied, executed;
      ghost var start := Database(applied, executed);
      for i := 0 to |selected|
        invariant ApplyAll(server, existing, start, selected[..i]) == Ok(Applied(Database(table, log), versions))
        invariant applied == old(applied) && executed == old(executed)
      {
        var m := selected[i];
        ApplyAllStep(server, existing, start, selected, i, Applied(Database(table, log), versions));
        if m.version in existing {
          if existing[m.version] != m.name {
            return Err(NameConflict(m.version));
          }
        } else {
          var split := SqlSplitter.SplitSqlStatements(m.sql);
          if split.Err? {
            return Err(BadScript(m.version));
          }
          var ok: bool;
          ok, log := ExecuteAll(log, split.value);
          if !ok || m.version in table {
            return Err(StatementFailed(m.version));
          }
          table := table[m.version := m.name];
          versions := versions + [m.version];
        }
        assert versions + [] == versions;
      }
      assert selected[..|selected|] == selected;
      applied, executed := table, log;
      return Ok(versions);
    }

    method ExecuteAll(log: seq<string>, statements: seq<string>) returns (ok: bool, log': seq<string>)
      ensures ok == Accepts(server, log, statements)
      ensures ok ==> log' == log + statements
    {
      log' := log;
      for i := 0 to |statements|
        invariant log' == log + statements[..i]
        invariant Accepts(server, log, statements) == Accepts(server, log', statements[i..])
      {
        if !server(log', statements[i]) {
          return false, log';
        }
        log' := log' + [statements[i]];
      }
      return true, log';
    }
  }
}
