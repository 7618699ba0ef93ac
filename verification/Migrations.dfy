/**
 Forward-only schema migrations: which steps a database needs (crates/repo/src/migrations.rs) and
 the runner that applies them one transaction at a time (packages/storage/src/migrations.ts),
 with a fault possible at every statement.
 */
module Migrations {
  import opened Common

  /** A cell of `schema_meta` as the driver returns it. */
  datatype Cell = Number(value: int) | Fraction | BigInt(value: int) | Text(text: string) | OtherValue

  /** `schema_meta`: no table, a table without a version row, or a version. */
  datatype Meta = NoTable | NoVersion | Version(cell: Cell)

  /** Everything the migrations change, and the version table. */
  datatype Db<S> = Db(schema: S, meta: Meta)

  /** One forward step; `createsMeta` if its SQL creates `schema_meta` when absent. */
  datatype Migration<!S> = Migration(from: nat, to: nat, up: S -> S, createsMeta: bool)

  datatype Error = CorruptVersion | UnknownSchemaVersion(current: nat, latest: nat) | StatementFailed

  // ----- decimal stamps

  function Digit(d: nat): char
    requires d < 10
  {
    '0' + d as char
  }

  /** `String(n)`. */
  function Decimal(n: nat): (r: string)
    ensures r != [] && AllDigits(r)
  {
    if n < 10 then [Digit(n)] else Decimal(n / 10) + [Digit(n % 10)]
  }

  predicate AllDigits(s: string) {
    forall i :: 0 <= i < |s| ==> '0' <= s[i] <= '9'
  }

  /** `Number(s)` of a string of digits. */
  function Parse(s: string): nat
    requires AllDigits(s)
  {
    if s == [] then 0 else Parse(s[..|s| - 1]) * 10 + (s[|s| - 1] - '0') as nat
  }

  /** A stamp reads back as the version it was written for. */
  lemma {:induction false} StampRoundTrip(n: nat)
    ensures Parse(Decimal(n)) == n
  {
    var s := Decimal(n);
    if n < 10 {
      assert s[..0] == [];
    } else {
      StampRoundTrip(n / 10);
      assert s[..|s| - 1] == Decimal(n / 10);
    }
  }

  /** `readInstalledVersion`. */
  function InstalledVersion(meta: Meta): Result<nat, Error> {
    match meta
    case NoTable => Ok(0)
    case NoVersion => Ok(0)
    case Version(Number(n)) => if n >= 0 then Ok(n) else Err(CorruptVersion)
    case Version(BigInt(n)) => if n >= 0 then Ok(n) else Err(CorruptVersion)
    case Version(Text(s)) => if s != [] && AllDigits(s) then Ok(Parse(s)) else Err(CorruptVersion)
    case Version(_) => Err(CorruptVersion)
  }

  // ----- which steps to run

  /** The list's shape: contiguous, increasing, from the empty database up; the first step creates
      the version table. */
  ghost predicate Chain<S>(list: seq<Migration<S>>) {
    && list != [] && list[0].from == 0 && list[0].createsMeta
    && (forall i :: 0 <= i < |list| ==> list[i].from < list[i].to)
    && (forall i :: 0 <= i < |list| - 1 ==> list[i].to == list[i + 1].from)
  }

  function Latest<S>(list: seq<Migration<S>>): nat
    requires list != []
  {
    list[|list| - 1].to
  }

  /** The first step from index `i` on that starts at this version. */
  function PositionFrom<S>(list: seq<Migration<S>>, current: nat, i: nat): (r: Option<nat>)
    requires i <= |list|
    ensures r.Some? ==> i <= r.value < |list| && list[r.value].from == current
    ensures r.Some? ==> forall j :: i <= j < r.value ==> list[j].from != current
    ensures r.None? ==> forall j :: i <= j < |list| ==> list[j].from != current
    decreases |list| - i
  {
    if i == |list| then None else if list[i].from == current then Some(i) else PositionFrom(list, current, i + 1)
  }

  function Pending<S>(list: seq<Migration<S>>, current: nat): Result<seq<Migration<S>>, Error>
    requires list != []
  {
    if current == Latest(list) then Ok([])
    else
      match PositionFrom(list, current, 0)
      case None => Err(UnknownSchemaVersion(current, Latest(list)))
      case Some(i) => Ok(list[i..])
  }

  /** The version after the first `k` steps. */
  function VersionAt<S>(list: seq<Migration<S>>, k: nat): nat
    requires k <= |list|
  {
    if k == 0 then 0 else list[k - 1].to
  }

  lemma {:induction false} VersionsIncrease<S>(list: seq<Migration<S>>, i: nat, j: nat)
    requires Chain(list) && i < j <= |list|
    ensures VersionAt(list, i) < VersionAt(list, j)
    decreases j
  {
    assert list[j - 1].from < list[j - 1].to;
    assert j >= 2 ==> list[j - 2].to == list[j - 2 + 1].from;
    if i < j - 1 { VersionsIncrease(list, i, j - 1); }
  }

  lemma FromIsVersion<S>(list: seq<Migration<S>>, k: nat)
    requires Chain(list) && k < |list|
    ensures list[k].from == VersionAt(list, k)
  {
    assert k >= 1 ==> list[k - 1].to == list[k - 1 + 1].from;
  }

  /** A database at the version after `k` steps needs exactly the others, in order. */
  lemma PendingIsRest<S>(list: seq<Migration<S>>, k: nat)
    requires Chain(list) && k <= |list|
    ensures Pending(list, VersionAt(list, k)) == Ok(list[k..])
  {
    if k < |list| {
      VersionsIncrease(list, k, |list|);
      FromIsVersion(list, k);
      forall j | 0 <= j < k ensures list[j].from != VersionAt(list, k) {
        FromIsVersion(list, j);
        VersionsIncrease(list, j, k);
      }
    } else {
      assert list[k..] == [];
    }
  }

  /** Every other version is refused. */
  lemma PendingRefuses<S>(list: seq<Migration<S>>, current: nat)
    requires Chain(list)
    ensures Pending(list, current).Ok? <==> exists k :: 0 <= k <= |list| && current == VersionAt(list, k)
  {
    if Pending(list, current).Ok? {
      if current == Latest(list) {
        assert current == VersionAt(list, |list|);
      } else {
        var i := PositionFrom(list, current, 0).value;
        FromIsVersion(list, i);
      }
    } else if k :| 0 <= k <= |list| && current == VersionAt(list, k) {
      PendingIsRest(list, k);
    }
  }

  // ----- the runner

  datatype Fault = NoFault | AtBegin | AtSql | AtStamp | AtCommit

  /** One transaction: all of a step and its stamp, or nothing. A stamp needs its table. */
  function RunStep<S>(db: Db<S>, m: Migration<S>, fault: Fault): Result<Db<S>, Error> {
    if fault == NoFault && (m.createsMeta || db.meta != NoTable) then
      Ok(Db(m.up(db.schema), Version(Text(Decimal(m.to)))))
    else Err(StatementFailed)
  }

  /** What is committed after these steps, and how the run ends; `faults(i)` strikes step `i`. */
  function RunSteps<S>(db: Db<S>, steps: seq<Migration<S>>, i: nat, faults: nat -> Fault): (Db<S>, Result<(), Error>)
    decreases |steps|
  {
    if steps == [] then (db, Ok(()))
    else
      match RunStep(db, steps[0], faults(i))
      case Err(e) => (db, Err(e))
      case Ok(next) => RunSteps(next, steps[1..], i + 1, faults)
  }

  /** `applyMigrations`. */
  function Apply<S>(db: Db<S>, list: seq<Migration<S>>, faults: nat -> Fault): (Db<S>, Result<(), Error>)
    requires list != []
  {
    match InstalledVersion(db.meta)
    case Err(e) => (db, Err(e))
    case Ok(installed) =>
      match Pending(list, installed)
      case Err(e) => (db, Err(e))
      case Ok(steps) => RunSteps(db, steps, 0, faults)
  }

  /** The database as the runner sees it: what is committed, and an open transaction. */
  class Database<S> {
    var committed: Db<S>
    var open: Option<Db<S>>

    constructor (db: Db<S>)
      ensures committed == db && open.None?
    {
      committed, open := db, None;
    }

    method Begin(fault: bool) returns (ok: bool)
      modifies this`open
      ensures ok == !fault && open == if ok then Some(committed) else old(open)
    {
      if !fault { open := Some(committed); }
      return !fault;
    }

    /** The step's SQL; a fault leaves it half done. */
    method Exec(m: Migration<S>, fault: bool) returns (ok: bool)
      requires open.Some?
      modifies this`open
      ensures ok == !fault && open.Some?
      ensures ok ==>
        open == Some(Db(m.up(old(open).value.schema),
          if m.createsMeta && old(open).value.meta == NoTable then NoVersion else old(open).value.meta))
    {
      var meta := if m.createsMeta && open.value.meta == NoTable && !fault then NoVersion else open.value.meta;
      open := Some(Db(m.up(open.value.schema), meta));
      return !fault;
    }

    method Stamp(version: nat, fault: bool) returns (ok: bool)
      requires open.Some?
      modifies this`open
      ensures ok == (!fault && old(open).value.meta != NoTable) && open.Some?
      ensures ok ==> open == Some(old(open).value.(meta := Version(Text(Decimal(version)))))
    {
      if fault || open.value.meta == NoTable { return false; }
      open := Some(open.value.(meta := Version(Text(Decimal(version)))));
      return true;
    }

    method Commit(fault: bool) returns (ok: bool)
      requires open.Some?
      modifies this
      ensures ok == !fault
      ensures ok ==> open.None? && committed == old(open).value
      ensures !ok ==> open == old(open) && committed == old(committed)
    {
      if fault { return false; }
      committed, open := open.value, None;
      return true;
    }

    method Rollback()
      modifies this`open
      ensures open.None?
    {
      open := None;
    }
  }

  /** One turn of the loop: BEGIN, the SQL, the stamp, COMMIT; ROLLBACK if any of the last three fails. */
  method ApplyOne<S>(db: Database<S>, m: Migration<S>, fault: Fault) returns (r: Result<(), Error>)
    requires db.open.None?
    modifies db
    ensures db.open.None?
    ensures match RunStep(old(db.committed), m, fault)
            case Err(e) => r == Err(e) && db.committed == old(db.committed)
            case Ok(next) => r == Ok(()) && db.committed == next
  {
    var ok := db.Begin(fault == AtBegin);
    if !ok { return Err(StatementFailed); }
    ok := db.Exec(m, fault == AtSql);
    if ok { ok := db.Stamp(m.to, fault == AtStamp); }
    if ok { ok := db.Commit(fault == AtCommit); }
    if !ok {
      db.Rollback();
      return Err(StatementFailed);
    }
    return Ok(());
  }

  method ApplyMigrations<S>(db: Database<S>, list: seq<Migration<S>>, faults: nat -> Fault)
    returns (r: Result<(), Error>)
    requires list != [] && db.open.None?
    modifies db
    ensures db.open.None? && (db.committed, r) == Apply(old(db.committed), list, faults)
  {
    var installed := InstalledVersion(db.committed.meta);
    if installed.Err? { return Err(installed.error); }
    var pending := Pending(list, installed.value);
    if pending.Err? { return Err(pending.error); }
    var steps := pending.value;
    var i := 0;
    while i < |steps|
      invariant 0 <= i <= |steps| && db.open.None?
      invariant RunSteps(db.committed, steps[i..], i, faults) == RunSteps(old(db.committed), steps, 0, faults)
    {
      var done := ApplyOne(db, steps[i], faults(i));
      if done.Err? { return Err(done.error); }
      assert steps[i..][1..] == steps[i + 1..];
      i := i + 1;
    }
    return Ok(());
  }

  // ----- what the runner promises

  function Applied<S>(s: S, steps: seq<Migration<S>>, k: nat): S
    requires k <= |steps|
  {
    if k == 0 then s else steps[k - 1].up(Applied(s, steps, k - 1))
  }

  /** The database after exactly the first `k` steps on an empty one, with the matching stamp. */
  function Prefix<S>(list: seq<Migration<S>>, empty: S, k: nat): Db<S>
    requires k <= |list|
  {
    Db(Applied(empty, list, k), if k == 0 then NoTable else Version(Text(Decimal(list[k - 1].to))))
  }

  lemma PrefixVersion<S>(list: seq<Migration<S>>, empty: S, k: nat)
    requires k <= |list|
    ensures InstalledVersion(Prefix(list, empty, k).meta) == Ok(VersionAt(list, k))
  {
    if k > 0 { StampRoundTrip(list[k - 1].to); }
  }

  /** The first step at or after `i` that a fault strikes, or the end. */
  function Reached(n: nat, i: nat, faults: nat -> Fault, k: nat): (r: nat)
    requires k <= n
    ensures k <= r <= n
    decreases n - k
  {
    if k == n || faults(i) != NoFault then k else Reached(n, i + 1, faults, k + 1)
  }

  lemma {:induction false} StepsFromPrefix<S>(list: seq<Migration<S>>, empty: S, k: nat, i: nat, faults: nat -> Fault)
    requires Chain(list) && k <= |list|
    ensures var end := Reached(|list|, i, faults, k);
      RunSteps(Prefix(list, empty, k), list[k..], i, faults)
      == (Prefix(list, empty, end), if end == |list| then Ok(()) else Err(StatementFailed))
    decreases |list| - k
  {
    if k < |list| && faults(i) == NoFault {
      assert list[k..][0] == list[k] && list[k..][1..] == list[k + 1..];
      assert RunStep(Prefix(list, empty, k), list[k], faults(i)) == Ok(Prefix(list, empty, k + 1));
      StepsFromPrefix(list, empty, k + 1, i + 1, faults);
    }
  }

  /** A run on the state after `k` steps ends in the state after some `k' >= k` steps: all of them,
      and successfully, exactly when no fault strikes. */
  lemma RunKeepsPrefix<S>(list: seq<Migration<S>>, empty: S, k: nat, faults: nat -> Fault)
    requires Chain(list) && k <= |list|
    ensures var end := Reached(|list|, 0, faults, k);
      Apply(Prefix(list, empty, k), list, faults)
      == (Prefix(list, empty, end), if end == |list| then Ok(()) else Err(StatementFailed))
  {
    PrefixVersion(list, empty, k);
    PendingIsRest(list, k);
    StepsFromPrefix(list, empty, k, 0, faults);
  }

  /** The database after a sequence of runs, each with its own faults. */
  ghost function Retried<S>(db: Db<S>, list: seq<Migration<S>>, runs: seq<nat -> Fault>): Db<S>
    requires list != []
  {
    if runs == [] then db else Apply(Retried(db, list, runs[..|runs| - 1]), list, runs[|runs| - 1]).0
  }

  /** Whatever fails and however often it is retried, the database is the state after a prefix. */
  lemma {:induction false} RetriesKeepPrefix<S>(list: seq<Migration<S>>, empty: S, runs: seq<nat -> Fault>)
    requires Chain(list)
    ensures exists k :: 0 <= k <= |list| && Retried(Prefix(list, empty, 0), list, runs) == Prefix(list, empty, k)
  {
    if runs == [] {
      assert Retried(Prefix(list, empty, 0), list, runs) == Prefix(list, empty, 0);
    } else {
      var front := runs[..|runs| - 1];
      RetriesKeepPrefix(list, empty, front);
      var k :| 0 <= k <= |list| && Retried(Prefix(list, empty, 0), list, front) == Prefix(list, empty, k);
      RunKeepsPrefix(list, empty, k, runs[|runs| - 1]);
    }
  }

  lemma {:induction false} ReachedEnd(n: nat, i: nat, k: nat)
    requires k <= n
    ensures Reached(n, i, j => NoFault, k) == n
    decreases n - k
  {
    if k < n { ReachedEnd(n, i + 1, k + 1); }
  }

  /** A run that finishes, after any failures, leaves what one uninterrupted run would have; and
      running again changes nothing. */
  lemma FinishedRetryIsUninterrupted<S>(list: seq<Migration<S>>, empty: S, runs: seq<nat -> Fault>,
    faults: nat -> Fault, again: nat -> Fault)
    requires Chain(list) && Apply(Retried(Prefix(list, empty, 0), list, runs), list, faults).1 == Ok(())
    ensures var done := Apply(Retried(Prefix(list, empty, 0), list, runs), list, faults).0;
      && done == Apply(Prefix(list, empty, 0), list, i => NoFault).0
      && Apply(done, list, again) == (done, Ok(()))
  {
    RetriesKeepPrefix(list, empty, runs);
    var k :| 0 <= k <= |list| && Retried(Prefix(list, empty, 0), list, runs) == Prefix(list, empty, k);
    RunKeepsPrefix(list, empty, k, faults);
    RunKeepsPrefix(list, empty, 0, i => NoFault);
    ReachedEnd(|list|, 0, 0);
    RunKeepsPrefix(list, empty, |list|, again);
  }

  // ----- which cells are versions

  /** A cell no version can be read from: text that is empty or not all digits, anything negative, a
      fraction, any other value. */
  predicate Corrupt(cell: Cell) {
    || (cell.Number? && cell.value < 0)
    || (cell.BigInt? && cell.value < 0)
    || (cell.Text? && (cell.text == "" || exists i :: 0 <= i < |cell.text| && !('0' <= cell.text[i] <= '9')))
    || cell.Fraction? || cell.OtherValue?
  }

  function Zeros(n: nat): (r: string)
    ensures |r| == n && AllDigits(r)
  {
    if n == 0 then "" else Zeros(n - 1) + "0"
  }

  ghost predicate Padded(s: string, n: nat) {
    exists k: nat :: s == Zeros(k) + Decimal(n)
  }

  /** A number, big or not, stands for itself; text for the number whose decimal form it is, up to
      leading zeros. */
  ghost predicate Denotes(cell: Cell, n: nat) {
    || cell == Number(n)
    || cell == BigInt(n)
    || (cell.Text? && Padded(cell.text, n))
  }

  lemma ParsePush(s: string, d: nat)
    requires AllDigits(s) && d < 10
    ensures AllDigits(s + [Digit(d)]) && Parse(s + [Digit(d)]) == Parse(s) * 10 + d
  {
    assert (s + [Digit(d)])[..|s|] == s;
  }

  lemma {:induction false} ParseZeros(k: nat)
    ensures Parse(Zeros(k)) == 0
  {
    if k > 0 {
      ParseZeros(k - 1);
      ParsePush(Zeros(k - 1), 0);
    }
  }

  lemma {:induction false} ParsePadded(k: nat, n: nat)
    ensures AllDigits(Zeros(k) + Decimal(n)) && Parse(Zeros(k) + Decimal(n)) == n
    decreases n
  {
    if n < 10 {
      ParseZeros(k);
      ParsePush(Zeros(k), n);
    } else {
      ParsePadded(k, n / 10);
      ParsePush(Zeros(k) + Decimal(n / 10), n % 10);
      assert Zeros(k) + Decimal(n) == (Zeros(k) + Decimal(n / 10)) + [Digit(n % 10)];
    }
  }

  /** Every digit string is the decimal form of what it parses to, with zeros in front. */
  lemma {:induction false} PaddedDecimal(s: string) returns (k: nat)
    requires s != "" && AllDigits(s)
    ensures s == Zeros(k) + Decimal(Parse(s))
  {
    var front, d := s[..|s| - 1], (s[|s| - 1] - '0') as nat;
    assert s == front + [Digit(d)];
    if front == "" {
      k := 0;
      assert Parse(s) == d;
    } else {
      k := PaddedDecimal(front);
      if Parse(front) == 0 {
        assert Decimal(0) == "0" && Parse(s) == d;
        k := k + 1;
        assert Zeros(k) == Zeros(k - 1) + "0";
      } else {
        assert Parse(s) / 10 == Parse(front) && Parse(s) % 10 == d;
      }
    }
  }

  /** A version cell is read as the number it denotes, and refused exactly when it is corrupt. */
  lemma CellReadExactly(cell: Cell, n: nat)
    ensures InstalledVersion(Version(cell)) == Ok(n) <==> Denotes(cell, n)
    ensures InstalledVersion(Version(cell)) == Err(CorruptVersion) <==> Corrupt(cell)
  {
    if cell.Text? {
      TextReadExactly(cell.text, n);
    }
  }

  lemma TextReadExactly(s: string, n: nat)
    ensures s != "" && AllDigits(s) && Parse(s) == n <==> Padded(s, n)
  {
    if s != "" && AllDigits(s) && Parse(s) == n {
      var k := PaddedDecimal(s);
    }
    if k: nat :| s == Zeros(k) + Decimal(n) {
      ParsePadded(k, n);
    }
  }

  /** A corrupt cell stops the runner before it touches the database. */
  lemma CorruptRefused<S>(list: seq<Migration<S>>, schema: S, cell: Cell, faults: nat -> Fault)
    requires Chain(list) && Corrupt(cell)
    ensures Apply(Db(schema, Version(cell)), list, faults) == (Db(schema, Version(cell)), Err(CorruptVersion))
  {
    CellReadExactly(cell, 0);
  }

  /** A database whose cell denotes the version after `k` steps is given exactly the others, whichever
      way the version is written; no table and no version row stand for version 0. */
  lemma VersionDecides<S>(list: seq<Migration<S>>, schema: S, meta: Meta, k: nat, faults: nat -> Fault)
    requires Chain(list) && k <= |list|
    requires if meta.Version? then Denotes(meta.cell, VersionAt(list, k)) else k == 0
    ensures Apply(Db(schema, meta), list, faults) == RunSteps(Db(schema, meta), list[k..], 0, faults)
  {
    if meta.Version? { CellReadExactly(meta.cell, VersionAt(list, k)); }
    PendingIsRest(list, k);
  }

  /** A version no prefix reaches is refused, however it is written, and the database left alone. */
  lemma StrangerRefused<S>(list: seq<Migration<S>>, schema: S, cell: Cell, n: nat, faults: nat -> Fault)
    requires Chain(list) && Denotes(cell, n) && forall k :: 0 <= k <= |list| ==> n != VersionAt(list, k)
    ensures Apply(Db(schema, Version(cell)), list, faults)
      == (Db(schema, Version(cell)), Err(UnknownSchemaVersion(n, Latest(list))))
  {
    CellReadExactly(cell, n);
    PendingRefuses(list, n);
  }
}
