/**
 The notes table and its keyset pages (packages/storage/src/note-repository.ts).

 SQL is modelled as filter, sort and take over a finite map. A row id is the number its
 16 bytes spell: BLOBs of one length compare like those numbers.
 */
module NoteTable {
  import opened Common

  type Id = nat

  /** A row without its id; `payload` stands for the nonces and ciphertexts. */
  datatype Cell = Cell(day: int, archived: bool, payload: int)

  type Table = map<Id, Cell>

  datatype Note = Note(id: Id, cell: Cell)

  /** The sort key `(updated_day, id)`, which is also the cursor. */
  datatype Key = Key(day: int, id: Id)

  function KeyOf(n: Note): Key {
    Key(n.cell.day, n.id)
  }

  predicate Below(a: Key, b: Key) {
    a.day < b.day || (a.day == b.day && a.id < b.id)
  }

  function At(t: Table, id: Id): Key
    requires id in t
  {
    Key(t[id].day, id)
  }

  /** The `WHERE` clause: the archived filter and `cursorWhere`. */
  predicate Selected(t: Table, includeArchived: bool, cursor: Option<Key>, id: Id) {
    && id in t
    && (includeArchived || !t[id].archived)
    && (cursor.Some? ==> Below(At(t, id), cursor.value))
  }

  function Matching(t: Table, includeArchived: bool, cursor: Option<Key>): set<Id> {
    set id | id in t && Selected(t, includeArchived, cursor, id)
  }

  // ----- ORDER BY updated_day DESC, id DESC

  ghost predicate IsLatest(t: Table, ids: set<Id>, m: Id)
    requires ids <= t.Keys
  {
    m in ids && forall i :: i in ids ==> i == m || Below(At(t, i), At(t, m))
  }

  lemma {:induction false} LatestExists(t: Table, ids: set<Id>)
    requires ids <= t.Keys && ids != {}
    ensures exists m :: IsLatest(t, ids, m)
    decreases |ids|
  {
    var x :| x in ids;
    var rest := ids - {x};
    if rest == {} {
      assert ids == {x};
      assert IsLatest(t, ids, x);
    } else {
      LatestExists(t, rest);
      var m :| IsLatest(t, rest, m);
      assert IsLatest(t, ids, if Below(At(t, m), At(t, x)) then x else m);
    }
  }

  function Latest(t: Table, ids: set<Id>): (m: Id)
    requires ids <= t.Keys && ids != {}
    ensures IsLatest(t, ids, m)
  {
    LatestExists(t, ids);
    var m :| m in ids && forall i :: i in ids ==> i == m || Below(At(t, i), At(t, m));
    m
  }

  function Descending(t: Table, ids: set<Id>): (s: seq<Id>)
    requires ids <= t.Keys
    ensures |s| == |ids| && forall k :: 0 <= k < |s| ==> s[k] in ids
    decreases |ids|
  {
    if ids == {} then []
    else
      var m := Latest(t, ids);
      assert |ids - {m}| == |ids| - 1;
      [m] + Descending(t, ids - {m})
  }

  ghost predicate Sorted(t: Table, s: seq<Id>) {
    && (forall i :: 0 <= i < |s| ==> s[i] in t)
    && forall i, j :: 0 <= i < j < |s| ==> Below(At(t, s[j]), At(t, s[i]))
  }

  /** Where the listing holds `id`. */
  lemma {:induction false} IndexIn(t: Table, ids: set<Id>, id: Id) returns (k: nat)
    requires ids <= t.Keys && id in ids
    ensures k < |ids| && Descending(t, ids)[k] == id
    decreases |ids|
  {
    var m := Latest(t, ids);
    if id == m {
      k := 0;
    } else {
      k := IndexIn(t, ids - {m}, id);
      k := k + 1;
    }
  }

  lemma {:induction false} DescendingSorted(t: Table, ids: set<Id>)
    requires ids <= t.Keys
    ensures Sorted(t, Descending(t, ids))
    decreases |ids|
  {
    if ids != {} {
      var m := Latest(t, ids);
      var rest := Descending(t, ids - {m});
      DescendingSorted(t, ids - {m});
      assert forall j :: 0 <= j < |rest| ==> rest[j] in ids - {m};
    }
  }

  function Elements(s: seq<Id>): set<Id> {
    set i | i in s
  }

  lemma SortedHead(t: Table, s: seq<Id>)
    requires Sorted(t, s) && s != []
    ensures Elements(s) <= t.Keys && IsLatest(t, Elements(s), s[0])
    ensures Elements(s) - {s[0]} == Elements(s[1..])
  {
    var ids := Elements(s);
    forall i | i in ids ensures i == s[0] || Below(At(t, i), At(t, s[0])) {
      var k :| 0 <= k < |s| && s[k] == i;
    }
    assert s[0] !in s[1..];
  }

  lemma SortedTail(t: Table, s: seq<Id>)
    requires Sorted(t, s) && s != []
    ensures Sorted(t, s[1..])
  {
    assert forall k :: 0 <= k < |s| - 1 ==> s[1..][k] == s[k + 1];
  }

  lemma DescendingStep(t: Table, ids: set<Id>, m: Id)
    requires ids <= t.Keys && IsLatest(t, ids, m)
    ensures Descending(t, ids) == [m] + Descending(t, ids - {m})
  {
    OneLatest(t, ids, m, Latest(t, ids));
  }

  /** There is one descending listing: any sorted sequence is the listing of its elements. */
  lemma {:induction false} DescendingUnique(t: Table, s: seq<Id>)
    requires Sorted(t, s)
    ensures Elements(s) <= t.Keys && s == Descending(t, Elements(s))
  {
    if s != [] {
      SortedHead(t, s);
      SortedTail(t, s);
      DescendingUnique(t, s[1..]);
      DescendingStep(t, Elements(s), s[0]);
      assert s == [s[0]] + s[1..];
    }
  }

  lemma OneLatest(t: Table, ids: set<Id>, a: Id, b: Id)
    requires ids <= t.Keys && IsLatest(t, ids, a) && IsLatest(t, ids, b)
    ensures a == b
  {
  }

  // ----- one page

  const LIST_LIMIT_MIN := 1
  const LIST_LIMIT_MAX := 200

  function Clamp(limit: int): nat {
    var capped := if limit < LIST_LIMIT_MAX then limit else LIST_LIMIT_MAX;
    if LIST_LIMIT_MIN < capped then capped else LIST_LIMIT_MIN
  }

  datatype Page = Page(rows: seq<Note>, nextCursor: Option<Key>)

  function Notes(t: Table, ids: seq<Id>): (r: seq<Note>)
    requires forall i :: 0 <= i < |ids| ==> ids[i] in t
    ensures |r| == |ids| && forall i :: 0 <= i < |ids| ==> r[i] == Note(ids[i], t[ids[i]])
  {
    seq(|ids|, i requires 0 <= i < |ids| => Note(ids[i], t[ids[i]]))
  }

  /** The page of a sorted listing: `LIMIT n + 1`, of which the first `n` rows are kept and one
      more means overflow. */
  function PageOf(t: Table, sorted: seq<Id>, n: nat): Page
    requires forall i :: 0 <= i < |sorted| ==> sorted[i] in t
  {
    var raw := if |sorted| > n + 1 then sorted[..n + 1] else sorted;
    var rows := Notes(t, if |raw| > n then raw[..n] else raw);
    var overflow := |raw| > n;
    Page(rows, if overflow && rows != [] then Some(KeyOf(rows[|rows| - 1])) else None)
  }

  function List(t: Table, includeArchived: bool, cursor: Option<Key>, limit: int): Page {
    PageOf(t, Descending(t, Matching(t, includeArchived, cursor)), Clamp(limit))
  }

  ghost predicate DescendingNotes(s: seq<Note>) {
    forall i, j :: 0 <= i < j < |s| ==> Below(KeyOf(s[j]), KeyOf(s[i]))
  }

  /** Is `n` a row of the table that the page must hold: selected, and not left for a later page? */
  ghost predicate OnPage(t: Table, includeArchived: bool, cursor: Option<Key>, p: Page, n: Note) {
    && Selected(t, includeArchived, cursor, n.id) && n.cell == t[n.id]
    && (p.nextCursor.Some? ==> !Below(KeyOf(n), p.nextCursor.value))
  }

  /** The page is the first `n` rows of the listing; a next cursor is the key of the last of them
      and means the listing goes on. */
  lemma PageOfIsPrefix(t: Table, sorted: seq<Id>, n: nat)
    requires n > 0 && forall i :: 0 <= i < |sorted| ==> sorted[i] in t
    ensures var p := PageOf(t, sorted, n);
      && |p.rows| == (if |sorted| > n then n else |sorted|)
      && (forall i :: 0 <= i < |p.rows| ==> p.rows[i] == Note(sorted[i], t[sorted[i]]))
      && (p.nextCursor.Some? <==> |sorted| > n)
      && (p.nextCursor.Some? ==> p.nextCursor.value == At(t, sorted[n - 1]))
  {
  }

  /** In a sorted listing the next cursor separates the rows of the page from the rest. */
  lemma PageOfSplits(t: Table, sorted: seq<Id>, n: nat)
    requires n > 0 && Sorted(t, sorted)
    ensures var p := PageOf(t, sorted, n);
      && DescendingNotes(p.rows)
      && forall k :: 0 <= k < |sorted| ==>
           (k < |p.rows| <==> p.nextCursor.None? || !Below(At(t, sorted[k]), p.nextCursor.value))
  {
    PageOfIsPrefix(t, sorted, n);
  }

  /** A page holds exactly the selected rows down to its next cursor, in strictly descending
      order; a next cursor is the key of the last row and means more rows follow. */
  lemma PageExact(t: Table, includeArchived: bool, cursor: Option<Key>, limit: int)
    ensures var p := List(t, includeArchived, cursor, limit);
      && DescendingNotes(p.rows) && |p.rows| <= Clamp(limit)
      && (forall n :: n in p.rows <==> OnPage(t, includeArchived, cursor, p, n))
      && (p.nextCursor.Some? ==>
            && |p.rows| == Clamp(limit) && p.nextCursor.value == KeyOf(p.rows[|p.rows| - 1])
            && exists id :: Selected(t, includeArchived, cursor, id) && Below(At(t, id), p.nextCursor.value))
  {
    var ids := Matching(t, includeArchived, cursor);
    var sorted := Descending(t, ids);
    DescendingSorted(t, ids);
    PageOfIsPrefix(t, sorted, Clamp(limit));
    PageOfSplits(t, sorted, Clamp(limit));
    var n, p := Clamp(limit), PageOf(t, sorted, Clamp(limit));
    forall x | OnPage(t, includeArchived, cursor, p, x) ensures x in p.rows {
      var k := IndexIn(t, ids, x.id);
      assert p.rows[k] == x;
    }
    forall k | 0 <= k < |p.rows| ensures OnPage(t, includeArchived, cursor, p, p.rows[k]) {
      assert sorted[k] in ids;
    }
    if p.nextCursor.Some? {
      assert sorted[n] in ids && Below(At(t, sorted[n]), p.nextCursor.value);
    }
  }

  /** Which rows a page may hold, read off the table: archived ones only if asked for, and only what
      comes after the cursor, newest day first and then highest id. */
  lemma RowsMean(t: Table, includeArchived: bool, cursor: Option<Key>, limit: int, n: Note)
    requires n in List(t, includeArchived, cursor, limit).rows
    ensures n.id in t && t[n.id] == n.cell && (n.cell.archived ==> includeArchived)
    ensures cursor.Some? ==> n.cell.day < cursor.value.day || (n.cell.day == cursor.value.day && n.id < cursor.value.id)
  {
    PageExact(t, includeArchived, cursor, limit);
  }

  /** How many rows: as many as match, up to the limit asked, which is taken to be from 1 to 200. */
  lemma PageSize(t: Table, includeArchived: bool, cursor: Option<Key>, limit: int)
    ensures var count, rows := |Matching(t, includeArchived, cursor)|, List(t, includeArchived, cursor, limit).rows;
      && (count == 0 ==> rows == [])
      && (limit <= 1 <= count ==> |rows| == 1)
      && (1 <= limit <= 200 ==> |rows| == if count < limit then count else limit)
      && (limit >= 200 ==> |rows| == if count < 200 then count else 200)
  {
    var sorted := Descending(t, Matching(t, includeArchived, cursor));
    DescendingSorted(t, Matching(t, includeArchived, cursor));
    PageOfIsPrefix(t, sorted, Clamp(limit));
  }
}
