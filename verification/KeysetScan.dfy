/**
 `loadAllNotes` (packages/state/src/notes-store.ts): a cursor scan whose pages are separate
 requests, so any writes at all may happen between them. `views[i]` is the table as page `i`
 finds it; nothing relates one view to the next unless a lemma says so.
 */
module KeysetScan {
  import opened Common
  import opened NoteTable

  const PAGE_SIZE := 200
  const MAX_PAGES := 200

  datatype LoadError = TooManyNotes

  /** The scan from page `i` on, with `cursor` the key it has got down to. */
  function ScanFrom(views: seq<Table>, includeArchived: bool, i: nat, cursor: Option<Key>): Result<seq<Note>, LoadError>
    requires i <= |views|
    decreases |views| - i
  {
    if i == |views| then Err(TooManyNotes)
    else
      var page := List(views[i], includeArchived, cursor, PAGE_SIZE);
      if page.nextCursor.None? then Ok(page.rows)
      else Prepend(page.rows, ScanFrom(views, includeArchived, i + 1, page.nextCursor))
  }

  /** How many pages that scan reads. */
  function PagesRead(views: seq<Table>, includeArchived: bool, i: nat, cursor: Option<Key>): (n: nat)
    requires i <= |views|
    ensures i + n <= |views|
    decreases |views| - i
  {
    if i == |views| then 0
    else
      var page := List(views[i], includeArchived, cursor, PAGE_SIZE);
      if page.nextCursor.None? then 1 else 1 + PagesRead(views, includeArchived, i + 1, page.nextCursor)
  }

  /** The loop as written, one `await` per page. */
  method LoadAllNotes(views: seq<Table>, includeArchived: bool) returns (r: Result<seq<Note>, LoadError>)
    requires |views| == MAX_PAGES
    ensures r == ScanFrom(views, includeArchived, 0, None)
  {
    var collected: seq<Note> := [];
    var cursor: Option<Key> := None;
    ghost var whole := ScanFrom(views, includeArchived, 0, None);
    PrependNone(whole);
    for i := 0 to MAX_PAGES
      invariant whole == Prepend(collected, ScanFrom(views, includeArchived, i, cursor))
    {
      var page := List(views[i], includeArchived, cursor, PAGE_SIZE);
      ScanTurn(views, includeArchived, i, cursor, collected);
      collected := collected + page.rows;
      if page.nextCursor.None? { return Ok(collected); }
      cursor := page.nextCursor;
    }
    return Err(TooManyNotes);
  }

  /** One turn of the loop. */
  lemma ScanTurn(views: seq<Table>, includeArchived: bool, i: nat, cursor: Option<Key>, collected: seq<Note>)
    requires i < |views|
    ensures var page := List(views[i], includeArchived, cursor, PAGE_SIZE);
      Prepend(collected, ScanFrom(views, includeArchived, i, cursor)) ==
        if page.nextCursor.None? then Ok(collected + page.rows)
        else Prepend(collected + page.rows, ScanFrom(views, includeArchived, i + 1, page.nextCursor))
  {
    var page := List(views[i], includeArchived, cursor, PAGE_SIZE);
    if page.nextCursor.Some? {
      PrependTwice(collected, page.rows, ScanFrom(views, includeArchived, i + 1, page.nextCursor));
    }
  }

  function Prepend(head: seq<Note>, r: Result<seq<Note>, LoadError>): Result<seq<Note>, LoadError> {
    match r
    case Ok(rest) => Ok(head + rest)
    case Err(e) => Err(e)
  }

  lemma PrependNone(r: Result<seq<Note>, LoadError>)
    ensures Prepend([], r) == r
  {
    if r.Ok? { assert [] + r.value == r.value; }
  }

  lemma PrependTwice(a: seq<Note>, b: seq<Note>, r: Result<seq<Note>, LoadError>)
    ensures Prepend(a, Prepend(b, r)) == Prepend(a + b, r)
  {
    if r.Ok? { assert a + (b + r.value) == (a + b) + r.value; }
  }

  // ----- under arbitrary concurrent writes

  ghost predicate AllBelow(s: seq<Note>, cursor: Option<Key>) {
    cursor.Some? ==> forall i :: 0 <= i < |s| ==> Below(KeyOf(s[i]), cursor.value)
  }

  /** A completed scan lists strictly descending keys, so no key twice. */
  lemma {:induction false} ScanDescends(views: seq<Table>, includeArchived: bool, i: nat, cursor: Option<Key>)
    requires i <= |views| && ScanFrom(views, includeArchived, i, cursor).Ok?
    ensures var rows := ScanFrom(views, includeArchived, i, cursor).value;
      DescendingNotes(rows) && AllBelow(rows, cursor)
    decreases |views| - i
  {
    var page := List(views[i], includeArchived, cursor, PAGE_SIZE);
    PageExact(views[i], includeArchived, cursor, PAGE_SIZE);
    PageAllBelow(views[i], includeArchived, cursor);
    if page.nextCursor.Some? {
      ScanDescends(views, includeArchived, i + 1, page.nextCursor);
      var rest := ScanFrom(views, includeArchived, i + 1, page.nextCursor).value;
      JoinDescending(page.rows, rest, page.nextCursor.value, cursor);
    }
  }

  lemma PageAllBelow(t: Table, includeArchived: bool, cursor: Option<Key>)
    ensures AllBelow(List(t, includeArchived, cursor, PAGE_SIZE).rows, cursor)
  {
    PageExact(t, includeArchived, cursor, PAGE_SIZE);
    var p := List(t, includeArchived, cursor, PAGE_SIZE);
    assert forall k :: 0 <= k < |p.rows| ==> p.rows[k] in p.rows;
  }

  lemma JoinDescending(head: seq<Note>, rest: seq<Note>, next: Key, cursor: Option<Key>)
    requires DescendingNotes(head) && DescendingNotes(rest)
    requires head != [] && KeyOf(head[|head| - 1]) == next && AllBelow(rest, Some(next)) && AllBelow(head, cursor)
    ensures DescendingNotes(head + rest) && AllBelow(head + rest, cursor)
  {
    forall k | 0 <= k < |head| ensures k == |head| - 1 || Below(next, KeyOf(head[k])) { }
  }

  /** A note that every page the scan reads would find unchanged and selected. */
  ghost predicate Stable(views: seq<Table>, includeArchived: bool, i: nat, n: nat, x: Note)
    requires i + n <= |views|
  {
    forall k :: i <= k < i + n ==> Selected(views[k], includeArchived, None, x.id) && views[k][x.id] == x.cell
  }

  /** A completed scan misses no row that stayed put while it ran. With `ScanDescends` it is
      listed exactly once. */
  lemma {:induction false} ScanFindsStable(views: seq<Table>, includeArchived: bool, i: nat, cursor: Option<Key>,
      x: Note)
    requires i <= |views| && ScanFrom(views, includeArchived, i, cursor).Ok?
    requires Stable(views, includeArchived, i, PagesRead(views, includeArchived, i, cursor), x)
    requires cursor.Some? ==> Below(KeyOf(x), cursor.value)
    ensures x in ScanFrom(views, includeArchived, i, cursor).value
    decreases |views| - i
  {
    var page := List(views[i], includeArchived, cursor, PAGE_SIZE);
    PageExact(views[i], includeArchived, cursor, PAGE_SIZE);
    assert Selected(views[i], includeArchived, None, x.id) && views[i][x.id] == x.cell;
    if page.nextCursor.Some? && Below(KeyOf(x), page.nextCursor.value) {
      ScanFindsStable(views, includeArchived, i + 1, page.nextCursor, x);
    } else {
      assert OnPage(views[i], includeArchived, cursor, page, x);
      assert x in page.rows;
    }
  }

  /** Everything listed was a selected row of a table some page found. */
  ghost predicate SeenBy(views: seq<Table>, includeArchived: bool, i: nat, n: nat, x: Note)
    requires i + n <= |views|
  {
    exists k :: i <= k < i + n && Selected(views[k], includeArchived, None, x.id) && views[k][x.id] == x.cell
  }

  lemma {:induction false} ScanInventsNothing(views: seq<Table>, includeArchived: bool, i: nat, cursor: Option<Key>,
      x: Note)
    requires i <= |views| && ScanFrom(views, includeArchived, i, cursor).Ok?
    requires x in ScanFrom(views, includeArchived, i, cursor).value
    ensures SeenBy(views, includeArchived, i, PagesRead(views, includeArchived, i, cursor), x)
    decreases |views| - i
  {
    var page := List(views[i], includeArchived, cursor, PAGE_SIZE);
    PageExact(views[i], includeArchived, cursor, PAGE_SIZE);
    if x in page.rows {
      assert Selected(views[i], includeArchived, None, x.id) && views[i][x.id] == x.cell;
    } else {
      ScanInventsNothing(views, includeArchived, i + 1, page.nextCursor, x);
      var n := PagesRead(views, includeArchived, i + 1, page.nextCursor);
      var k :| i + 1 <= k < i + 1 + n && Selected(views[k], includeArchived, None, x.id) && views[k][x.id] == x.cell;
    }
  }

  /** So a row that stayed put is listed exactly once, and its note under no other row. */
  lemma StableListedOnce(views: seq<Table>, includeArchived: bool, i: nat, cursor: Option<Key>, x: Note)
    requires i <= |views| && ScanFrom(views, includeArchived, i, cursor).Ok?
    requires Stable(views, includeArchived, i, PagesRead(views, includeArchived, i, cursor), x)
    requires cursor.Some? ==> Below(KeyOf(x), cursor.value)
    ensures var rows := ScanFrom(views, includeArchived, i, cursor).value;
      exists k :: 0 <= k < |rows| && rows[k] == x && forall j :: 0 <= j < |rows| && rows[j].id == x.id ==> j == k
  {
    var rows := ScanFrom(views, includeArchived, i, cursor).value;
    ScanFindsStable(views, includeArchived, i, cursor, x);
    ScanDescends(views, includeArchived, i, cursor);
    var k :| 0 <= k < |rows| && rows[k] == x;
    forall j | 0 <= j < |rows| && rows[j].id == x.id ensures j == k {
      assert rows[j] in rows;
      ScanInventsNothing(views, includeArchived, i, cursor, rows[j]);
      assert rows[j] == x;
    }
  }

  /** No note moves to an earlier day while the scan runs. */
  ghost predicate DaysNeverGoBack(views: seq<Table>) {
    forall j, k, id :: 0 <= j < k < |views| && id in views[j] && id in views[k] ==> views[j][id].day <= views[k][id].day
  }

  ghost predicate DistinctIds(s: seq<Note>) {
    forall i, j :: 0 <= i < j < |s| ==> s[i].id != s[j].id
  }

  /** When no day goes back while the scan runs, each note is listed once. */
  lemma {:induction false} ScanListsEachNoteOnce(views: seq<Table>, includeArchived: bool, i: nat, cursor: Option<Key>)
    requires i <= |views| && ScanFrom(views, includeArchived, i, cursor).Ok? && DaysNeverGoBack(views)
    ensures DistinctIds(ScanFrom(views, includeArchived, i, cursor).value)
    decreases |views| - i
  {
    var page := List(views[i], includeArchived, cursor, PAGE_SIZE);
    PageExact(views[i], includeArchived, cursor, PAGE_SIZE);
    PageDistinct(views[i], includeArchived, cursor);
    if page.nextCursor.Some? {
      ScanListsEachNoteOnce(views, includeArchived, i + 1, page.nextCursor);
      ScanDescends(views, includeArchived, i + 1, page.nextCursor);
      var rest := ScanFrom(views, includeArchived, i + 1, page.nextCursor).value;
      forall a, b | 0 <= a < |page.rows| && 0 <= b < |rest| ensures page.rows[a].id != rest[b].id {
        LaterPageOtherNote(views, includeArchived, i, cursor, a, b);
      }
    }
  }

  lemma PageDistinct(t: Table, includeArchived: bool, cursor: Option<Key>)
    ensures DistinctIds(List(t, includeArchived, cursor, PAGE_SIZE).rows)
  {
    PageExact(t, includeArchived, cursor, PAGE_SIZE);
    var rows := List(t, includeArchived, cursor, PAGE_SIZE).rows;
    forall a, b | 0 <= a < b < |rows| ensures rows[a].id != rows[b].id {
      assert rows[a] in rows && rows[b] in rows;
      assert Below(KeyOf(rows[b]), KeyOf(rows[a]));
    }
  }

  lemma LaterPageOtherNote(views: seq<Table>, includeArchived: bool, i: nat, cursor: Option<Key>, a: nat, b: nat)
    requires i < |views| && DaysNeverGoBack(views)
    requires List(views[i], includeArchived, cursor, PAGE_SIZE).nextCursor.Some?
    requires var next := List(views[i], includeArchived, cursor, PAGE_SIZE).nextCursor;
      ScanFrom(views, includeArchived, i + 1, next).Ok? && b < |ScanFrom(views, includeArchived, i + 1, next).value|
    requires a < |List(views[i], includeArchived, cursor, PAGE_SIZE).rows|
    ensures var page := List(views[i], includeArchived, cursor, PAGE_SIZE);
      page.rows[a].id != ScanFrom(views, includeArchived, i + 1, page.nextCursor).value[b].id
  {
    var page := List(views[i], includeArchived, cursor, PAGE_SIZE);
    var x, y := page.rows[a], ScanFrom(views, includeArchived, i + 1, page.nextCursor).value[b];
    PageExact(views[i], includeArchived, cursor, PAGE_SIZE);
    assert x in page.rows;
    ScanDescends(views, includeArchived, i + 1, page.nextCursor);
    assert Below(KeyOf(y), page.nextCursor.value) && !Below(KeyOf(x), page.nextCursor.value);
    ScanInventsNothing(views, includeArchived, i + 1, page.nextCursor, y);
    var n := PagesRead(views, includeArchived, i + 1, page.nextCursor);
    var k :| i + 1 <= k < i + 1 + n && Selected(views[k], includeArchived, None, y.id) && views[k][y.id] == y.cell;
  }

  // ----- when a note is listed twice

  /** How pages are read: from which table, with which cursor. */
  type Reading = (nat, Option<Key>) -> Page

  function ReadingOf(views: seq<Table>, includeArchived: bool): Reading {
    (k: nat, from: Option<Key>) =>
      if k < |views| then List(views[k], includeArchived, from, PAGE_SIZE) else Page([], None)
  }

  /** The cursor with which page `k` is read. */
  function CursorOf(read: Reading, i: nat, cursor: Option<Key>, k: nat): Option<Key>
    decreases k - i
  {
    if k <= i then cursor else CursorOf(read, i + 1, read(i, cursor).nextCursor, k)
  }

  /** The rows of the pages read, page by page, of at most `n`. */
  function Blocks(read: Reading, i: nat, cursor: Option<Key>, n: nat): seq<seq<Note>>
    decreases n - i
  {
    if i >= n then []
    else
      var page := read(i, cursor);
      [page.rows] + if page.nextCursor.None? then [] else Blocks(read, i + 1, page.nextCursor, n)
  }

  lemma {:induction false} BlockOf(read: Reading, i: nat, cursor: Option<Key>, n: nat, k: nat)
    requires i <= k < i + |Blocks(read, i, cursor, n)|
    ensures Blocks(read, i, cursor, n)[k - i] == read(k, CursorOf(read, i, cursor, k)).rows
    decreases n - i
  {
    if i < k { BlockOf(read, i + 1, read(i, cursor).nextCursor, n, k); }
  }

  function Flat(blocks: seq<seq<Note>>): seq<Note> {
    if blocks == [] then [] else blocks[0] + Flat(blocks[1..])
  }

  ghost predicate Lists(s: seq<Note>, id: Id) {
    exists a :: 0 <= a < |s| && s[a].id == id
  }

  lemma PageLists(t: Table, includeArchived: bool, cursor: Option<Key>, id: Id)
    ensures Lists(List(t, includeArchived, cursor, PAGE_SIZE).rows, id) <==> FoundOn(t, includeArchived, cursor, id)
  {
    var page := List(t, includeArchived, cursor, PAGE_SIZE);
    PageExact(t, includeArchived, cursor, PAGE_SIZE);
    if Lists(page.rows, id) {
      var a :| 0 <= a < |page.rows| && page.rows[a].id == id;
      assert page.rows[a] in page.rows;
    }
    if FoundOn(t, includeArchived, cursor, id) {
      assert Note(id, t[id]) in page.rows;
    }
  }

  // ----- rows in blocks

  lemma {:induction false} FlatLists(blocks: seq<seq<Note>>, id: Id)
    ensures Lists(Flat(blocks), id) <==> exists k :: 0 <= k < |blocks| && Lists(blocks[k], id)
  {
    if blocks != [] {
      FlatLists(blocks[1..], id);
      ListsSplit(blocks[0], Flat(blocks[1..]), id);
      if k :| 0 <= k < |blocks| && Lists(blocks[k], id) {
        assert k > 0 ==> blocks[1..][k - 1] == blocks[k];
      }
    }
  }

  lemma ListsSplit(a: seq<Note>, b: seq<Note>, id: Id)
    ensures Lists(a + b, id) <==> Lists(a, id) || Lists(b, id)
  {
    if Lists(a, id) {
      var k :| 0 <= k < |a| && a[k].id == id;
      assert (a + b)[k].id == id;
    }
    if Lists(b, id) {
      var k :| 0 <= k < |b| && b[k].id == id;
      assert (a + b)[|a| + k].id == id;
    }
  }

  lemma DistinctSplit(a: seq<Note>, b: seq<Note>)
    ensures DistinctIds(a + b) <==> DistinctIds(a) && DistinctIds(b) && forall id :: !(Lists(a, id) && Lists(b, id))
  {
    if DistinctIds(a + b) {
      PartsDistinct(a, b);
    }
    if DistinctIds(a) && DistinctIds(b) && forall id :: !(Lists(a, id) && Lists(b, id)) {
      forall i, j | 0 <= i < j < |a + b| ensures (a + b)[i].id != (a + b)[j].id {
        if i < |a| <= j { assert Lists(a, (a + b)[i].id) && b[j - |a|] == (a + b)[j]; }
      }
    }
  }

  lemma PartsDistinct(a: seq<Note>, b: seq<Note>)
    requires DistinctIds(a + b)
    ensures DistinctIds(a) && DistinctIds(b) && forall id :: !(Lists(a, id) && Lists(b, id))
  {
    var all := a + b;
    forall i, j | 0 <= i < j < |a| ensures a[i].id != a[j].id { assert all[i] == a[i] && all[j] == a[j]; }
    forall i, j | 0 <= i < j < |b| ensures b[i].id != b[j].id { assert all[|a| + i] == b[i] && all[|a| + j] == b[j]; }
    forall i, j | 0 <= i < |a| && 0 <= j < |b| ensures a[i].id != b[j].id {
      assert all[i] == a[i] && all[|a| + j] == b[j];
    }
  }

  ghost predicate TwoOf(pages: set<nat>) {
    exists j, k :: j in pages && k in pages && j < k
  }

  /** The blocks that list the note. */
  ghost function Listing(blocks: seq<seq<Note>>, id: Id): set<nat> {
    set k | 0 <= k < |blocks| && Lists(blocks[k], id)
  }

  ghost predicate InTwo(blocks: seq<seq<Note>>, id: Id) {
    TwoOf(Listing(blocks, id))
  }

  lemma InTwoSplit(blocks: seq<seq<Note>>, id: Id)
    requires blocks != []
    ensures InTwo(blocks, id) <==> InTwo(blocks[1..], id) || (Lists(blocks[0], id) && Lists(Flat(blocks[1..]), id))
  {
    var rest, all := blocks[1..], Listing(blocks, id);
    FlatLists(rest, id);
    if InTwo(blocks, id) {
      var j, k :| j in all && k in all && j < k;
      assert rest[k - 1] == blocks[k] && k - 1 in Listing(rest, id);
      if j > 0 { assert rest[j - 1] == blocks[j] && j - 1 in Listing(rest, id); }
    }
    if InTwo(rest, id) {
      var j, k :| j in Listing(rest, id) && k in Listing(rest, id) && j < k;
      assert blocks[j + 1] == rest[j] && blocks[k + 1] == rest[k] && j + 1 in all && k + 1 in all;
    }
    if Lists(blocks[0], id) && Lists(Flat(rest), id) {
      var k :| 0 <= k < |rest| && Lists(rest[k], id);
      assert blocks[k + 1] == rest[k] && 0 in all && k + 1 in all;
    }
  }

  lemma {:induction false} FlatRepeats(blocks: seq<seq<Note>>)
    requires forall k :: 0 <= k < |blocks| ==> DistinctIds(blocks[k])
    ensures !DistinctIds(Flat(blocks)) <==> exists id :: InTwo(blocks, id)
  {
    if blocks != [] {
      FlatRepeats(blocks[1..]);
      DistinctSplit(blocks[0], Flat(blocks[1..]));
      forall id
        ensures InTwo(blocks, id) <==> InTwo(blocks[1..], id) || (Lists(blocks[0], id) && Lists(Flat(blocks[1..]), id))
      {
        InTwoSplit(blocks, id);
      }
    }
  }

  // ----- the exact condition

  /** The `k`th page from `i` on finds the note in its table, selected, below its cursor and not left
      for later. */
  ghost predicate ListedAt(views: seq<Table>, includeArchived: bool, i: nat, cursor: Option<Key>, k: nat, id: Id)
    requires i + k < |views|
  {
    FoundOn(views[i + k], includeArchived, CursorOf(ReadingOf(views, includeArchived), i, cursor, i + k), id)
  }

  ghost predicate FoundOn(t: Table, includeArchived: bool, cursor: Option<Key>, id: Id) {
    id in t && OnPage(t, includeArchived, cursor, List(t, includeArchived, cursor, PAGE_SIZE), Note(id, t[id]))
  }

  /** Which of the next pages find the note. */
  ghost function Finding(
    views: seq<Table>, includeArchived: bool, i: nat, cursor: Option<Key>, pages: nat, id: Id): set<nat>
    requires i + pages <= |views|
  {
    set k: nat | k < pages && ListedAt(views, includeArchived, i, cursor, k, id)
  }

  /** The blocks of a scan are its pages, and its rows are theirs. */
  lemma {:induction false} ScanInBlocks(views: seq<Table>, includeArchived: bool, i: nat, cursor: Option<Key>)
    requires i <= |views|
    ensures var blocks := Blocks(ReadingOf(views, includeArchived), i, cursor, |views|);
      && |blocks| == PagesRead(views, includeArchived, i, cursor)
      && (ScanFrom(views, includeArchived, i, cursor).Ok? ==>
            ScanFrom(views, includeArchived, i, cursor).value == Flat(blocks))
    decreases |views| - i
  {
    if i < |views| {
      var page := List(views[i], includeArchived, cursor, PAGE_SIZE);
      var blocks := Blocks(ReadingOf(views, includeArchived), i, cursor, |views|);
      assert ReadingOf(views, includeArchived)(i, cursor) == page;
      if page.nextCursor.Some? {
        ScanInBlocks(views, includeArchived, i + 1, page.nextCursor);
        assert blocks[1..] == Blocks(ReadingOf(views, includeArchived), i + 1, page.nextCursor, |views|);
      } else {
        assert blocks[1..] == [] && Flat([]) == [];
      }
    }
  }

  lemma PageBlock(t: Table, includeArchived: bool, from: Option<Key>, block: seq<Note>, id: Id)
    requires block == List(t, includeArchived, from, PAGE_SIZE).rows
    ensures DistinctIds(block) && (Lists(block, id) <==> FoundOn(t, includeArchived, from, id))
  {
    PageLists(t, includeArchived, from, id);
    PageDistinct(t, includeArchived, from);
  }

  lemma ReadsPage(views: seq<Table>, includeArchived: bool, k: nat, from: Option<Key>)
    requires k < |views|
    ensures ReadingOf(views, includeArchived)(k, from) == List(views[k], includeArchived, from, PAGE_SIZE)
  {
  }

  lemma BlockIs(read: Reading, i: nat, cursor: Option<Key>, n: nat, blocks: seq<seq<Note>>, k: nat)
    requires blocks == Blocks(read, i, cursor, n) && k < |blocks|
    ensures blocks[k] == read(i + k, CursorOf(read, i, cursor, i + k)).rows
  {
    BlockOf(read, i, cursor, n, i + k);
  }

  /** One block: what its page finds, each note once. */
  lemma BlockLists(
    views: seq<Table>, includeArchived: bool, i: nat, cursor: Option<Key>, blocks: seq<seq<Note>>, k: nat, id: Id)
    requires blocks == Blocks(ReadingOf(views, includeArchived), i, cursor, |views|)
    requires k < |blocks| && i + |blocks| <= |views|
    ensures DistinctIds(blocks[k])
    ensures Lists(blocks[k], id) <==> ListedAt(views, includeArchived, i, cursor, k, id)
  {
    var from := CursorOf(ReadingOf(views, includeArchived), i, cursor, i + k);
    BlockIs(ReadingOf(views, includeArchived), i, cursor, |views|, blocks, k);
    ReadsPage(views, includeArchived, i + k, from);
    PageBlock(views[i + k], includeArchived, from, blocks[k], id);
  }

  ghost predicate AllDistinct(blocks: seq<seq<Note>>) {
    forall k :: 0 <= k < |blocks| ==> DistinctIds(blocks[k])
  }

  /** Each block lists what its page finds. */
  ghost predicate Mirrors(
    views: seq<Table>, includeArchived: bool, i: nat, cursor: Option<Key>, blocks: seq<seq<Note>>)
    requires i + |blocks| <= |views|
  {
    forall id :: Listing(blocks, id) == Finding(views, includeArchived, i, cursor, |blocks|, id)
  }

  lemma BlocksMirror(views: seq<Table>, includeArchived: bool, i: nat, cursor: Option<Key>, blocks: seq<seq<Note>>)
    requires blocks == Blocks(ReadingOf(views, includeArchived), i, cursor, |views|) && i + |blocks| <= |views|
    ensures AllDistinct(blocks) && Mirrors(views, includeArchived, i, cursor, blocks)
  {
    forall k | 0 <= k < |blocks| ensures DistinctIds(blocks[k]) {
      BlockLists(views, includeArchived, i, cursor, blocks, k, 0);
    }
    forall id ensures Listing(blocks, id) == Finding(views, includeArchived, i, cursor, |blocks|, id) {
      ListingIsFinding(views, includeArchived, i, cursor, blocks, id);
    }
  }

  lemma ListingIsFinding(
    views: seq<Table>, includeArchived: bool, i: nat, cursor: Option<Key>, blocks: seq<seq<Note>>, id: Id)
    requires blocks == Blocks(ReadingOf(views, includeArchived), i, cursor, |views|) && i + |blocks| <= |views|
    ensures Listing(blocks, id) == Finding(views, includeArchived, i, cursor, |blocks|, id)
  {
    forall k: nat | k < |blocks|
      ensures Lists(blocks[k], id) <==> ListedAt(views, includeArchived, i, cursor, k, id)
    {
      BlockLists(views, includeArchived, i, cursor, blocks, k, id);
    }
  }

  lemma RepeatsInBlocks(views: seq<Table>, includeArchived: bool, i: nat, cursor: Option<Key>, blocks: seq<seq<Note>>)
    requires i + |blocks| <= |views| && AllDistinct(blocks) && Mirrors(views, includeArchived, i, cursor, blocks)
    ensures !DistinctIds(Flat(blocks))
       <==> exists id :: TwoOf(Finding(views, includeArchived, i, cursor, |blocks|, id))
  {
    FlatRepeats(blocks);
    if id :| InTwo(blocks, id) {
      assert TwoOf(Finding(views, includeArchived, i, cursor, |blocks|, id));
    }
    if id :| TwoOf(Finding(views, includeArchived, i, cursor, |blocks|, id)) {
      assert InTwo(blocks, id);
    }
  }

  /** Keys never repeat, but ids may: a completed scan lists some note twice exactly when a note
      found by one page is found again by a later one that is read, its key now below that page's
      cursor. */
  lemma NoteRepeatsExactly(views: seq<Table>, includeArchived: bool, i: nat, cursor: Option<Key>)
    requires i <= |views| && ScanFrom(views, includeArchived, i, cursor).Ok?
    ensures !DistinctIds(ScanFrom(views, includeArchived, i, cursor).value)
       <==> exists id ::
              TwoOf(Finding(views, includeArchived, i, cursor, PagesRead(views, includeArchived, i, cursor), id))
  {
    var blocks := Blocks(ReadingOf(views, includeArchived), i, cursor, |views|);
    ScanInBlocks(views, includeArchived, i, cursor);
    BlocksMirror(views, includeArchived, i, cursor, blocks);
    RepeatsInBlocks(views, includeArchived, i, cursor, blocks);
  }

  // ----- on a table nobody writes to

  /** All the selected rows, newest day first, then highest id. */
  function AllNotes(t: Table, includeArchived: bool): seq<Note> {
    Notes(t, Descending(t, Matching(t, includeArchived, None)))
  }

  /** The complete list, read off the table: every note once, as it is, archived ones only if asked
      for. */
  lemma AllNotesMean(t: Table, includeArchived: bool, n: Note)
    ensures n in AllNotes(t, includeArchived)
       <==> n.id in t && t[n.id] == n.cell && (includeArchived || !n.cell.archived)
    ensures DescendingNotes(AllNotes(t, includeArchived)) && DistinctIds(AllNotes(t, includeArchived))
  {
    var ids := Matching(t, includeArchived, None);
    var sorted := Descending(t, ids);
    DescendingSorted(t, ids);
    if n.id in t && t[n.id] == n.cell && (includeArchived || !n.cell.archived) {
      var k := IndexIn(t, ids, n.id);
      assert AllNotes(t, includeArchived)[k] == n;
    }
    if n in AllNotes(t, includeArchived) {
      var k :| 0 <= k < |sorted| && AllNotes(t, includeArchived)[k] == n;
      assert sorted[k] in ids;
    }
  }

  ghost predicate Unchanging(views: seq<Table>, t: Table) {
    forall k :: 0 <= k < |views| ==> views[k] == t
  }

  /** The rows below the next cursor are the listing minus the page: they shrink by a full page. */
  lemma RestOfListing(t: Table, includeArchived: bool, cursor: Option<Key>)
    requires List(t, includeArchived, cursor, PAGE_SIZE).nextCursor.Some?
    ensures var page := List(t, includeArchived, cursor, PAGE_SIZE);
      var sorted := Descending(t, Matching(t, includeArchived, cursor));
      && |sorted| > PAGE_SIZE
      && Descending(t, Matching(t, includeArchived, page.nextCursor)) == sorted[PAGE_SIZE..]
  {
    var sorted := Descending(t, Matching(t, includeArchived, cursor));
    PageOfIsPrefix(t, Descending(t, Matching(t, includeArchived, cursor)), PAGE_SIZE);
    DescendingSorted(t, Matching(t, includeArchived, cursor));
    RestIsBelow(t, includeArchived, cursor, sorted, At(t, sorted[PAGE_SIZE - 1]));
    SuffixSorted(t, sorted);
    DescendingUnique(t, sorted[PAGE_SIZE..]);
  }

  lemma SuffixSorted(t: Table, sorted: seq<Id>)
    requires Sorted(t, sorted) && |sorted| > PAGE_SIZE
    ensures Sorted(t, sorted[PAGE_SIZE..])
  {
    var rest := sorted[PAGE_SIZE..];
    assert forall k :: 0 <= k < |rest| ==> rest[k] == sorted[k + PAGE_SIZE];
  }

  lemma RestIsBelow(t: Table, includeArchived: bool, cursor: Option<Key>, sorted: seq<Id>, next: Key)
    requires sorted == Descending(t, Matching(t, includeArchived, cursor)) && Sorted(t, sorted)
    requires |sorted| > PAGE_SIZE && next == At(t, sorted[PAGE_SIZE - 1])
    ensures Elements(sorted[PAGE_SIZE..]) == Matching(t, includeArchived, Some(next))
  {
    var rest := sorted[PAGE_SIZE..];
    assert forall k :: 0 <= k < |rest| ==> rest[k] == sorted[k + PAGE_SIZE];
    NextIsSelected(t, includeArchived, cursor, sorted);
    assert forall k :: 0 <= k < PAGE_SIZE - 1 ==> Below(next, At(t, sorted[k]));
    forall id ensures id in Elements(rest) <==> id in Matching(t, includeArchived, Some(next)) {
      if id in rest {
        var k :| 0 <= k < |rest| && rest[k] == id;
        assert Below(At(t, sorted[k + PAGE_SIZE]), At(t, sorted[PAGE_SIZE - 1]));
      }
      if id in Matching(t, includeArchived, Some(next)) {
        var k := IndexIn(t, Matching(t, includeArchived, cursor), id);
        assert rest[k - PAGE_SIZE] == id;
      }
    }
  }

  lemma NextIsSelected(t: Table, includeArchived: bool, cursor: Option<Key>, sorted: seq<Id>)
    requires sorted == Descending(t, Matching(t, includeArchived, cursor)) && |sorted| >= PAGE_SIZE
    ensures Selected(t, includeArchived, cursor, sorted[PAGE_SIZE - 1])
  {
    assert sorted[PAGE_SIZE - 1] in Matching(t, includeArchived, cursor);
  }

  /** What a scan of an unchanging table comes to, given how many rows are left. */
  function Expected(t: Table, includeArchived: bool, cursor: Option<Key>, pages: nat): Result<seq<Note>, LoadError> {
    var sorted := Descending(t, Matching(t, includeArchived, cursor));
    if pages > 0 && |sorted| <= PAGE_SIZE * pages then Ok(Notes(t, sorted)) else Err(TooManyNotes)
  }

  lemma NotesSplit(t: Table, s: seq<Id>, k: nat)
    requires k <= |s| && forall i :: 0 <= i < |s| ==> s[i] in t
    ensures Notes(t, s) == Notes(t, s[..k]) + Notes(t, s[k..])
  {
  }

  lemma PageOfRows(t: Table, sorted: seq<Id>)
    requires forall k :: 0 <= k < |sorted| ==> sorted[k] in t
    ensures var page := PageOf(t, sorted, PAGE_SIZE);
      && (page.nextCursor.None? ==> |sorted| <= PAGE_SIZE && page.rows == Notes(t, sorted))
      && (page.nextCursor.Some? ==> |sorted| > PAGE_SIZE && page.rows == Notes(t, sorted[..PAGE_SIZE]))
  {
    PageOfIsPrefix(t, sorted, PAGE_SIZE);
  }

  lemma PageRows(t: Table, includeArchived: bool, cursor: Option<Key>)
    ensures var sorted := Descending(t, Matching(t, includeArchived, cursor));
      var page := List(t, includeArchived, cursor, PAGE_SIZE);
      && (forall k :: 0 <= k < |sorted| ==> sorted[k] in t)
      && (page.nextCursor.None? ==> |sorted| <= PAGE_SIZE && page.rows == Notes(t, sorted))
      && (page.nextCursor.Some? ==> |sorted| > PAGE_SIZE && page.rows == Notes(t, sorted[..PAGE_SIZE]))
  {
    DescendingMembers(t, includeArchived, cursor);
    PageOfRows(t, Descending(t, Matching(t, includeArchived, cursor)));
  }

  lemma ExpectedLastPage(t: Table, includeArchived: bool, cursor: Option<Key>, pages: nat)
    requires pages > 0 && List(t, includeArchived, cursor, PAGE_SIZE).nextCursor.None?
    ensures Expected(t, includeArchived, cursor, pages) == Ok(List(t, includeArchived, cursor, PAGE_SIZE).rows)
  {
    PageRows(t, includeArchived, cursor);
  }

  lemma ExpectedFullPage(t: Table, includeArchived: bool, cursor: Option<Key>, pages: nat)
    requires pages > 0 && List(t, includeArchived, cursor, PAGE_SIZE).nextCursor.Some?
    ensures var page := List(t, includeArchived, cursor, PAGE_SIZE);
      Expected(t, includeArchived, cursor, pages)
      == Prepend(page.rows, Expected(t, includeArchived, page.nextCursor, pages - 1))
  {
    var sorted := Descending(t, Matching(t, includeArchived, cursor));
    PageRows(t, includeArchived, cursor);
    RestOfListing(t, includeArchived, cursor);
    NotesSplit(t, sorted, PAGE_SIZE);
  }

  lemma ScanStep(views: seq<Table>, includeArchived: bool, i: nat, cursor: Option<Key>)
    requires i < |views|
    ensures var page := List(views[i], includeArchived, cursor, PAGE_SIZE);
      ScanFrom(views, includeArchived, i, cursor) ==
        if page.nextCursor.None? then Ok(page.rows)
        else Prepend(page.rows, ScanFrom(views, includeArchived, i + 1, page.nextCursor))
  {
  }

  lemma {:induction false} ScanOfUnchanging(views: seq<Table>, t: Table, includeArchived: bool, i: nat,
      cursor: Option<Key>)
    requires i <= |views| && Unchanging(views, t)
    ensures ScanFrom(views, includeArchived, i, cursor) == Expected(t, includeArchived, cursor, |views| - i)
    decreases |views| - i
  {
    if i < |views| {
      ScanStep(views, includeArchived, i, cursor);
      if List(t, includeArchived, cursor, PAGE_SIZE).nextCursor.None? {
        ExpectedLastPage(t, includeArchived, cursor, |views| - i);
      } else {
        ScanOfUnchanging(views, t, includeArchived, i + 1, List(t, includeArchived, cursor, PAGE_SIZE).nextCursor);
        ExpectedFullPage(t, includeArchived, cursor, |views| - i);
      }
    }
  }

  lemma DescendingMembers(t: Table, includeArchived: bool, cursor: Option<Key>)
    ensures var sorted := Descending(t, Matching(t, includeArchived, cursor));
      forall k :: 0 <= k < |sorted| ==> sorted[k] in t
  {
    DescendingSorted(t, Matching(t, includeArchived, cursor));
  }

  /** On an unchanging table the load returns every selected row in order exactly when there are
      at most 40,000 of them; otherwise it refuses. It never truncates. */
  lemma LoadIsExact(views: seq<Table>, t: Table, includeArchived: bool)
    requires |views| == MAX_PAGES && Unchanging(views, t)
    ensures ScanFrom(views, includeArchived, 0, None) ==
      if |Matching(t, includeArchived, None)| <= 40_000 then Ok(AllNotes(t, includeArchived)) else Err(TooManyNotes)
  {
    ScanOfUnchanging(views, t, includeArchived, 0, None);
  }

  // ----- the counterexample for ids

  /** 201 notes of one day. */
  ghost predicate OneDay(t: Table) {
    forall id: nat :: (id in t <==> id < 201) && (id in t ==> t[id] == Cell(1, false, 0))
  }

  lemma NotesOfOneDay(n: nat) returns (t: Table)
    ensures forall id: nat :: (id in t <==> id < n) && (id in t ==> t[id] == Cell(1, false, 0))
  {
    if n == 0 {
      t := map[];
    } else {
      t := NotesOfOneDay(n - 1);
      t := t[n - 1 := Cell(1, false, 0)];
    }
  }

  lemma ListingOfOneDay(t: Table)
    requires OneDay(t)
    ensures var sorted := Descending(t, Matching(t, false, None));
      |sorted| == 201 && sorted[0] == 200 && sorted[199] == 1
  {
    var s := seq(201, i requires 0 <= i < 201 => 200 - i);
    assert Sorted(t, s);
    DescendingUnique(t, s);
    assert Elements(s) == Matching(t, false, None) by {
      forall id | id in Matching(t, false, None) ensures id in s { assert s[200 - id] == id; }
    }
  }

  lemma FirstPageOfOneDay(t: Table)
    requires OneDay(t)
    ensures var p := List(t, false, None, PAGE_SIZE);
      p.nextCursor == Some(Key(1, 1)) && Note(200, Cell(1, false, 0)) in p.rows
  {
    ListingOfOneDay(t);
    PageOfIsPrefix(t, Descending(t, Matching(t, false, None)), PAGE_SIZE);
    var p := List(t, false, None, PAGE_SIZE);
    assert p.rows[0] == Note(200, Cell(1, false, 0));
  }

  lemma LastPageOfRedated(t: Table)
    requires OneDay(t)
    ensures List(t[200 := Cell(0, false, 0)], false, Some(Key(1, 1)), PAGE_SIZE).nextCursor.None?
  {
    var u := t[200 := Cell(0, false, 0)];
    assert Matching(u, false, Some(Key(1, 1))) == {0, 200};
    PageOfIsPrefix(u, Descending(u, Matching(u, false, Some(Key(1, 1)))), PAGE_SIZE);
  }

  /** With 201 notes of one day, redating the first listed one between the pages lists it twice. */
  lemma ANoteListedTwice() returns (t: Table, u: Table)
    ensures ScanFrom([t, u], false, 0, None).Ok?
    ensures !DistinctIds(ScanFrom([t, u], false, 0, None).value)
  {
    t := NotesOfOneDay(201);
    u := t[200 := Cell(0, false, 0)];
    FirstPageOfOneDay(t);
    LastPageOfRedated(t);
    var p := List(t, false, None, PAGE_SIZE);
    assert ScanFrom([t, u], false, 1, p.nextCursor) == Ok(List(u, false, p.nextCursor, PAGE_SIZE).rows);
    assert PagesRead([t, u], false, 0, None) == 2;
    assert Lists(p.rows, 200);
    PageLists(t, false, None, 200);
    assert ReadingOf([t, u], false)(0, None) == p;
    assert CursorOf(ReadingOf([t, u], false), 0, None, 1) == p.nextCursor;
    assert ListedAt([t, u], false, 0, None, 0, 200) && ListedAt([t, u], false, 0, None, 1, 200);
    assert 0 in Finding([t, u], false, 0, None, 2, 200) && 1 in Finding([t, u], false, 0, None, 2, 200);
    assert TwoOf(Finding([t, u], false, 0, None, 2, 200));
    NoteRepeatsExactly([t, u], false, 0, None);
  }
}
