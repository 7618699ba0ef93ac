/**
 The imperative side of the notes: the repository that changes its table in place
 (packages/storage/src/note-repository.ts) and the store slice that commands overwrite
 (packages/state/src/notes-store.ts), each proved against the functions of `NotesStore`.
 */
module NotesStoreObject {
  import opened Common
  import opened NoteTable
  import opened KeysetScan
  import opened NotesStore
  import Spec = NotesStore

  /** `NoteRepositorySql` over its table. */
  class NoteRepository {
    var table: Table

    constructor (table: Table)
      ensures this.table == table
    {
      this.table := table;
    }

    /** Every other row is as it was. */
    twostate predicate OnlyTouches(id: Id)
      reads this
    {
      forall k :: k != id ==> (k in table <==> k in old(table)) && (k in table ==> table[k] == old(table)[k])
    }

    method Upsert(id: Id, cell: Cell)
      modifies this
      ensures table == Apply(old(table), Spec.Upsert(id, cell))
      ensures OnlyTouches(id) && id in table && table[id] == cell
    {
      table := table[id := cell];
    }

    method Archive(id: Id)
      modifies this
      ensures table == Apply(old(table), Spec.Archive(id))
      ensures OnlyTouches(id) && (id in table <==> id in old(table))
      ensures id in table ==> table[id] == old(table)[id].(archived := true)
    {
      if id in table { table := table[id := table[id].(archived := true)]; }
    }

    method Delete(id: Id)
      modifies this
      ensures table == Apply(old(table), Spec.Delete(id))
      ensures OnlyTouches(id) && id !in table
    {
      table := table - {id};
    }

    method Get(id: Id) returns (r: Option<Note>)
      ensures r.Some? <==> id in table
      ensures r.Some? ==> r.value.id == id && r.value.cell == table[id]
    {
      if id in table { return Some(Note(id, table[id])); }
      return None;
    }

    /** `list`: exactly the selected rows between the two cursors, whatever limit was asked. */
    method ListRows(includeArchived: bool, cursor: Option<Key>, limit: int) returns (page: Page)
      ensures page == List(table, includeArchived, cursor, limit)
      ensures DescendingNotes(page.rows)
      ensures forall n :: n in page.rows <==> OnPage(table, includeArchived, cursor, page, n)
    {
      PageExact(table, includeArchived, cursor, limit);
      page := List(table, includeArchived, cursor, limit);
    }
  }

  /** The latest load will come to the table's selection, or has published it. */
  ghost predicate Converging(s: Store, t: Table) {
    if s.generation in s.loads then
      var load := s.loads[s.generation];
      load.includeArchived == s.showArchived && load.reply.None? && OnCourse(load, t)
    else Published(s.state, t, s.showArchived) && s.state != Failed(RequestFailed)
  }

  /** Serving and resuming the latest load once brings it one page on, or ends it. */
  lemma PageConverges(s: Store, t: Table)
    requires s.generation in s.loads && Converging(s, t)
    ensures var served := Serve(s, s.generation, t);
      && s.generation in served.loads && served.loads[s.generation].reply.Some?
      && var r := Spec.Resume(served, s.generation);
         && Converging(r, t) && r.generation == s.generation && r.showArchived == s.showArchived
         && (r.generation in r.loads ==> r.loads[r.generation].page == s.loads[s.generation].page + 1)
  {
    var load := Serve(s, s.generation, t).loads[s.generation];
    if load.reply.value.nextCursor.None? { LastPageOnCourse(load, t); } else { FullPageOnCourse(load, t); }
  }

  lemma PublishedIs(state: NotesState, t: Table, includeArchived: bool)
    requires Published(state, t, includeArchived) && state != Failed(RequestFailed)
    ensures state == if |Matching(t, includeArchived, None)| <= 40_000 then Ready(AllNotes(t, includeArchived))
                     else Failed(RefusedToLoad)
  {
    assert |Descending(t, Matching(t, includeArchived, None))| == |Matching(t, includeArchived, None)|;
    match state
    case Ready(_) =>
    case Failed(error) => assert error == RefusedToLoad;
  }

  /** The store slice, its commands, and the continuation of each reload. */
  class StoreSlice {
    var generation: nat
    var showArchived: bool
    var state: NotesState
    var loads: map<nat, Load>

    ghost function Slice(): Store
      reads this
    {
      Store(generation, showArchived, state, loads)
    }

    constructor ()
      ensures Slice() == CREATED
    {
      generation, showArchived, state, loads := 1, false, Loading, map[1 := Load(false, 0, None, [], None)];
    }

    method Reload()
      modifies this
      ensures Slice() == Spec.Reload(old(Slice()))
    {
      var next := generation + 1;
      generation := next;
      loads := loads[next := Load(showArchived, 0, None, [], None)];
    }

    method SetShowArchived(show: bool)
      modifies this
      ensures Slice() == Spec.SetShowArchived(old(Slice()), show)
    {
      if showArchived == show { return; }
      showArchived := show;
      Reload();
    }

    method Settle(gen: nat, outcome: NotesState)
      modifies this
      ensures Slice() == Finish(old(Slice()), gen, outcome)
    {
      if generation == gen { state := outcome; }
      loads := loads - {gen};
    }

    method Resume(gen: nat)
      requires gen in loads && loads[gen].reply.Some?
      modifies this
      ensures Slice() == Spec.Resume(old(Slice()), gen)
    {
      var load := loads[gen];
      var page := load.reply.value;
      var collected := load.collected + page.rows;
      if page.nextCursor.None? {
        Settle(gen, Ready(collected));
        return;
      }
      var turn := load.page + 1;
      if turn < MAX_PAGES {
        loads := loads[gen := Load(load.includeArchived, turn, page.nextCursor, collected, None)];
      } else {
        Settle(gen, Failed(RefusedToLoad));
      }
    }

    /** The worker answers the pending request of a reload. */
    method ServeFrom(gen: nat, repo: NoteRepository)
      requires gen in loads && loads[gen].reply.None?
      modifies this
      ensures Slice() == Serve(old(Slice()), gen, repo.table)
    {
      var load := loads[gen];
      var page := repo.ListRows(load.includeArchived, load.cursor, PAGE_SIZE);
      loads := loads[gen := Load(load.includeArchived, load.page, load.cursor, load.collected, Some(page))];
    }

    /** One page of a reload against a repository nobody writes to. */
    method LoadPage(repo: NoteRepository)
      requires generation in loads && Converging(Slice(), repo.table)
      modifies this
      ensures Converging(Slice(), repo.table) && generation == old(generation) && showArchived == old(showArchived)
      ensures generation in loads ==> loads[generation].page == old(loads)[generation].page + 1
    {
      PageConverges(Slice(), repo.table);
      ServeFrom(generation, repo);
      Resume(generation);
    }

    /** A whole reload against a repository nobody writes to publishes the complete selection under the
        current flag, or refuses because there are too many rows, however many reloads still run. */
    method ReloadFully(repo: NoteRepository)
      modifies this
      ensures showArchived == old(showArchived) && generation == old(generation) + 1
      ensures state == if |Matching(repo.table, showArchived, None)| <= 40_000
                       then Ready(AllNotes(repo.table, showArchived)) else Failed(RefusedToLoad)
    {
      Reload();
      FreshLoadOnCourse(repo.table, showArchived);
      while generation in loads
        invariant Converging(Slice(), repo.table) && showArchived == old(showArchived)
        invariant generation == old(generation) + 1
        decreases if generation in loads then MAX_PAGES - loads[generation].page else -1
      {
        LoadPage(repo);
      }
      PublishedIs(state, repo.table, showArchived);
    }
  }
}
