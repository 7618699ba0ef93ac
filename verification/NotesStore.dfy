/**
 The notes store and its reload guard (packages/state/src/notes-store.ts), driven by the
 write-then-broadcast handlers of the worker (packages/storage/src/worker-handlers.ts).

 A reload is a coroutine: it asks for a page, is answered whenever the worker gets to it, and
 resumes later still. Any number of reloads may overlap, with any writes in between.
 */
module NotesStore {
  import opened Common
  import opened NoteTable
  import opened KeysetScan

  datatype StoreError = RefusedToLoad | RequestFailed

  datatype NotesState = Loading | Ready(notes: seq<Note>) | Failed(error: StoreError)

  /** A reload in progress, between two turns of the `loadAllNotes` loop. `reply` is the answer
      to its current `listNotes` request, once the worker has served it. */
  datatype Load = Load(includeArchived: bool, page: nat, cursor: Option<Key>, collected: seq<Note>, reply: Option<Page>)

  /** The store slice, with the reloads still running keyed by their generation. */
  datatype Store = Store(generation: nat, showArchived: bool, state: NotesState, loads: map<nat, Load>)

  /** `reload` up to its first `await`. */
  function Reload(s: Store): Store {
    var next := s.generation + 1;
    s.(generation := next, loads := s.loads[next := Load(s.showArchived, 0, None, [], None)])
  }

  /** The slice after `createNotesStore`, whose last act is the first reload. */
  const CREATED := Reload(Store(0, false, Loading, map[]))

  function SetShowArchived(s: Store, show: bool): Store {
    if s.showArchived == show then s else Reload(s.(showArchived := show))
  }

  /** A reload ends; only the latest one publishes. */
  function Finish(s: Store, gen: nat, outcome: NotesState): Store {
    s.(loads := s.loads - {gen}, state := if s.generation == gen then outcome else s.state)
  }

  /** A reload resumes with the page it was answered. */
  function Resume(s: Store, gen: nat): Store
    requires gen in s.loads && s.loads[gen].reply.Some?
  {
    var load := s.loads[gen];
    var page := load.reply.value;
    var collected := load.collected + page.rows;
    if page.nextCursor.None? then Finish(s, gen, Ready(collected))
    else if load.page + 1 >= MAX_PAGES then Finish(s, gen, Failed(RefusedToLoad))
    else
      var next := load.(page := load.page + 1, cursor := page.nextCursor, collected := collected, reply := None);
      s.(loads := s.loads[gen := next])
  }

  /** The worker answers the pending request of a reload from the table as it is. */
  function Serve(s: Store, gen: nat, t: Table): Store
    requires gen in s.loads && s.loads[gen].reply.None?
  {
    var load := s.loads[gen];
    s.(loads := s.loads[gen := load.(reply := Some(List(t, load.includeArchived, load.cursor, PAGE_SIZE)))])
  }

  // ----- the table's writers

  datatype Write = Upsert(id: Id, cell: Cell) | Archive(id: Id) | Delete(id: Id)

  function Apply(t: Table, op: Write): Table {
    match op
    case Upsert(id, cell) => t[id := cell]
    case Archive(id) => if id in t then t[id := t[id].(archived := true)] else t
    case Delete(id) => t - {id}
  }

  /** The table, the `tx-applied` notifications on their way to this tab, and its store. */
  datatype System = System(table: Table, notices: nat, store: Store)

  datatype Step =
    | WorkerWrites(op: Write)        // by any tab; the write and its broadcast are one handler
    | NoticeArrives
    | ReloadCommand
    | ToggleArchived(show: bool)
    | WorkerServes(gen: nat)
    | LoadResumes(gen: nat)
    | RequestFails(gen: nat)

  predicate Enabled(s: System, step: Step) {
    match step
    case NoticeArrives => s.notices > 0
    case WorkerServes(gen) => gen in s.store.loads && s.store.loads[gen].reply.None?
    case LoadResumes(gen) => gen in s.store.loads && s.store.loads[gen].reply.Some?
    case RequestFails(gen) => gen in s.store.loads
    case _ => true
  }

  function Next(s: System, step: Step): System
    requires Enabled(s, step)
  {
    match step
    case WorkerWrites(op) => s.(table := Apply(s.table, op), notices := s.notices + 1)
    case NoticeArrives => s.(notices := s.notices - 1, store := Reload(s.store))
    case ReloadCommand => s.(store := Reload(s.store))
    case ToggleArchived(show) => s.(store := SetShowArchived(s.store, show))
    case WorkerServes(gen) => s.(store := Serve(s.store, gen, s.table))
    case LoadResumes(gen) => s.(store := Resume(s.store, gen))
    case RequestFails(gen) => s.(store := Finish(s.store, gen, Failed(RequestFailed)))
  }

  ghost predicate Run(states: seq<System>) {
    && states != [] && states[0].store == CREATED && states[0].notices == 0
    && forall i :: 0 < i < |states| ==> Leads(states[i - 1], states[i])
  }

  ghost predicate Leads(s: System, r: System) {
    exists step: Step :: Enabled(s, step) && r == Next(s, step)
  }

  // ----- the invariant

  /** What the load must come to if the table stays as it is. */
  ghost predicate OnCourse(load: Load, t: Table) {
    && load.page < MAX_PAGES
    && Prepend(load.collected, Expected(t, load.includeArchived, load.cursor, MAX_PAGES - load.page))
       == Expected(t, load.includeArchived, None, MAX_PAGES)
    && (load.reply.Some? ==> load.reply.value == List(t, load.includeArchived, load.cursor, PAGE_SIZE))
  }

  /** With no notification on its way, the latest reload has seen no table but the present one. */
  ghost predicate Inv(s: System) {
    && (forall gen :: gen in s.store.loads ==> gen <= s.store.generation)
    && s.store.generation > 0
    && (s.store.generation in s.store.loads ==>
          s.store.loads[s.store.generation].includeArchived == s.store.showArchived)
    && (s.notices == 0 && s.store.generation in s.store.loads ==> OnCourse(s.store.loads[s.store.generation], s.table))
    && (s.notices == 0 && s.store.generation !in s.store.loads ==>
          Published(s.store.state, s.table, s.store.showArchived))
  }

  ghost predicate Published(state: NotesState, t: Table, includeArchived: bool) {
    match state
    case Loading => false
    case Ready(notes) => Expected(t, includeArchived, None, MAX_PAGES) == Ok(notes)
    case Failed(RefusedToLoad) => Expected(t, includeArchived, None, MAX_PAGES).Err?
    case Failed(RequestFailed) => true
  }

  lemma FreshLoadOnCourse(t: Table, includeArchived: bool)
    ensures OnCourse(Load(includeArchived, 0, None, [], None), t)
  {
    PrependNone(Expected(t, includeArchived, None, MAX_PAGES));
  }

  lemma ReloadKeepsInv(s: System)
    requires forall gen :: gen in s.store.loads ==> gen <= s.store.generation
    ensures Inv(s.(store := Reload(s.store)))
  {
    FreshLoadOnCourse(s.table, s.store.showArchived);
  }

  lemma LastPageOnCourse(load: Load, t: Table)
    requires OnCourse(load, t) && load.reply.Some? && load.reply.value.nextCursor.None?
    ensures Expected(t, load.includeArchived, None, MAX_PAGES) == Ok(load.collected + load.reply.value.rows)
  {
    ExpectedLastPage(t, load.includeArchived, load.cursor, MAX_PAGES - load.page);
  }

  lemma FullPageOnCourse(load: Load, t: Table)
    requires OnCourse(load, t) && load.reply.Some? && load.reply.value.nextCursor.Some?
    ensures Expected(t, load.includeArchived, None, MAX_PAGES) ==
      Prepend(load.collected + load.reply.value.rows,
              Expected(t, load.includeArchived, load.reply.value.nextCursor, MAX_PAGES - load.page - 1))
  {
    var page := load.reply.value;
    ExpectedFullPage(t, load.includeArchived, load.cursor, MAX_PAGES - load.page);
    PrependTwice(load.collected, page.rows,
      Expected(t, load.includeArchived, page.nextCursor, MAX_PAGES - load.page - 1));
  }

  lemma OvertakenResumeKeepsInv(s: System, gen: nat)
    requires Inv(s) && Enabled(s, LoadResumes(gen)) && (gen != s.store.generation || s.notices > 0)
    ensures Inv(Next(s, LoadResumes(gen)))
  {
  }

  lemma LatestResumeKeepsInv(s: System)
    requires Inv(s) && Enabled(s, LoadResumes(s.store.generation)) && s.notices == 0
    ensures Inv(Next(s, LoadResumes(s.store.generation)))
  {
    var load := s.store.loads[s.store.generation];
    if load.reply.value.nextCursor.None? { LastPageOnCourse(load, s.table); } else { FullPageOnCourse(load, s.table); }
  }

  lemma ResumeKeepsInv(s: System, gen: nat)
    requires Inv(s) && Enabled(s, LoadResumes(gen))
    ensures Inv(Next(s, LoadResumes(gen)))
  {
    if gen == s.store.generation && s.notices == 0 {
      LatestResumeKeepsInv(s);
    } else {
      OvertakenResumeKeepsInv(s, gen);
    }
  }

  lemma ServeKeepsInv(s: System, gen: nat)
    requires Inv(s) && Enabled(s, WorkerServes(gen))
    ensures Inv(Next(s, WorkerServes(gen)))
  {
  }

  lemma NextKeepsInv(s: System, step: Step)
    requires Inv(s) && Enabled(s, step)
    ensures Inv(Next(s, step))
  {
    match step
    case WorkerWrites(op) =>
    case NoticeArrives => ReloadKeepsInv(s.(notices := s.notices - 1));
    case ReloadCommand => ReloadKeepsInv(s);
    case ToggleArchived(show) => ReloadKeepsInv(s.(store := s.store.(showArchived := show)));
    case WorkerServes(gen) => ServeKeepsInv(s, gen);
    case LoadResumes(gen) => ResumeKeepsInv(s, gen);
    case RequestFails(gen) =>
  }

  lemma {:induction false} RunsKeepInv(states: seq<System>, n: nat)
    requires Run(states) && n < |states|
    ensures Inv(states[n])
  {
    if n == 0 {
      FreshLoadOnCourse(states[0].table, false);
    } else {
      RunsKeepInv(states, n - 1);
      assert Leads(states[n - 1], states[n]);
      var step: Step :| Enabled(states[n - 1], step) && states[n] == Next(states[n - 1], step);
      NextKeepsInv(states[n - 1], step);
    }
  }

  /** When the latest reload is over, no notification is undelivered and the store is ready, the
      published list is the table's complete selection under the current flag, whatever order
      overlapping reloads finished in. */
  lemma QuiescentConvergence(states: seq<System>, n: nat)
    requires Run(states) && n < |states|
    requires states[n].notices == 0 && states[n].store.generation !in states[n].store.loads
    requires states[n].store.state.Ready?
    ensures states[n].store.state.notes == AllNotes(states[n].table, states[n].store.showArchived)
    ensures |Matching(states[n].table, states[n].store.showArchived, None)| <= 40_000
  {
    RunsKeepInv(states, n);
  }

  /** In the same situation a refusal to load means there really are too many notes. */
  lemma QuiescentRefusal(states: seq<System>, n: nat)
    requires Run(states) && n < |states|
    requires states[n].notices == 0 && states[n].store.generation !in states[n].store.loads
    ensures states[n].store.state != Loading
    ensures states[n].store.state == Failed(RefusedToLoad) ==>
      |Matching(states[n].table, states[n].store.showArchived, None)| > 40_000
  {
    RunsKeepInv(states, n);
  }

  lemma GenerationGrows(s: System, step: Step)
    requires Enabled(s, step)
    ensures s.store.generation <= Next(s, step).store.generation
  {
  }

  lemma {:induction false} GenerationsGrow(states: seq<System>, m: nat, n: nat)
    requires Run(states) && m <= n < |states|
    ensures states[m].store.generation <= states[n].store.generation
    decreases n - m
  {
    if m < n {
      GenerationsGrow(states, m, n - 1);
      assert Leads(states[n - 1], states[n]);
      var step: Step :| Enabled(states[n - 1], step) && states[n] == Next(states[n - 1], step);
      GenerationGrows(states[n - 1], step);
    }
  }

  /** Once a reload has been overtaken, nothing it does at any later point of the run changes what is
      published. */
  lemma OvertakenNeverPublishes(states: seq<System>, m: nat, n: nat, gen: nat)
    requires Run(states) && m <= n < |states| && gen < states[m].store.generation
    ensures Enabled(states[n], LoadResumes(gen)) ==>
      Next(states[n], LoadResumes(gen)).store.state == states[n].store.state
    ensures Enabled(states[n], RequestFails(gen)) ==>
      Next(states[n], RequestFails(gen)).store.state == states[n].store.state
  {
    GenerationsGrow(states, m, n);
  }

  // ----- what commands come to

  /** What each write does to the complete list: an upsert shows the note as written, an archived note
      shows only on request, a deleted one never; every other note shows as before. */
  lemma WritesShow(t: Table, op: Write, includeArchived: bool, n: Note)
    ensures n in AllNotes(Apply(t, op), includeArchived) <==>
      if n.id != op.id then n in AllNotes(t, includeArchived)
      else match op
      case Upsert(_, cell) => n.cell == cell && (includeArchived || !cell.archived)
      case Archive(id) => includeArchived && id in t && n.cell == t[id].(archived := true)
      case Delete(_) => false
  {
    AllNotesMean(Apply(t, op), includeArchived, n);
    AllNotesMean(t, includeArchived, n);
  }

  /** The toggle sets the flag; a change starts a reload under it, and no change does nothing. */
  lemma ToggleOutcome(s: System, show: bool)
    ensures var v := Next(s, ToggleArchived(show)).store;
      && v.showArchived == show
      && (s.store.showArchived == show ==> v == s.store)
      && (s.store.showArchived != show ==>
            && v.generation == s.store.generation + 1 && v.generation in v.loads
            && v.loads[v.generation].includeArchived == show && v.state == s.store.state)
  {
  }

  /** Nothing but the toggle changes the flag. */
  lemma FlagKept(s: System, step: Step)
    requires Enabled(s, step) && !step.ToggleArchived?
    ensures Next(s, step).store.showArchived == s.store.showArchived
  {
  }

  /** A run with its steps. */
  ghost predicate RunBy(states: seq<System>, steps: seq<Step>) {
    && Run(states) && |states| == |steps| + 1
    && forall i :: 0 <= i < |steps| ==> Enabled(states[i], steps[i]) && states[i + 1] == Next(states[i], steps[i])
  }

  /** After the last toggle of a run the flag is what that toggle asked for. */
  lemma {:induction false} LastToggleHolds(states: seq<System>, steps: seq<Step>, m: nat, n: nat, show: bool)
    requires RunBy(states, steps) && m < n <= |steps| && steps[m] == ToggleArchived(show)
    requires forall i :: m < i < n ==> !steps[i].ToggleArchived?
    ensures states[n].store.showArchived == show
    decreases n
  {
    assert states[n] == Next(states[n - 1], steps[n - 1]);
    if n == m + 1 {
      ToggleOutcome(states[m], show);
    } else {
      LastToggleHolds(states, steps, m, n - 1, show);
      FlagKept(states[n - 1], steps[n - 1]);
    }
  }

  /** So once quiet, a ready store lists the table under the flag last asked for. */
  lemma LastToggleShown(states: seq<System>, steps: seq<Step>, m: nat, n: nat, show: bool)
    requires RunBy(states, steps) && m < n <= |steps| && steps[m] == ToggleArchived(show)
    requires forall i :: m < i < n ==> !steps[i].ToggleArchived?
    requires states[n].notices == 0 && states[n].store.generation !in states[n].store.loads
    requires states[n].store.state.Ready?
    ensures states[n].store.state.notes == AllNotes(states[n].table, show)
  {
    LastToggleHolds(states, steps, m, n, show);
    QuiescentConvergence(states, n);
  }
}
