/** The election never strands the lock, and a writer failure is reported to everyone waiting. */
module ProtocolProgress {
  import opened Common
  import opened Wire
  import opened Transport
  import opened TransportInvariant
  import opened WorkerClient
  import opened Protocol
  import opened ProtocolInvariant
  import opened ProtocolInduction
  import opened ProtocolTheorems

  /** A tab that is neither closed nor failed, and was never refused by the platform, holds the
      lock or waits for it. */
  ghost predicate Participates(w: World, id: TabId)
    requires id in w.tabs
  {
    Terminal(w.tabs[id].t) || id in w.rejected || id in w.queue || w.tabs[id].t.holdsLock
  }

  ghost predicate ElectionOk(w: World) {
    && (forall id :: id in w.tabs ==> Participates(w, id))
    && (w.holder.Some? ==> w.holder.value in w.tabs)
  }

  lemma {:induction false} WithoutKeepsOthers(queue: seq<TabId>, id: TabId)
    ensures forall k :: k in queue && k != id ==> k in Without(queue, id)
  {
    if queue != [] && queue[0] != id { WithoutKeepsOthers(queue[1..], id); }
  }

  /** Where lock requests go. */
  ghost predicate QueueMoves(w: World, step: Step, v: World) {
    && w.rejected <= v.rejected
    && forall k :: k in w.queue && k !in v.queue ==>
      || (step.Grant? && k == w.queue[0])
      || (step.LockAborted? && k == step.id)
      || (step.LockRejected? && k == step.id && k in v.rejected)
  }

  lemma NextQueue(w: World, step: Step)
    requires Enabled(w, step)
    ensures QueueMoves(w, step, Next(w, step))
  {
    if PlainKind(step) {
      PlainNext(w, step);
    } else if Acts(step) && !step.Grant? && !step.LockRejected? {
      WriterQueue(w, step);
    } else {
      LockQueue(w, step);
    }
  }

  lemma WriterQueue(w: World, step: Step)
    requires Enabled(w, step) && Acts(step) && !PlainKind(step) && !step.Grant? && !step.LockRejected?
    ensures QueueMoves(w, step, Next(w, step))
  {
  }

  lemma LockQueue(w: World, step: Step)
    requires Enabled(w, step) && !PlainKind(step) && (!Acts(step) || step.Grant? || step.LockRejected?)
    ensures QueueMoves(w, step, Next(w, step))
  {
    if step.LockAborted? || step.LockRejected? { WithoutKeepsOthers(w.queue, step.id); }
  }

  lemma AskedForLock(w: World, step: Step)
    requires Enabled(w, step) && Acts(step) && StepEffect(w, step).requestsLock
    ensures Actor(w, step) in Next(w, step).queue
  {
    if PlainKind(step) { PlainNext(w, step); }
  }

  /** A handler gives the lock up only to close, to fail or to ask for it again. */
  lemma KeepsLockOrAsks(w: World, step: Step)
    requires Enabled(w, step) && Acts(step) && TransportOk(w.tabs[Actor(w, step)].t)
    ensures var t, e := w.tabs[Actor(w, step)].t, StepEffect(w, step);
      && (Terminal(t) ==> Terminal(e.t))
      && (t.holdsLock && !Terminal(e.t) ==> e.t.holdsLock || e.requestsLock)
      && (step.Grant? && !Terminal(e.t) ==> e.t.holdsLock)
      && (step.LockAborted? ==> Terminal(t))
  {
  }

  lemma ActorParticipates(w: World, step: Step)
    requires Inv(w) && ElectionOk(w) && Enabled(w, step) && Acts(step)
    ensures Actor(w, step) in Next(w, step).tabs && Participates(Next(w, step), Actor(w, step))
  {
    var id := Actor(w, step);
    NextTabs(w, step);
    assert TabOk(w, id) && Participates(w, id);
    KeepsLockOrAsks(w, step);
    NextQueue(w, step);
    if StepEffect(w, step).requestsLock { AskedForLock(w, step); }
  }

  lemma BystanderParticipates(w: World, step: Step, k: TabId)
    requires Inv(w) && ElectionOk(w) && Enabled(w, step) && k in w.tabs && (Acts(step) ==> k != Actor(w, step))
    ensures k in Next(w, step).tabs && Participates(Next(w, step), k)
  {
    assert Participates(w, k);
    NextQueue(w, step);
    if Acts(step) { NextTabs(w, step); } else { OtherTabs(w, step); }
  }

  lemma StepKeepsElection(w: World, step: Step)
    requires Inv(w) && ElectionOk(w) && Enabled(w, step)
    ensures ElectionOk(Next(w, step))
  {
    var v := Next(w, step);
    forall k | k in v.tabs ensures Participates(v, k) {
      if k in w.tabs {
        if Acts(step) && k == Actor(w, step) { ActorParticipates(w, step); } else { BystanderParticipates(w, step, k); }
      } else {
        Newcomer(w, step, k);
      }
    }
    HolderIsTab(w, step);
  }

  lemma Newcomer(w: World, step: Step, k: TabId)
    requires Enabled(w, step) && k in Next(w, step).tabs && k !in w.tabs
    ensures Participates(Next(w, step), k)
  {
    if Acts(step) { NextTabs(w, step); }
  }

  lemma HolderIsTab(w: World, step: Step)
    requires ElectionOk(w) && Enabled(w, step)
    ensures Next(w, step).holder.Some? ==> Next(w, step).holder.value in Next(w, step).tabs
  {
    if Acts(step) { NextTabs(w, step); } else { OtherTabs(w, step); }
  }

  lemma LeadsKeepElection(w: World, v: World)
    requires Inv(w) && ElectionOk(w) && Leads(w, v)
    ensures ElectionOk(v)
  {
    var step: Step :| Enabled(w, step) && v == Next(w, step);
    StepKeepsElection(w, step);
  }

  lemma RunKeepsElection(worlds: seq<World>, n: nat)
    requires Run(worlds) && n + 1 < |worlds| && ElectionOk(worlds[n])
    ensures ElectionOk(worlds[n + 1])
  {
    RunsKeepInv(worlds, n);
    LeadsKeepElection(worlds[n], worlds[n + 1]);
  }

  lemma NobodyElects()
    ensures ElectionOk(INIT)
  {
  }

  lemma {:induction false} RunsKeepElection(worlds: seq<World>, n: nat)
    requires Run(worlds) && n < |worlds|
    ensures ElectionOk(worlds[n])
  {
    if n == 0 {
      NobodyElects();
    } else {
      RunsKeepElection(worlds, n - 1);
      RunKeepsElection(worlds, n - 1);
    }
  }

  /** While some tab is alive and was not refused, the lock is never stranded: a live writer has
      it, or its last holder's release is due, or it can be granted to the head of the queue. */
  lemma LockNeverStranded(worlds: seq<World>, n: nat, id: TabId, newId: LeaderId)
    requires Run(worlds) && n < |worlds| && id in worlds[n].tabs && newId !in worlds[n].owner
    requires !Terminal(worlds[n].tabs[id].t) && id !in worlds[n].rejected
    ensures var w := worlds[n];
      || (w.holder.Some? && w.holder.value in w.tabs && w.tabs[w.holder.value].t.writer.Some?)
      || Enabled(w, LockReleased)
      || Enabled(w, Grant(newId))
  {
    var w := worlds[n];
    RunsKeepInv(worlds, n);
    RunsKeepElection(worlds, n);
    assert Participates(w, id) && TabOk(w, id) && LockOk(w, id) && QueueOk(w);
    if w.holder.Some? {
      assert TabOk(w, w.holder.value);
    }
  }

  /** A handled writer failure posts an error envelope for every request any bridge still maps,
      tells peers, rejects the tab's own pending promises, drops writer, bridges and lock, and
      queues for the lock again unless the budget is spent. */
  lemma CrashOutcome(w: World, id: TabId, leader: LeaderId, now: int)
    requires Inv(w) && Enabled(w, WriterError(id, leader, now)) && Handles(w.tabs[id].t, leader)
    ensures var t, v := w.tabs[id].t, Next(w, WriterError(id, leader, now));
      && id in v.tabs && v.tabs[id].t.writer.None? && !v.tabs[id].t.holdsLock && v.tabs[id].t.bridges == map[]
      && v.tabs[id].c.pending == {}
      && Sent(id, LeaderFailed(leader)) in v.disc
      && (v.tabs[id].t.failed <==> id !in v.queue)
      && (v.tabs[id].t.failed ==> v.tabs[id].t.inFlight == map[])
      && forall c, e :: c in t.bridges && e in t.bridges[c].idMap ==>
           Down(Channel(leader, c), t.bridges[c].idMap[e], WriterCrashed) in v.down
  {
    var t, c := w.tabs[id].t, w.tabs[id].c;
    var v := Next(w, WriterError(id, leader, now));
    assert TabOk(w, id) && LockOk(w, id);
    CrashEnvelopes(t);
    var restart := RestartLockRequest(GiveUpLeadership(t).(currentLeader := None), now);
    ErrorEventEmpties(c, restart.events);
    NextKeepsInv(w, WriterError(id, leader, now));
    assert LockOk(v, id);
  }

  lemma CrashEnvelopes(t: Transport)
    requires LeadershipOk(t)
    ensures forall c, e :: c in t.bridges && e in t.bridges[c].idMap ==>
      Down(Channel(t.leaderId.value, c), t.bridges[c].idMap[e], WriterCrashed) in FailEveryPending(t)
  {
    forall c, e | c in t.bridges && e in t.bridges[c].idMap
      ensures Down(Channel(t.leaderId.value, c), t.bridges[c].idMap[e], WriterCrashed) in FailEveryPending(t)
    {
      assert Down(t.bridges[c].channel, t.bridges[c].idMap[e], WriterCrashed) in FailPending(t.bridges[c]);
    }
  }

  // ----- after the terminal failure

  /** The tab after so many of its queued microtasks have run. */
  ghost function Microtasks(w: World, id: TabId, count: nat): World
    requires id in w.tabs
    decreases count
  {
    if count == 0 then w
    else
      NextTabs(w, Microtask(id));
      Microtasks(Next(w, Microtask(id)), id, count - 1)
  }

  ghost predicate Refused(c: Client, i: nat) {
    i in c.settled && c.settled[i] == ByReply(PermanentlyFailed)
  }

  /** A client that hears these error envelopes one by one. */
  function Drained(c: Client, errors: seq<nat>): Client
    decreases |errors|
  {
    if errors == [] then c else Drained(Hear(c, Envelopes({errors[0]}, PermanentlyFailed)), errors[1..])
  }

  lemma {:induction false} DrainedAnswers(c: Client, errors: seq<nat>)
    requires Valid(c) && c.attached && forall i :: i in c.pending ==> i in errors
    ensures Drained(c, errors).pending == {} && Extends(c, Drained(c, errors))
    ensures forall i :: i in c.pending ==> Refused(Drained(c, errors), i)
    decreases |errors|
  {
    if errors != [] {
      var d := Hear(c, Envelopes({errors[0]}, PermanentlyFailed));
      HearKeepsValid(c, Envelopes({errors[0]}, PermanentlyFailed));
      DrainedAnswers(d, errors[1..]);
      ExtendsTransitive(c, d, Drained(c, errors));
      forall i | i in c.pending ensures Refused(Drained(c, errors), i) {
        if i == errors[0] { assert Refused(d, i); }
      }
    }
  }

  lemma OneMicrotask(w: World, id: TabId)
    requires id in w.tabs && !w.tabs[id].t.closed && w.tabs[id].t.localErrors != []
    ensures var tab, v := w.tabs[id], Next(w, Microtask(id));
      && id in v.tabs && v.tabs[id].t == tab.t.(localErrors := tab.t.localErrors[1..])
      && v.tabs[id].c == Hear(tab.c, Envelopes({tab.t.localErrors[0]}, PermanentlyFailed))
  {
    HearOne(w.tabs[id].c, Envelopes({w.tabs[id].t.localErrors[0]}, PermanentlyFailed));
  }

  lemma {:induction false} MicrotasksDrain(w: World, id: TabId)
    requires id in w.tabs && !w.tabs[id].t.closed
    ensures var v := Microtasks(w, id, |w.tabs[id].t.localErrors|);
      id in v.tabs && v.tabs[id].c == Drained(w.tabs[id].c, w.tabs[id].t.localErrors)
    decreases |w.tabs[id].t.localErrors|
  {
    if w.tabs[id].t.localErrors != [] {
      OneMicrotask(w, id);
      MicrotasksDrain(Next(w, Microtask(id)), id);
    }
  }

  /** In every run, once a failed, open tab has run its queued microtasks, nothing is pending and
      every request that was has been settled with the permanent failure. */
  lemma FailedTabsAnswer(worlds: seq<World>, n: nat, id: TabId)
    requires Run(worlds) && n < |worlds| && id in worlds[n].tabs
    requires worlds[n].tabs[id].t.failed && !worlds[n].tabs[id].t.closed
    ensures var w := worlds[n];
      var v := Microtasks(w, id, |w.tabs[id].t.localErrors|);
      && id in v.tabs && v.tabs[id].c.pending == {}
      && forall i :: i in w.tabs[id].c.pending ==> Refused(v.tabs[id].c, i)
  {
    RunsKeepInv(worlds, n);
    assert TabOk(worlds[n], id);
    MicrotasksDrain(worlds[n], id);
    DrainedAnswers(worlds[n].tabs[id].c, worlds[n].tabs[id].t.localErrors);
  }
}
