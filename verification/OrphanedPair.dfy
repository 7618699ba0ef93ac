/**
 A pending pair can outlive the leader it was for: when does a tab wait for an acknowledgement
 without a current leader, and how does it get out of that?
 */
module OrphanedPair {
  import opened Common
  import opened Wire
  import opened Transport
  import opened TransportInvariant
  import opened WorkerClient
  import opened Protocol
  import opened ProtocolInvariant
  import opened ProtocolSteps
  import opened ProtocolInduction
  import opened ProtocolTheorems
  import opened Delivery
  import opened DeliveryInvariant
  import opened Stranding
  import opened ProtocolService
  import RestartBudget

  predicate Orphaned(t: Transport) {
    t.pendingPair.Some? && t.currentLeader.None?
  }

  /** The writer of a tab that a late announcement had re-paired crashes, with budget left. */
  ghost predicate Orphans(t: Transport, step: Step) {
    && step.WriterError? && Handles(t, step.leader) && t.pendingPair.Some?
    && !RestartBudget.Exhausted(RestartBudget.Record(t.failures, step.now))
  }

  /** An announcement, the awaited acknowledgement, a grant, or the end of the transport. */
  ghost predicate Adopts(t: Transport, step: Step) {
    || (step.Discover? && step.sent.msg.LeaderElected?)
    || (step.Discover? && step.sent.msg.PairAck? && step.sent.msg.client == t.self
        && t.pendingPair.Some? && t.pendingPair.value.leader == step.sent.msg.leader)
    || step.Grant? || step.Terminate? || step.CloseTransport?
  }

  ghost predicate Leaderless(t: Transport) {
    Orphaned(t) ==> t.leaderId.None?
  }

  lemma PlainOrphans(w: World, step: Step)
    requires Enabled(w, step) && PlainKind(step) && Leaderless(w.tabs[step.id].t) && TransportOk(w.tabs[step.id].t)
    ensures Orphaned(PlainEffect(w, step).t) <==> Orphaned(w.tabs[step.id].t) && !Adopts(w.tabs[step.id].t, step)
    ensures Leaderless(PlainEffect(w, step).t)
  {
  }

  lemma CrashOrphans(t: Transport, leader: LeaderId, now: int)
    requires Leaderless(t) && TransportOk(t)
    ensures var e := HandleWriterFailure(t, leader, now);
      (Orphaned(e.t) <==> Orphaned(t) || Orphans(t, WriterError(t.self, leader, now))) && Leaderless(e.t)
  {
  }

  lemma OtherOrphans(w: World, step: Step)
    requires Enabled(w, step) && Acts(step) && !PlainKind(step) && !step.WriterError?
    requires Leaderless(w.tabs[Actor(w, step)].t) && TransportOk(w.tabs[Actor(w, step)].t)
    ensures var t, u := w.tabs[Actor(w, step)].t, StepEffect(w, step).t;
      (Orphaned(u) <==> Orphaned(t) && !Adopts(t, step)) && Leaderless(u)
  {
  }

  lemma ActorOrphans(w: World, step: Step)
    requires Enabled(w, step) && Acts(step)
    requires Leaderless(w.tabs[Actor(w, step)].t) && TransportOk(w.tabs[Actor(w, step)].t)
    ensures var t, u := w.tabs[Actor(w, step)].t, StepEffect(w, step).t;
      (Orphaned(u) <==> (Orphaned(t) && !Adopts(t, step)) || Orphans(t, step)) && Leaderless(u)
  {
    if PlainKind(step) {
      PlainOrphans(w, step);
    } else if step.WriterError? {
      CrashOrphans(w.tabs[step.id].t, step.leader, step.now);
    } else {
      OtherOrphans(w, step);
    }
  }

  ghost predicate AllLeaderless(w: World) {
    forall id :: id in w.tabs ==> Leaderless(w.tabs[id].t)
  }

  lemma StepKeepsLeaderless(w: World, step: Step)
    requires Inv(w) && AllLeaderless(w) && Enabled(w, step)
    ensures AllLeaderless(Next(w, step))
  {
    if Acts(step) {
      assert TabOk(w, Actor(w, step));
      ActorOrphans(w, step);
      NextTabs(w, step);
    } else if Posts(step) {
      StepPosts(w, step);
    } else {
      SilentSteps(w, step);
    }
  }

  lemma LeadsKeepLeaderless(w: World, v: World)
    requires Inv(w) && AllLeaderless(w) && Leads(w, v)
    ensures AllLeaderless(v)
  {
    var step: Step :| Enabled(w, step) && v == Next(w, step);
    StepKeepsLeaderless(w, step);
  }

  lemma NobodyLeaderless()
    ensures AllLeaderless(INIT)
  {
  }

  lemma RunKeepsLeaderless(worlds: seq<World>, n: nat)
    requires Run(worlds) && n + 1 < |worlds| && AllLeaderless(worlds[n])
    ensures AllLeaderless(worlds[n + 1])
  {
    RunsKeepInv(worlds, n);
    LeadsKeepLeaderless(worlds[n], worlds[n + 1]);
  }

  lemma {:induction false} RunsKeepLeaderless(worlds: seq<World>, n: nat)
    requires Run(worlds) && n < |worlds|
    ensures AllLeaderless(worlds[n])
  {
    if n == 0 {
      NobodyLeaderless();
    } else {
      RunsKeepLeaderless(worlds, n - 1);
      RunKeepsLeaderless(worlds, n - 1);
    }
  }

  /** In every run and at every step, a tab is orphaned afterwards exactly when it was and nothing
      adopted it, or a crash with budget left has just orphaned it; and an orphan never leads. */
  lemma OrphanedExactly(worlds: seq<World>, n: nat, step: Step, id: TabId)
    requires Run(worlds) && n < |worlds| && Enabled(worlds[n], step) && id in worlds[n].tabs
    ensures id in Next(worlds[n], step).tabs
    ensures var t, u := worlds[n].tabs[id].t, Next(worlds[n], step).tabs[id].t;
      var acts := Acts(step) && Actor(worlds[n], step) == id;
      && (Orphaned(u) <==> (Orphaned(t) && !(acts && Adopts(t, step))) || (acts && Orphans(t, step)))
      && (Orphaned(t) ==> t.leaderId.None?)
  {
    var w := worlds[n];
    RunsKeepInv(worlds, n);
    RunsKeepLeaderless(worlds, n);
    assert Leaderless(w.tabs[id].t);
    if Acts(step) {
      assert TabOk(w, Actor(w, step)) && Leaderless(w.tabs[Actor(w, step)].t);
      ActorOrphans(w, step);
      NextTabs(w, step);
    } else {
      OtherTabs(w, step);
    }
  }

  // ----- such a run

  /** A tab as it starts, waiting for the lock, that has never crashed. */
  ghost predicate Untouched(w: World, id: TabId) {
    id in w.tabs && w.tabs[id].t == New(id) && id in w.crashes && w.crashes[id] == []
  }

  lemma StartTab(n: Net, id: TabId)
    requires id !in n.w.tabs
    ensures CanStep(n, Start(id), 0)
    ensures var u := Stepped(n, Start(id), 0);
      && Untouched(u.w, id) && u.w.queue == n.w.queue + [id] && u.w.holder == n.w.holder && u.w.owner == n.w.owner
      && (forall k :: Untouched(n.w, k) ==> Untouched(u.w, k))
  {
  }

  lemma TwoTabs(a: TabId, b: TabId) returns (n: Net)
    requires a != b
    ensures CanReach(EMPTY, n) && Untouched(n.w, a) && Untouched(n.w, b)
    ensures n.w.queue == [a, b] && n.w.holder.None? && n.w.owner == map[]
  {
    StartTab(EMPTY, a);
    Takes(EMPTY, Start(a), 0);
    var u := Stepped(EMPTY, Start(a), 0);
    OnlyTab(a);
    StartTab(u, b);
    Takes(u, Start(b), 0);
    n := Stepped(u, Start(b), 0);
    ReachSelf(n);
    ReachFrom(u, n, n);
    ReachFrom(EMPTY, u, n);
  }

  lemma OnlyTab(a: TabId)
    ensures Stepped(EMPTY, Start(a), 0).w.tabs.Keys == {a}
  {
  }

  /** The lock goes to the head of the queue, which leads; the tab behind it stays as it was. */
  lemma GrantTo(n: Net, id: TabId, other: TabId, leader: LeaderId)
    requires Untouched(n.w, id) && id != other && n.w.queue != [] && n.w.queue[0] == id && n.w.holder.None?
    requires leader !in n.w.owner
    ensures CanStep(n, Grant(leader), 0)
    ensures var u := Stepped(n, Grant(leader), 0);
      && Leading(u.w, id, leader) && u.w.queue == n.w.queue[1..] && u.w.holder == Some(id)
      && u.w.owner == n.w.owner[leader := id]
      && (Untouched(n.w, other) ==>
            Untouched(u.w, other) && Letter(n.time, other, Sent(id, LeaderElected(leader))) in u.disc)
  {
    GrantStep(n, leader, other);
    StepPosts(n.w, Grant(leader));
  }

  lemma GrantKeepsCrashes(n: Net, id: TabId, leader: LeaderId)
    requires Untouched(n.w, id) && CanStep(n, Grant(leader), 0) && n.w.queue[0] == id
    ensures var u := Stepped(n, Grant(leader), 0).w;
      && id in u.tabs && u.tabs[id].t.failures == [] && u.tabs[id].t.self == id && id in u.crashes
      && u.crashes[id] == []
      && u.tabs[id].t.currentLeader == Some(leader)
  {
  }

  /** The first leader closes and its lock is free again. */
  lemma CloseAndRelease(n: Net, id: TabId, other: TabId, leader: LeaderId) returns (m: Net)
    requires Leading(n.w, id, leader) && n.w.holder == Some(id) && id != other && Untouched(n.w, other)
    ensures CanReach(n, m) && Untouched(m.w, other) && m.w.holder.None? && m.w.queue == n.w.queue
    ensures m.w.owner == n.w.owner
    ensures n.disc <= m.disc
  {
    CloseKeeps(n, id, other, leader);
    Takes(n, CloseTransport(id), 0);
    var u := Stepped(n, CloseTransport(id), 0);
    Takes(u, LockReleased, 0);
    m := Stepped(u, LockReleased, 0);
    ReachSelf(m);
    ReachFrom(u, m, m);
    ReachFrom(n, u, m);
    forall l | l in n.disc ensures l in m.disc {
      DiscPersists(n, CloseTransport(id), 0, l);
      DiscPersists(u, LockReleased, 0, l);
    }
  }

  lemma CloseKeeps(n: Net, id: TabId, other: TabId, leader: LeaderId)
    requires Leading(n.w, id, leader) && n.w.holder == Some(id) && id != other && Untouched(n.w, other)
    ensures CanStep(n, CloseTransport(id), 0)
    ensures var u := Stepped(n, CloseTransport(id), 0);
      && Untouched(u.w, other) && u.w.holder == Some(id) && u.w.queue == n.w.queue && u.w.owner == n.w.owner
      && id in u.w.tabs && !u.w.tabs[id].t.holdsLock
  {
    StepPosts(n.w, CloseTransport(id));
  }

  /** A leader that has never crashed. */
  ghost predicate FreshLeader(w: World, id: TabId, leader: LeaderId) {
    && Leading(w, id, leader)
    && w.tabs[id].t.self == id
    && w.tabs[id].t.failures == []
    && id in w.crashes
    && w.crashes[id] == []
  }

  lemma StaleAnnouncement(n: Net, at: nat, id: TabId, leader: LeaderId, from: TabId, stale: LeaderId)
    requires FreshLeader(n.w, id, leader) && LettersOk(n) && Letter(at, id, Sent(from, LeaderElected(stale))) in n.disc
    requires stale != leader && (n.w.tabs[id].t.currentLeader == Some(leader) || n.w.tabs[id].t.pairChannel.None?)
    ensures CanStep(n, Discover(id, Sent(from, LeaderElected(stale))), at)
    ensures var u := Stepped(n, Discover(id, Sent(from, LeaderElected(stale))), at).w;
      FreshLeader(u, id, leader) && u.tabs[id].t.pendingPair.Some?
  {
    assert DiscLetterOk(n, Letter(at, id, Sent(from, LeaderElected(stale))));
  }

  lemma CrashNow(n: Net, id: TabId, leader: LeaderId, now: int)
    requires FreshLeader(n.w, id, leader) && n.w.tabs[id].t.pendingPair.Some?
    ensures CanStep(n, WriterError(id, leader, now), 0)
    ensures var u := Stepped(n, WriterError(id, leader, now), 0).w; id in u.tabs && Orphaned(u.tabs[id].t)
  {
    assert RestartBudget.Record([], now) == [now];
    StepPosts(n.w, WriterError(id, leader, now));
  }

  /** The second tab leads while the first one's announcement is still on its way to it. */
  lemma SecondTerm(first: TabId, id: TabId, stale: LeaderId, leader: LeaderId) returns (n: Net, at: nat)
    requires first != id && stale != leader
    ensures CanReach(EMPTY, n) && FreshLeader(n.w, id, leader) && n.w.tabs[id].t.currentLeader == Some(leader)
    ensures Letter(at, id, Sent(first, LeaderElected(stale))) in n.disc
  {
    var s1 := TwoTabs(first, id);
    GrantTo(s1, first, id, stale);
    Takes(s1, Grant(stale), 0);
    var s2 := Stepped(s1, Grant(stale), 0);
    var s3 := CloseAndRelease(s2, first, id, stale);
    GrantTo(s3, id, first, leader);
    GrantKeepsCrashes(s3, id, leader);
    Takes(s3, Grant(leader), 0);
    n, at := Stepped(s3, Grant(leader), 0), s1.time;
    DiscPersists(s3, Grant(leader), 0, Letter(at, id, Sent(first, LeaderElected(stale))));
    ReachSelf(n);
    ReachFrom(s3, n, n);
    ReachOn(s2, s3, n);
    ReachFrom(s1, s2, n);
    ReachOn(EMPTY, s1, n);
  }

  /** A run from nothing that ends with an orphaned pending pair. */
  lemma APairOrphaned(first: TabId, id: TabId, stale: LeaderId, leader: LeaderId, now: int) returns (m: Net)
    requires first != id && stale != leader
    ensures CanReach(EMPTY, m) && id in m.w.tabs && Orphaned(m.w.tabs[id].t)
  {
    var n, at := SecondTerm(first, id, stale, leader);
    EmptyOk();
    ReachKeepsOk(EMPTY, n);
    var step := Discover(id, Sent(first, LeaderElected(stale)));
    StaleAnnouncement(n, at, id, leader, first, stale);
    Takes(n, step, at);
    var u := Stepped(n, step, at);
    CrashNow(u, id, leader, now);
    Takes(u, WriterError(id, leader, now), 0);
    m := Stepped(u, WriterError(id, leader, now), 0);
    ReachSelf(m);
    ReachFrom(u, m, m);
    ReachFrom(n, u, m);
    ReachOn(EMPTY, n, m);
  }
}
