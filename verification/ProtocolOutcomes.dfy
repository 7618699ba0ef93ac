/** What single steps come to, over every run: buffers, pairings, readiness and promises. */
module ProtocolOutcomes {
  import opened Common
  import opened Wire
  import opened Transport
  import opened TransportInvariant
  import opened WorkerClient
  import opened Protocol
  import opened ProtocolInvariant
  import opened ProtocolSteps
  import opened ProtocolInduction
  import opened ProtocolTheorems
  import RestartBudget

  // ----- an answered request is never replayed

  /** Sent, and no longer in the replay buffer. */
  ghost predicate Forgotten(w: World, id: TabId, i: nat) {
    id in w.tabs && i in w.tabs[id].c.sent && i !in w.tabs[id].t.inFlight
  }

  lemma PlainPostsNothingForgotten(w: World, step: Step, i: nat)
    requires Enabled(w, step) && PlainKind(step)
    requires i < w.tabs[step.id].c.nextId && i !in w.tabs[step.id].t.inFlight
    ensures i !in PlainEffect(w, step).t.inFlight && forall u :: u in PlainEffect(w, step).up ==> u.id != i
  {
    if step.Discover? { DiscoveryPostsBuffered(w.tabs[step.id].t, step.sent.msg); }
  }

  lemma DiscoveryPostsBuffered(t: Transport, msg: Discovery)
    ensures OnDiscovery(t, msg).t.inFlight == t.inFlight
    ensures forall u :: u in OnDiscovery(t, msg).up ==> u.id in t.inFlight
  {
  }

  /** A handler neither buffers nor posts an old id that its buffer has let go. */
  lemma NothingForgottenPosted(w: World, step: Step, i: nat)
    requires Enabled(w, step) && Acts(step)
    requires i < w.tabs[Actor(w, step)].c.nextId && i !in w.tabs[Actor(w, step)].t.inFlight
    ensures i !in StepEffect(w, step).t.inFlight && forall u :: u in StepEffect(w, step).up ==> u.id != i
  {
    if PlainKind(step) { PlainPostsNothingForgotten(w, step, i); }
  }

  lemma StepKeepsForgotten(w: World, step: Step, id: TabId, i: nat)
    requires Inv(w) && Enabled(w, step) && Forgotten(w, id, i)
    ensures Forgotten(Next(w, step), id, i)
    ensures Acts(step) && Actor(w, step) == id ==> forall u :: u in StepEffect(w, step).up ==> u.id != i
  {
    assert TabOk(w, id);
    StepPersists(w, step, id);
    if Acts(step) {
      NextTabs(w, step);
      if Actor(w, step) == id { NothingForgottenPosted(w, step, i); }
    } else {
      OtherTabs(w, step);
    }
  }

  lemma LeadsKeepForgotten(w: World, v: World, id: TabId, i: nat)
    requires Inv(w) && Leads(w, v) && Forgotten(w, id, i)
    ensures Forgotten(v, id, i)
  {
    var step: Step :| Enabled(w, step) && v == Next(w, step);
    StepKeepsForgotten(w, step, id, i);
  }

  lemma RunKeepsForgotten(worlds: seq<World>, n: nat, id: TabId, i: nat)
    requires Run(worlds) && n + 1 < |worlds| && Forgotten(worlds[n], id, i)
    ensures Forgotten(worlds[n + 1], id, i)
  {
    RunsKeepInv(worlds, n);
    LeadsKeepForgotten(worlds[n], worlds[n + 1], id, i);
  }

  lemma {:induction false} RunsKeepForgotten(worlds: seq<World>, m: nat, n: nat, id: TabId, i: nat)
    requires Run(worlds) && m <= n < |worlds| && Forgotten(worlds[m], id, i)
    ensures Forgotten(worlds[n], id, i)
    decreases n - m
  {
    if m < n {
      RunKeepsForgotten(worlds, m, id, i);
      RunsKeepForgotten(worlds, m + 1, n, id, i);
    }
  }

  lemma DeliveryForgets(w: World, id: TabId, down: Down)
    requires Inv(w) && Enabled(w, PairEnvelope(id, down))
    ensures Forgotten(Next(w, PairEnvelope(id, down)), id, down.id)
  {
    assert TabOk(w, id) && DownOk(w, down);
    StepPersists(w, PairEnvelope(id, down), id);
    NextTabs(w, PairEnvelope(id, down));
  }

  /** Once an envelope for a request has been delivered to a tab on its attached channel, the request
      is in no later buffer of that tab, and no later step of the tab posts it again. */
  lemma AnsweredNeverReplayed(worlds: seq<World>, m: nat, n: nat, id: TabId, down: Down, step: Step)
    requires Run(worlds) && m < n < |worlds| && Enabled(worlds[m], PairEnvelope(id, down))
    requires worlds[m + 1] == Next(worlds[m], PairEnvelope(id, down)) && Enabled(worlds[n], step)
    ensures id in worlds[n].tabs && down.id !in worlds[n].tabs[id].t.inFlight
    ensures Acts(step) && Actor(worlds[n], step) == id ==>
      forall u :: u in StepEffect(worlds[n], step).up ==> u.id != down.id
  {
    RunsKeepInv(worlds, m);
    DeliveryForgets(worlds[m], id, down);
    RunsKeepForgotten(worlds, m + 1, n, id, down.id);
    RunsKeepInv(worlds, n);
    StepKeepsForgotten(worlds[n], step, id, down.id);
  }

  // ----- how long a pairing lasts

  /** Acknowledged on this channel, or self-paired over it. */
  predicate Joined(t: Transport, channel: Channel) {
    t.pairChannel == Some(channel) && t.pendingPair.None?
  }

  /** A current leader is the one at the other end of the attached channel. */
  predicate CurrentOk(t: Transport) {
    t.pairChannel.Some? && t.currentLeader.Some? ==> t.currentLeader.value == t.pairChannel.value.leader
  }

  /** Another leader's announcement, the leader's failure, an own grant, a last crash or a close. */
  ghost predicate Parts(t: Transport, step: Step) {
    || (step.Discover? && step.sent.msg.LeaderElected?
        && t.currentLeader != Some(step.sent.msg.id) && t.leaderId != Some(step.sent.msg.id))
    || (step.Discover? && step.sent.msg.LeaderFailed? && t.currentLeader == Some(step.sent.msg.leader))
    || (step.WriterError? && Handles(t, step.leader)
        && RestartBudget.Exhausted(RestartBudget.Record(t.failures, step.now)))
    || step.Grant? || step.Terminate? || step.CloseTransport?
  }

  lemma PlainParts(w: World, step: Step, channel: Channel)
    requires Enabled(w, step) && PlainKind(step) && Joined(w.tabs[step.id].t, channel) && !w.tabs[step.id].t.closed
    ensures Joined(PlainEffect(w, step).t, channel) <==> !Parts(w.tabs[step.id].t, step)
  {
  }

  lemma OtherParts(w: World, step: Step, channel: Channel)
    requires Enabled(w, step) && Acts(step) && !PlainKind(step) && Joined(w.tabs[Actor(w, step)].t, channel)
    requires step.Grant? ==> step.newId != channel.leader && !w.tabs[Actor(w, step)].t.closed
    ensures Joined(StepEffect(w, step).t, channel) <==> !Parts(w.tabs[Actor(w, step)].t, step)
  {
  }

  /** Channels leaders have subscribed to carry leader ids that were minted. */
  ghost predicate BridgedMinted(w: World) {
    forall channel :: channel in w.bridged ==> channel.leader in w.owner
  }

  ghost predicate PairingsOk(w: World) {
    BridgedMinted(w) && forall id :: id in w.tabs ==> CurrentOk(w.tabs[id].t)
  }

  lemma StepKeepsCurrent(w: World, step: Step)
    requires Enabled(w, step) && Acts(step) && CurrentOk(w.tabs[Actor(w, step)].t)
    ensures CurrentOk(StepEffect(w, step).t)
  {
    if PlainKind(step) { PlainKeepsCurrent(w, step); }
  }

  lemma PlainKeepsCurrent(w: World, step: Step)
    requires Enabled(w, step) && PlainKind(step) && CurrentOk(w.tabs[step.id].t)
    ensures CurrentOk(PlainEffect(w, step).t)
  {
    if step.Discover? { DiscoveryKeepsCurrent(w.tabs[step.id].t, step.sent.msg); }
  }

  lemma DiscoveryKeepsCurrent(t: Transport, msg: Discovery)
    requires CurrentOk(t)
    ensures CurrentOk(OnDiscovery(t, msg).t)
  {
  }

  /** A handler opens bridges for its own tenure, or the one just granted. */
  lemma BridgesOwn(w: World, step: Step)
    requires Enabled(w, step) && Acts(step)
    requires step.Discover? && step.sent.msg.PairRequest? ==>
      step.sent.msg.channel == Channel(step.sent.msg.leader, step.sent.msg.client)
    ensures forall channel :: channel in StepEffect(w, step).bridged ==>
      || w.tabs[Actor(w, step)].t.leaderId == Some(channel.leader)
      || (step.Grant? && channel.leader == step.newId && !w.tabs[Actor(w, step)].t.closed)
  {
  }

  lemma GrantMints(w: World, newId: LeaderId)
    requires Enabled(w, Grant(newId)) && !w.tabs[w.queue[0]].t.closed
    ensures newId in Next(w, Grant(newId)).owner
  {
  }

  lemma StepBridgesOwn(w: World, step: Step)
    requires Enabled(w, step) && Acts(step) && LocksOk(w) && MessagesOk(w)
    requires forall l :: l in w.owner ==> l in Next(w, step).owner
    ensures forall channel :: channel in StepEffect(w, step).bridged ==> channel.leader in Next(w, step).owner
  {
    assert LockOk(w, Actor(w, step));
    if step.Discover? { assert DiscOk(w, step.sent); }
    BridgesOwn(w, step);
    if step.Grant? && !w.tabs[Actor(w, step)].t.closed { GrantMints(w, step.newId); }
  }

  /** A step adds to the subscriptions only what its handler opened, and never forgets a minted id. */
  lemma StepRecords(w: World, step: Step)
    requires Enabled(w, step)
    ensures forall l :: l in w.owner ==> l in Next(w, step).owner
    ensures Next(w, step).bridged == w.bridged + if Acts(step) then StepEffect(w, step).bridged else {}
  {
    if PlainKind(step) { PlainNext(w, step); }
  }

  lemma StepKeepsMinted(w: World, step: Step)
    requires LocksOk(w) && MessagesOk(w) && BridgedMinted(w) && Enabled(w, step)
    ensures BridgedMinted(Next(w, step))
  {
    StepRecords(w, step);
    if Acts(step) { StepBridgesOwn(w, step); }
  }

  lemma ActorStaysCurrent(w: World, step: Step)
    requires PairingsOk(w) && Enabled(w, step) && Acts(step)
    ensures forall id :: id in Next(w, step).tabs ==> CurrentOk(Next(w, step).tabs[id].t)
  {
    StepKeepsCurrent(w, step);
    NextTabs(w, step);
  }

  lemma StepKeepsPairings(w: World, step: Step)
    requires Inv(w) && PairingsOk(w) && Enabled(w, step)
    ensures PairingsOk(Next(w, step))
  {
    StepKeepsMinted(w, step);
    if Acts(step) { ActorStaysCurrent(w, step); } else { OthersStayCurrent(w, step); }
  }

  lemma OthersStayCurrent(w: World, step: Step)
    requires PairingsOk(w) && Enabled(w, step) && !Acts(step)
    ensures forall id :: id in Next(w, step).tabs ==> CurrentOk(Next(w, step).tabs[id].t)
  {
    OtherTabs(w, step);
  }

  lemma LeadsKeepPairings(w: World, v: World)
    requires Inv(w) && PairingsOk(w) && Leads(w, v)
    ensures PairingsOk(v)
  {
    var step: Step :| Enabled(w, step) && v == Next(w, step);
    StepKeepsPairings(w, step);
  }

  lemma NoPairings()
    ensures PairingsOk(INIT)
  {
  }

  lemma RunKeepsPairings(worlds: seq<World>, n: nat)
    requires Run(worlds) && n + 1 < |worlds| && PairingsOk(worlds[n])
    ensures PairingsOk(worlds[n + 1])
  {
    RunsKeepInv(worlds, n);
    LeadsKeepPairings(worlds[n], worlds[n + 1]);
  }

  lemma {:induction false} RunsKeepPairings(worlds: seq<World>, n: nat)
    requires Run(worlds) && n < |worlds|
    ensures PairingsOk(worlds[n])
  {
    if n == 0 {
      NoPairings();
    } else {
      RunsKeepPairings(worlds, n - 1);
      RunKeepsPairings(worlds, n - 1);
    }
  }

  lemma ActorParts(w: World, step: Step, channel: Channel)
    requires Inv(w) && BridgedMinted(w) && Enabled(w, step) && Acts(step) && Joined(w.tabs[Actor(w, step)].t, channel)
    ensures Joined(StepEffect(w, step).t, channel) <==> !Parts(w.tabs[Actor(w, step)].t, step)
  {
    assert TabOk(w, Actor(w, step)) && HandshakeOk(w, Actor(w, step));
    if PlainKind(step) { PlainParts(w, step, channel); } else { OtherParts(w, step, channel); }
  }

  /** In every run and at every step, a tab stays joined to its channel exactly unless it parts from it
      itself; and while it has a current leader, that is the leader of the channel. */
  lemma JoinedExactly(worlds: seq<World>, n: nat, step: Step, id: TabId, channel: Channel)
    requires Run(worlds) && n < |worlds| && Enabled(worlds[n], step)
    requires id in worlds[n].tabs && Joined(worlds[n].tabs[id].t, channel)
    ensures id in Next(worlds[n], step).tabs
    ensures var t := worlds[n].tabs[id].t;
      && (Joined(Next(worlds[n], step).tabs[id].t, channel)
          <==> !(Acts(step) && Actor(worlds[n], step) == id && Parts(t, step)))
      && (t.currentLeader.Some? ==> t.currentLeader.value == channel.leader)
  {
    RunsKeepInv(worlds, n);
    RunsKeepPairings(worlds, n);
    assert CurrentOk(worlds[n].tabs[id].t);
    JoinedStep(worlds[n], step, id, channel);
  }

  lemma JoinedStep(w: World, step: Step, id: TabId, channel: Channel)
    requires Inv(w) && BridgedMinted(w) && Enabled(w, step) && id in w.tabs && Joined(w.tabs[id].t, channel)
    ensures id in Next(w, step).tabs
    ensures Joined(Next(w, step).tabs[id].t, channel)
       <==> !(Acts(step) && Actor(w, step) == id && Parts(w.tabs[id].t, step))
  {
    if Acts(step) {
      if Actor(w, step) == id { ActorParts(w, step, channel); }
      NextTabs(w, step);
    } else {
      OtherTabs(w, step);
    }
  }

  // ----- what the caller of `send` gets

  /** Some writer answered the request this tab sent under this id, and a bridge passed that on. */
  ghost predicate WriterSaid(w: World, id: TabId, i: nat, answer: Answer)
    requires id in w.tabs && i in w.tabs[id].c.sent
  {
    exists r ::
      && r in w.asked && w.asked[r] == Asked(id, i, w.tabs[id].c.sent[i])
      && r in w.answers && w.answers[r] == answer && r in w.forwards
  }

  /** A settled `send` resolves with a value exactly when it was settled by a writer's response of its
      own kind with that value, or is a close the bridge answered; every other one rejects. */
  lemma ResolvesExactly(worlds: seq<World>, n: nat, id: TabId, i: nat, v: int)
    requires Run(worlds) && n < |worlds| && id in worlds[n].tabs && i in worlds[n].tabs[id].c.settled
    ensures i in worlds[n].tabs[id].c.sent
    ensures var body, how := worlds[n].tabs[id].c.sent[i], worlds[n].tabs[id].c.settled[i];
      && (Judge(body, how) == Resolved(v) <==>
            || how == ByReply(FromWriter(Response(body.kind, v)))
            || (how == ByReply(CloseAck) && body.kind == CloseConnection && v == 0))
      && (Judge(body, how).Resolved? || Judge(body, how) == Verdict.Rejected)
      && (how.ByReply? && how.reply.FromWriter? ==> WriterSaid(worlds[n], id, i, how.reply.answer))
      && (how == ByReply(CloseAck) ==> body.kind == CloseConnection)
  {
    RunsKeepInv(worlds, n);
    KindGuardNeverFires(worlds, n, id, i);
    assert TabOk(worlds[n], id);
    VerdictExactly(worlds[n], id, i, v);
  }

  lemma VerdictExactly(w: World, id: TabId, i: nat, v: int)
    requires Inv(w) && id in w.tabs && i in w.tabs[id].c.settled && i in w.tabs[id].c.sent
    requires Judge(w.tabs[id].c.sent[i], w.tabs[id].c.settled[i]) != WrongKind
    ensures var body, how := w.tabs[id].c.sent[i], w.tabs[id].c.settled[i];
      && (Judge(body, how) == Resolved(v) <==>
            || how == ByReply(FromWriter(Response(body.kind, v)))
            || (how == ByReply(CloseAck) && body.kind == CloseConnection && v == 0))
      && (Judge(body, how).Resolved? || Judge(body, how) == Verdict.Rejected)
      && (how.ByReply? && how.reply.FromWriter? ==> WriterSaid(w, id, i, how.reply.answer))
      && (how == ByReply(CloseAck) ==> body.kind == CloseConnection)
  {
    var c := w.tabs[id].c;
    assert SettledOk(w, id);
    if c.settled[i].ByReply? {
      assert Explained(w, id, i, c.settled[i].reply);
      if c.settled[i].reply.FromWriter? { SaidByWriter(w, id, i, c.settled[i].reply.answer); }
    }
  }

  lemma SaidByWriter(w: World, id: TabId, i: nat, answer: Answer)
    requires RequestsOk(w) && Explained(w, id, i, FromWriter(answer))
    ensures WriterSaid(w, id, i, answer)
  {
    var r :| AnsweredBy(w, r, id, i, answer);
    assert AskedOk(w, r);
  }

  // ----- readiness

  /** The acknowledgement of the pending pair, or a grant. */
  ghost predicate Welcomes(t: Transport, step: Step) {
    || (step.Discover? && step.sent.msg.PairAck? && step.sent.msg.client == t.self
        && t.pendingPair.Some? && t.pendingPair.value.leader == step.sent.msg.leader)
    || step.Grant?
  }

  /** A refused lock request, or the end of the transport. */
  ghost predicate Disappoints(step: Step) {
    step.LockRejected? || step.Terminate? || step.CloseTransport?
  }

  /** What becomes of readiness when a tab runs a handler. */
  ghost function Readied(t: Transport, step: Step): Readiness {
    if t.ready != Waiting || t.closed then t.ready
    else if Welcomes(t, step) then Ready
    else if Disappoints(step) then Readiness.Rejected
    else Waiting
  }

  lemma DiscoveryReadiness(t: Transport, id: TabId, sent: Sent)
    requires TransportOk(t)
    ensures OnDiscovery(t, sent.msg).t.ready == Readied(t, Discover(id, sent))
  {
  }

  lemma PlainReadiness(w: World, step: Step)
    requires Enabled(w, step) && PlainKind(step) && TransportOk(w.tabs[step.id].t)
    ensures PlainEffect(w, step).t.ready == Readied(w.tabs[step.id].t, step)
  {
    if step.Discover? { DiscoveryReadiness(w.tabs[step.id].t, step.id, step.sent); }
  }

  lemma CrashReadiness(t: Transport, leader: LeaderId, now: int)
    ensures HandleWriterFailure(t, leader, now).t.ready == t.ready
  {
  }

  lemma OtherReadiness(w: World, step: Step)
    requires Enabled(w, step) && Acts(step) && !PlainKind(step)
    ensures StepEffect(w, step).t.ready == Readied(w.tabs[Actor(w, step)].t, step)
  {
    if step.WriterError? { CrashReadiness(w.tabs[step.id].t, step.leader, step.now); }
  }

  lemma ActorReadiness(w: World, step: Step)
    requires Enabled(w, step) && Acts(step) && TransportOk(w.tabs[Actor(w, step)].t)
    ensures StepEffect(w, step).t.ready == Readied(w.tabs[Actor(w, step)].t, step)
  {
    if PlainKind(step) { PlainReadiness(w, step); } else { OtherReadiness(w, step); }
  }

  /** Readiness is settled once: by the awaited acknowledgement or a grant, or else by a refused lock
      request or the end of the transport, and by nothing that other tabs do. */
  lemma ReadinessExactly(w: World, step: Step, id: TabId)
    requires TabsOk(w) && Enabled(w, step) && id in w.tabs
    ensures id in Next(w, step).tabs
    ensures Next(w, step).tabs[id].t.ready
      == if Acts(step) && Actor(w, step) == id then Readied(w.tabs[id].t, step) else w.tabs[id].t.ready
  {
    assert TabOk(w, id);
    if Acts(step) {
      NextTabs(w, step);
      if Actor(w, step) == id { ActorReadiness(w, step); }
    } else {
      OtherTabs(w, step);
    }
  }

  /** A tab that has just started is waiting. */
  lemma StartsWaiting(w: World, id: TabId)
    requires Enabled(w, Start(id))
    ensures id in Next(w, Start(id)).tabs && Next(w, Start(id)).tabs[id].t.ready == Waiting
  {
  }

  // ----- bad news reaches the promises

  /** Everything that was pending is settled this way, and nothing else changes. */
  ghost predicate AllSettled(c: Client, d: Client, how: Settlement) {
    && d.pending == {}
    && d.settled.Keys == c.settled.Keys + c.pending
    && (forall i :: i in c.settled ==> d.settled[i] == c.settled[i])
    && (forall i :: i in c.pending ==> d.settled[i] == how)
  }

  lemma ErrorSettlesAll(c: Client)
    requires Valid(c) && c.attached
    ensures AllSettled(c, HearAll(c, [ErrorEvent]), ByErrorEvent)
  {
    HearOne(c, ErrorEvent);
  }

  /** The failure of the current leader rejects a tab's pending promises and leaves it unpaired, its
      buffer kept; the failure of any other leader is nothing to it. */
  lemma LeaderFailedOutcome(worlds: seq<World>, n: nat, id: TabId, sent: Sent)
    requires Run(worlds) && n < |worlds| && Enabled(worlds[n], Discover(id, sent)) && sent.msg.LeaderFailed?
    ensures id in Next(worlds[n], Discover(id, sent)).tabs
    ensures Abandoned(worlds[n].tabs[id], Next(worlds[n], Discover(id, sent)).tabs[id], sent.msg.leader)
  {
    RunsKeepInv(worlds, n);
    assert TabOk(worlds[n], id);
    LeaderFailedStep(worlds[n], id, sent);
  }

  ghost predicate Abandoned(tab: Tab, after: Tab, leader: LeaderId) {
    if tab.t.currentLeader != Some(leader) then after == tab
    else
      && AllSettled(tab.c, after.c, ByErrorEvent) && after.t.inFlight == tab.t.inFlight
      && after.t.pairChannel.None? && after.t.pendingPair.None? && after.t.currentLeader.None?
  }

  lemma LeaderFailedStep(w: World, id: TabId, sent: Sent)
    requires Enabled(w, Discover(id, sent)) && sent.msg.LeaderFailed? && Valid(w.tabs[id].c) && w.tabs[id].c.attached
    ensures id in Next(w, Discover(id, sent)).tabs
    ensures Abandoned(w.tabs[id], Next(w, Discover(id, sent)).tabs[id], sent.msg.leader)
  {
    ErrorSettlesAll(w.tabs[id].c);
    HearNone(w.tabs[id].c);
  }

  /** A lock request refused by the platform rejects an open tab's pending promises and, if it was
      still waiting, its readiness; the tab is out of the queue. */
  lemma LockRejectedOutcome(worlds: seq<World>, n: nat, id: TabId)
    requires Run(worlds) && n < |worlds| && Enabled(worlds[n], LockRejected(id)) && !worlds[n].tabs[id].t.closed
    ensures id in Next(worlds[n], LockRejected(id)).tabs
    ensures var tab, after := worlds[n].tabs[id], Next(worlds[n], LockRejected(id)).tabs[id];
      && AllSettled(tab.c, after.c, ByErrorEvent)
      && after.t.ready == (if tab.t.ready == Waiting then Readiness.Rejected else tab.t.ready)
      && after.t.inFlight == tab.t.inFlight
  {
    RunsKeepInv(worlds, n);
    assert TabOk(worlds[n], id);
    ErrorSettlesAll(worlds[n].tabs[id].c);
  }

  /** `terminate` rejects everything pending, closes the transport and ends the client's listening. */
  lemma TerminateOutcome(worlds: seq<World>, n: nat, id: TabId)
    requires Run(worlds) && n < |worlds| && id in worlds[n].tabs
    ensures id in Next(worlds[n], Terminate(id)).tabs
    ensures var c, after := worlds[n].tabs[id].c, Next(worlds[n], Terminate(id)).tabs[id];
      AllSettled(c, after.c, ByTerminate) && !after.c.attached && after.t.closed && Emptied(after.t)
  {
    RunsKeepInv(worlds, n);
    assert TabOk(worlds[n], id);
    TerminateStep(worlds[n], id);
  }

  lemma TerminatedClient(c: Client)
    requires Valid(c)
    ensures AllSettled(c, Terminated(c), ByTerminate) && !Terminated(c).attached
    ensures HearAll(Terminated(c), []) == Terminated(c)
  {
    HearNone(Terminated(c));
  }

  lemma TerminatedTransport(tab: Tab)
    requires TransportOk(tab.t)
    ensures TerminateEffect(tab).t.closed && Emptied(TerminateEffect(tab).t) && TerminateEffect(tab).events == []
  {
  }

  lemma TerminateStep(w: World, id: TabId)
    requires id in w.tabs && Valid(w.tabs[id].c) && TransportOk(w.tabs[id].t)
    ensures id in Next(w, Terminate(id)).tabs
    ensures var c, after := w.tabs[id].c, Next(w, Terminate(id)).tabs[id];
      AllSettled(c, after.c, ByTerminate) && !after.c.attached && after.t.closed && Emptied(after.t)
  {
    TerminatedClient(w.tabs[id].c);
    TerminatedTransport(w.tabs[id]);
    assert Next(w, Terminate(id)).tabs[id] == Tab(TerminateEffect(w.tabs[id]).t, Terminated(w.tabs[id].c));
  }

  /** A closed transport tells its client nothing any more. */
  lemma ClosedHearsNothing(w: World, step: Step, id: TabId)
    requires TabsOk(w) && Enabled(w, step) && id in w.tabs && w.tabs[id].t.closed
    requires step != Terminate(id) && !(step.Send? && step.id == id)
    ensures id in Next(w, step).tabs && Next(w, step).tabs[id].c == w.tabs[id].c
  {
    assert TabOk(w, id);
    if Acts(step) {
      NextTabs(w, step);
      if Actor(w, step) == id {
        ClosedIsSilent(w, step);
        HearNone(w.tabs[id].c);
      }
    } else {
      OtherTabs(w, step);
    }
  }

  lemma ClosedIsSilent(w: World, step: Step)
    requires Enabled(w, step) && Acts(step) && !step.Terminate? && !step.Send?
    requires TransportOk(w.tabs[Actor(w, step)].t) && w.tabs[Actor(w, step)].t.closed
    ensures StepEffect(w, step).events == [] && StepClient(w, step) == w.tabs[Actor(w, step)].c
  {
  }

  /** The crash that spends the budget dispatches an error envelope for everything still buffered. */
  lemma LastCrashAnswersBuffer(w: World, id: TabId, leader: LeaderId, now: int, i: nat)
    requires Inv(w) && Enabled(w, WriterError(id, leader, now)) && Handles(w.tabs[id].t, leader)
    requires id in Next(w, WriterError(id, leader, now)).tabs && Next(w, WriterError(id, leader, now)).tabs[id].t.failed
    requires i in w.tabs[id].t.inFlight
    ensures exists e :: e in StepEffect(w, WriterError(id, leader, now)).events
                     && e.Envelopes? && i in e.ids && e.reply == PermanentlyFailed
  {
    assert TabOk(w, id);
    NextTabs(w, WriterError(id, leader, now));
    CrashDispatches(w.tabs[id].t, leader, now);
  }

  lemma CrashDispatches(t: Transport, leader: LeaderId, now: int)
    requires Handles(t, leader) && !t.failed && HandleWriterFailure(t, leader, now).t.failed
    ensures Envelopes(t.inFlight.Keys, PermanentlyFailed) in HandleWriterFailure(t, leader, now).events
  {
  }
}
