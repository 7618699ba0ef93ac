/** What the multi-tab storage protocol guarantees, over every run of any number of tabs. */
module ProtocolTheorems {
  import opened Common
  import opened Wire
  import opened Transport
  import opened TransportInvariant
  import opened WorkerClient
  import opened Protocol
  import opened ProtocolInvariant
  import opened ProtocolSteps
  import opened ProtocolInduction
  import RestartBudget

  /** At most one tab has a live writer; it holds the lock and is neither closed nor failed. */
  lemma SingleWriter(worlds: seq<World>, n: nat, a: TabId, b: TabId)
    requires Run(worlds) && n < |worlds|
    requires a in worlds[n].tabs && worlds[n].tabs[a].t.writer.Some?
    requires b in worlds[n].tabs && worlds[n].tabs[b].t.writer.Some?
    ensures a == b
    ensures worlds[n].holder == Some(a) && worlds[n].tabs[a].t.holdsLock
    ensures !worlds[n].tabs[a].t.closed && !worlds[n].tabs[a].t.failed
  {
    RunsKeepInv(worlds, n);
    var w := worlds[n];
    assert TabOk(w, a) && LockOk(w, a) && TabOk(w, b) && LockOk(w, b);
  }

  /** A `send` settled by a writer reply got the answer some writer gave to exactly the request
      this tab sent under that id, through a reply a bridge passed on. */
  lemma ReplyIntegrity(worlds: seq<World>, n: nat, id: TabId, i: nat, answer: Answer)
    requires Run(worlds) && n < |worlds|
    requires id in worlds[n].tabs && i in worlds[n].tabs[id].c.settled
    requires worlds[n].tabs[id].c.settled[i] == ByReply(FromWriter(answer))
    ensures i in worlds[n].tabs[id].c.sent
    ensures exists r ::
      && r in worlds[n].asked && worlds[n].asked[r] == Asked(id, i, worlds[n].tabs[id].c.sent[i])
      && r in worlds[n].answers && worlds[n].answers[r] == answer && r in worlds[n].forwards
  {
    RunsKeepInv(worlds, n);
    var w := worlds[n];
    assert SettledOk(w, id);
    assert Explained(w, id, i, FromWriter(answer));
    var r :| AnsweredBy(w, r, id, i, answer);
    assert AskedOk(w, r);
  }

  /** The response-kind guard at the end of `send` never fires. */
  lemma KindGuardNeverFires(worlds: seq<World>, n: nat, id: TabId, i: nat)
    requires Run(worlds) && n < |worlds|
    requires id in worlds[n].tabs && i in worlds[n].tabs[id].c.settled
    ensures i in worlds[n].tabs[id].c.sent
    ensures Judge(worlds[n].tabs[id].c.sent[i], worlds[n].tabs[id].c.settled[i]) != WrongKind
  {
    RunsKeepInv(worlds, n);
    var w := worlds[n];
    var c := w.tabs[id].c;
    assert TabOk(w, id) && SettledOk(w, id);
    if c.settled[i].ByReply? {
      assert Explained(w, id, i, c.settled[i].reply);
      if c.settled[i].reply.FromWriter? {
        var r :| AnsweredBy(w, r, id, i, c.settled[i].reply.answer);
        assert AskedOk(w, r);
      }
    }
  }

  /** Every envelope that reaches a page on its pair channel answers a request of that page. */
  lemma NoCrossTalk(worlds: seq<World>, n: nat, down: Down)
    requires Run(worlds) && n < |worlds| && down in worlds[n].down
    ensures down.channel.client in worlds[n].tabs && down.id in worlds[n].tabs[down.channel.client].c.sent
    ensures down.reply.FromWriter? ==>
      exists r :: AnsweredBy(worlds[n], r, down.channel.client, down.id, down.reply.answer)
  {
    RunsKeepInv(worlds, n);
    assert DownOk(worlds[n], down);
  }

  /** Live bridges map pairwise disjoint ids below the shared allocator, no mapped id has been
      passed on, and no writer reply was ever passed on twice. */
  lemma RepliesForwardedOnce(worlds: seq<World>, n: nat)
    requires Run(worlds) && n < |worlds|
    ensures Distinct(worlds[n].forwards)
    ensures forall id :: id in worlds[n].tabs ==> BridgesOk(worlds[n].tabs[id].t)
    ensures forall id, c, e :: id in worlds[n].tabs && c in worlds[n].tabs[id].t.bridges
                               && e in worlds[n].tabs[id].t.bridges[c].idMap ==>
      worlds[n].tabs[id].t.leaderId.Some? && Request(worlds[n].tabs[id].t.leaderId.value, e) !in worlds[n].forwards
  {
    RunsKeepInv(worlds, n);
    var w := worlds[n];
    forall id | id in w.tabs ensures BridgesOk(w.tabs[id].t) { assert TabOk(w, id); }
    forall id, c, e | id in w.tabs && c in w.tabs[id].t.bridges && e in w.tabs[id].t.bridges[c].idMap
      ensures w.tabs[id].t.leaderId.Some? && Request(w.tabs[id].t.leaderId.value, e) !in w.forwards
    {
      assert MapsOk(w, id);
      assert Mapped(w, w.tabs[id].t.leaderId, c, e, w.tabs[id].t.bridges[c].idMap[e]);
    }
  }

  /** While the transport is neither closed nor failed, every unsettled `send` is in the replay
      buffer exactly as it was sent; once it has failed, each has an error envelope on its way. */
  lemma NoRequestForgotten(worlds: seq<World>, n: nat, id: TabId, i: nat)
    requires Run(worlds) && n < |worlds| && id in worlds[n].tabs && i in worlds[n].tabs[id].c.pending
    ensures var tab := worlds[n].tabs[id];
      && i in tab.c.sent && i !in tab.c.settled
      && (!Terminal(tab.t) ==> i in tab.t.inFlight && tab.t.inFlight[i] == tab.c.sent[i])
      && (tab.t.failed && !tab.t.closed ==> i in tab.t.localErrors)
  {
    RunsKeepInv(worlds, n);
    assert TabOk(worlds[n], id);
  }

  /** A pending pair is the attached channel; a ready tab has had a bridge opened for it; and an
      acknowledged pairing has seen the whole buffer posted after its leader subscribed. */
  lemma HandshakeSafety(worlds: seq<World>, n: nat, id: TabId)
    requires Run(worlds) && n < |worlds| && id in worlds[n].tabs
    ensures var w, t := worlds[n], worlds[n].tabs[id].t;
      && (t.pendingPair.Some? ==> t.pairChannel == t.pendingPair)
      && (t.ready == Ready ==> exists leader :: Channel(leader, id) in w.bridged)
      && (t.pairChannel.Some? && t.pendingPair.None? ==>
            && t.pairChannel.value in w.bridged
            && forall i :: i in t.inFlight ==> Up(t.pairChannel.value, i, t.inFlight[i]) in w.live)
  {
    RunsKeepInv(worlds, n);
    assert TabOk(worlds[n], id) && HandshakeOk(worlds[n], id);
  }

  /** The crash queue is the window over the tab's whole history of writer failures, and the
      transport has given up exactly when the last three of them fit in one window. */
  lemma BudgetRefinesHistory(worlds: seq<World>, n: nat, id: TabId)
    requires Run(worlds) && n < |worlds| && id in worlds[n].tabs
    ensures id in worlds[n].crashes
    ensures worlds[n].tabs[id].t.failures == RestartBudget.Recent(worlds[n].crashes[id])
    ensures worlds[n].tabs[id].t.failed <==> RestartBudget.ThreeInWindow(worlds[n].crashes[id])
  {
    RunsKeepInv(worlds, n);
    assert TabOk(worlds[n], id);
  }

  // ----- from one world of a run to a later one

  /** The steps in which an existing tab runs a handler. */
  ghost predicate Acts(step: Step) {
    !step.Start? && !step.LockReleased? && !step.LockAborted? && !step.WriterAnswers?
  }

  function Actor(w: World, step: Step): TabId
    requires Acts(step) && Enabled(w, step)
  {
    if step.Grant? then w.queue[0] else step.id
  }

  function StepEffect(w: World, step: Step): Effect
    requires Acts(step) && Enabled(w, step)
  {
    var t := w.tabs[Actor(w, step)].t;
    if PlainKind(step) then PlainEffect(w, step)
    else match step
    case Grant(newId) => OnLockGranted(t, newId)
    case LockRejected(_) => OnLockRejected(t)
    case WriterError(_, leader, now) => HandleWriterFailure(t, leader, now)
    case ClientEnvelope(_, up) => OnClientMessage(t, up.channel.client, up.id, up.body)
    case WriterReply(_, client, request) => OnWriterMessage(t, client, request.env, w.answers[request])
  }

  function StepClient(w: World, step: Step): Client
    requires Acts(step) && Enabled(w, step)
  {
    if PlainKind(step) then PlainClient(w, step) else w.tabs[Actor(w, step)].c
  }

  lemma NextTabs(w: World, step: Step)
    requires Acts(step) && Enabled(w, step)
    ensures Actor(w, step) in w.tabs
    ensures var e := StepEffect(w, step);
      Next(w, step).tabs == w.tabs[Actor(w, step) := Tab(e.t, HearAll(StepClient(w, step), e.events))]
  {
    if PlainKind(step) { PlainNext(w, step); }
  }

  lemma OtherTabs(w: World, step: Step)
    requires !Acts(step) && Enabled(w, step)
    ensures forall k :: k in w.tabs ==> k in Next(w, step).tabs && Next(w, step).tabs[k] == w.tabs[k]
  {
  }

  /** A buffered request leaves the buffer only when an envelope for its id is delivered, which
      also leaves its promise settled, or when the transport closes or fails. */
  lemma LeavesBufferOnlyAnswered(w: World, step: Step, id: TabId, i: nat)
    requires Inv(w) && Enabled(w, step) && id in w.tabs && i in w.tabs[id].t.inFlight
    requires id in Next(w, step).tabs && i !in Next(w, step).tabs[id].t.inFlight
    ensures || (step.PairEnvelope? && step.id == id && step.down.id == i && i !in Next(w, step).tabs[id].c.pending)
            || Terminal(Next(w, step).tabs[id].t)
  {
    if Acts(step) {
      NextTabs(w, step);
      BufferedUntil(w, step, i);
      if step.PairEnvelope? {
        assert TabOk(w, id);
        HearOne(w.tabs[id].c, Envelopes({i}, step.down.reply));
      }
    } else {
      OtherTabs(w, step);
    }
  }

  lemma BufferedUntil(w: World, step: Step, i: nat)
    requires Acts(step) && Enabled(w, step) && i in w.tabs[Actor(w, step)].t.inFlight
    ensures || i in StepEffect(w, step).t.inFlight
            || (step.PairEnvelope? && step.down.id == i)
            || Terminal(StepEffect(w, step).t)
  {
  }

  /** A follower turns ready only on the acknowledgement of the leader it is pairing with, after
      that leader opened a bridge for it; anyone else turns ready by leading. */
  lemma ReadyOnlyWhenBridged(w: World, step: Step, id: TabId)
    requires Inv(w) && Enabled(w, step) && id in w.tabs && id in Next(w, step).tabs
    requires w.tabs[id].t.ready != Ready && Next(w, step).tabs[id].t.ready == Ready
    ensures || (step.Grant? && w.queue[0] == id)
            || (step.Discover? && step.id == id && step.sent.msg.PairAck? && w.tabs[id].t.pendingPair.Some?
                && w.tabs[id].t.pairChannel == w.tabs[id].t.pendingPair
                && w.tabs[id].t.pendingPair.value == Channel(step.sent.msg.leader, id)
                && Channel(step.sent.msg.leader, id) in w.bridged)
  {
    if Acts(step) {
      NextTabs(w, step);
      assert TabOk(w, id);
      TurnsReady(w, step);
      if step.Discover? { assert DiscOk(w, step.sent); }
    } else {
      OtherTabs(w, step);
    }
  }

  lemma TurnsReady(w: World, step: Step)
    requires Acts(step) && Enabled(w, step)
    requires w.tabs[Actor(w, step)].t.ready != Ready && StepEffect(w, step).t.ready == Ready
    ensures || step.Grant?
            || (step.Discover? && step.sent.msg.PairAck? && step.sent.msg.client == w.tabs[step.id].t.self
                && w.tabs[step.id].t.pendingPair.Some?
                && w.tabs[step.id].t.pendingPair.value.leader == step.sent.msg.leader)
  {
  }

  /** What a later world keeps of an earlier one for tab `k`. */
  ghost predicate Persists(w: World, v: World, k: TabId) {
    && k in w.tabs && k in v.tabs
    && Extends(w.tabs[k].c, v.tabs[k].c)
    && (w.tabs[k].t.closed ==> v.tabs[k].t.closed)
    && (w.tabs[k].t.failed ==> v.tabs[k].t.failed)
    && (Terminal(w.tabs[k].t) ==> forall l :: l in v.owner && v.owner[l] == k ==> l in w.owner && w.owner[l] == k)
  }

  lemma ActPersists(w: World, id: TabId, e: Effect, c: Client, k: TabId)
    requires k in w.tabs && Valid(c)
    requires k == id ==>
      Extends(w.tabs[k].c, c) && (w.tabs[k].t.closed ==> e.t.closed) && (w.tabs[k].t.failed ==> e.t.failed)
    ensures Persists(w, Commit(w, id, e, c), k)
  {
    HearAllKeepsValid(c, e.events);
    if k == id { ExtendsTransitive(w.tabs[k].c, c, HearAll(c, e.events)); }
  }

  lemma PlainKeepsFlags(w: World, step: Step)
    requires PlainKind(step) && Enabled(w, step)
    ensures w.tabs[step.id].t.closed ==> PlainEffect(w, step).t.closed
    ensures w.tabs[step.id].t.failed ==> PlainEffect(w, step).t.failed
  {
  }

  lemma PlainClientExtends(w: World, step: Step)
    requires PlainKind(step) && Enabled(w, step) && Valid(w.tabs[step.id].c)
    ensures Valid(PlainClient(w, step)) && Extends(w.tabs[step.id].c, PlainClient(w, step))
  {
    TerminatedValid(w.tabs[step.id].c);
  }

  lemma PlainPersists(w: World, step: Step, k: TabId)
    requires TabsOk(w) && Enabled(w, step) && PlainKind(step) && k in w.tabs
    ensures Persists(w, Next(w, step), k)
  {
    assert TabOk(w, step.id);
    PlainKeepsFlags(w, step);
    PlainClientExtends(w, step);
    PlainNext(w, step);
    ActPersists(w, step.id, PlainEffect(w, step), PlainClient(w, step), k);
  }

  lemma GrantPersists(w: World, newId: LeaderId, k: TabId)
    requires Inv(w) && Enabled(w, Grant(newId)) && k in w.tabs
    ensures Persists(w, Next(w, Grant(newId)), k)
  {
    var u, id := Granted(w, newId), w.queue[0];
    assert TabOk(w, id) && LockOk(w, id);
    GrantKeepsFlags(w.tabs[id].t, newId);
    ActPersists(u, id, OnLockGranted(u.tabs[id].t, newId), u.tabs[id].c, k);
    if Terminal(w.tabs[k].t) { GrantOwner(w, newId, k); }
  }

  lemma GrantKeepsFlags(t: Transport, newId: LeaderId)
    ensures OnLockGranted(t, newId).t.closed == t.closed && OnLockGranted(t, newId).t.failed == t.failed
  {
  }

  /** Only a tab that is neither closed nor failed mints a leader id. */
  lemma GrantOwner(w: World, newId: LeaderId, k: TabId)
    requires LocksOk(w) && Enabled(w, Grant(newId)) && k in w.tabs && Terminal(w.tabs[k].t)
    ensures forall l :: l in Granted(w, newId).owner && Granted(w, newId).owner[l] == k ==>
      l in w.owner && w.owner[l] == k
  {
    assert LockOk(w, w.queue[0]);
  }

  lemma StepPersists(w: World, step: Step, k: TabId)
    requires Inv(w) && Enabled(w, step) && k in w.tabs
    ensures Persists(w, Next(w, step), k)
  {
    if PlainKind(step) {
      PlainPersists(w, step, k);
    } else if step.Grant? {
      GrantPersists(w, step.newId, k);
    } else if Acts(step) {
      WriterStepPersists(w, step, k);
    } else {
      OtherPersists(w, step, k);
    }
  }

  lemma OtherPersists(w: World, step: Step, k: TabId)
    requires Enabled(w, step) && k in w.tabs && !Acts(step)
    ensures Persists(w, Next(w, step), k)
  {
    OtherTabs(w, step);
  }

  lemma WriterStepPersists(w: World, step: Step, k: TabId)
    requires TabsOk(w) && Enabled(w, step) && k in w.tabs && Acts(step) && !PlainKind(step) && !step.Grant?
    ensures Persists(w, Next(w, step), k)
  {
    var id := step.id;
    assert TabOk(w, id);
    NextTabs(w, step);
    KeepsFlags(w, step);
    ActPersists(w, id, StepEffect(w, step), w.tabs[id].c, k);
  }

  lemma KeepsFlags(w: World, step: Step)
    requires Enabled(w, step) && Acts(step) && !PlainKind(step) && !step.Grant?
    requires TransportOk(w.tabs[step.id].t)
    ensures w.tabs[step.id].t.closed ==> StepEffect(w, step).t.closed
    ensures w.tabs[step.id].t.failed ==> StepEffect(w, step).t.failed
    ensures Next(w, step).owner == w.owner
  {
  }

  lemma PersistsTransitive(w: World, u: World, v: World, k: TabId)
    requires Persists(w, u, k) && Persists(u, v, k)
    ensures Persists(w, v, k)
  {
    ExtendsTransitive(w.tabs[k].c, u.tabs[k].c, v.tabs[k].c);
  }

  lemma LeadsPersist(w: World, v: World, k: TabId)
    requires Inv(w) && Leads(w, v) && k in w.tabs
    ensures Persists(w, v, k)
  {
    var step: Step :| Enabled(w, step) && v == Next(w, step);
    StepPersists(w, step, k);
  }

  lemma {:induction false} RunsPersist(worlds: seq<World>, m: nat, n: nat, k: TabId)
    requires Run(worlds) && m <= n < |worlds| && k in worlds[m].tabs
    ensures Persists(worlds[m], worlds[n], k)
    decreases n - m
  {
    if m < n {
      RunsPersist(worlds, m, n - 1, k);
      RunsKeepInv(worlds, n - 1);
      LeadsPersist(worlds[n - 1], worlds[n], k);
      PersistsTransitive(worlds[m], worlds[n - 1], worlds[n], k);
    }
  }

  /** After a close or a permanent failure, at every later point: still terminal, no writer, no
      lock, no pairing, no buffer, and no leader id minted since. */
  lemma TerminalAbsorbs(worlds: seq<World>, m: nat, n: nat, id: TabId)
    requires Run(worlds) && m <= n < |worlds| && id in worlds[m].tabs && Terminal(worlds[m].tabs[id].t)
    ensures id in worlds[n].tabs && Terminal(worlds[n].tabs[id].t) && Emptied(worlds[n].tabs[id].t)
    ensures forall l :: l in worlds[n].owner && worlds[n].owner[l] == id ==> l in worlds[m].owner
  {
    RunsPersist(worlds, m, n, id);
    RunsKeepInv(worlds, n);
    assert TabOk(worlds[n], id);
  }

  /** No promise is settled twice: what settled it once is what settled it at every later point. */
  lemma SettledOnce(worlds: seq<World>, m: nat, n: nat, id: TabId, i: nat)
    requires Run(worlds) && m <= n < |worlds| && id in worlds[m].tabs && i in worlds[m].tabs[id].c.settled
    ensures id in worlds[n].tabs && i in worlds[n].tabs[id].c.settled
    ensures worlds[n].tabs[id].c.settled[i] == worlds[m].tabs[id].c.settled[i]
    ensures i !in worlds[n].tabs[id].c.pending
  {
    RunsPersist(worlds, m, n, id);
    RunsKeepInv(worlds, n);
    assert TabOk(worlds[n], id);
  }
}
