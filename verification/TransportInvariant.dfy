/** What every handler of the transport keeps true of its own tab. */
module TransportInvariant {
  import opened Common
  import opened Wire
  import opened Transport
  import opened WorkerClient
  import RestartBudget

  ghost predicate Terminal(t: Transport) {
    t.closed || t.failed
  }

  /** Nothing of the tab's role in the protocol is left. */
  ghost predicate Emptied(t: Transport) {
    && t.pairChannel.None? && t.pendingPair.None? && t.inFlight == map[]
    && t.writer.None? && t.leaderId.None? && t.bridges == map[] && !t.holdsLock
  }

  /** A pending pair is the attached channel, and it addresses the current leader. The one
      exception is a leader whose writer crashed while a late announcement had it pairing with
      someone else: it forgets the current leader and keeps pairing. */
  ghost predicate PairOk(t: Transport) {
    && (t.pairChannel.Some? ==> t.pairChannel.value.client == t.self)
    && (t.pendingPair.Some? ==>
          && t.pairChannel == t.pendingPair
          && (t.currentLeader.None? || t.currentLeader == Some(t.pendingPair.value.leader)))
  }

  /** Leadership is the lock, the writer, the leader id and the bridges together. */
  ghost predicate LeadershipOk(t: Transport) {
    && t.writer == t.leaderId
    && (t.holdsLock <==> t.leaderId.Some?)
    && (t.leaderId.None? ==> t.bridges == map[])
    && (forall c :: c in t.bridges ==> t.bridges[c].channel == Channel(t.leaderId.value, c))
  }

  /** Live bridges map pairwise disjoint envelope ids, all below the shared allocator. */
  ghost predicate BridgesOk(t: Transport) {
    && (forall c, e :: c in t.bridges && e in t.bridges[c].idMap ==> e < t.nextEnvelope)
    && (forall c, d, e :: c in t.bridges && d in t.bridges && e in t.bridges[c].idMap && e in t.bridges[d].idMap ==>
          c == d)
  }

  ghost predicate TransportOk(t: Transport) {
    && PairOk(t) && LeadershipOk(t) && BridgesOk(t)
    && (Terminal(t) ==> Emptied(t))
  }

  /** No request is forgotten: until the transport closes or fails, every unsettled `send` is in
      the replay buffer as it was sent; after a failure it has an error envelope queued. */
  ghost predicate ClientOk(t: Transport, c: Client) {
    && Valid(c)
    && (forall i :: i in t.inFlight ==> i in c.sent && c.sent[i] == t.inFlight[i])
    && (!t.closed ==> c.attached)
    && (!Terminal(t) ==> c.pending <= t.inFlight.Keys)
    && (t.failed && !t.closed ==> forall i :: i in c.pending ==> i in t.localErrors)
  }

  /** The crash queue is the window over the tab's whole crash history, and the transport has
      failed exactly when the last three crashes fit in one window. */
  ghost predicate BudgetOk(t: Transport, crashes: seq<int>) {
    && RestartBudget.Nondecreasing(crashes)
    && t.failures == RestartBudget.Recent(crashes)
    && (t.failed <==> RestartBudget.ThreeInWindow(crashes))
  }

  // ----- TransportOk, handler by handler

  lemma CreateOk(self: TabId)
    ensures TransportOk(Create(self).t) && ClientOk(Create(self).t, FRESH) && BudgetOk(Create(self).t, [])
  {
  }

  lemma DiscoveryOk(t: Transport, msg: Discovery)
    requires TransportOk(t) && !Terminal(t)
    requires msg.PairRequest? ==> msg.channel == Channel(msg.leader, msg.client)
    ensures TransportOk(OnDiscovery(t, msg).t)
  {
  }

  lemma GrantOk(t: Transport, newId: LeaderId)
    requires TransportOk(t) && !t.failed && !t.holdsLock
    ensures TransportOk(OnLockGranted(t, newId).t)
  {
  }

  lemma WriterFailureOk(t: Transport, expected: LeaderId, now: int)
    requires TransportOk(t)
    ensures TransportOk(HandleWriterFailure(t, expected, now).t)
  {
  }

  lemma PostOk(t: Transport, id: nat, body: Body)
    requires TransportOk(t)
    ensures TransportOk(PostMessage(t, id, body).t)
  {
  }

  lemma CloseOk(t: Transport)
    requires TransportOk(t)
    ensures TransportOk(Close(t).t)
  {
  }

  lemma ClientMessageOk(t: Transport, client: TabId, id: nat, body: Body)
    requires TransportOk(t) && client in t.bridges
    ensures TransportOk(OnClientMessage(t, client, id, body).t)
  {
  }

  lemma WriterMessageOk(t: Transport, client: TabId, env: nat, answer: Answer)
    requires TransportOk(t) && client in t.bridges
    ensures TransportOk(OnWriterMessage(t, client, env, answer).t)
  {
  }

  /** The shape most handlers share: no request or reply is forwarded, no bridge gains an entry,
      nothing is queued on the lock. */
  ghost predicate LocalPlain(t: Transport, e: Effect) {
    && e.t.failed == t.failed && e.t.failures == t.failures
    && e.ask.None? && e.forwarded.None? && !e.requestsLock
    && e.t.nextEnvelope == t.nextEnvelope
    && (e.t.holdsLock ==> t.holdsLock && e.t.leaderId == t.leaderId)
    && (forall k, env :: k in e.t.bridges && env in e.t.bridges[k].idMap ==>
          && k in t.bridges && env in t.bridges[k].idMap
          && e.t.bridges[k].idMap[env] == t.bridges[k].idMap[env])
  }

  lemma PairRequestPlain(t: Transport, leader: LeaderId, client: TabId)
    requires TransportOk(t) && !Terminal(t)
    ensures var e := OnPairRequest(t, leader, client, Channel(leader, client)); TransportOk(e.t) && LocalPlain(t, e)
  {
    DiscoveryOk(t, PairRequest(leader, client, Channel(leader, client)));
  }

  lemma LeaderFailedPlain(t: Transport, leader: LeaderId)
    ensures LocalPlain(t, OnLeaderFailed(t, leader))
  {
  }

  lemma PairMessagePlain(t: Transport, id: nat, reply: Reply)
    ensures LocalPlain(t, OnPairMessage(t, id, reply))
  {
  }

  lemma MicrotaskPlain(t: Transport)
    ensures LocalPlain(t, RunMicrotask(t))
  {
  }

  lemma PostPlain(t: Transport, id: nat, body: Body)
    requires TransportOk(t)
    ensures TransportOk(PostMessage(t, id, body).t) && LocalPlain(t, PostMessage(t, id, body))
  {
  }

  lemma ClosePlain(t: Transport)
    requires TransportOk(t)
    ensures TransportOk(Close(t).t) && LocalPlain(t, Close(t))
  {
  }

  // ----- the page client beside it

  lemma HearOne(c: Client, event: Event)
    ensures HearAll(c, [event]) == Hear(c, event)
  {
    assert HearAll(Hear(c, event), [event][1..]) == Hear(c, event);
  }

  lemma HearNone(c: Client)
    ensures HearAll(c, []) == c
  {
  }

  lemma {:induction false} ErrorEventEmpties(c: Client, rest: seq<Event>)
    requires Valid(c) && c.attached
    ensures HearAll(c, [ErrorEvent] + rest).pending == {}
  {
    var d := Hear(c, ErrorEvent);
    HearKeepsValid(c, ErrorEvent);
    assert ([ErrorEvent] + rest)[1..] == rest;
    HearAllKeepsValid(d, rest);
  }

  lemma DiscoveryClient(t: Transport, c: Client, msg: Discovery)
    requires TransportOk(t) && ClientOk(t, c) && !Terminal(t)
    ensures ClientOk(OnDiscovery(t, msg).t, HearAll(c, OnDiscovery(t, msg).events))
  {
    HearAllKeepsValid(c, OnDiscovery(t, msg).events);
  }

  lemma WriterFailureClient(t: Transport, c: Client, expected: LeaderId, now: int)
    requires TransportOk(t) && ClientOk(t, c)
    ensures var e := HandleWriterFailure(t, expected, now); ClientOk(e.t, HearAll(c, e.events))
  {
    var e := HandleWriterFailure(t, expected, now);
    if !t.closed && t.leaderId == Some(expected) {
      var restart := RestartLockRequest(GiveUpLeadership(t).(currentLeader := None), now);
      ErrorEventEmpties(c, restart.events);
      HearAllKeepsValid(c, e.events);
    }
  }

  lemma PairMessageClient(t: Transport, c: Client, id: nat, reply: Reply)
    requires TransportOk(t) && ClientOk(t, c) && t.pairChannel.Some?
    ensures var e := OnPairMessage(t, id, reply); TransportOk(e.t) && ClientOk(e.t, HearAll(c, e.events))
  {
    HearOne(c, Envelopes({id}, reply));
    HearKeepsValid(c, Envelopes({id}, reply));
  }

  lemma MicrotaskClient(t: Transport, c: Client)
    requires TransportOk(t) && ClientOk(t, c)
    ensures var e := RunMicrotask(t); TransportOk(e.t) && ClientOk(e.t, HearAll(c, e.events))
  {
    var e := RunMicrotask(t);
    HearAllKeepsValid(c, e.events);
    if t.localErrors != [] && t.failed && !t.closed {
      var head := t.localErrors[0];
      HearOne(c, Envelopes({head}, PermanentlyFailed));
    }
  }

  lemma SendClient(t: Transport, c: Client, body: Body)
    requires TransportOk(t) && ClientOk(t, c)
    ensures var e := PostMessage(t, c.nextId, body); ClientOk(e.t, Register(c, body)) && e.events == []
    ensures Extends(c, Register(c, body))
  {
  }

  lemma CloseClient(t: Transport, c: Client, i: nat, body: Body)
    requires TransportOk(t) && Valid(c)
    ensures var e := Close(PostMessage(t, i, body).t); TransportOk(e.t) && e.events == [] && ClientOk(e.t, c)
  {
    PostOk(t, i, body);
    CloseOk(PostMessage(t, i, body).t);
  }

  lemma LeaderFailedClient(t: Transport, c: Client, leader: LeaderId)
    requires TransportOk(t) && ClientOk(t, c) && !Terminal(t)
    ensures var e := OnLeaderFailed(t, leader); TransportOk(e.t) && ClientOk(e.t, HearAll(c, e.events))
  {
    DiscoveryOk(t, LeaderFailed(leader));
    DiscoveryClient(t, c, LeaderFailed(leader));
  }

  lemma LockRejectedClient(t: Transport, c: Client)
    requires TransportOk(t) && ClientOk(t, c)
    ensures var e := OnLockRejected(t); TransportOk(e.t) && ClientOk(e.t, HearAll(c, e.events))
  {
    HearAllKeepsValid(c, OnLockRejected(t).events);
  }

  // ----- the restart budget

  lemma WriterFailureBudget(t: Transport, crashes: seq<int>, expected: LeaderId, now: int)
    requires TransportOk(t) && BudgetOk(t, crashes) && !t.closed && t.leaderId == Some(expected)
    requires crashes != [] ==> crashes[|crashes| - 1] <= now
    ensures BudgetOk(HandleWriterFailure(t, expected, now).t, crashes + [now])
  {
    var after := crashes + [now];
    assert RestartBudget.Nondecreasing(after) by {
      forall i, j | 0 <= i < j < |after| ensures after[i] <= after[j] {
        if j == |crashes| && i < |crashes| - 1 { assert crashes[i] <= crashes[|crashes| - 1]; }
      }
    }
    RestartBudget.RecordKeepsWindow(crashes, now);
    RestartBudget.GivesUpExactly(after);
  }
}
