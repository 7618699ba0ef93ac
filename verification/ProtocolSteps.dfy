/** Every step of the protocol keeps the invariant. */
module ProtocolSteps {
  import opened Common
  import opened Wire
  import opened Transport
  import opened TransportInvariant
  import opened WorkerClient
  import opened Protocol
  import opened ProtocolInvariant
  import RestartBudget

  // ----- settlements come from what was dispatched

  ghost predicate Spoken(events: seq<Event>, i: nat, reply: Reply) {
    exists k :: 0 <= k < |events| && events[k].Envelopes? && i in events[k].ids && events[k].reply == reply
  }

  lemma {:induction false} SettledWasSpoken(c: Client, events: seq<Event>, i: nat)
    requires i in HearAll(c, events).settled && HearAll(c, events).settled[i].ByReply?
    ensures || (i in c.settled && c.settled[i] == HearAll(c, events).settled[i])
            || Spoken(events, i, HearAll(c, events).settled[i].reply)
    decreases |events|
  {
    if events != [] {
      var d, rest := Hear(c, events[0]), events[1..];
      SettledWasSpoken(d, rest, i);
      var reply := HearAll(c, events).settled[i].reply;
      if Spoken(rest, i, reply) {
        var k :| 0 <= k < |rest| && rest[k].Envelopes? && i in rest[k].ids && rest[k].reply == reply;
        assert events[k + 1] == rest[k];
      }
    }
  }

  /** What the events may say to page `id` in world `v`. */
  ghost predicate EventsOk(v: World, id: TabId, c: Client, events: seq<Event>) {
    forall k, i :: 0 <= k < |events| && events[k].Envelopes? && i in events[k].ids && i in c.sent ==>
      Explained(v, id, i, events[k].reply)
  }

  lemma CommitSettled(w: World, id: TabId, e: Effect, c: Client)
    requires Prepared(w, id, e, c)
    requires id in w.tabs ==> SettledOk(w, id)
    requires forall i :: i in c.settled && c.settled[i].ByReply? ==> id in w.tabs && i in w.tabs[id].c.settled
    requires EventsOk(Commit(w, id, e, c), id, c, e.events)
    ensures SettledOk(Commit(w, id, e, c), id)
  {
    var v := Commit(w, id, e, c);
    var d := v.tabs[id].c;
    CommitGrows(w, id, e, c);
    HearAllKeepsValid(c, e.events);
    forall i | i in d.settled && d.settled[i].ByReply? ensures Explained(v, id, i, d.settled[i].reply) {
      SettledWasSpoken(c, e.events, i);
      if i in c.settled {
        ExplainedGrows(w, v, id, id, i, d.settled[i].reply);
      } else {
        var k :| 0 <= k < |e.events| && e.events[k].Envelopes? && i in e.events[k].ids
        && e.events[k].reply == d.settled[i].reply;
        assert i in c.sent;
      }
    }
  }

  /** Bridges that only lost entries are still mapped. */
  lemma MapsShrink(w: World, id: TabId, e: Effect, c: Client)
    requires id in w.tabs && Prepared(w, id, e, c) && MapsOk(w, id) && e.ask.None? && e.forwarded.None?
    requires e.t.bridges != map[] ==> e.t.leaderId == w.tabs[id].t.leaderId
    requires forall k, env :: k in e.t.bridges && env in e.t.bridges[k].idMap ==>
      && k in w.tabs[id].t.bridges && env in w.tabs[id].t.bridges[k].idMap
      && e.t.bridges[k].idMap[env] == w.tabs[id].t.bridges[k].idMap[env]
    ensures MapsOk(Commit(w, id, e, c), id)
  {
    var v := Commit(w, id, e, c);
    assert v.forwards == w.forwards && v.asked == w.asked;
    var t := w.tabs[id].t;
    forall k, env | k in e.t.bridges && env in e.t.bridges[k].idMap
      ensures Mapped(v, e.t.leaderId, k, env, e.t.bridges[k].idMap[env])
    {
      assert Mapped(w, t.leaderId, k, env, t.bridges[k].idMap[env]);
    }
  }

  /** A handler of the plain shape, in a sound tab. */
  ghost predicate Plain(w: World, id: TabId, e: Effect) {
    id in w.tabs && e.t.self == id && TransportOk(e.t) && LocalPlain(w.tabs[id].t, e)
  }

  /** All a plain handler has to show, none of it about other tabs. */
  ghost predicate PlainStep(w: World, id: TabId, e: Effect, c: Client) {
    && Plain(w, id, e)
    && Valid(c) && Extends(w.tabs[id].c, c) && ClientOk(e.t, HearAll(c, e.events))
    && (forall i :: i in c.settled && c.settled[i].ByReply? ==> i in w.tabs[id].c.settled)
    && EventsOk(Commit(w, id, e, c), id, c, e.events)
    && (forall m :: m in e.disc ==> DiscOk(Commit(w, id, e, c), Sent(id, m)))
    && (forall u :: u in e.up ==> u.channel.client == id && u.id in c.sent && c.sent[u.id] == u.body)
    && (forall d :: d in e.down ==> DownOk(Commit(w, id, e, c), d))
    && HandshakeOk(Commit(w, id, e, c), id)
  }

  lemma PlainKeepsInv(w: World, id: TabId, e: Effect, c: Client)
    requires Inv(w) && PlainStep(w, id, e, c)
    ensures Inv(Commit(w, id, e, c))
  {
    assert TabOk(w, id) && LockOk(w, id) && MapsOk(w, id) && SettledOk(w, id);
    CommitTabs(w, id, e, c);
    CommitLocks(w, id, e, c);
    CommitMessages(w, id, e, c);
    CommitSettled(w, id, e, c);
    CommitPages(w, id, e, c);
    MapsShrink(w, id, e, c);
    CommitRequests(w, id, e, c);
  }

  // ----- the steps

  lemma StartKeepsInv(w: World, id: TabId)
    requires Inv(w) && Enabled(w, Start(id))
    ensures Inv(Next(w, Start(id)))
  {
    var u := w.(crashes := w.crashes[id := []]);
    UntouchedParts(w, u);
    StartTabs(w, id);
    StartRest(u, id);
  }

  lemma StartTabs(w: World, id: TabId)
    requires TabsOk(w) && LocksOk(w) && id !in w.tabs
    ensures var v := Commit(w.(crashes := w.crashes[id := []]), id, Create(id), FRESH); TabsOk(v) && LocksOk(v)
  {
    var u := w.(crashes := w.crashes[id := []]);
    CreateOk(id);
    HearNone(FRESH);
    forall k | k in u.tabs ensures TabOk(u, k) && LockOk(u, k) { assert TabOk(w, k) && LockOk(w, k); }
    CommitTabs(u, id, Create(id), FRESH);
    CommitLocks(u, id, Create(id), FRESH);
  }

  lemma StartRest(u: World, id: TabId)
    requires RequestsOk(u) && MessagesOk(u) && PagesOk(u) && LocksOk(u) && id !in u.tabs
    ensures var v := Commit(u, id, Create(id), FRESH); RequestsOk(v) && MessagesOk(v) && PagesOk(v)
  {
    var e := Create(id);
    HearNone(FRESH);
    CommitMessages(u, id, e, FRESH);
    CommitSettled(u, id, e, FRESH);
    CommitPages(u, id, e, FRESH);
    CommitRequests(u, id, e, FRESH);
  }

  /** Requests, messages and pages do not look at the lock, its queue or the crash log, and a
      new leader id with an owner disturbs none of them. */
  lemma UntouchedParts(w: World, u: World)
    requires RequestsOk(w) && MessagesOk(w) && PagesOk(w)
    requires u == w.(holder := u.holder, queue := u.queue, crashes := u.crashes, owner := u.owner,
      rejected := u.rejected)
    requires forall l :: l in w.owner ==> l in u.owner && u.owner[l] == w.owner[l]
    ensures RequestsOk(u) && MessagesOk(u) && PagesOk(u)
  {
    UntouchedMessages(w, u);
    forall r | r in u.asked ensures AskedOk(u, r) { assert AskedOk(w, r); }
    forall id | id in u.tabs ensures MapsOk(u, id) {
      assert MapsOk(w, id);
      var t := u.tabs[id].t;
      forall c, e | c in t.bridges && e in t.bridges[c].idMap
        ensures Mapped(u, t.leaderId, c, e, t.bridges[c].idMap[e])
      {
        assert Mapped(w, t.leaderId, c, e, t.bridges[c].idMap[e]);
      }
    }
  }

  lemma UntouchedMessages(w: World, u: World)
    requires MessagesOk(w) && PagesOk(w)
    requires u == w.(holder := u.holder, queue := u.queue, crashes := u.crashes, owner := u.owner,
      rejected := u.rejected)
    requires forall l :: l in w.owner ==> l in u.owner && u.owner[l] == w.owner[l]
    ensures MessagesOk(u) && PagesOk(u)
  {
    assert Grows(w, u, 0);
    OthersStayExplained(w, u, 0);
    assert Grows(w, u, 1);
    OthersStayExplained(w, u, 1);
  }

  lemma WelcomedStays(w: World, id: TabId, e: Effect, c: Client)
    requires id in w.tabs && Welcomed(w, id)
    ensures Welcomed(Commit(w, id, e, c), id)
  {
    var leader :| Channel(leader, id) in w.bridged;
    assert Channel(leader, id) in Commit(w, id, e, c).bridged;
  }

  /** A handler that leaves the pairing as it was, or detaches it, or attaches an unacknowledged
      channel, and buffers nothing, keeps the handshake. */
  lemma HandshakeStays(w: World, id: TabId, e: Effect, c: Client)
    requires id in w.tabs && HandshakeOk(w, id)
    requires e.t.ready == Ready ==> w.tabs[id].t.ready == Ready
    requires forall i :: i in e.t.inFlight ==> i in w.tabs[id].t.inFlight && e.t.inFlight[i] == w.tabs[id].t.inFlight[i]
    requires || e.t.pairChannel.None? || e.t.pendingPair.Some?
             || (e.t.pairChannel == w.tabs[id].t.pairChannel && w.tabs[id].t.pendingPair.None?)
    ensures HandshakeOk(Commit(w, id, e, c), id)
  {
    if e.t.ready == Ready { WelcomedStays(w, id, e, c); }
  }

  lemma PlainQuiet(w: World, id: TabId)
    requires id in w.tabs && TabOk(w, id) && HandshakeOk(w, id)
    ensures PlainStep(w, id, Quiet(w.tabs[id].t), w.tabs[id].c)
  {
    HearNone(w.tabs[id].c);
    HandshakeStays(w, id, Quiet(w.tabs[id].t), w.tabs[id].c);
  }

  lemma PlainPairWithLeader(w: World, id: TabId, leader: LeaderId)
    requires id in w.tabs && TabOk(w, id) && HandshakeOk(w, id) && Listening(w.tabs[id].t)
    ensures PlainStep(w, id, PairWithLeader(w.tabs[id].t, leader), w.tabs[id].c)
  {
    HearNone(w.tabs[id].c);
    HandshakeStays(w, id, PairWithLeader(w.tabs[id].t, leader), w.tabs[id].c);
  }

  lemma PlainPairRequest(w: World, id: TabId, leader: LeaderId, client: TabId)
    requires id in w.tabs && TabOk(w, id) && HandshakeOk(w, id) && Listening(w.tabs[id].t)
    ensures PlainStep(w, id, OnPairRequest(w.tabs[id].t, leader, client, Channel(leader, client)), w.tabs[id].c)
  {
    var e := OnPairRequest(w.tabs[id].t, leader, client, Channel(leader, client));
    PairRequestPlain(w.tabs[id].t, leader, client);
    HearNone(w.tabs[id].c);
    HandshakeStays(w, id, e, w.tabs[id].c);
  }

  /** The acknowledgement is where the buffer is replayed and the tab becomes ready. */
  lemma AckHandshake(w: World, id: TabId, leader: LeaderId, client: TabId)
    requires id in w.tabs && TabOk(w, id) && HandshakeOk(w, id) && Channel(leader, client) in w.bridged
    ensures HandshakeOk(Act(w, id, OnPairAck(w.tabs[id].t, leader, client)), id)
  {
    var t := w.tabs[id].t;
    var e := OnPairAck(t, leader, client);
    var v := Act(w, id, e);
    if client == id && t.pendingPair.Some? && t.pendingPair.value.leader == leader {
      assert t.pairChannel == Some(Channel(leader, client));
      forall i | i in e.t.inFlight ensures Up(Channel(leader, client), i, e.t.inFlight[i]) in v.live {
        assert Up(Channel(leader, client), i, t.inFlight[i]) in e.up;
      }
      assert Channel(leader, id) in v.bridged;
    } else {
      HandshakeStays(w, id, e, w.tabs[id].c);
    }
  }

  lemma PlainPairAck(w: World, id: TabId, leader: LeaderId, client: TabId)
    requires id in w.tabs && TabOk(w, id) && HandshakeOk(w, id) && Listening(w.tabs[id].t)
    requires Channel(leader, client) in w.bridged
    ensures PlainStep(w, id, OnPairAck(w.tabs[id].t, leader, client), w.tabs[id].c)
  {
    AckHandshake(w, id, leader, client);
    DiscoveryOk(w.tabs[id].t, PairAck(leader, client));
    HearNone(w.tabs[id].c);
  }

  /** Error events and permanent-failure envelopes say nothing a writer could contradict. */
  lemma BlandEvents(w: World, id: TabId, e: Effect, c: Client)
    requires Valid(c)
    requires forall k :: 0 <= k < |e.events| && e.events[k].Envelopes? ==> e.events[k].reply == PermanentlyFailed
    ensures EventsOk(Commit(w, id, e, c), id, c, e.events)
  {
    HearAllKeepsValid(c, e.events);
  }

  lemma PlainLeaderFailed(w: World, id: TabId, leader: LeaderId)
    requires id in w.tabs && TabOk(w, id) && HandshakeOk(w, id) && Listening(w.tabs[id].t)
    ensures PlainStep(w, id, OnLeaderFailed(w.tabs[id].t, leader), w.tabs[id].c)
  {
    var t, c := w.tabs[id].t, w.tabs[id].c;
    var e := OnLeaderFailed(t, leader);
    LeaderFailedClient(t, c, leader);
    LeaderFailedPlain(t, leader);
    HandshakeStays(w, id, e, c);
    BlandEvents(w, id, e, c);
  }

  lemma PlainDiscovery(w: World, id: TabId, msg: Discovery)
    requires id in w.tabs && TabOk(w, id) && HandshakeOk(w, id) && Listening(w.tabs[id].t) && DiscOk(w, Sent(id, msg))
    ensures PlainStep(w, id, OnDiscovery(w.tabs[id].t, msg), w.tabs[id].c)
  {
    PlainQuiet(w, id);
    match msg
    case LeaderElected(leader) => PlainPairWithLeader(w, id, leader);
    case PairRequest(leader, client, channel) => PlainPairRequest(w, id, leader, client);
    case PairAck(leader, client) => PlainPairAck(w, id, leader, client);
    case LeaderFailed(leader) => PlainLeaderFailed(w, id, leader);
    case LeaderQuery => PlainLeaderQuery(w, id);
  }

  lemma PlainLeaderQuery(w: World, id: TabId)
    requires id in w.tabs && TabOk(w, id) && HandshakeOk(w, id)
    ensures PlainStep(w, id, OnDiscovery(w.tabs[id].t, LeaderQuery), w.tabs[id].c)
  {
    HearNone(w.tabs[id].c);
    HandshakeStays(w, id, OnDiscovery(w.tabs[id].t, LeaderQuery), w.tabs[id].c);
  }

  lemma PlainRetry(w: World, id: TabId)
    requires id in w.tabs && TabOk(w, id) && HandshakeOk(w, id)
    ensures PlainStep(w, id, RetryTimer(w.tabs[id].t), w.tabs[id].c)
  {
    HearNone(w.tabs[id].c);
    HandshakeStays(w, id, RetryTimer(w.tabs[id].t), w.tabs[id].c);
  }

  lemma PlainPairEnvelope(w: World, id: TabId, down: Down)
    requires id in w.tabs && TabOk(w, id) && HandshakeOk(w, id) && DownOk(w, down)
    requires w.tabs[id].t.pairChannel == Some(down.channel)
    ensures PlainStep(w, id, OnPairMessage(w.tabs[id].t, down.id, down.reply), w.tabs[id].c)
  {
    var t, c := w.tabs[id].t, w.tabs[id].c;
    var e := OnPairMessage(t, down.id, down.reply);
    PairMessageClient(t, c, down.id, down.reply);
    PairMessagePlain(t, down.id, down.reply);
    HandshakeStays(w, id, e, c);
    CommitGrows(w, id, e, c);
    ExplainedGrows(w, Act(w, id, e), id, id, down.id, down.reply);
  }

  lemma PlainMicrotask(w: World, id: TabId)
    requires id in w.tabs && TabOk(w, id) && HandshakeOk(w, id)
    ensures PlainStep(w, id, RunMicrotask(w.tabs[id].t), w.tabs[id].c)
  {
    var t, c := w.tabs[id].t, w.tabs[id].c;
    MicrotaskClient(t, c);
    MicrotaskPlain(t);
    HandshakeStays(w, id, RunMicrotask(t), c);
    BlandEvents(w, id, RunMicrotask(t), c);
  }

  lemma PostHandshake(w: World, id: TabId, i: nat, body: Body, c: Client)
    requires id in w.tabs && HandshakeOk(w, id)
    ensures HandshakeOk(Commit(w, id, PostMessage(w.tabs[id].t, i, body), c), id)
  {
    var e := PostMessage(w.tabs[id].t, i, body);
    if e.t.ready == Ready { WelcomedStays(w, id, e, c); }
  }

  lemma PlainSend(w: World, id: TabId, body: Body)
    requires id in w.tabs && TabOk(w, id) && HandshakeOk(w, id)
    ensures PlainStep(w, id, PostMessage(w.tabs[id].t, w.tabs[id].c.nextId, body), Register(w.tabs[id].c, body))
  {
    var t, c := w.tabs[id].t, w.tabs[id].c;
    SendClient(t, c, body);
    PostPlain(t, c.nextId, body);
    HearNone(Register(c, body));
    PostHandshake(w, id, c.nextId, body, Register(c, body));
  }

  lemma PlainClose(w: World, id: TabId)
    requires id in w.tabs && TabOk(w, id) && HandshakeOk(w, id)
    ensures PlainStep(w, id, Close(w.tabs[id].t), w.tabs[id].c)
  {
    ClosePlain(w.tabs[id].t);
    HearNone(w.tabs[id].c);
    HandshakeStays(w, id, Close(w.tabs[id].t), w.tabs[id].c);
  }

  lemma TerminatedValid(c: Client)
    requires Valid(c)
    ensures Valid(Terminated(c)) && Extends(c, Terminated(c))
    ensures forall i :: i in Terminated(c).settled && Terminated(c).settled[i].ByReply? ==> i in c.settled
    ensures c.nextId in Terminated(c).sent && Terminated(c).sent[c.nextId] == CLOSE_BODY
  {
  }

  lemma TerminateIsPlain(w: World, id: TabId)
    requires id in w.tabs && TabOk(w, id)
    ensures Plain(w, id, TerminateEffect(w.tabs[id]))
    ensures var e := TerminateEffect(w.tabs[id]);
      && e.t.inFlight == map[] && e.t.pairChannel.None? && (e.t.ready == Ready ==> w.tabs[id].t.ready == Ready)
      && e.events == [] && e.disc == {} && e.t.closed
      && forall u :: u in e.up ==> u.channel.client == id && u.id == w.tabs[id].c.nextId && u.body == CLOSE_BODY
  {
    var t, c := w.tabs[id].t, w.tabs[id].c;
    CloseClient(t, c, c.nextId, CLOSE_BODY);
  }

  lemma PlainTerminate(w: World, id: TabId)
    requires id in w.tabs && TabOk(w, id) && HandshakeOk(w, id)
    ensures PlainStep(w, id, TerminateEffect(w.tabs[id]), Terminated(w.tabs[id].c))
  {
    var t, c := w.tabs[id].t, w.tabs[id].c;
    var e, d := TerminateEffect(w.tabs[id]), Terminated(c);
    TerminatedValid(c);
    TerminateIsPlain(w, id);
    CloseClient(t, d, c.nextId, CLOSE_BODY);
    HearNone(d);
    HandshakeStays(w, id, e, d);
  }
}
