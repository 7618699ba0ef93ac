/** The inductive invariant of the whole protocol, and why a step of one tab keeps it. */
module ProtocolInvariant {
  import opened Common
  import opened Wire
  import opened Transport
  import opened TransportInvariant
  import opened WorkerClient
  import opened Protocol

  // ----- what is true of each tab

  ghost predicate TabOk(w: World, id: TabId)
    requires id in w.tabs
  {
    var tab := w.tabs[id];
    && tab.t.self == id && TransportOk(tab.t) && ClientOk(tab.t, tab.c)
    && id in w.crashes && BudgetOk(tab.t, w.crashes[id])
  }

  /** A tab that believes it leads holds the lock and minted its own leader id. */
  ghost predicate LockOk(w: World, id: TabId)
    requires id in w.tabs
  {
    var t := w.tabs[id].t;
    && (t.holdsLock ==> w.holder == Some(id))
    && (t.leaderId.Some? ==> t.leaderId.value in w.owner && w.owner[t.leaderId.value] == id)
    && (id in w.queue ==> !t.holdsLock && !t.failed)
  }

  /** Every id a bridge still maps stands for a request of the bridge's client that this tab's
      writer was asked and whose reply no bridge has passed on. */
  ghost predicate Mapped(w: World, leader: Option<LeaderId>, client: TabId, env: nat, id: nat) {
    && leader.Some?
    && Request(leader.value, env) in w.asked
    && w.asked[Request(leader.value, env)].client == client
    && w.asked[Request(leader.value, env)].id == id
    && Request(leader.value, env) !in w.forwards
  }

  ghost predicate MapsOk(w: World, id: TabId)
    requires id in w.tabs
  {
    var t := w.tabs[id].t;
    forall c, e :: c in t.bridges && e in t.bridges[c].idMap ==> Mapped(w, t.leaderId, c, e, t.bridges[c].idMap[e])
  }

  /** Once paired and acknowledged, everything buffered has been posted on the attached channel
      after a leader subscribed to it; and a ready tab has had a bridge opened for it. */
  ghost predicate HandshakeOk(w: World, id: TabId)
    requires id in w.tabs
  {
    var t := w.tabs[id].t;
    && (t.pairChannel.Some? && t.pendingPair.None? ==>
          && t.pairChannel.value in w.bridged
          && forall i :: i in t.inFlight ==> Up(t.pairChannel.value, i, t.inFlight[i]) in w.live)
    && (t.ready == Ready ==> Welcomed(w, id))
  }

  ghost predicate Welcomed(w: World, id: TabId) {
    exists leader :: Channel(leader, id) in w.bridged
  }

  /** The request `id` of tab `client` was sent, and a reply to it says what its writer said. */
  ghost predicate Explained(w: World, client: TabId, id: nat, reply: Reply) {
    && client in w.tabs && id in w.tabs[client].c.sent
    && match reply
       case FromWriter(answer) => exists r :: AnsweredBy(w, r, client, id, answer)
       case CloseAck => w.tabs[client].c.sent[id].kind == CloseConnection
       case _ => true
  }

  ghost predicate AnsweredBy(w: World, r: Request, client: TabId, id: nat, answer: Answer) {
    && r in w.asked && r in w.answers && r in w.forwards
    && w.asked[r].client == client && w.asked[r].id == id && w.answers[r] == answer
  }

  ghost predicate SettledOk(w: World, id: TabId)
    requires id in w.tabs
  {
    var c := w.tabs[id].c;
    forall i :: i in c.settled && c.settled[i].ByReply? ==> Explained(w, id, i, c.settled[i].reply)
  }

  // ----- what is true of each message and record

  ghost predicate AskedOk(w: World, r: Request)
    requires r in w.asked
  {
    var a := w.asked[r];
    && r.leader in w.owner && w.owner[r.leader] in w.tabs && r.env < w.tabs[w.owner[r.leader]].t.nextEnvelope
    && a.client in w.tabs && a.id in w.tabs[a.client].c.sent && w.tabs[a.client].c.sent[a.id] == a.body
    && (r in w.answers && w.answers[r].Response? ==> w.answers[r].kind == a.body.kind)
  }

  ghost predicate DiscOk(w: World, s: Sent) {
    match s.msg
    case PairRequest(leader, client, channel) => channel == Channel(leader, client)
    case PairAck(leader, client) => Channel(leader, client) in w.bridged
    case _ => true
  }

  ghost predicate UpOk(w: World, u: Up) {
    && u.channel.client in w.tabs
    && u.id in w.tabs[u.channel.client].c.sent
    && w.tabs[u.channel.client].c.sent[u.id] == u.body
  }

  ghost predicate DownOk(w: World, d: Down) {
    Explained(w, d.channel.client, d.id, d.reply)
  }

  ghost predicate Distinct<T>(s: seq<T>) {
    forall i, j :: 0 <= i < j < |s| ==> s[i] != s[j]
  }

  ghost predicate QueueOk(w: World) {
    && Distinct(w.queue)
    && (forall id :: id in w.queue ==> id in w.tabs)
  }

  /** Every writer reply was passed on at most once. */
  ghost predicate ForwardsOk(w: World) {
    && Distinct(w.forwards)
    && (forall r :: r in w.forwards ==> r in w.answers && r in w.asked)
    && (forall r :: r in w.answers ==> r in w.asked)
  }

  ghost predicate TabsOk(w: World) {
    forall id :: id in w.tabs ==> TabOk(w, id)
  }

  ghost predicate LocksOk(w: World) {
    && QueueOk(w)
    && forall id :: id in w.tabs ==> LockOk(w, id)
  }

  ghost predicate RequestsOk(w: World) {
    && ForwardsOk(w)
    && (forall r :: r in w.asked ==> AskedOk(w, r))
    && (forall id :: id in w.tabs ==> MapsOk(w, id))
  }

  ghost predicate MessagesOk(w: World) {
    && (forall s :: s in w.disc ==> DiscOk(w, s))
    && (forall u :: u in w.up ==> UpOk(w, u))
    && (forall d :: d in w.down ==> DownOk(w, d))
  }

  ghost predicate PagesOk(w: World) {
    forall id :: id in w.tabs ==> HandshakeOk(w, id) && SettledOk(w, id)
  }

  ghost predicate Inv(w: World) {
    TabsOk(w) && LocksOk(w) && RequestsOk(w) && MessagesOk(w) && PagesOk(w)
  }

  lemma InitInv()
    ensures Inv(INIT)
  {
  }

  // ----- growth: what a step of tab `id` leaves alone

  ghost predicate TabsGrow(w: World, v: World, id: TabId) {
    && (forall k :: k in w.tabs ==> k in v.tabs && Extends(w.tabs[k].c, v.tabs[k].c))
    && (forall k :: k in w.tabs ==> w.tabs[k].t.nextEnvelope <= v.tabs[k].t.nextEnvelope)
    && (forall k :: k in v.tabs && k != id ==> k in w.tabs && v.tabs[k] == w.tabs[k])
  }

  ghost predicate RecordsGrow(w: World, v: World) {
    && (forall r :: r in w.asked ==> r in v.asked && v.asked[r] == w.asked[r])
    && (forall r :: r in w.answers ==> r in v.answers && v.answers[r] == w.answers[r])
    && (forall r :: r in w.forwards ==> r in v.forwards)
    && (forall l :: l in w.owner ==> l in v.owner && v.owner[l] == w.owner[l])
    && w.bridged <= v.bridged && w.live <= v.live
  }

  ghost predicate Grows(w: World, v: World, id: TabId) {
    TabsGrow(w, v, id) && RecordsGrow(w, v)
  }

  lemma ExplainedGrows(w: World, v: World, id: TabId, client: TabId, i: nat, reply: Reply)
    requires Grows(w, v, id) && Explained(w, client, i, reply)
    ensures Explained(v, client, i, reply)
  {
    if reply.FromWriter? {
      var r :| AnsweredBy(w, r, client, i, reply.answer);
      assert AnsweredBy(v, r, client, i, reply.answer);
    }
  }

  lemma WelcomedGrows(w: World, v: World, id: TabId, k: TabId)
    requires Grows(w, v, id) && Welcomed(w, k)
    ensures Welcomed(v, k)
  {
    var leader :| Channel(leader, k) in w.bridged;
    assert Channel(leader, k) in v.bridged;
  }

  /** Messages and pages of the tabs that did not move stay explained. */
  lemma OthersStayExplained(w: World, v: World, id: TabId)
    requires Grows(w, v, id) && MessagesOk(w) && PagesOk(w)
    ensures forall s :: s in w.disc ==> DiscOk(v, s)
    ensures forall u :: u in w.up ==> UpOk(v, u)
    ensures forall d :: d in w.down ==> DownOk(v, d)
    ensures forall k :: k in v.tabs && k != id ==> HandshakeOk(v, k) && SettledOk(v, k)
  {
    forall d | d in w.down ensures DownOk(v, d) {
      ExplainedGrows(w, v, id, d.channel.client, d.id, d.reply);
    }
    forall k | k in v.tabs && k != id ensures HandshakeOk(v, k) && SettledOk(v, k) {
      OtherPage(w, v, id, k);
    }
  }

  lemma OtherPage(w: World, v: World, id: TabId, k: TabId)
    requires Grows(w, v, id) && k in w.tabs && k in v.tabs && k != id && HandshakeOk(w, k) && SettledOk(w, k)
    ensures HandshakeOk(v, k) && SettledOk(v, k)
  {
    if w.tabs[k].t.ready == Ready { WelcomedGrows(w, v, id, k); }
    var c := w.tabs[k].c;
    forall i | i in c.settled && c.settled[i].ByReply? ensures Explained(v, k, i, c.settled[i].reply) {
      ExplainedGrows(w, v, id, k, i, c.settled[i].reply);
    }
  }

  /** The records of the other tabs' bridges survive, because leader ids have one owner. */
  lemma OthersStayMapped(w: World, v: World, id: TabId)
    requires Grows(w, v, id) && RequestsOk(w) && LocksOk(w)
    requires forall r :: r in v.forwards && r !in w.forwards ==> r.leader in v.owner && v.owner[r.leader] == id
    ensures forall k :: k in v.tabs && k != id ==> MapsOk(v, k)
  {
    forall k | k in v.tabs && k != id ensures MapsOk(v, k) {
      assert MapsOk(w, k) && LockOk(w, k);
      var t := v.tabs[k].t;
      forall c, e | c in t.bridges && e in t.bridges[c].idMap
        ensures Mapped(v, t.leaderId, c, e, t.bridges[c].idMap[e])
      {
        assert Mapped(w, t.leaderId, c, e, t.bridges[c].idMap[e]);
      }
    }
  }

  // ----- how an effect of tab `id` keeps the parts

  /** `c` is what the client had become before it heard the events. */
  ghost predicate Prepared(w: World, id: TabId, e: Effect, c: Client) {
    && Valid(c)
    && (id in w.tabs ==> Extends(w.tabs[id].c, c) && w.tabs[id].t.nextEnvelope <= e.t.nextEnvelope)
    && (e.ask.Some? && e.t.leaderId.Some? ==> Request(e.t.leaderId.value, e.ask.value.env) !in w.asked)
  }

  lemma CommitGrows(w: World, id: TabId, e: Effect, c: Client)
    requires Prepared(w, id, e, c)
    ensures Grows(w, Commit(w, id, e, c), id)
    ensures Extends(c, Commit(w, id, e, c).tabs[id].c) && Commit(w, id, e, c).tabs[id].c.sent == c.sent
  {
    CommitTabsGrow(w, id, e, c);
    CommitRecordsGrow(w, id, e, c);
  }

  lemma CommitTabsGrow(w: World, id: TabId, e: Effect, c: Client)
    requires Prepared(w, id, e, c)
    ensures TabsGrow(w, Commit(w, id, e, c), id)
    ensures Extends(c, Commit(w, id, e, c).tabs[id].c) && Commit(w, id, e, c).tabs[id].c.sent == c.sent
  {
    var d := HearAll(c, e.events);
    HearAllKeepsValid(c, e.events);
    if id in w.tabs {
      ExtendsTransitive(w.tabs[id].c, c, d);
    }
    TabMapGrows(w, Commit(w, id, e, c), id, Tab(e.t, d));
  }

  lemma TabMapGrows(w: World, v: World, id: TabId, tab: Tab)
    requires v.tabs == w.tabs[id := tab]
    requires id in w.tabs ==> Extends(w.tabs[id].c, tab.c) && w.tabs[id].t.nextEnvelope <= tab.t.nextEnvelope
    ensures TabsGrow(w, v, id)
  {
    forall k | k in w.tabs ensures Extends(w.tabs[k].c, v.tabs[k].c) {
      if k != id { ExtendsReflexive(w.tabs[k].c); }
    }
  }

  lemma ExtendsReflexive(c: Client)
    ensures Extends(c, c)
  {
  }

  lemma CommitRecordsGrow(w: World, id: TabId, e: Effect, c: Client)
    requires Prepared(w, id, e, c)
    ensures RecordsGrow(w, Commit(w, id, e, c))
  {
    ExtendGrows(w.asked, e.t.leaderId, e.ask);
  }

  lemma ExtendGrows(asked: map<Request, Asked>, leader: Option<LeaderId>, ask: Option<Ask>)
    requires ask.Some? && leader.Some? ==> Request(leader.value, ask.value.env) !in asked
    ensures forall r :: r in asked ==> r in Extend(asked, leader, ask) && Extend(asked, leader, ask)[r] == asked[r]
  {
  }

  lemma ExtendsTransitive(c: Client, d: Client, f: Client)
    requires Extends(c, d) && Extends(d, f)
    ensures Extends(c, f)
  {
  }

  lemma CommitTabs(w: World, id: TabId, e: Effect, c: Client)
    requires forall k :: k in w.tabs && k != id ==> TabOk(w, k)
    requires e.t.self == id && TransportOk(e.t) && ClientOk(e.t, HearAll(c, e.events))
    requires id in w.crashes && BudgetOk(e.t, w.crashes[id])
    ensures TabsOk(Commit(w, id, e, c))
  {
    var v := Commit(w, id, e, c);
    forall k | k in v.tabs ensures TabOk(v, k) {
      if k != id { assert TabOk(w, k); }
    }
  }

  lemma CommitLocks(w: World, id: TabId, e: Effect, c: Client)
    requires QueueOk(w)
    requires forall k :: k in w.tabs && k != id ==> LockOk(w, k)
    requires e.t.holdsLock ==> w.holder == Some(id)
    requires e.t.leaderId.Some? ==> e.t.leaderId.value in w.owner && w.owner[e.t.leaderId.value] == id
    requires e.requestsLock ==> id !in w.queue
    requires id in w.queue || e.requestsLock ==> !e.t.holdsLock && !e.t.failed
    ensures LocksOk(Commit(w, id, e, c))
  {
    var v := Commit(w, id, e, c);
    forall k | k in v.tabs ensures LockOk(v, k) {
      if k != id { assert LockOk(w, k); }
    }
  }

  lemma CommitMessages(w: World, id: TabId, e: Effect, c: Client)
    requires Prepared(w, id, e, c) && MessagesOk(w) && PagesOk(w)
    requires forall m :: m in e.disc ==> DiscOk(Commit(w, id, e, c), Sent(id, m))
    requires forall u :: u in e.up ==> u.channel.client == id && u.id in c.sent && c.sent[u.id] == u.body
    requires forall d :: d in e.down ==> DownOk(Commit(w, id, e, c), d)
    ensures MessagesOk(Commit(w, id, e, c))
  {
    CommitGrows(w, id, e, c);
    OthersStayExplained(w, Commit(w, id, e, c), id);
  }

  lemma CommitPages(w: World, id: TabId, e: Effect, c: Client)
    requires Prepared(w, id, e, c) && MessagesOk(w) && PagesOk(w)
    requires HandshakeOk(Commit(w, id, e, c), id) && SettledOk(Commit(w, id, e, c), id)
    ensures PagesOk(Commit(w, id, e, c))
  {
    CommitGrows(w, id, e, c);
    OthersStayExplained(w, Commit(w, id, e, c), id);
  }

  /** A step that neither forwards a request nor passes a reply on. */
  lemma CommitRequests(w: World, id: TabId, e: Effect, c: Client)
    requires Prepared(w, id, e, c) && RequestsOk(w) && LocksOk(w)
    requires e.ask.None? && e.forwarded.None?
    requires MapsOk(Commit(w, id, e, c), id)
    ensures RequestsOk(Commit(w, id, e, c))
  {
    var v := Commit(w, id, e, c);
    CommitGrows(w, id, e, c);
    assert v.forwards == w.forwards;
    OthersStayMapped(w, v, id);
    forall r | r in v.asked ensures AskedOk(v, r) {
      assert AskedOk(w, r);
    }
  }
}
