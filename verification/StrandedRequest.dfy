/**
 A request can really be stranded: a duplicate pair request that arrives after the acknowledgement
 replaces the bridge, and the tab, already acknowledged, ignores the second acknowledgement.
 */
module StrandedRequest {
  import opened Common
  import opened Wire
  import opened Transport
  import opened TransportInvariant
  import opened WorkerClient
  import opened Protocol
  import opened ProtocolInvariant
  import opened ProtocolSteps
  import opened ProtocolTheorems
  import opened Delivery
  import opened DeliveryInvariant
  import opened Stranding
  import opened ProtocolService

  /** Acknowledged by a live leader, still waiting, and on no way to be answered. */
  ghost predicate Stranded(n: Net, lead: TabId, leader: LeaderId, id: TabId, i: nat) {
    Acknowledged(n.w, lead, leader, id) && Waits(n.w, id, i) && !OnItsWay(n, lead, leader, id, i)
  }

  /** Nothing brings it back while the pairing lasts and the tab waits. */
  lemma StrandedStays(n: Net, step: Step, at: nat, lead: TabId, leader: LeaderId, id: TabId, i: nat)
    requires Inv(n.w) && NetOk(n) && CanStep(n, step, at) && Stranded(n, lead, leader, id, i)
    requires Acknowledged(Next(n.w, step), lead, leader, id) && Waits(Next(n.w, step), id, i)
    ensures Stranded(Stepped(n, step, at), lead, leader, id, i)
  {
    OnItsWayExactly(n, step, at, lead, leader, id, i);
  }

  function Request2(at: nat, lead: TabId, leader: LeaderId, id: TabId): Letter<Sent> {
    Letter(at, lead, Sent(id, PairRequest(leader, id, Channel(leader, id))))
  }

  /** A tab that is acknowledged while a second request of its is on its way. */
  ghost predicate DoublyAsked(n: Net, at: nat, lead: TabId, leader: LeaderId, id: TabId) {
    Acknowledged(n.w, lead, leader, id) && Listening(n.w.tabs[id].t) && Request2(at, lead, leader, id) in n.disc
  }

  lemma RetryOnce(n: Net, lead: TabId, leader: LeaderId, id: TabId) returns (u: Net)
    requires LettersOk(n) && Leading(n.w, lead, leader) && id != lead && Pairing(n.w, id, leader)
    ensures StepsTo(n, u) && LettersOk(u) && Leading(u.w, lead, leader) && Pairing(u.w, id, leader)
    ensures Request2(n.time, lead, leader, id) in u.disc && n.disc <= u.disc && u.time == n.time + 1
  {
    RetryRepeats(n, lead, leader, id);
    LettersKept(n, Retry(id), 0);
    Takes(n, Retry(id), 0);
    u := Stepped(n, Retry(id), 0);
    forall l | l in n.disc ensures l in u.disc { DiscPersists(n, Retry(id), 0, l); }
  }

  lemma RetryTwice(n: Net, lead: TabId, leader: LeaderId, id: TabId) returns (u: Net)
    requires LettersOk(n) && Leading(n.w, lead, leader) && id != lead && Pairing(n.w, id, leader)
    ensures CanReach(n, u) && LettersOk(u) && Leading(u.w, lead, leader) && Pairing(u.w, id, leader)
    ensures Request2(n.time, lead, leader, id) in u.disc && Request2(n.time + 1, lead, leader, id) in u.disc
  {
    var v := RetryOnce(n, lead, leader, id);
    u := RetryOnce(v, lead, leader, id);
    ReachSelf(u);
    ReachFrom(v, u, u);
    ReachFrom(n, v, u);
  }

  lemma AcknowledgeOne(n: Net, one: nat, two: nat, lead: TabId, leader: LeaderId, id: TabId) returns (u: Net)
    requires LettersOk(n) && Leading(n.w, lead, leader) && id != lead && Pairing(n.w, id, leader) && one != two
    requires Request2(one, lead, leader, id) in n.disc && Request2(two, lead, leader, id) in n.disc
    ensures CanReach(n, u) && DoublyAsked(u, two, lead, leader, id)
  {
    var s1 := Discover(lead, Sent(id, PairRequest(leader, id, Channel(leader, id))));
    var s2 := Discover(id, Sent(lead, PairAck(leader, id)));
    RequestServiced(n, one, lead, leader, id);
    LettersKept(n, s1, one);
    Takes(n, s1, one);
    DiscPersists(n, s1, one, Request2(two, lead, leader, id));
    var v := Stepped(n, s1, one);
    AckHeard(v, n.time, lead, leader, id);
    Takes(v, s2, n.time);
    DiscPersists(v, s2, n.time, Request2(two, lead, leader, id));
    AckKeepsListening(v, n.time, lead, leader, id);
    u := Stepped(v, s2, n.time);
    ReachSelf(u);
    ReachFrom(v, u, u);
    ReachFrom(n, v, u);
  }

  lemma AckKeepsListening(n: Net, at: nat, lead: TabId, leader: LeaderId, id: TabId)
    requires CanStep(n, Discover(id, Sent(lead, PairAck(leader, id))), at)
    ensures Listening(Stepped(n, Discover(id, Sent(lead, PairAck(leader, id))), at).w.tabs[id].t)
  {
  }

  /** No answer to an id that was never used is on its way. */
  lemma NoDownsForNew(n: Net, channel: Channel, i: nat)
    requires MessagesOk(n.w) && TabsOk(n.w) && LettersOk(n) && channel.client in n.w.tabs
    requires i >= n.w.tabs[channel.client].c.nextId
    ensures !DownComing(n.downs, channel, i)
  {
    assert TabOk(n.w, channel.client);
    forall l | l in n.downs && l.msg.channel == channel ensures l.msg.id != i {
      assert DownLetterOk(n, l) && DownOk(n.w, l.msg);
    }
  }

  lemma SendAnother(n: Net, at: nat, lead: TabId, leader: LeaderId, id: TabId, body: Body)
    requires DoublyAsked(n, at, lead, leader, id) && id != lead
    ensures CanStep(n, Send(id, body), 0)
    ensures var u := Stepped(n, Send(id, body), 0);
      DoublyAsked(u, at, lead, leader, id) && Waits(u.w, id, n.w.tabs[id].c.nextId)
  {
    DiscPersists(n, Send(id, body), 0, Request2(at, lead, leader, id));
    HearNone(Register(n.w.tabs[id].c, body));
  }

  lemma SendPostsNoDowns(n: Net, id: TabId, body: Body)
    requires CanStep(n, Send(id, body), 0)
    ensures Stepped(n, Send(id, body), 0).downs <= n.downs
  {
  }

  lemma DuplicateServiced(n: Net, at: nat, lead: TabId, leader: LeaderId, id: TabId, i: nat)
    requires LettersOk(n) && DoublyAsked(n, at, lead, leader, id) && id != lead && Waits(n.w, id, i)
    ensures CanStep(n, Discover(lead, Sent(id, PairRequest(leader, id, Channel(leader, id)))), at)
    ensures var v := Next(n.w, Discover(lead, Sent(id, PairRequest(leader, id, Channel(leader, id)))));
      Acknowledged(v, lead, leader, id) && Waits(v, id, i)
  {
    assert DiscLetterOk(n, Request2(at, lead, leader, id));
  }

  lemma StrandNow(n: Net, at: nat, lead: TabId, leader: LeaderId, id: TabId, i: nat) returns (m: Net)
    requires Inv(n.w) && NetOk(n) && DoublyAsked(n, at, lead, leader, id) && id != lead && Waits(n.w, id, i)
    requires !DownComing(n.downs, Channel(leader, id), i)
    ensures StepsTo(n, m) && Stranded(m, lead, leader, id, i)
  {
    var step := Discover(lead, Sent(id, PairRequest(leader, id, Channel(leader, id))));
    DuplicateServiced(n, at, lead, leader, id, i);
    Takes(n, step, at);
    OnItsWayExactly(n, step, at, lead, leader, id, i);
    m := Stepped(n, step, at);
  }

  lemma FewerDowns(more: set<Letter<Down>>, fewer: set<Letter<Down>>, channel: Channel, i: nat)
    requires fewer <= more && !DownComing(more, channel, i)
    ensures !DownComing(fewer, channel, i)
  {
  }

  lemma SendThenStrand(n: Net, at: nat, lead: TabId, leader: LeaderId, id: TabId, body: Body) returns (m: Net)
    requires Inv(n.w) && NetOk(n) && DoublyAsked(n, at, lead, leader, id) && id != lead
    ensures CanReach(n, m) && Stranded(m, lead, leader, id, n.w.tabs[id].c.nextId)
  {
    var i, channel := n.w.tabs[id].c.nextId, Channel(leader, id);
    NoDownsForNew(n, channel, i);
    SendAnother(n, at, lead, leader, id, body);
    SendPostsNoDowns(n, id, body);
    Takes(n, Send(id, body), 0);
    StepKeepsNetOk(n, Send(id, body), 0);
    var u := Stepped(n, Send(id, body), 0);
    FewerDowns(n.downs, u.downs, channel, i);
    m := StrandNow(u, at, lead, leader, id, i);
    ReachSelf(m);
    ReachFrom(u, m, m);
    ReachFrom(n, u, m);
  }

  /** Any tab that is pairing with a live leader can end up with a stranded request: two retries, one
      acknowledgement, a send, and then the second request arrives. */
  lemma CanStrand(n: Net, lead: TabId, leader: LeaderId, id: TabId, body: Body) returns (m: Net, i: nat)
    requires Inv(n.w) && NetOk(n) && Leading(n.w, lead, leader) && id != lead && Pairing(n.w, id, leader)
    ensures CanReach(n, m) && Stranded(m, lead, leader, id, i)
  {
    var u := RetryTwice(n, lead, leader, id);
    var v := AcknowledgeOne(u, n.time, n.time + 1, lead, leader, id);
    ReachOn(n, u, v);
    ReachKeepsOk(n, v);
    i := v.w.tabs[id].c.nextId;
    m := SendThenStrand(v, n.time + 1, lead, leader, id, body);
    ReachOn(n, v, m);
  }

  // ----- a request that was never on its way

  lemma NothingOfNew(n: Net, lead: TabId, channel: Channel, i: nat)
    requires Inv(n.w) && NetOk(n) && lead in n.w.tabs && channel.client in n.w.tabs
    requires i >= n.w.tabs[channel.client].c.nextId
    ensures !UpComing(n.ups, lead, channel, i) && !BridgeMaps(n.w.tabs[lead].t, channel.client, i)
  {
    var t := n.w.tabs[lead].t;
    assert TabOk(n.w, channel.client) && MapsOk(n.w, lead);
    forall l | l in n.ups && l.msg.channel == channel
      ensures l.msg.id != i
    {
      assert UpLetterOk(n, l) && UpOk(n.w, l.msg);
    }
    forall e | channel.client in t.bridges && e in t.bridges[channel.client].idMap
      ensures t.bridges[channel.client].idMap[e] != i
    {
      assert Mapped(n.w, t.leaderId, channel.client, e, t.bridges[channel.client].idMap[e]);
      assert AskedOk(n.w, Request(t.leaderId.value, e));
    }
  }

  lemma SendPosts(n: Net, id: TabId, body: Body, channel: Channel)
    requires CanStep(n, Send(id, body), 0) && Listening(n.w.tabs[id].t) && Attached(n.w.tabs[id].t, channel)
    ensures var e, u, i := StepEffect(n.w, Send(id, body)), Next(n.w, Send(id, body)), n.w.tabs[id].c.nextId;
      && e.up == {Up(channel, i, body)} && e.down == {} && e.bridged == {} && e.t.bridges == n.w.tabs[id].t.bridges
      && id in u.tabs && Attached(u.tabs[id].t, channel) && u.tabs[id].t.pendingPair == n.w.tabs[id].t.pendingPair
      && Waits(u, id, i)
  {
    HearNone(Register(n.w.tabs[id].c, body));
  }

  /** A fresh request of an acknowledged tab is on its way exactly when the leader still has a bridge
      on its channel: after a close has disposed of it, requests are stranded from the start. */
  lemma SentOnItsWayExactly(n: Net, lead: TabId, leader: LeaderId, id: TabId, body: Body)
    requires Inv(n.w) && NetOk(n) && Acknowledged(n.w, lead, leader, id)
    ensures CanStep(n, Send(id, body), 0) && lead in Stepped(n, Send(id, body), 0).w.tabs
    ensures var u, i := Stepped(n, Send(id, body), 0), n.w.tabs[id].c.nextId;
      Waits(u.w, id, i) && (OnItsWay(u, lead, leader, id, i) <==> HasBridge(n.w.tabs[lead].t, Channel(leader, id)))
  {
    assert TabOk(n.w, id);
    SendOutcome(n, lead, Channel(leader, id), body);
  }

  lemma SendOutcome(n: Net, lead: TabId, channel: Channel, body: Body)
    requires Inv(n.w) && NetOk(n) && lead in n.w.tabs && channel.client in n.w.tabs
    requires Listening(n.w.tabs[channel.client].t)
    requires Attached(n.w.tabs[channel.client].t, channel)
    ensures var step, i := Send(channel.client, body), n.w.tabs[channel.client].c.nextId;
      && CanStep(n, step, 0) && Waits(Next(n.w, step), channel.client, i) && lead in Next(n.w, step).tabs
      && (OnItsWay(Stepped(n, step, 0), lead, channel.leader, channel.client, i) <==>
            HasBridge(n.w.tabs[lead].t, channel))
  {
    var step, i := Send(channel.client, body), n.w.tabs[channel.client].c.nextId;
    var e, u := StepEffect(n.w, step), Stepped(n, step, 0);
    SendPosts(n, channel.client, body, channel);
    StepNetPosts(n, step, 0);
    NothingOfNew(n, lead, channel, i);
    NoDownsForNew(n, channel, i);
    LettersAt(n, n, u, channel.client, e, false, lead, channel, i);
    assert PostsUp(e, channel, i) by { assert Up(channel, i, body) in e.up; }
  }

  // ----- from nothing

  lemma FirstStart()
    ensures CanStep(EMPTY, Start(0), 0)
    ensures var u := Stepped(EMPTY, Start(0), 0).w;
      u.queue == [0] && u.tabs.Keys == {0} && u.tabs[0].t == New(0) && u.holder.None? && u.owner == map[]
  {
  }

  lemma FirstTab(leader: LeaderId) returns (n: Net)
    ensures CanReach(EMPTY, n) && Leading(n.w, 0, leader) && 1 !in n.w.tabs
  {
    FirstStart();
    Takes(EMPTY, Start(0), 0);
    var u := Stepped(EMPTY, Start(0), 0);
    GrantStep(u, leader, 0);
    Takes(u, Grant(leader), 0);
    StepPosts(u.w, Grant(leader));
    n := Stepped(u, Grant(leader), 0);
    ReachSelf(n);
    ReachFrom(u, n, n);
    ReachFrom(EMPTY, u, n);
  }

  lemma SecondTab(n: Net, lead: TabId, leader: LeaderId, id: TabId)
    requires Leading(n.w, lead, leader) && id !in n.w.tabs
    ensures CanStep(n, Start(id), 0)
    ensures var u := Stepped(n, Start(id), 0);
      Leading(u.w, lead, leader) && Unsettled(u.w, id, leader) && Letter(n.time, lead, Sent(id, LeaderQuery)) in u.disc
  {
    var u := Stepped(n, Start(id), 0);
    StepNetPosts(n, Start(id), 0);
    assert LeaderQuery in Create(id).disc && lead in u.w.tabs.Keys;
    assert Letter(n.time, lead, Sent(id, LeaderQuery)) in NewDisc(n.time, u.w, id, Create(id));
  }

  lemma JoinStarted(n: Net, lead: TabId, leader: LeaderId, id: TabId) returns (m: Net)
    requires Inv(n.w) && NetOk(n) && Leading(n.w, lead, leader) && id !in n.w.tabs
    ensures CanReach(n, m) && Inv(m.w) && NetOk(m) && Leading(m.w, lead, leader) && Pairing(m.w, id, leader)
  {
    SecondTab(n, lead, leader, id);
    Takes(n, Start(id), 0);
    StepKeepsNetOk(n, Start(id), 0);
    var u := Stepped(n, Start(id), 0);
    m := ProbeToPairing(u, n.time, lead, leader, id);
    ReachFrom(n, u, m);
    ReachKeepsOk(n, m);
  }

  lemma ProbeToPairing(n: Net, at: nat, lead: TabId, leader: LeaderId, id: TabId) returns (m: Net)
    requires LettersOk(n) && Leading(n.w, lead, leader) && id != lead && Unsettled(n.w, id, leader)
    requires Letter(at, lead, Sent(id, LeaderQuery)) in n.disc
    ensures CanReach(n, m) && Leading(m.w, lead, leader) && Pairing(m.w, id, leader)
  {
    var s1, s2 := Discover(lead, Sent(id, LeaderQuery)), Discover(id, Sent(lead, LeaderElected(leader)));
    QueryAnswered(n, at, id, lead, leader, id);
    Takes(n, s1, at);
    LettersKept(n, s1, at);
    var u := Stepped(n, s1, at);
    AnnouncementHeard(u, n.time, lead, leader, id);
    Takes(u, s2, n.time);
    m := Stepped(u, s2, n.time);
    ReachSelf(m);
    ReachFrom(u, m, m);
    ReachFrom(n, u, m);
  }

  /** A run from nothing that ends with a stranded request. */
  lemma ARequestStranded(leader: LeaderId, body: Body) returns (m: Net, i: nat)
    ensures CanReach(EMPTY, m) && Stranded(m, 0, leader, 1, i)
  {
    EmptyOk();
    var u := FirstTab(leader);
    ReachKeepsOk(EMPTY, u);
    var v := JoinStarted(u, 0, leader, 1);
    ReachOn(EMPTY, u, v);
    m, i := CanStrand(v, 0, leader, 1, body);
    ReachOn(EMPTY, v, m);
  }
}
