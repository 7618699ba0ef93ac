/**
 What the protocol can still get done over real channels, where no letter is delivered twice: a tab
 with a letter of the live leader on its way, a retry timer running, or a newcomer's probe in sight
 can pair; and a request can be settled as long as it is on its way.
 */
module ProtocolService {
  import opened Common
  import opened Wire
  import opened Transport
  import opened TransportInvariant
  import opened WorkerClient
  import opened Protocol
  import opened ProtocolInvariant
  import opened ProtocolSteps
  import opened ProtocolInduction
  import opened ProtocolTheorems
  import opened Delivery
  import opened DeliveryInvariant
  import opened Stranding

  ghost predicate Path(nets: seq<Net>, n: Net, m: Net) {
    && nets != [] && nets[0] == n && nets[|nets| - 1] == m
    && forall k :: 0 < k < |nets| ==> StepsTo(nets[k - 1], nets[k])
  }

  /** Some steps lead from one net to the other. */
  ghost predicate CanReach(n: Net, m: Net) {
    exists nets :: Path(nets, n, m)
  }

  lemma Takes(n: Net, step: Step, at: nat)
    requires CanStep(n, step, at)
    ensures StepsTo(n, Stepped(n, step, at))
  {
  }

  lemma ReachSelf(n: Net)
    ensures CanReach(n, n)
  {
    assert Path([n], n, n);
  }

  /** One more step at the front. */
  lemma ReachFrom(n: Net, u: Net, m: Net)
    requires StepsTo(n, u) && CanReach(u, m)
    ensures CanReach(n, m)
  {
    var rest :| Path(rest, u, m);
    var all := [n] + rest;
    forall k | 0 < k < |all| ensures StepsTo(all[k - 1], all[k]) {
      if k > 1 { assert StepsTo(rest[k - 2], rest[k - 1]); }
    }
    assert Path(all, n, m);
  }

  lemma ReachOn(n: Net, u: Net, m: Net)
    requires CanReach(n, u) && CanReach(u, m)
    ensures CanReach(n, m)
  {
    var first :| Path(first, n, u);
    var more :| Path(more, u, m);
    var all := first + more[1..];
    forall k | 0 < k < |all| ensures StepsTo(all[k - 1], all[k]) {
      if k >= |first| { assert StepsTo(more[k - |first|], more[k - |first| + 1]); }
    }
    assert Path(all, n, m);
  }

  lemma {:induction false} PathKeepsOk(nets: seq<Net>, n: Net, m: Net)
    requires Inv(n.w) && NetOk(n) && Path(nets, n, m)
    ensures Inv(m.w) && NetOk(m)
    decreases |nets|
  {
    if |nets| > 1 {
      StepsToKeepsNetOk(n, nets[1]);
      PathKeepsOk(nets[1..], nets[1], m);
    }
  }

  lemma ReachKeepsOk(n: Net, m: Net)
    requires Inv(n.w) && NetOk(n) && CanReach(n, m)
    ensures Inv(m.w) && NetOk(m)
  {
    var nets :| Path(nets, n, m);
    PathKeepsOk(nets, n, m);
  }

  lemma EmptyOk()
    ensures Inv(EMPTY.w) && NetOk(EMPTY)
  {
    InitInv();
  }

  lemma DiscPersists(n: Net, step: Step, at: nat, l: Letter<Sent>)
    requires CanStep(n, step, at) && l in n.disc
    requires step.Discover? ==> l != Letter(at, step.id, step.sent)
    ensures l in Stepped(n, step, at).disc
  {
  }

  // ----- pairing

  /** A live tab without a leadership of its own that is not settled with this leader. */
  ghost predicate Unsettled(w: World, id: TabId, leader: LeaderId) {
    && id in w.tabs && Listening(w.tabs[id].t) && w.tabs[id].t.self == id && w.tabs[id].t.leaderId.None?
    && (w.tabs[id].t.currentLeader != Some(leader) || w.tabs[id].t.pairChannel.None?)
  }

  /** A tab whose pair request to this leader has not been acknowledged. */
  ghost predicate Pairing(w: World, id: TabId, leader: LeaderId) {
    && id in w.tabs && Listening(w.tabs[id].t) && w.tabs[id].t.self == id
    && w.tabs[id].t.pendingPair == Some(Channel(leader, id)) && Attached(w.tabs[id].t, Channel(leader, id))
  }

  /** The tab's client and buffer are as they were. */
  ghost predicate SameLoad(w: World, v: World, id: TabId) {
    && id in w.tabs && id in v.tabs && v.tabs[id].c == w.tabs[id].c
    && v.tabs[id].t.inFlight == w.tabs[id].t.inFlight
  }

  lemma QueryAnswered(n: Net, at: nat, from: TabId, lead: TabId, leader: LeaderId, id: TabId)
    requires LettersOk(n) && Leading(n.w, lead, leader) && id != lead && Unsettled(n.w, id, leader)
    requires Letter(at, lead, Sent(from, LeaderQuery)) in n.disc
    ensures CanStep(n, Discover(lead, Sent(from, LeaderQuery)), at)
    ensures var m := Stepped(n, Discover(lead, Sent(from, LeaderQuery)), at);
      && Leading(m.w, lead, leader) && Unsettled(m.w, id, leader) && SameLoad(n.w, m.w, id)
      && Letter(n.time, id, Sent(lead, LeaderElected(leader))) in m.disc
  {
    assert DiscLetterOk(n, Letter(at, lead, Sent(from, LeaderQuery)));
  }

  lemma AnnouncementHeard(n: Net, at: nat, lead: TabId, leader: LeaderId, id: TabId)
    requires LettersOk(n) && Leading(n.w, lead, leader) && id != lead && Unsettled(n.w, id, leader)
    requires Letter(at, id, Sent(lead, LeaderElected(leader))) in n.disc
    ensures CanStep(n, Discover(id, Sent(lead, LeaderElected(leader))), at)
    ensures var m := Stepped(n, Discover(id, Sent(lead, LeaderElected(leader))), at);
      && Leading(m.w, lead, leader) && Pairing(m.w, id, leader) && SameLoad(n.w, m.w, id)
      && Letter(n.time, lead, Sent(id, PairRequest(leader, id, Channel(leader, id)))) in m.disc
  {
    assert DiscLetterOk(n, Letter(at, id, Sent(lead, LeaderElected(leader))));
  }

  lemma RetryRepeats(n: Net, lead: TabId, leader: LeaderId, id: TabId)
    requires Leading(n.w, lead, leader) && id != lead && Pairing(n.w, id, leader)
    ensures CanStep(n, Retry(id), 0)
    ensures var m := Stepped(n, Retry(id), 0);
      && Leading(m.w, lead, leader) && Pairing(m.w, id, leader) && SameLoad(n.w, m.w, id)
      && Letter(n.time, lead, Sent(id, PairRequest(leader, id, Channel(leader, id)))) in m.disc
  {
  }

  lemma RequestServiced(n: Net, at: nat, lead: TabId, leader: LeaderId, id: TabId)
    requires LettersOk(n) && Leading(n.w, lead, leader) && id != lead && Pairing(n.w, id, leader)
    requires Letter(at, lead, Sent(id, PairRequest(leader, id, Channel(leader, id)))) in n.disc
    ensures CanStep(n, Discover(lead, Sent(id, PairRequest(leader, id, Channel(leader, id)))), at)
    ensures var m := Stepped(n, Discover(lead, Sent(id, PairRequest(leader, id, Channel(leader, id)))), at);
      && Leading(m.w, lead, leader) && Pairing(m.w, id, leader) && SameLoad(n.w, m.w, id)
      && HasBridge(m.w.tabs[lead].t, Channel(leader, id))
      && Letter(n.time, id, Sent(lead, PairAck(leader, id))) in m.disc
  {
    assert DiscLetterOk(n, Letter(at, lead, Sent(id, PairRequest(leader, id, Channel(leader, id)))));
  }

  /** The whole buffer is on its way to the leader. */
  ghost predicate AllComing(n: Net, lead: TabId, leader: LeaderId, id: TabId) {
    && Acknowledged(n.w, lead, leader, id)
    && forall i :: i in n.w.tabs[id].t.inFlight ==> Arriving(n, lead, leader, id, i)
  }

  ghost predicate Arriving(n: Net, lead: TabId, leader: LeaderId, id: TabId, i: nat)
    requires id in n.w.tabs && i in n.w.tabs[id].t.inFlight
  {
    exists at :: Letter(at, lead, Up(Channel(leader, id), i, n.w.tabs[id].t.inFlight[i])) in n.ups
  }

  lemma AckHeard(n: Net, at: nat, lead: TabId, leader: LeaderId, id: TabId)
    requires LettersOk(n) && Leading(n.w, lead, leader) && id != lead && Pairing(n.w, id, leader)
    requires HasBridge(n.w.tabs[lead].t, Channel(leader, id))
    requires Letter(at, id, Sent(lead, PairAck(leader, id))) in n.disc
    ensures CanStep(n, Discover(id, Sent(lead, PairAck(leader, id))), at)
    ensures var m := Stepped(n, Discover(id, Sent(lead, PairAck(leader, id))), at);
      AllComing(m, lead, leader, id) && SameLoad(n.w, m.w, id) && m.w.tabs[id].t.ready != Waiting
  {
    assert DiscLetterOk(n, Letter(at, id, Sent(lead, PairAck(leader, id))));
    var m := Stepped(n, Discover(id, Sent(lead, PairAck(leader, id))), at);
    forall i | i in m.w.tabs[id].t.inFlight ensures Arriving(m, lead, leader, id, i) {
      assert Letter(n.time, lead, Up(Channel(leader, id), i, m.w.tabs[id].t.inFlight[i])) in m.ups;
    }
  }

  /** Paired, with the client untouched. */
  ghost predicate PairsTo(n: Net, m: Net, lead: TabId, leader: LeaderId, id: TabId) {
    CanReach(n, m) && AllComing(m, lead, leader, id) && SameLoad(n.w, m.w, id) && m.w.tabs[id].t.ready != Waiting
  }

  lemma PairsAfter(n: Net, u: Net, m: Net, lead: TabId, leader: LeaderId, id: TabId)
    requires StepsTo(n, u) && SameLoad(n.w, u.w, id) && PairsTo(u, m, lead, leader, id)
    ensures PairsTo(n, m, lead, leader, id)
  {
    ReachFrom(n, u, m);
  }

  lemma FromAck(n: Net, at: nat, lead: TabId, leader: LeaderId, id: TabId) returns (m: Net)
    requires LettersOk(n) && Leading(n.w, lead, leader) && id != lead && Pairing(n.w, id, leader)
    requires HasBridge(n.w.tabs[lead].t, Channel(leader, id))
    requires Letter(at, id, Sent(lead, PairAck(leader, id))) in n.disc
    ensures PairsTo(n, m, lead, leader, id)
  {
    AckHeard(n, at, lead, leader, id);
    Takes(n, Discover(id, Sent(lead, PairAck(leader, id))), at);
    m := Stepped(n, Discover(id, Sent(lead, PairAck(leader, id))), at);
    ReachSelf(m);
    ReachFrom(n, m, m);
  }

  lemma FromRequest(n: Net, at: nat, lead: TabId, leader: LeaderId, id: TabId) returns (m: Net)
    requires LettersOk(n) && Leading(n.w, lead, leader) && id != lead && Pairing(n.w, id, leader)
    requires Letter(at, lead, Sent(id, PairRequest(leader, id, Channel(leader, id)))) in n.disc
    ensures PairsTo(n, m, lead, leader, id)
  {
    var step := Discover(lead, Sent(id, PairRequest(leader, id, Channel(leader, id))));
    RequestServiced(n, at, lead, leader, id);
    Takes(n, step, at);
    LettersKept(n, step, at);
    m := FromAck(Stepped(n, step, at), n.time, lead, leader, id);
    PairsAfter(n, Stepped(n, step, at), m, lead, leader, id);
  }

  lemma FromRetry(n: Net, lead: TabId, leader: LeaderId, id: TabId) returns (m: Net)
    requires LettersOk(n) && Leading(n.w, lead, leader) && id != lead && Pairing(n.w, id, leader)
    ensures PairsTo(n, m, lead, leader, id)
  {
    RetryRepeats(n, lead, leader, id);
    Takes(n, Retry(id), 0);
    LettersKept(n, Retry(id), 0);
    m := FromRequest(Stepped(n, Retry(id), 0), n.time, lead, leader, id);
    PairsAfter(n, Stepped(n, Retry(id), 0), m, lead, leader, id);
  }

  lemma FromAnnouncement(n: Net, at: nat, lead: TabId, leader: LeaderId, id: TabId) returns (m: Net)
    requires LettersOk(n) && Leading(n.w, lead, leader) && id != lead && Unsettled(n.w, id, leader)
    requires Letter(at, id, Sent(lead, LeaderElected(leader))) in n.disc
    ensures PairsTo(n, m, lead, leader, id)
  {
    var step := Discover(id, Sent(lead, LeaderElected(leader)));
    AnnouncementHeard(n, at, lead, leader, id);
    Takes(n, step, at);
    LettersKept(n, step, at);
    m := FromRequest(Stepped(n, step, at), n.time, lead, leader, id);
    PairsAfter(n, Stepped(n, step, at), m, lead, leader, id);
  }

  lemma FromProbe(n: Net, at: nat, from: TabId, lead: TabId, leader: LeaderId, id: TabId) returns (m: Net)
    requires LettersOk(n) && Leading(n.w, lead, leader) && id != lead && Unsettled(n.w, id, leader)
    requires Letter(at, lead, Sent(from, LeaderQuery)) in n.disc
    ensures PairsTo(n, m, lead, leader, id)
  {
    var step := Discover(lead, Sent(from, LeaderQuery));
    QueryAnswered(n, at, from, lead, leader, id);
    Takes(n, step, at);
    LettersKept(n, step, at);
    m := FromAnnouncement(Stepped(n, step, at), n.time, lead, leader, id);
    PairsAfter(n, Stepped(n, step, at), m, lead, leader, id);
  }

  /** The tab has something to pair on: its retry timer, or an undelivered announcement of this
      leader, or anybody's probe that this leader has yet to answer. */
  ghost predicate Pairable(n: Net, lead: TabId, leader: LeaderId, id: TabId) {
    || Pairing(n.w, id, leader)
    || (Unsettled(n.w, id, leader) && exists at :: Letter(at, id, Sent(lead, LeaderElected(leader))) in n.disc)
    || (Unsettled(n.w, id, leader) && exists at, from :: Letter(at, lead, Sent(from, LeaderQuery)) in n.disc)
  }

  /** Such a tab can pair with the live leader: acknowledged, ready, its whole buffer on its way. */
  lemma CanPair(n: Net, lead: TabId, leader: LeaderId, id: TabId) returns (m: Net)
    requires NetOk(n) && Leading(n.w, lead, leader) && id != lead && Pairable(n, lead, leader, id)
    ensures PairsTo(n, m, lead, leader, id)
  {
    if Pairing(n.w, id, leader) {
      m := FromRetry(n, lead, leader, id);
    } else if at :| Letter(at, id, Sent(lead, LeaderElected(leader))) in n.disc {
      m := FromAnnouncement(n, at, lead, leader, id);
    } else {
      var at, from :| Letter(at, lead, Sent(from, LeaderQuery)) in n.disc;
      m := FromProbe(n, at, from, lead, leader, id);
    }
  }

  /** A tab that has nothing to pair on is helped by any tab that starts: its probe makes the leader
      announce itself to everybody. */
  lemma NewcomerHelps(n: Net, lead: TabId, leader: LeaderId, id: TabId, k: TabId)
    requires Leading(n.w, lead, leader) && id != lead && Unsettled(n.w, id, leader) && k !in n.w.tabs
    ensures CanStep(n, Start(k), 0)
    ensures var m := Stepped(n, Start(k), 0);
      Leading(m.w, lead, leader) && Pairable(m, lead, leader, id) && SameLoad(n.w, m.w, id)
  {
    var m := Stepped(n, Start(k), 0);
    StepNetPosts(n, Start(k), 0);
    assert LeaderQuery in Create(k).disc && lead in m.w.tabs.Keys;
    assert Letter(n.time, lead, Sent(k, LeaderQuery)) in NewDisc(n.time, m.w, k, Create(k));
  }

  lemma GrantEffect(t: Transport, newId: LeaderId)
    requires !t.closed && !t.failed
    ensures var e, own := OnLockGranted(t, newId), Channel(newId, t.self);
      && LeaderElected(newId) in e.disc && e.up == Replay(t, own) && HasBridge(e.t, own)
      && Listening(e.t) && e.t.writer == Some(newId) && e.t.leaderId == Some(newId)
      && Attached(e.t, own) && e.t.pendingPair.None? && e.t.inFlight == t.inFlight
  {
  }

  /** A net after a grant, in terms of what the new leader posted. */
  lemma GrantNet(n: Net, left: Net, m: Net, id: TabId, e: Effect, newId: LeaderId, k: TabId)
    requires NetPosts(n, left, m, id, e, true) && LeaderElected(newId) in e.disc && HasBridge(e.t, Channel(newId, id))
    requires Listening(e.t) && e.t.writer == Some(newId) && e.t.leaderId == Some(newId)
    requires Attached(e.t, Channel(newId, id)) && e.t.pendingPair.None?
    requires forall i :: i in e.t.inFlight ==> Up(Channel(newId, id), i, e.t.inFlight[i]) in e.up
    ensures AllComing(m, id, newId, id)
    ensures k in m.w.tabs && k != id && Listening(m.w.tabs[k].t) ==>
      Letter(n.time, k, Sent(id, LeaderElected(newId))) in m.disc
  {
    forall i | i in m.w.tabs[id].t.inFlight ensures Arriving(m, id, newId, id, i) {
      assert id in m.w.tabs.Keys;
      assert Letter(n.time, id, Up(Channel(newId, id), i, m.w.tabs[id].t.inFlight[i])) in NewUps(n.time, m.w, e);
    }
    if k in m.w.tabs && k != id && Listening(m.w.tabs[k].t) {
      assert k in m.w.tabs.Keys;
      assert Letter(n.time, k, Sent(id, LeaderElected(newId))) in NewDisc(n.time, m.w, id, e);
    }
  }

  lemma GrantStep(n: Net, newId: LeaderId, k: TabId)
    requires CanStep(n, Grant(newId), 0) && Listening(n.w.tabs[n.w.queue[0]].t)
    requires n.w.tabs[n.w.queue[0]].t.self == n.w.queue[0]
    ensures var m, id := Stepped(n, Grant(newId), 0), n.w.queue[0];
      && AllComing(m, id, newId, id)
      && (k in m.w.tabs && k != id && Listening(m.w.tabs[k].t) ==>
            Letter(n.time, k, Sent(id, LeaderElected(newId))) in m.disc)
  {
    var id := n.w.queue[0];
    GrantEffect(n.w.tabs[id].t, newId);
    StepNetPosts(n, Grant(newId), 0);
    GrantNet(n, Consumed(n, Grant(newId), 0), Stepped(n, Grant(newId), 0), id, OnLockGranted(n.w.tabs[id].t, newId),
      newId, k);
  }

  /** A granted lock makes its live owner an acknowledged client of itself with its whole buffer on
      its way, and gives every other live tab an announcement to pair on. */
  lemma ElectionOutcome(n: Net, newId: LeaderId, k: TabId)
    requires Inv(n.w) && CanStep(n, Grant(newId), 0) && !n.w.tabs[n.w.queue[0]].t.closed
    ensures var m, id := Stepped(n, Grant(newId), 0), n.w.queue[0];
      && AllComing(m, id, newId, id)
      && (k in m.w.tabs && k != id && Listening(m.w.tabs[k].t) ==>
            Letter(n.time, k, Sent(id, LeaderElected(newId))) in m.disc)
  {
    assert LockOk(n.w, n.w.queue[0]) && TabOk(n.w, n.w.queue[0]);
    GrantStep(n, newId, k);
  }

  lemma AnnouncementQuiet(t: Transport, leader: LeaderId)
    requires t.currentLeader == Some(leader) && t.pairChannel.Some?
    ensures OnDiscovery(t, LeaderElected(leader)) == Quiet(t)
  {
  }

  lemma QuietWorld(w: World, id: TabId)
    requires id in w.tabs
    ensures Act(w, id, Quiet(w.tabs[id].t)) == w
  {
    HearNone(w.tabs[id].c);
  }

  lemma QuietLetters(n: Net, left: Net, m: Net, id: TabId)
    requires LettersOk(n) && id in n.w.tabs && NetPosts(n, left, m, id, Quiet(n.w.tabs[id].t), false)
    requires left.ups == n.ups && left.downs == n.downs
    ensures m.disc == left.disc && m.ups == n.ups && m.downs == n.downs && m.replies == left.replies
  {
    forall l | l in n.ups ensures l in m.ups { assert UpLetterOk(n, l); }
    forall l | l in n.downs ensures l in m.downs { assert DownLetterOk(n, l); }
  }

  /** An announcement of its current leader, heard again by an attached tab, uses up its letter and
      changes nothing else anywhere: no re-pairing, no request to replace a bridge, no lost letter. */
  lemma RepeatedAnnouncement(n: Net, at: nat, id: TabId, from: TabId, leader: LeaderId)
    requires NetOk(n) && CanStep(n, Discover(id, Sent(from, LeaderElected(leader))), at)
    requires n.w.tabs[id].t.currentLeader == Some(leader) && n.w.tabs[id].t.pairChannel.Some?
    ensures Stepped(n, Discover(id, Sent(from, LeaderElected(leader))), at)
      == n.(time := n.time + 1, disc := n.disc - {Letter(at, id, Sent(from, LeaderElected(leader)))})
  {
    var step := Discover(id, Sent(from, LeaderElected(leader)));
    AnnouncementQuiet(n.w.tabs[id].t, leader);
    QuietWorld(n.w, id);
    StepNetPosts(n, step, at);
    QuietLetters(n, Consumed(n, step, at), Stepped(n, step, at), id);
  }

  // ----- serving

  ghost predicate Settles(n: Net, m: Net, id: TabId, i: nat) {
    && CanReach(n, m)
    && id in m.w.tabs
    && i in m.w.tabs[id].c.settled
    && m.w.tabs[id].c.settled[i].ByReply?
    && !Waits(m.w, id, i)
  }

  ghost predicate SettlesWith(n: Net, m: Net, id: TabId, i: nat, reply: Reply) {
    Settles(n, m, id, i) && m.w.tabs[id].c.settled[i] == ByReply(reply)
  }

  lemma SettlesAfter(n: Net, u: Net, m: Net, id: TabId, i: nat)
    requires StepsTo(n, u) && Settles(u, m, id, i)
    ensures Settles(n, m, id, i)
  {
    ReachFrom(n, u, m);
  }

  lemma FromDown(n: Net, at: nat, channel: Channel, i: nat, reply: Reply) returns (m: Net)
    requires TabsOk(n.w) && LettersOk(n) && Waits(n.w, channel.client, i)
    requires Letter(at, channel.client, Down(channel, i, reply)) in n.downs
    ensures SettlesWith(n, m, channel.client, i, reply)
  {
    var id, step := channel.client, PairEnvelope(channel.client, Down(channel, i, reply));
    assert DownLetterOk(n, Letter(at, id, Down(channel, i, reply))) && TabOk(n.w, id);
    HearOne(n.w.tabs[id].c, Envelopes({i}, reply));
    Takes(n, step, at);
    m := Stepped(n, step, at);
    ReachSelf(m);
    ReachFrom(n, m, m);
  }

  lemma AnswerPosts(t: Transport, client: TabId, env: nat, answer: Answer)
    requires client in t.bridges && env in t.bridges[client].idMap
    ensures var b, e := t.bridges[client], OnWriterMessage(t, client, env, answer);
      Down(b.channel, b.idMap[env], FromWriter(answer)) in e.down
  {
  }

  /** A letter to an attached client is on its way as soon as it is posted. */
  lemma PostedDown(n: Net, left: Net, m: Net, a: TabId, e: Effect, attaches: bool, down: Down)
    requires NetPosts(n, left, m, a, e, attaches) && down in e.down
    requires down.channel.client in m.w.tabs && Attached(m.w.tabs[down.channel.client].t, down.channel)
    ensures Letter(n.time, down.channel.client, down) in m.downs
  {
  }

  lemma BridgeStepsKeepTab(w: World, step: Step, id: TabId, i: nat)
    requires Enabled(w, step) && (step.ClientEnvelope? || step.WriterReply? || step.WriterAnswers?) && Waits(w, id, i)
    ensures Waits(Next(w, step), id, i) && Next(w, step).tabs[id].t.pairChannel == w.tabs[id].t.pairChannel
  {
    if Acts(step) {
      NextTabs(w, step);
      HearNone(w.tabs[Actor(w, step)].c);
    } else {
      OtherTabs(w, step);
    }
  }

  /** The bridge of this client maps the request, and its answer is due. */
  ghost predicate ReplyDue(n: Net, lead: TabId, id: TabId, i: nat, r: Request) {
    && lead in n.w.tabs && n.w.tabs[lead].t.writer == Some(r.leader) && r in n.replies && r in n.w.answers
    && HasBridge(n.w.tabs[lead].t, Channel(r.leader, id))
    && r.env in n.w.tabs[lead].t.bridges[id].idMap && n.w.tabs[lead].t.bridges[id].idMap[r.env] == i
  }

  lemma ReplyPosted(n: Net, lead: TabId, id: TabId, i: nat, r: Request)
    requires ReplyDue(n, lead, id, i, r) && Waits(n.w, id, i) && Attached(n.w.tabs[id].t, Channel(r.leader, id))
    ensures CanStep(n, WriterReply(lead, id, r), 0)
    ensures var u := Stepped(n, WriterReply(lead, id, r), 0);
      Waits(u.w, id, i) && Letter(n.time, id, Down(Channel(r.leader, id), i, FromWriter(n.w.answers[r]))) in u.downs
  {
    var step, down := WriterReply(lead, id, r), Down(Channel(r.leader, id), i, FromWriter(n.w.answers[r]));
    StepNetPosts(n, step, 0);
    BridgeStepsKeepTab(n.w, step, id, i);
    AnswerPosts(n.w.tabs[lead].t, id, r.env, n.w.answers[r]);
    PostedDown(n, Consumed(n, step, 0), Stepped(n, step, 0), lead, StepEffect(n.w, step), false, down);
  }

  lemma FromReply(n: Net, lead: TabId, id: TabId, i: nat, r: Request) returns (m: Net)
    requires Inv(n.w) && NetOk(n) && ReplyDue(n, lead, id, i, r) && Waits(n.w, id, i)
    requires Attached(n.w.tabs[id].t, Channel(r.leader, id))
    ensures SettlesWith(n, m, id, i, FromWriter(n.w.answers[r]))
  {
    var step := WriterReply(lead, id, r);
    ReplyPosted(n, lead, id, i, r);
    Takes(n, step, 0);
    StepKeepsNetOk(n, step, 0);
    m := FromDown(Stepped(n, step, 0), n.time, Channel(r.leader, id), i, FromWriter(n.w.answers[r]));
    SettlesAfter(n, Stepped(n, step, 0), m, id, i);
  }

  /** The bridge of this client maps the request, and the writer has been asked. */
  ghost predicate AskDue(n: Net, lead: TabId, id: TabId, i: nat, r: Request) {
    && lead in n.w.tabs && n.w.tabs[lead].t.writer == Some(r.leader) && r in n.w.asked && r !in n.w.answers
    && HasBridge(n.w.tabs[lead].t, Channel(r.leader, id))
    && r.env in n.w.tabs[lead].t.bridges[id].idMap && n.w.tabs[lead].t.bridges[id].idMap[r.env] == i
  }

  lemma AskAnswered(n: Net, lead: TabId, id: TabId, i: nat, r: Request, answer: Answer)
    requires AskDue(n, lead, id, i, r) && Waits(n.w, id, i) && Attached(n.w.tabs[id].t, Channel(r.leader, id))
    requires answer.Response? ==> answer.kind == n.w.asked[r].body.kind
    ensures CanStep(n, WriterAnswers(r, answer), 0)
    ensures var u := Stepped(n, WriterAnswers(r, answer), 0);
      && ReplyDue(u, lead, id, i, r) && u.w.answers[r] == answer
      && Waits(u.w, id, i) && Attached(u.w.tabs[id].t, Channel(r.leader, id))
  {
  }

  lemma FromAsk(n: Net, lead: TabId, id: TabId, i: nat, r: Request, answer: Answer) returns (m: Net)
    requires Inv(n.w) && NetOk(n) && AskDue(n, lead, id, i, r) && Waits(n.w, id, i)
    requires Attached(n.w.tabs[id].t, Channel(r.leader, id))
    requires answer.Response? ==> answer.kind == n.w.asked[r].body.kind
    ensures SettlesWith(n, m, id, i, FromWriter(answer))
  {
    var step := WriterAnswers(r, answer);
    AskAnswered(n, lead, id, i, r, answer);
    Takes(n, step, 0);
    StepKeepsNetOk(n, step, 0);
    m := FromReply(Stepped(n, step, 0), lead, id, i, r);
    SettlesAfter(n, Stepped(n, step, 0), m, id, i);
  }

  /** An undelivered request at the bridge of its client. */
  ghost predicate UpDue(n: Net, at: nat, lead: TabId, leader: LeaderId, up: Up) {
    && Leading(n.w, lead, leader) && up.channel.leader == leader && Letter(at, lead, up) in n.ups
    && UpLetterOk(n, Letter(at, lead, up))
    && Waits(n.w, up.channel.client, up.id) && Attached(n.w.tabs[up.channel.client].t, up.channel)
  }

  lemma UpForwarded(n: Net, at: nat, lead: TabId, leader: LeaderId, up: Up)
    requires UpDue(n, at, lead, leader, up) && up.body.kind != CloseConnection
    requires Request(leader, n.w.tabs[lead].t.nextEnvelope) !in n.w.answers
    ensures CanStep(n, ClientEnvelope(lead, up), at)
    ensures var u, r := Stepped(n, ClientEnvelope(lead, up), at), Request(leader, n.w.tabs[lead].t.nextEnvelope);
      && AskDue(u, lead, up.channel.client, up.id, r) && u.w.asked[r].body == up.body
      && Waits(u.w, up.channel.client, up.id) && Attached(u.w.tabs[up.channel.client].t, up.channel)
  {
    BridgeStepsKeepTab(n.w, ClientEnvelope(lead, up), up.channel.client, up.id);
  }

  lemma FromUp(n: Net, at: nat, lead: TabId, leader: LeaderId, up: Up, answer: Answer) returns (m: Net)
    requires Inv(n.w) && NetOk(n) && UpDue(n, at, lead, leader, up) && up.body.kind != CloseConnection
    requires answer.Response? ==> answer.kind == up.body.kind
    ensures SettlesWith(n, m, up.channel.client, up.id, FromWriter(answer))
  {
    var step, r := ClientEnvelope(lead, up), Request(leader, n.w.tabs[lead].t.nextEnvelope);
    FreshUnanswered(n.w, lead);
    UpForwarded(n, at, lead, leader, up);
    Takes(n, step, at);
    StepKeepsNetOk(n, step, at);
    m := FromAsk(Stepped(n, step, at), lead, up.channel.client, up.id, r, answer);
    SettlesAfter(n, Stepped(n, step, at), m, up.channel.client, up.id);
  }

  lemma CloseAnswered(n: Net, at: nat, lead: TabId, leader: LeaderId, up: Up)
    requires UpDue(n, at, lead, leader, up) && up.body.kind == CloseConnection
    ensures CanStep(n, ClientEnvelope(lead, up), at)
    ensures var u := Stepped(n, ClientEnvelope(lead, up), at);
      && Waits(u.w, up.channel.client, up.id)
      && Letter(n.time, up.channel.client, Down(up.channel, up.id, CloseAck)) in u.downs
  {
    var step, down := ClientEnvelope(lead, up), Down(up.channel, up.id, CloseAck);
    StepNetPosts(n, step, at);
    BridgeStepsKeepTab(n.w, step, up.channel.client, up.id);
    assert down in StepEffect(n.w, step).down;
    PostedDown(n, Consumed(n, step, at), Stepped(n, step, at), lead, StepEffect(n.w, step), false, down);
  }

  lemma FromClose(n: Net, at: nat, lead: TabId, leader: LeaderId, up: Up) returns (m: Net)
    requires Inv(n.w) && NetOk(n) && UpDue(n, at, lead, leader, up) && up.body.kind == CloseConnection
    ensures SettlesWith(n, m, up.channel.client, up.id, CloseAck)
  {
    var step := ClientEnvelope(lead, up);
    CloseAnswered(n, at, lead, leader, up);
    Takes(n, step, at);
    StepKeepsNetOk(n, step, at);
    m := FromDown(Stepped(n, step, at), n.time, up.channel, up.id, CloseAck);
    SettlesAfter(n, Stepped(n, step, at), m, up.channel.client, up.id);
  }

  lemma FromMapping(n: Net, lead: TabId, leader: LeaderId, id: TabId, i: nat) returns (m: Net)
    requires Inv(n.w) && NetOk(n) && Acknowledged(n.w, lead, leader, id) && Waits(n.w, id, i)
    requires BridgeMaps(n.w.tabs[lead].t, id, i)
    ensures Settles(n, m, id, i)
  {
    var t := n.w.tabs[lead].t;
    var env :| env in t.bridges[id].idMap && t.bridges[id].idMap[env] == i;
    var r := Request(leader, env);
    assert TabOk(n.w, lead) && MapsOk(n.w, lead) && RepliesOk(n, lead);
    assert Mapped(n.w, t.leaderId, id, env, i) && DispatchDue(n, t.leaderId, env);
    if r in n.w.answers {
      m := FromReply(n, lead, id, i, r);
    } else {
      m := FromAsk(n, lead, id, i, r, Failure(0));
    }
  }

  /** A request that is on its way can be settled by a reply: with `OnItsWayExactly`, an acknowledged
      tab's pending request is either on its way or stranded for the rest of the pairing. */
  lemma CanServe(n: Net, lead: TabId, leader: LeaderId, id: TabId, i: nat) returns (m: Net)
    requires Inv(n.w) && NetOk(n) && Acknowledged(n.w, lead, leader, id) && Waits(n.w, id, i)
    requires OnItsWay(n, lead, leader, id, i)
    ensures Settles(n, m, id, i)
  {
    var channel := Channel(leader, id);
    if DownComing(n.downs, channel, i) {
      var l :| l in n.downs && l.to == id && l.msg.channel == channel && l.msg.id == i;
      m := FromDown(n, l.at, channel, i, l.msg.reply);
    } else if BridgeMaps(n.w.tabs[lead].t, id, i) {
      m := FromMapping(n, lead, leader, id, i);
    } else {
      var l :| l in n.ups && l.to == lead && l.msg.channel == channel && l.msg.id == i;
      assert UpLetterOk(n, l);
      if l.msg.body.kind == CloseConnection {
        m := FromClose(n, l.at, lead, leader, l.msg);
      } else {
        m := FromUp(n, l.at, lead, leader, l.msg, Failure(0));
      }
    }
  }

  // ----- in every run

  lemma BufferedAsSent(w: World, id: TabId, i: nat)
    requires TabsOk(w) && id in w.tabs && Listening(w.tabs[id].t) && i in w.tabs[id].c.pending
    ensures i in w.tabs[id].c.sent && i in w.tabs[id].t.inFlight && w.tabs[id].t.inFlight[i] == w.tabs[id].c.sent[i]
  {
    assert TabOk(w, id);
  }

  lemma ServeArriving(n: Net, lead: TabId, leader: LeaderId, id: TabId, i: nat, answer: Answer) returns (m: Net)
    requires Inv(n.w) && NetOk(n) && AllComing(n, lead, leader, id) && Waits(n.w, id, i) && i in n.w.tabs[id].t.inFlight
    requires n.w.tabs[id].t.inFlight[i].kind != CloseConnection
    requires answer.Response? ==> answer.kind == n.w.tabs[id].t.inFlight[i].kind
    ensures SettlesWith(n, m, id, i, FromWriter(answer))
  {
    assert Arriving(n, lead, leader, id, i);
    var up := Up(Channel(leader, id), i, n.w.tabs[id].t.inFlight[i]);
    var at :| Letter(at, lead, up) in n.ups;
    assert UpLetterOk(n, Letter(at, lead, up));
    m := FromUp(n, at, lead, leader, up, answer);
  }

  /** In every run a pending request of a tab that has something to pair on can go on to be settled
      with any answer the writer may give. */
  lemma PendingCanBeAnswered(nets: seq<Net>, k: nat, lead: TabId, leader: LeaderId, id: TabId, i: nat, answer: Answer)
    returns (m: Net)
    requires NetRun(nets) && k < |nets| && Leading(nets[k].w, lead, leader) && id != lead
    requires Pairable(nets[k], lead, leader, id)
    requires Waits(nets[k].w, id, i) && i in nets[k].w.tabs[id].c.sent
    requires nets[k].w.tabs[id].c.sent[i].kind != CloseConnection
    requires answer.Response? ==> answer.kind == nets[k].w.tabs[id].c.sent[i].kind
    ensures SettlesWith(nets[k], m, id, i, FromWriter(answer))
  {
    var n := nets[k];
    NetRunsOk(nets, k);
    BufferedAsSent(n.w, id, i);
    var u := CanPair(n, lead, leader, id);
    ReachKeepsOk(n, u);
    m := ServeArriving(u, lead, leader, id, i, answer);
    ReachOn(n, u, m);
  }
}
