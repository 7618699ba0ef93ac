/**
 What becomes of a request once its tab is paired and acknowledged. It is on its way while a copy of
 it is undelivered, a bridge maps it, or an answer to it is undelivered. Exactly two steps can take
 it off its way without settling it; then nothing brings it back before the pairing ends.
 */
module Stranding {
  import opened Common
  import opened Wire
  import opened Transport
  import opened TransportInvariant
  import opened WorkerClient
  import opened Protocol
  import opened ProtocolInvariant
  import opened ProtocolSteps
  import opened ProtocolInduction
  import opened ProtocolTheorems
  import opened Delivery
  import opened DeliveryInvariant

  ghost predicate Leading(w: World, lead: TabId, leader: LeaderId) {
    && lead in w.tabs && Listening(w.tabs[lead].t)
    && w.tabs[lead].t.writer == Some(leader) && w.tabs[lead].t.leaderId == Some(leader)
  }

  /** The tab sits on its channel to this leader and waits for no acknowledgement. */
  ghost predicate Acknowledged(w: World, lead: TabId, leader: LeaderId, id: TabId) {
    && Leading(w, lead, leader) && id in w.tabs
    && Attached(w.tabs[id].t, Channel(leader, id)) && w.tabs[id].t.pendingPair.None?
  }

  ghost predicate Waits(w: World, id: TabId, i: nat) {
    id in w.tabs && i in w.tabs[id].c.pending
  }

  ghost predicate UpComing(ups: set<Letter<Up>>, lead: TabId, channel: Channel, i: nat) {
    exists l :: l in ups && l.to == lead && l.msg.channel == channel && l.msg.id == i
  }

  ghost predicate DownComing(downs: set<Letter<Down>>, channel: Channel, i: nat) {
    exists l :: l in downs && l.to == channel.client && l.msg.channel == channel && l.msg.id == i
  }

  ghost predicate BridgeMaps(t: Transport, client: TabId, i: nat) {
    client in t.bridges && exists e :: e in t.bridges[client].idMap && t.bridges[client].idMap[e] == i
  }

  ghost predicate OnItsWay(n: Net, lead: TabId, leader: LeaderId, id: TabId, i: nat)
    requires lead in n.w.tabs
  {
    || UpComing(n.ups, lead, Channel(leader, id), i)
    || BridgeMaps(n.w.tabs[lead].t, id, i)
    || DownComing(n.downs, Channel(leader, id), i)
  }

  /** The leader handles a pair request of the tab, which replaces its bridge. */
  ghost predicate Repairs(step: Step, lead: TabId, leader: LeaderId, id: TabId) {
    && step.Discover? && step.id == lead && step.sent.msg.PairRequest?
    && step.sent.msg.leader == leader && step.sent.msg.client == id
  }

  ghost predicate Carries(step: Step, lead: TabId, leader: LeaderId, id: TabId) {
    step.ClientEnvelope? && step.id == lead && step.up.channel == Channel(leader, id)
  }

  /** The two ways to lose a request: its bridge is replaced, or disposed of by a close of the same
      tab, while no answer to it is undelivered. */
  ghost predicate Strands(n: Net, step: Step, lead: TabId, leader: LeaderId, id: TabId, i: nat) {
    && !DownComing(n.downs, Channel(leader, id), i)
    && (Repairs(step, lead, leader, id)
        || (Carries(step, lead, leader, id) && step.up.body.kind == CloseConnection && step.up.id != i))
  }

  // ----- what a posting step does to the three places

  ghost predicate PostsUp(e: Effect, channel: Channel, i: nat) {
    exists u :: u in e.up && u.channel == channel && u.id == i
  }

  ghost predicate PostsDown(e: Effect, channel: Channel, i: nat) {
    exists d :: d in e.down && d.channel == channel && d.id == i
  }

  lemma DownsAfter(left: set<Letter<Down>>, at: nat, v: World, a: TabId, e: Effect, attaches: bool, channel: Channel,
      i: nat)
    requires channel.client in v.tabs && Attached(v.tabs[channel.client].t, channel)
    requires a in v.tabs && v.tabs[a].t == e.t && (a == channel.client ==> !attaches)
    ensures DownComing(KeptDowns(left, a, e, attaches) + NewDowns(at, v, e), channel, i)
       <==> DownComing(left, channel, i) || PostsDown(e, channel, i)
  {
    var after := KeptDowns(left, a, e, attaches) + NewDowns(at, v, e);
    if DownComing(left, channel, i) {
      var l :| l in left && l.to == channel.client && l.msg.channel == channel && l.msg.id == i;
      assert l in after;
    }
    if PostsDown(e, channel, i) {
      var d :| d in e.down && d.channel == channel && d.id == i;
      assert Letter(at, channel.client, d) in after;
    }
  }

  lemma UpsAfter(left: set<Letter<Up>>, at: nat, v: World, a: TabId, e: Effect, lead: TabId, channel: Channel, i: nat)
    requires lead in v.tabs && a in v.tabs && v.tabs[a].t == e.t
    requires forall l :: l in left && l.to == lead && l.msg.channel == channel ==> HasBridge(v.tabs[lead].t, channel)
    ensures UpComing(KeptUps(left, a, e) + NewUps(at, v, e), lead, channel, i) <==>
      || (UpComing(left, lead, channel, i) && (a == lead ==> channel !in e.bridged))
      || (PostsUp(e, channel, i) && HasBridge(v.tabs[lead].t, channel))
  {
    var after := KeptUps(left, a, e) + NewUps(at, v, e);
    if UpComing(left, lead, channel, i) && (a == lead ==> channel !in e.bridged) {
      var l :| l in left && l.to == lead && l.msg.channel == channel && l.msg.id == i;
      assert l in after;
    }
    if PostsUp(e, channel, i) && HasBridge(v.tabs[lead].t, channel) {
      var u :| u in e.up && u.channel == channel && u.id == i;
      assert Letter(at, lead, u) in after;
    }
  }

  // ----- handlers that leave one pairing alone

  /** A handler posts requests on its own channel only, and old ones only when it replays. */
  lemma UpsAreOwn(w: World, step: Step)
    requires Enabled(w, step) && Acts(step) && PairOk(w.tabs[Actor(w, step)].t)
    requires w.tabs[Actor(w, step)].t.self == Actor(w, step)
    ensures forall u :: u in StepEffect(w, step).up ==> u.channel.client == Actor(w, step)
  {
  }

  ghost predicate Replays(w: World, step: Step) {
    || step.Grant?
    || (step.Discover? && step.sent.msg.PairAck? && step.id in w.tabs && w.tabs[step.id].t.pendingPair.Some?)
  }

  lemma OnlyReplayRepeats(w: World, step: Step, i: nat)
    requires Enabled(w, step) && Acts(step) && !Replays(w, step) && i < w.tabs[Actor(w, step)].c.nextId
    ensures forall u :: u in StepEffect(w, step).up ==> u.id != i
  {
  }

  /** Envelopes to clients go out on the handler's own bridges. */
  lemma DownsAreOwn(w: World, step: Step)
    requires Enabled(w, step) && Acts(step) && LeadershipOk(w.tabs[Actor(w, step)].t)
    ensures forall d :: d in StepEffect(w, step).down ==> w.tabs[Actor(w, step)].t.leaderId == Some(d.channel.leader)
  {
  }

  /** The leader touches the bridge of one client only in these steps. */
  ghost predicate Touches(step: Step, lead: TabId, leader: LeaderId, id: TabId) {
    || Repairs(step, lead, leader, id)
    || (step.ClientEnvelope? && step.id == lead && step.up.channel.client == id)
    || (step.WriterReply? && step.id == lead && step.client == id)
  }

  ghost predicate BridgeKept(t: Transport, e: Effect, channel: Channel) {
    && channel !in e.bridged
    && (channel.client in t.bridges <==> channel.client in e.t.bridges)
    && (channel.client in t.bridges ==> e.t.bridges[channel.client] == t.bridges[channel.client])
    && forall d :: d in e.down ==> d.channel != channel
  }

  lemma DiscoveryKeepsBridge(t: Transport, msg: Discovery, leader: LeaderId, id: TabId)
    requires LeadershipOk(t) && t.leaderId == Some(leader) && OnDiscovery(t, msg).t.leaderId == Some(leader)
    requires msg.PairRequest? ==> msg.channel == Channel(msg.leader, msg.client)
    requires !(msg.PairRequest? && msg.leader == leader && msg.client == id)
    ensures BridgeKept(t, OnDiscovery(t, msg), Channel(leader, id))
  {
  }

  lemma PlainKeepsBridge(w: World, step: Step, leader: LeaderId, id: TabId)
    requires Enabled(w, step) && PlainKind(step) && !Touches(step, step.id, leader, id)
    requires LeadershipOk(w.tabs[step.id].t)
    requires w.tabs[step.id].t.leaderId == Some(leader) && PlainEffect(w, step).t.leaderId == Some(leader)
    requires step.Discover? && step.sent.msg.PairRequest? ==>
      step.sent.msg.channel == Channel(step.sent.msg.leader, step.sent.msg.client)
    ensures BridgeKept(w.tabs[step.id].t, PlainEffect(w, step), Channel(leader, id))
  {
    if step.Discover? { DiscoveryKeepsBridge(w.tabs[step.id].t, step.sent.msg, leader, id); }
  }

  lemma OtherKeepsBridge(w: World, step: Step, lead: TabId, leader: LeaderId, id: TabId)
    requires Enabled(w, step) && Acts(step) && !PlainKind(step) && Actor(w, step) == lead && !step.Grant?
    requires !Touches(step, lead, leader, id) && LeadershipOk(w.tabs[lead].t)
    requires w.tabs[lead].t.leaderId == Some(leader) && StepEffect(w, step).t.leaderId == Some(leader)
    ensures BridgeKept(w.tabs[lead].t, StepEffect(w, step), Channel(leader, id))
  {
  }

  lemma NoGrantWhileLed(w: World, step: Step, lead: TabId, leader: LeaderId)
    requires TabsOk(w) && LocksOk(w) && Enabled(w, step) && Leading(w, lead, leader)
    ensures !step.Grant?
  {
    assert TabOk(w, lead) && LockOk(w, lead);
  }

  lemma ElectedAttaches(t: Transport, msg: Discovery)
    requires msg.LeaderElected? && OnDiscovery(t, msg).disc != {}
    ensures OnDiscovery(t, msg).t.pendingPair.Some?
  {
  }

  /** What a posting step does to a pairing it does not touch: nothing. */
  ghost predicate LeavesAlone(w: World, step: Step, lead: TabId, channel: Channel, i: nat)
    requires Enabled(w, step) && Posts(step) && lead in w.tabs
  {
    var a, e := Poster(w, step), Posted(w, step);
    && !PostsUp(e, channel, i) && !PostsDown(e, channel, i)
    && (a == lead ==> BridgeKept(w.tabs[lead].t, e, channel))
    && (a == channel.client ==> !Attaches(w, step))
  }

  lemma NoOldUp(w: World, step: Step, lead: TabId, leader: LeaderId, id: TabId, i: nat)
    requires TabsOk(w) && LocksOk(w) && Enabled(w, step) && Acts(step)
    requires Acknowledged(w, lead, leader, id) && Waits(w, id, i)
    ensures !PostsUp(StepEffect(w, step), Channel(leader, id), i)
  {
    var a := Actor(w, step);
    NoGrantWhileLed(w, step, lead, leader);
    assert TabOk(w, a) && TabOk(w, id);
    UpsAreOwn(w, step);
    if a == id { OnlyReplayRepeats(w, step, i); }
  }

  lemma NoStrangeDown(w: World, step: Step, lead: TabId, leader: LeaderId, id: TabId, i: nat)
    requires TabsOk(w) && LocksOk(w) && Enabled(w, step) && Acts(step) && Actor(w, step) != lead
    requires Leading(w, lead, leader)
    ensures !PostsDown(StepEffect(w, step), Channel(leader, id), i)
  {
    assert TabOk(w, Actor(w, step));
    DownsAreOwn(w, step);
    OwnLeaderIds(w, lead, Actor(w, step));
  }

  lemma LeadKeepsBridge(w: World, step: Step, lead: TabId, leader: LeaderId, id: TabId)
    requires Inv(w) && Enabled(w, step) && Acts(step) && Actor(w, step) == lead && !Touches(step, lead, leader, id)
    requires Leading(w, lead, leader) && Leading(Next(w, step), lead, leader)
    ensures BridgeKept(w.tabs[lead].t, StepEffect(w, step), Channel(leader, id))
  {
    NoGrantWhileLed(w, step, lead, leader);
    NextTabs(w, step);
    assert TabOk(w, lead);
    if PlainKind(step) {
      if step.Discover? { assert DiscOk(w, step.sent); }
      PlainKeepsBridge(w, step, leader, id);
    } else {
      OtherKeepsBridge(w, step, lead, leader, id);
    }
  }

  lemma KeepsAttached(w: World, step: Step, lead: TabId, leader: LeaderId, id: TabId)
    requires TabsOk(w) && LocksOk(w) && Enabled(w, step) && Acts(step) && Actor(w, step) == id
    requires Leading(w, lead, leader) && Acknowledged(Next(w, step), lead, leader, id)
    ensures !Attaches(w, step)
  {
    NoGrantWhileLed(w, step, lead, leader);
    NextTabs(w, step);
    if step.Discover? && step.sent.msg.LeaderElected? && StepEffect(w, step).disc != {} {
      ElectedAttaches(w.tabs[id].t, step.sent.msg);
    }
  }

  lemma ElsewhereLeavesAlone(w: World, step: Step, lead: TabId, leader: LeaderId, id: TabId, i: nat)
    requires Inv(w) && Enabled(w, step) && Posts(step) && !Touches(step, lead, leader, id)
    requires Acknowledged(w, lead, leader, id) && Waits(w, id, i) && Acknowledged(Next(w, step), lead, leader, id)
    ensures LeavesAlone(w, step, lead, Channel(leader, id), i)
  {
    if Acts(step) {
      NoOldUp(w, step, lead, leader, id, i);
      if Actor(w, step) == lead { LeadKeepsBridge(w, step, lead, leader, id); }
      else { NoStrangeDown(w, step, lead, leader, id, i); }
      if Actor(w, step) == id { KeepsAttached(w, step, lead, leader, id); }
    }
  }

  // ----- the exact condition

  /** A tab that hears an answer to a request no longer waits for it. */
  lemma DeliverySettles(w: World, id: TabId, down: Down)
    requires TabsOk(w) && Enabled(w, PairEnvelope(id, down))
    ensures !Waits(Next(w, PairEnvelope(id, down)), id, down.id)
  {
    assert TabOk(w, id);
    HearOne(w.tabs[id].c, Envelopes({down.id}, down.reply));
  }

  /** The consumed letter of a step that does not touch the pairing is not one of its letters. */
  lemma ConsumesOthers(n: Net, step: Step, at: nat, lead: TabId, leader: LeaderId, id: TabId, i: nat)
    requires TabsOk(n.w) && CanStep(n, step, at) && !Touches(step, lead, leader, id) && Waits(Next(n.w, step), id, i)
    ensures var left, channel := Consumed(n, step, at), Channel(leader, id);
      && (UpComing(left.ups, lead, channel, i) <==> UpComing(n.ups, lead, channel, i))
      && (DownComing(left.downs, channel, i) <==> DownComing(n.downs, channel, i))
  {
    if step.PairEnvelope? { DeliverySettles(n.w, step.id, step.down); }
    var left, channel := Consumed(n, step, at), Channel(leader, id);
    if UpComing(n.ups, lead, channel, i) {
      var l :| l in n.ups && l.to == lead && l.msg.channel == channel && l.msg.id == i;
      assert l in left.ups;
    }
    if DownComing(n.downs, channel, i) {
      var l :| l in n.downs && l.to == id && l.msg.channel == channel && l.msg.id == i;
      assert l in left.downs;
    }
  }

  ghost predicate SameBridge(t: Transport, u: Transport, client: TabId) {
    && (client in t.bridges <==> client in u.bridges)
    && (client in t.bridges ==> u.bridges[client] == t.bridges[client])
  }

  /** The letters of a pairing after a posting step. */
  lemma LettersAt(n: Net, left: Net, m: Net, a: TabId, e: Effect, attaches: bool, lead: TabId, channel: Channel, i: nat)
    requires LettersOk(n) && NetPosts(n, left, m, a, e, attaches) && left.ups <= n.ups
    requires lead in n.w.tabs && lead in m.w.tabs
    requires channel.client in m.w.tabs && Attached(m.w.tabs[channel.client].t, channel)
    requires (a == channel.client ==> !attaches)
    requires HasBridge(n.w.tabs[lead].t, channel) ==> HasBridge(m.w.tabs[lead].t, channel)
    ensures DownComing(m.downs, channel, i) <==> DownComing(left.downs, channel, i) || PostsDown(e, channel, i)
    ensures UpComing(m.ups, lead, channel, i) <==>
      || (UpComing(left.ups, lead, channel, i) && (a == lead ==> channel !in e.bridged))
      || (PostsUp(e, channel, i) && HasBridge(m.w.tabs[lead].t, channel))
  {
    forall l | l in left.ups && l.to == lead && l.msg.channel == channel ensures HasBridge(m.w.tabs[lead].t, channel) {
      assert UpLetterOk(n, l);
    }
    DownsAfter(left.downs, n.time, m.w, a, e, attaches, channel, i);
    UpsAfter(left.ups, n.time, m.w, a, e, lead, channel, i);
  }

  lemma AloneExact(n: Net, left: Net, m: Net, a: TabId, e: Effect, attaches: bool, lead: TabId, channel: Channel,
      i: nat)
    requires LettersOk(n) && NetPosts(n, left, m, a, e, attaches) && left.ups <= n.ups && lead in n.w.tabs
    requires channel.client in m.w.tabs && Attached(m.w.tabs[channel.client].t, channel)
    requires !PostsUp(e, channel, i) && !PostsDown(e, channel, i)
    requires (a == lead ==> BridgeKept(n.w.tabs[lead].t, e, channel)) && (a == channel.client ==> !attaches)
    requires UpComing(left.ups, lead, channel, i) <==> UpComing(n.ups, lead, channel, i)
    requires DownComing(left.downs, channel, i) <==> DownComing(n.downs, channel, i)
    ensures lead in m.w.tabs
    ensures OnItsWay(m, lead, channel.leader, channel.client, i)
       <==> OnItsWay(n, lead, channel.leader, channel.client, i)
  {
    assert SameBridge(n.w.tabs[lead].t, m.w.tabs[lead].t, channel.client);
    LettersAt(n, left, m, a, e, attaches, lead, channel, i);
  }

  lemma ElsewhereExact(n: Net, step: Step, at: nat, lead: TabId, leader: LeaderId, id: TabId, i: nat)
    requires Inv(n.w) && NetOk(n) && CanStep(n, step, at) && !Touches(step, lead, leader, id)
    requires Acknowledged(n.w, lead, leader, id) && Waits(n.w, id, i)
    requires Acknowledged(Next(n.w, step), lead, leader, id) && Waits(Next(n.w, step), id, i)
    ensures OnItsWay(Stepped(n, step, at), lead, leader, id, i) <==> OnItsWay(n, lead, leader, id, i)
  {
    var left := Consumed(n, step, at);
    ConsumesOthers(n, step, at, lead, leader, id, i);
    if Posts(step) {
      ElsewhereLeavesAlone(n.w, step, lead, leader, id, i);
      StepNetPosts(n, step, at);
      ConsumedFewer(n, step, at);
      var a, e := Poster(n.w, step), Posted(n.w, step);
      AloneExact(n, left, Stepped(n, step, at), a, e, Attaches(n.w, step), lead, Channel(leader, id), i);
    } else {
      SilentSteps(n.w, step);
    }
  }

  /** The leader acted on the pairing: what the rest of the net must look like for that. */
  ghost predicate Handled(n: Net, left: Net, m: Net, lead: TabId, e: Effect, channel: Channel) {
    && LettersOk(n) && NetPosts(n, left, m, lead, e, false) && left.ups <= n.ups && left.downs == n.downs
    && lead in n.w.tabs && channel.client in m.w.tabs && Attached(m.w.tabs[channel.client].t, channel)
  }

  lemma StepHandled(n: Net, step: Step, at: nat, lead: TabId, leader: LeaderId, id: TabId)
    requires NetOk(n) && CanStep(n, step, at) && Touches(step, lead, leader, id)
    requires Acknowledged(Next(n.w, step), lead, leader, id)
    ensures Acts(step) && Actor(n.w, step) == lead
    ensures Handled(n, Consumed(n, step, at), Stepped(n, step, at), lead, StepEffect(n.w, step), Channel(leader, id))
  {
    StepNetPosts(n, step, at);
  }

  /** A replaced bridge has forgotten everything, and its letters are lost. */
  lemma ReplacedExact(n: Net, left: Net, m: Net, lead: TabId, e: Effect, channel: Channel, i: nat)
    requires Handled(n, left, m, lead, e, channel)
    requires HasBridge(e.t, channel) && e.t.bridges[channel.client].idMap == map[]
    requires channel in e.bridged && e.up == {} && e.down == {}
    ensures OnItsWay(m, lead, channel.leader, channel.client, i) <==> DownComing(n.downs, channel, i)
  {
    LettersAt(n, left, m, lead, e, false, lead, channel, i);
  }

  lemma NoBridgeNoUps(n: Net, lead: TabId, channel: Channel, i: nat)
    requires LettersOk(n) && lead in n.w.tabs && !HasBridge(n.w.tabs[lead].t, channel)
    ensures !UpComing(n.ups, lead, channel, i)
  {
    forall l | l in n.ups && l.to == lead ensures l.msg.channel != channel { assert UpLetterOk(n, l); }
  }

  /** A bridge that answers a close is gone, and its letters are lost. */
  lemma DisposedExact(n: Net, left: Net, m: Net, lead: TabId, e: Effect, channel: Channel, i: nat, closing: nat)
    requires Handled(n, left, m, lead, e, channel) && left.disc <= n.disc
    requires channel.client !in e.t.bridges && e.down == {Down(channel, closing, CloseAck)}
    ensures OnItsWay(m, lead, channel.leader, channel.client, i) <==> DownComing(n.downs, channel, i) || closing == i
  {
    LettersAfter(n, left, m, lead, e, false);
    NoBridgeNoUps(m, lead, channel, i);
    DownsAfter(left.downs, n.time, m.w, lead, e, false, channel, i);
    assert closing == i ==> PostsDown(e, channel, i) by { assert Down(channel, closing, CloseAck) in e.down; }
  }

  ghost predicate MapsAlso(t: Transport, u: Transport, client: TabId, i: nat, also: bool) {
    BridgeMaps(u, client, i) <==> BridgeMaps(t, client, i) || also
  }

  lemma ForwardMaps(t: Transport, channel: Channel, id: nat, body: Body, i: nat)
    requires HasBridge(t, channel) && BridgesOk(t) && body.kind != CloseConnection
    ensures MapsAlso(t, OnClientMessage(t, channel.client, id, body).t, channel.client, i, id == i)
  {
    var e, env := OnClientMessage(t, channel.client, id, body), t.nextEnvelope;
    assert env in e.t.bridges[channel.client].idMap && e.t.bridges[channel.client].idMap[env] == id;
    if BridgeMaps(t, channel.client, i) {
      var k :| k in t.bridges[channel.client].idMap && t.bridges[channel.client].idMap[k] == i;
      assert e.t.bridges[channel.client].idMap[k] == i;
    }
  }

  lemma OneLetterLess(ups: set<Letter<Up>>, gone: Letter<Up>, lead: TabId, channel: Channel, i: nat)
    requires gone in ups && gone.to == lead && gone.msg.channel == channel
    ensures UpComing(ups, lead, channel, i) <==> UpComing(ups - {gone}, lead, channel, i) || gone.msg.id == i
  {
    if UpComing(ups, lead, channel, i) && gone.msg.id != i {
      var l :| l in ups && l.to == lead && l.msg.channel == channel && l.msg.id == i;
      assert l in ups - {gone};
    }
  }

  /** A consumed request becomes a mapping. */
  lemma ForwardedExact(n: Net, left: Net, m: Net, lead: TabId, e: Effect, channel: Channel, i: nat, gone: Letter<Up>)
    requires Handled(n, left, m, lead, e, channel) && gone in n.ups && left.ups == n.ups - {gone}
    requires gone.to == lead && gone.msg.channel == channel && HasBridge(e.t, channel)
    requires e.bridged == {} && e.up == {} && e.down == {}
    requires MapsAlso(n.w.tabs[lead].t, e.t, channel.client, i, gone.msg.id == i)
    ensures OnItsWay(m, lead, channel.leader, channel.client, i)
       <==> OnItsWay(n, lead, channel.leader, channel.client, i)
  {
    LettersAt(n, left, m, lead, e, false, lead, channel, i);
    OneLetterLess(n.ups, gone, lead, channel, i);
  }

  lemma ReplyMoves(t: Transport, client: TabId, env: nat, answer: Answer, i: nat)
    requires client in t.bridges
    ensures var e, channel := OnWriterMessage(t, client, env, answer), t.bridges[client].channel;
      && (BridgeMaps(e.t, client, i) ==> BridgeMaps(t, client, i))
      && (PostsDown(e, channel, i) ==> BridgeMaps(t, client, i))
      && (BridgeMaps(t, client, i) ==> BridgeMaps(e.t, client, i) || PostsDown(e, channel, i))
  {
    var e, b := OnWriterMessage(t, client, env, answer), t.bridges[client];
    if env in b.idMap { assert Down(b.channel, b.idMap[env], FromWriter(answer)) in e.down; }
    if BridgeMaps(t, client, i) {
      var k :| k in b.idMap && b.idMap[k] == i;
      if k != env { assert k in e.t.bridges[client].idMap && e.t.bridges[client].idMap[k] == i; }
    }
  }

  /** A dispatched answer becomes a letter to the client. */
  lemma RepliedExact(n: Net, left: Net, m: Net, lead: TabId, e: Effect, channel: Channel, i: nat)
    requires Handled(n, left, m, lead, e, channel) && left.ups == n.ups && HasBridge(e.t, channel)
    requires e.bridged == {} && e.up == {}
    requires BridgeMaps(n.w.tabs[lead].t, channel.client, i)
       <==> BridgeMaps(e.t, channel.client, i) || PostsDown(e, channel, i)
    ensures OnItsWay(m, lead, channel.leader, channel.client, i)
       <==> OnItsWay(n, lead, channel.leader, channel.client, i)
  {
    LettersAt(n, left, m, lead, e, false, lead, channel, i);
  }

  ghost predicate LosesOnly(n: Net, m: Net, step: Step, lead: TabId, leader: LeaderId, id: TabId, i: nat) {
    lead in n.w.tabs && lead in m.w.tabs &&
    (OnItsWay(m, lead, leader, id, i) <==> OnItsWay(n, lead, leader, id, i) && !Strands(n, step, lead, leader, id, i))
  }

  lemma RepairExact(n: Net, m: Net, step: Step, at: nat, lead: TabId, leader: LeaderId, id: TabId, i: nat)
    requires MessagesOk(n.w) && Enabled(n.w, step) && Repairs(step, lead, leader, id) && Leading(n.w, lead, leader)
    requires Handled(n, Consumed(n, step, at), m, lead, OnDiscovery(n.w.tabs[lead].t, step.sent.msg),
      Channel(leader, id))
    ensures LosesOnly(n, m, step, lead, leader, id, i)
  {
    assert DiscOk(n.w, step.sent);
    ReplacedExact(n, Consumed(n, step, at), m, lead, OnDiscovery(n.w.tabs[lead].t, step.sent.msg), Channel(leader, id),
      i);
  }

  lemma ReplyExact(n: Net, m: Net, left: Net, lead: TabId, leader: LeaderId, id: TabId, r: Request, answer: Answer,
      i: nat)
    requires Leading(n.w, lead, leader) && LeadershipOk(n.w.tabs[lead].t) && id in n.w.tabs[lead].t.bridges
    requires left.ups == n.ups
    requires Handled(n, left, m, lead, OnWriterMessage(n.w.tabs[lead].t, id, r.env, answer), Channel(leader, id))
    ensures OnItsWay(m, lead, leader, id, i) <==> OnItsWay(n, lead, leader, id, i)
  {
    var t := n.w.tabs[lead].t;
    ReplyMoves(t, id, r.env, answer, i);
    RepliedExact(n, left, m, lead, OnWriterMessage(t, id, r.env, answer), Channel(leader, id), i);
  }

  lemma CarryExact(n: Net, m: Net, at: nat, lead: TabId, leader: LeaderId, up: Up, i: nat)
    requires Leading(n.w, lead, leader) && TransportOk(n.w.tabs[lead].t) && Letter(at, lead, up) in n.ups
    requires up.channel.leader == leader && HasBridge(n.w.tabs[lead].t, up.channel)
    requires Handled(n, n.(ups := n.ups - {Letter(at, lead, up)}), m, lead,
      OnClientMessage(n.w.tabs[lead].t, up.channel.client, up.id, up.body), up.channel)
    ensures LosesOnly(n, m, ClientEnvelope(lead, up), lead, leader, up.channel.client, i)
  {
    var t, gone := n.w.tabs[lead].t, Letter(at, lead, up);
    var e, left := OnClientMessage(t, up.channel.client, up.id, up.body), n.(ups := n.ups - {gone});
    OneLetterLess(n.ups, gone, lead, up.channel, i);
    if up.body.kind == CloseConnection {
      DisposedExact(n, left, m, lead, e, up.channel, i, up.id);
    } else {
      ForwardMaps(t, up.channel, up.id, up.body, i);
      ForwardedExact(n, left, m, lead, e, up.channel, i, gone);
    }
  }

  /** The touching steps, one by one. */
  lemma TouchedExact(n: Net, step: Step, at: nat, lead: TabId, leader: LeaderId, id: TabId, i: nat)
    requires Inv(n.w) && NetOk(n) && CanStep(n, step, at) && Touches(step, lead, leader, id)
    requires Leading(n.w, lead, leader)
    requires Acknowledged(Next(n.w, step), lead, leader, id)
    ensures LosesOnly(n, Stepped(n, step, at), step, lead, leader, id, i)
  {
    var left, m := Consumed(n, step, at), Stepped(n, step, at);
    StepHandled(n, step, at, lead, leader, id);
    assert TabOk(n.w, lead);
    match step
    case Discover(_, sent) => RepairExact(n, m, step, at, lead, leader, id, i);
    case WriterReply(_, _, r) => ReplyExact(n, m, left, lead, leader, id, r, n.w.answers[r], i);
    case ClientEnvelope(_, up) => CarryExact(n, m, at, lead, leader, up, i);
  }

  /** While a tab stays acknowledged by a live leader and waits for a request, the request stays on
      its way in every step except the two that strand it, and nothing brings a stranded one back. */
  lemma OnItsWayExactly(n: Net, step: Step, at: nat, lead: TabId, leader: LeaderId, id: TabId, i: nat)
    requires Inv(n.w) && NetOk(n) && CanStep(n, step, at)
    requires Acknowledged(n.w, lead, leader, id) && Waits(n.w, id, i)
    requires Acknowledged(Next(n.w, step), lead, leader, id) && Waits(Next(n.w, step), id, i)
    ensures OnItsWay(Stepped(n, step, at), lead, leader, id, i)
       <==> OnItsWay(n, lead, leader, id, i) && !Strands(n, step, lead, leader, id, i)
  {
    if Touches(step, lead, leader, id) {
      TouchedExact(n, step, at, lead, leader, id, i);
    } else {
      ElsewhereExact(n, step, at, lead, leader, id, i);
    }
  }
}
