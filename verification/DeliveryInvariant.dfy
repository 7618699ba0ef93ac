/** Letters on their way were posted, and to a channel object that is still subscribed. */
module DeliveryInvariant {
  import opened Common
  import opened Wire
  import opened Transport
  import opened TransportInvariant
  import opened Protocol
  import opened ProtocolInvariant
  import opened ProtocolSteps
  import opened ProtocolInduction
  import opened ProtocolTheorems
  import opened Delivery
  import WorkerClient

  ghost predicate DiscLetterOk(n: Net, l: Letter<Sent>) {
    l.at < n.time && l.msg in n.w.disc && l.msg.from != l.to && l.to in n.w.tabs
  }

  ghost predicate UpLetterOk(n: Net, l: Letter<Up>) {
    l.at < n.time && l.msg in n.w.up && l.to in n.w.tabs && HasBridge(n.w.tabs[l.to].t, l.msg.channel)
  }

  ghost predicate DownLetterOk(n: Net, l: Letter<Down>) {
    l.at < n.time && l.msg in n.w.down && l.to in n.w.tabs && Attached(n.w.tabs[l.to].t, l.msg.channel)
  }

  /** An answer to a request some bridge still maps has not been dispatched yet. */
  ghost predicate RepliesOk(n: Net, id: TabId)
    requires id in n.w.tabs
  {
    var t := n.w.tabs[id].t;
    forall c, e :: c in t.bridges && e in t.bridges[c].idMap ==> DispatchDue(n, t.leaderId, e)
  }

  ghost predicate DispatchDue(n: Net, leader: Option<LeaderId>, env: nat) {
    leader.Some? && Request(leader.value, env) in n.w.answers ==> Request(leader.value, env) in n.replies
  }

  ghost predicate LettersOk(n: Net) {
    && (forall l :: l in n.disc ==> DiscLetterOk(n, l))
    && (forall l :: l in n.ups ==> UpLetterOk(n, l))
    && (forall l :: l in n.downs ==> DownLetterOk(n, l))
  }

  ghost predicate NetOk(n: Net) {
    LettersOk(n) && forall id :: id in n.w.tabs ==> RepliesOk(n, id)
  }

  // ----- what a step does to the world, in terms of what it posts

  ghost predicate WorldPosts(w: World, v: World, a: TabId, e: Effect) {
    && v.disc == w.disc + (set m | m in e.disc :: Sent(a, m))
    && v.up == w.up + e.up && v.down == w.down + e.down && v.answers == w.answers
    && a in v.tabs && v.tabs[a].t == e.t
    && (forall k :: k in w.tabs ==> k in v.tabs)
    && (forall k :: k in w.tabs && k != a ==> v.tabs[k] == w.tabs[k])
    && (forall k :: k in v.tabs && k != a ==> k in w.tabs)
  }

  lemma CommitPosts(w: World, id: TabId, e: Effect, c: WorkerClient.Client)
    ensures WorldPosts(w, Commit(w, id, e, c), id, e)
  {
  }

  lemma StepPosts(w: World, step: Step)
    requires Enabled(w, step) && Posts(step)
    ensures WorldPosts(w, Next(w, step), Poster(w, step), Posted(w, step))
  {
    if step.Start? {
      CommitPosts(w.(crashes := w.crashes[step.id := []]), step.id, Create(step.id), WorkerClient.FRESH);
    } else if PlainKind(step) {
      PlainNext(w, step);
      CommitPosts(w, step.id, PlainEffect(w, step), PlainClient(w, step));
    } else {
      OtherPosts(w, step);
    }
  }

  lemma OtherPosts(w: World, step: Step)
    requires Enabled(w, step) && Acts(step) && !PlainKind(step)
    ensures WorldPosts(w, Next(w, step), Actor(w, step), StepEffect(w, step))
  {
    match step
    case Grant(newId) =>
      var u, id := Granted(w, newId), w.queue[0];
      CommitPosts(u, id, OnLockGranted(u.tabs[id].t, newId), u.tabs[id].c);
    case LockRejected(id) =>
      CommitPosts(Refused(w, id), id, OnLockRejected(w.tabs[id].t), w.tabs[id].c);
    case WriterError(id, leader, now) =>
      CommitPosts(Crashed(w, id, leader, now), id, HandleWriterFailure(w.tabs[id].t, leader, now), w.tabs[id].c);
    case ClientEnvelope(id, up) =>
      CommitPosts(w, id, OnClientMessage(w.tabs[id].t, up.channel.client, up.id, up.body), w.tabs[id].c);
    case WriterReply(id, client, r) =>
      CommitPosts(w, id, OnWriterMessage(w.tabs[id].t, client, r.env, w.answers[r]), w.tabs[id].c);
  }

  lemma SilentSteps(w: World, step: Step)
    requires Enabled(w, step) && !Posts(step)
    ensures var v := Next(w, step); v.tabs == w.tabs && v.disc == w.disc && v.up == w.up && v.down == w.down
  {
  }

  // ----- letters

  lemma LettersKeptSilent(n: Net, step: Step, at: nat)
    requires LettersOk(n) && CanStep(n, step, at) && !Posts(step)
    ensures LettersOk(Stepped(n, step, at))
  {
    SilentSteps(n.w, step);
    var m := Stepped(n, step, at);
    forall l | l in m.disc ensures DiscLetterOk(m, l) { assert DiscLetterOk(n, l); }
    forall l | l in m.ups ensures UpLetterOk(m, l) { assert UpLetterOk(n, l); }
    forall l | l in m.downs ensures DownLetterOk(m, l) { assert DownLetterOk(n, l); }
  }

  lemma ConsumedFewer(n: Net, step: Step, at: nat)
    ensures var left := Consumed(n, step, at); left.disc <= n.disc && left.ups <= n.ups && left.downs <= n.downs
  {
  }

  /** What tab `a` posting `e` makes of the letters `left` over. */
  ghost predicate NetPosts(n: Net, left: Net, m: Net, a: TabId, e: Effect, attaches: bool) {
    && WorldPosts(n.w, m.w, a, e) && m.time == n.time + 1
    && m.disc == left.disc + NewDisc(n.time, m.w, a, e)
    && m.ups == KeptUps(left.ups, a, e) + NewUps(n.time, m.w, e)
    && m.downs == KeptDowns(left.downs, a, e, attaches) + NewDowns(n.time, m.w, e)
    && m.replies == left.replies
  }

  lemma StepNetPosts(n: Net, step: Step, at: nat)
    requires CanStep(n, step, at) && Posts(step)
    ensures NetPosts(n, Consumed(n, step, at), Stepped(n, step, at), Poster(n.w, step), Posted(n.w, step),
      Attaches(n.w, step))
  {
    StepPosts(n.w, step);
  }

  lemma LettersAfter(n: Net, left: Net, m: Net, a: TabId, e: Effect, attaches: bool)
    requires LettersOk(n) && NetPosts(n, left, m, a, e, attaches)
    requires left.disc <= n.disc && left.ups <= n.ups && left.downs <= n.downs
    ensures LettersOk(m)
  {
    forall l | l in m.disc ensures DiscLetterOk(m, l) {
      if l in left.disc { assert DiscLetterOk(n, l); }
    }
    forall l | l in m.ups ensures UpLetterOk(m, l) {
      if l in KeptUps(left.ups, a, e) { assert UpLetterOk(n, l); }
    }
    forall l | l in m.downs ensures DownLetterOk(m, l) {
      if l in KeptDowns(left.downs, a, e, attaches) { assert DownLetterOk(n, l); }
    }
  }

  lemma LettersKept(n: Net, step: Step, at: nat)
    requires LettersOk(n) && CanStep(n, step, at)
    ensures LettersOk(Stepped(n, step, at))
  {
    if Posts(step) {
      StepNetPosts(n, step, at);
      ConsumedFewer(n, step, at);
      LettersAfter(n, Consumed(n, step, at), Stepped(n, step, at), Poster(n.w, step), Posted(n.w, step),
        Attaches(n.w, step));
    } else {
      LettersKeptSilent(n, step, at);
    }
  }

  // ----- answers

  /** No handler invents a mapping, except for the request a bridge forwards. */
  ghost predicate MapsShrink(t: Transport, e: Effect, forwards: bool) {
    forall c, env :: c in e.t.bridges && env in e.t.bridges[c].idMap ==>
      && e.t.leaderId == t.leaderId
      && ((c in t.bridges && env in t.bridges[c].idMap) || (forwards && env == t.nextEnvelope))
  }

  lemma PlainShrinksMaps(w: World, step: Step)
    requires Enabled(w, step) && PlainKind(step) && LeadershipOk(w.tabs[step.id].t)
    ensures MapsShrink(w.tabs[step.id].t, PlainEffect(w, step), false)
  {
  }

  lemma StepShrinksMaps(w: World, step: Step)
    requires Enabled(w, step) && Acts(step) && LeadershipOk(w.tabs[Actor(w, step)].t)
    requires step.Grant? ==> !w.tabs[Actor(w, step)].t.holdsLock
    ensures MapsShrink(w.tabs[Actor(w, step)].t, StepEffect(w, step), step.ClientEnvelope?)
  {
    if PlainKind(step) { PlainShrinksMaps(w, step); } else { OtherShrinksMaps(w, step); }
  }

  lemma OtherShrinksMaps(w: World, step: Step)
    requires Enabled(w, step) && Acts(step) && !PlainKind(step) && LeadershipOk(w.tabs[Actor(w, step)].t)
    requires step.Grant? ==> !w.tabs[Actor(w, step)].t.holdsLock
    ensures MapsShrink(w.tabs[Actor(w, step)].t, StepEffect(w, step), step.ClientEnvelope?)
  {
  }

  lemma DispatchKept(n: Net, step: Step, at: nat, leader: Option<LeaderId>, env: nat)
    requires CanStep(n, step, at) && DispatchDue(n, leader, env)
    requires step.WriterReply? ==> leader != Some(step.request.leader) || env != step.request.env
    ensures DispatchDue(Stepped(n, step, at), leader, env)
  {
    if Posts(step) { StepPosts(n.w, step); }
  }

  /** Leader ids have one owner. */
  lemma OwnLeaderIds(w: World, a: TabId, b: TabId)
    requires LocksOk(w) && a in w.tabs && b in w.tabs && a != b && w.tabs[a].t.leaderId.Some?
    ensures w.tabs[a].t.leaderId != w.tabs[b].t.leaderId
  {
    assert LockOk(w, a) && LockOk(w, b);
  }

  lemma RepliesKeptElsewhere(n: Net, step: Step, at: nat, k: TabId)
    requires Inv(n.w) && CanStep(n, step, at) && k in n.w.tabs && RepliesOk(n, k)
    requires k in Stepped(n, step, at).w.tabs && Stepped(n, step, at).w.tabs[k] == n.w.tabs[k]
    requires step.WriterReply? ==> step.id != k
    ensures RepliesOk(Stepped(n, step, at), k)
  {
    var t := n.w.tabs[k].t;
    if step.WriterReply? {
      assert TabOk(n.w, step.id);
      OwnLeaderIds(n.w, step.id, k);
    }
    forall c, e | c in t.bridges && e in t.bridges[c].idMap ensures DispatchDue(Stepped(n, step, at), t.leaderId, e) {
      assert DispatchDue(n, t.leaderId, e);
      DispatchKept(n, step, at, t.leaderId, e);
    }
  }

  /** A dispatched reply is mapped by nobody afterwards. */
  lemma ReplyUnmaps(t: Transport, client: TabId, env: nat, answer: Answer)
    requires BridgesOk(t) && client in t.bridges && (env !in t.bridges[client].idMap ==> NoBridgeMaps(t, env))
    ensures NoBridgeMaps(OnWriterMessage(t, client, env, answer).t, env)
  {
  }

  lemma RepliesKeptByActor(n: Net, step: Step, at: nat)
    requires Inv(n.w) && CanStep(n, step, at) && Acts(step) && RepliesOk(n, Actor(n.w, step))
    ensures Actor(n.w, step) in Stepped(n, step, at).w.tabs && RepliesOk(Stepped(n, step, at), Actor(n.w, step))
  {
    var k, e := Actor(n.w, step), StepEffect(n.w, step);
    var t := n.w.tabs[k].t;
    assert TabOk(n.w, k) && LockOk(n.w, k);
    NextTabs(n.w, step);
    StepShrinksMaps(n.w, step);
    if step.WriterReply? { ReplyUnmaps(t, step.client, step.request.env, n.w.answers[step.request]); }
    forall c, env | c in e.t.bridges && env in e.t.bridges[c].idMap
      ensures DispatchDue(Stepped(n, step, at), e.t.leaderId, env)
    {
      if c in t.bridges && env in t.bridges[c].idMap {
        assert DispatchDue(n, t.leaderId, env);
      } else {
        FreshUnanswered(n.w, k);
      }
      DispatchKept(n, step, at, t.leaderId, env);
    }
  }

  lemma FreshUnanswered(w: World, id: TabId)
    requires RequestsOk(w) && LocksOk(w) && id in w.tabs
    ensures w.tabs[id].t.leaderId.Some? ==>
      Request(w.tabs[id].t.leaderId.value, w.tabs[id].t.nextEnvelope) !in w.answers
  {
    assert LockOk(w, id);
    if w.tabs[id].t.leaderId.Some? {
      var r := Request(w.tabs[id].t.leaderId.value, w.tabs[id].t.nextEnvelope);
      assert r in w.asked ==> AskedOk(w, r);
    }
  }

  lemma RepliesKept(n: Net, step: Step, at: nat, k: TabId)
    requires Inv(n.w) && NetOk(n) && CanStep(n, step, at) && k in Stepped(n, step, at).w.tabs
    ensures RepliesOk(Stepped(n, step, at), k)
  {
    if Acts(step) && k == Actor(n.w, step) {
      RepliesKeptByActor(n, step, at);
    } else if k in n.w.tabs {
      if Posts(step) { StepPosts(n.w, step); } else { SilentSteps(n.w, step); }
      RepliesKeptElsewhere(n, step, at, k);
    } else {
      NewTabMapsNothing(n, step, at, k);
    }
  }

  lemma NewTabMapsNothing(n: Net, step: Step, at: nat, k: TabId)
    requires CanStep(n, step, at) && k in Stepped(n, step, at).w.tabs && k !in n.w.tabs
    ensures RepliesOk(Stepped(n, step, at), k)
  {
    if Posts(step) { StepPosts(n.w, step); } else { SilentSteps(n.w, step); }
  }

  /** Every step keeps both invariants. */
  lemma StepKeepsNetOk(n: Net, step: Step, at: nat)
    requires Inv(n.w) && NetOk(n) && CanStep(n, step, at)
    ensures Inv(Stepped(n, step, at).w) && NetOk(Stepped(n, step, at))
  {
    NextKeepsInv(n.w, step);
    LettersKept(n, step, at);
    forall k | k in Stepped(n, step, at).w.tabs
      ensures RepliesOk(Stepped(n, step, at), k)
    {
      RepliesKept(n, step, at, k);
    }
  }

  lemma StepsToKeepsNetOk(n: Net, m: Net)
    requires Inv(n.w) && NetOk(n) && StepsTo(n, m)
    ensures Inv(m.w) && NetOk(m)
  {
    var step: Step, at: nat :| CanStep(n, step, at) && m == Stepped(n, step, at);
    StepKeepsNetOk(n, step, at);
  }

  lemma {:induction false} NetRunsOk(nets: seq<Net>, n: nat)
    requires NetRun(nets) && n < |nets|
    ensures Inv(nets[n].w) && NetOk(nets[n])
  {
    if n == 0 {
      InitInv();
    } else {
      NetRunsOk(nets, n - 1);
      StepsToKeepsNetOk(nets[n - 1], nets[n]);
    }
  }
}
