/**
 The protocol over channels as browsers deliver them. A post reaches exactly the channel objects
 subscribed to that name when it is made, each of them once, later and in any order; closing or
 replacing a channel object loses what it had not delivered yet.

 A `Net` is a protocol world with the letters still on their way. Every step of it is a step of
 `Protocol`, whose network allows more, so everything proved there holds here; what can and cannot
 still happen to a request is stated here.
 */
module Delivery {
  import opened Common
  import opened Wire
  import opened Transport
  import opened Protocol
  import opened ProtocolTheorems

  /** One undelivered copy of a message, posted in step `at`. */
  datatype Letter<T> = Letter(at: nat, to: TabId, msg: T)

  /** `ups` wait at a bridge of tab `to`, `downs` at the pair channel of tab `to`; `replies` are
      answers whose message event has not been dispatched to the leader's bridges. */
  datatype Net = Net(
    w: World,
    time: nat,
    disc: set<Letter<Sent>>,
    ups: set<Letter<Up>>,
    downs: set<Letter<Down>>,
    replies: set<Request>)

  const EMPTY := Net(INIT, 0, {}, {}, {}, {})

  // ----- what a step posts, and to whom

  ghost predicate Posts(step: Step) {
    Acts(step) || step.Start?
  }

  ghost function Poster(w: World, step: Step): TabId
    requires Posts(step) && Enabled(w, step)
  {
    if step.Start? then step.id else Actor(w, step)
  }

  ghost function Posted(w: World, step: Step): Effect
    requires Posts(step) && Enabled(w, step)
  {
    if step.Start? then Create(step.id) else StepEffect(w, step)
  }

  /** A bridge of this transport subscribes to the channel. */
  predicate HasBridge(t: Transport, channel: Channel) {
    channel.client in t.bridges && t.bridges[channel.client].channel == channel
  }

  predicate Attached(t: Transport, channel: Channel) {
    t.pairChannel == Some(channel)
  }

  /** `attachPair` replaces the client's channel object, even by one of the same name. */
  ghost predicate Attaches(w: World, step: Step)
    requires Enabled(w, step)
  {
    || step.Grant?
    || (step.Discover? && step.sent.msg.LeaderElected? && StepEffect(w, step).disc != {})
  }

  ghost function NewDisc(at: nat, v: World, from: TabId, e: Effect): set<Letter<Sent>> {
    set k, m | k in v.tabs.Keys && m in e.disc && k != from && Listening(v.tabs[k].t) :: Letter(at, k, Sent(from, m))
  }

  ghost function NewUps(at: nat, v: World, e: Effect): set<Letter<Up>> {
    set k, u | k in v.tabs.Keys && u in e.up && HasBridge(v.tabs[k].t, u.channel) :: Letter(at, k, u)
  }

  ghost function NewDowns(at: nat, v: World, e: Effect): set<Letter<Down>> {
    set d | d in e.down && d.channel.client in v.tabs && Attached(v.tabs[d.channel.client].t, d.channel) ::
      Letter(at, d.channel.client, d)
  }

  /** Letters that survive what tab `a` did to its bridges and to its pair channel. */
  ghost function KeptUps(ups: set<Letter<Up>>, a: TabId, e: Effect): set<Letter<Up>> {
    set l | l in ups && (l.to == a ==> HasBridge(e.t, l.msg.channel) && l.msg.channel !in e.bridged)
  }

  ghost function KeptDowns(downs: set<Letter<Down>>, a: TabId, e: Effect, attaches: bool): set<Letter<Down>> {
    set l | l in downs && (l.to == a ==> Attached(e.t, l.msg.channel) && !attaches)
  }

  // ----- steps

  /** The letter a step consumes is on its way. A writer's message event reaches every bridge at
      once; the one that maps its id, if there is one, is the one named. */
  ghost predicate Deliverable(n: Net, step: Step, at: nat)
    requires Enabled(n.w, step)
  {
    match step
    case Discover(id, sent) => Letter(at, id, sent) in n.disc
    case ClientEnvelope(id, up) => Letter(at, id, up) in n.ups
    case PairEnvelope(id, down) => Letter(at, id, down) in n.downs
    case WriterReply(id, client, r) =>
      && r in n.replies
      && (r.env !in n.w.tabs[id].t.bridges[client].idMap ==> NoBridgeMaps(n.w.tabs[id].t, r.env))
    case _ => true
  }

  predicate NoBridgeMaps(t: Transport, env: nat) {
    forall c :: c in t.bridges ==> env !in t.bridges[c].idMap
  }

  ghost predicate CanStep(n: Net, step: Step, at: nat) {
    Enabled(n.w, step) && Deliverable(n, step, at)
  }

  ghost function Consumed(n: Net, step: Step, at: nat): Net {
    match step
    case Discover(id, sent) => n.(disc := n.disc - {Letter(at, id, sent)})
    case ClientEnvelope(id, up) => n.(ups := n.ups - {Letter(at, id, up)})
    case PairEnvelope(id, down) => n.(downs := n.downs - {Letter(at, id, down)})
    case WriterReply(_, _, r) => n.(replies := n.replies - {r})
    case WriterAnswers(r, _) => n.(replies := n.replies + {r})
    case _ => n
  }

  ghost function Stepped(n: Net, step: Step, at: nat): Net
    requires CanStep(n, step, at)
  {
    var v, left := Next(n.w, step), Consumed(n, step, at);
    if !Posts(step) then left.(w := v, time := n.time + 1)
    else
      var a, e := Poster(n.w, step), Posted(n.w, step);
      Net(v, n.time + 1,
          left.disc + NewDisc(n.time, v, a, e),
          KeptUps(left.ups, a, e) + NewUps(n.time, v, e),
          KeptDowns(left.downs, a, e, Attaches(n.w, step)) + NewDowns(n.time, v, e),
          left.replies)
  }

  ghost predicate StepsTo(n: Net, m: Net) {
    exists step: Step, at: nat :: CanStep(n, step, at) && m == Stepped(n, step, at)
  }

  /** A run from nothing. */
  ghost predicate NetRun(nets: seq<Net>) {
    && nets != [] && nets[0] == EMPTY
    && forall i :: 0 < i < |nets| ==> StepsTo(nets[i - 1], nets[i])
  }

  ghost function Worlds(nets: seq<Net>): (r: seq<World>)
    ensures |r| == |nets| && forall i :: 0 <= i < |nets| ==> r[i] == nets[i].w
  {
    seq(|nets|, i requires 0 <= i < |nets| => nets[i].w)
  }

  lemma StepLeads(n: Net, m: Net)
    requires StepsTo(n, m)
    ensures Leads(n.w, m.w)
  {
    var step: Step, at: nat :| CanStep(n, step, at) && m == Stepped(n, step, at);
  }

  /** Every run over real channels is a run of the protocol: all its safety theorems apply. */
  lemma RunsRefine(nets: seq<Net>)
    requires NetRun(nets)
    ensures Run(Worlds(nets))
  {
    var worlds := Worlds(nets);
    forall i | 0 < i < |worlds| ensures Leads(worlds[i - 1], worlds[i]) {
      StepLeads(nets[i - 1], nets[i]);
    }
  }
}
