/**
 Any number of tabs running the leader transport against one Web Lock, a shared discovery
 channel, per-pair channels and the writers that leaders start.

 The network is a set of everything ever posted: a message may be delivered late, out of
 order, repeatedly or never. Each event handler is one atomic step. Some fields only record
 the past (`asked`, `answers`, `bridged`, `live`, `owner`, `forwards`, `crashes`, `rejected`).
 */
module Protocol {
  import opened Common
  import opened Wire
  import opened Transport
  import WorkerClient

  datatype Tab = Tab(t: Transport, c: WorkerClient.Client)

  /** A discovery message with its sender, which never hears it. */
  datatype Sent = Sent(from: TabId, msg: Discovery)

  /** One request as the writer of one tenure knows it. */
  datatype Request = Request(leader: LeaderId, env: nat)

  /** Who asked it, under which of its own ids, and what. */
  datatype Asked = Asked(client: TabId, id: nat, body: Body)

  datatype World = World(
    tabs: map<TabId, Tab>,
    holder: Option<TabId>,          // of the `opfs-db-writer` lock
    queue: seq<TabId>,              // lock requests in arrival order
    disc: set<Sent>,
    up: set<Up>,
    down: set<Down>,
    asked: map<Request, Asked>,     // requests posted to writers
    answers: map<Request, Answer>,  // what writers answered, once each
    bridged: set<Channel>,          // channels a leader has subscribed to
    live: set<Up>,                  // envelopes posted after that subscription
    owner: map<LeaderId, TabId>,    // who minted each leader id
    forwards: seq<Request>,         // writer replies passed on by a bridge
    crashes: map<TabId, seq<int>>,  // times of the writer failures each tab handled
    rejected: set<TabId>)           // tabs whose lock request the platform refused

  const INIT := World(map[], None, [], {}, {}, {}, map[], map[], {}, {}, map[], [], map[], {})

  datatype Step =
    | Start(id: TabId)
    | Discover(id: TabId, sent: Sent)
    | Retry(id: TabId)
    | Grant(newId: LeaderId)
    | LockReleased
    | LockAborted(id: TabId)
    | LockRejected(id: TabId)
    | WriterError(id: TabId, leader: LeaderId, now: int)
    | ClientEnvelope(id: TabId, up: Up)
    | WriterAnswers(request: Request, answer: Answer)
    | WriterReply(id: TabId, client: TabId, request: Request)
    | PairEnvelope(id: TabId, down: Down)
    | Send(id: TabId, body: Body)
    | Microtask(id: TabId)
    | Terminate(id: TabId)
    | CloseTransport(id: TabId)

  function Extend(m: map<Request, Asked>, leader: Option<LeaderId>, ask: Option<Ask>): map<Request, Asked> {
    if ask.None? || leader.None? then m
    else m[Request(leader.value, ask.value.env) := Asked(ask.value.client, ask.value.id, ask.value.body)]
  }

  function Forwarded(leader: Option<LeaderId>, env: Option<nat>): seq<Request> {
    if leader.None? || env.None? then [] else [Request(leader.value, env.value)]
  }

  /** Tab `id` performed `e`, its page client being `c` when the events were dispatched. */
  function Commit(w: World, id: TabId, e: Effect, c: WorkerClient.Client): World {
    var bridged := w.bridged + e.bridged;
    w.(tabs := w.tabs[id := Tab(e.t, WorkerClient.HearAll(c, e.events))],
       disc := w.disc + (set m | m in e.disc :: Sent(id, m)),
       up := w.up + e.up,
       down := w.down + e.down,
       asked := Extend(w.asked, e.t.leaderId, e.ask),
       forwards := w.forwards + Forwarded(e.t.leaderId, e.forwarded),
       bridged := bridged,
       live := w.live + (set u | u in e.up && u.channel in bridged),
       queue := if e.requestsLock then w.queue + [id] else w.queue)
  }

  /** The handler ran; the client only heard its events. */
  function Act(w: World, id: TabId, e: Effect): World
    requires id in w.tabs
  {
    Commit(w, id, e, w.tabs[id].c)
  }

  function Without(queue: seq<TabId>, id: TabId): (r: seq<TabId>)
    ensures |r| <= |queue|
  {
    if queue == [] then [] else if queue[0] == id then queue[1..] else [queue[0]] + Without(queue[1..], id)
  }

  /** A discovery listener is removed by `close` and by the terminal failure. */
  predicate Listening(t: Transport) {
    !t.closed && !t.failed
  }

  predicate Handles(t: Transport, leader: LeaderId) {
    !t.closed && t.leaderId == Some(leader)
  }

  predicate Enabled(w: World, step: Step) {
    match step
    case Start(id) => id !in w.tabs
    case Discover(id, sent) => id in w.tabs && sent in w.disc && sent.from != id && Listening(w.tabs[id].t)
    case Retry(id) => id in w.tabs
    case Grant(newId) => w.holder.None? && w.queue != [] && w.queue[0] in w.tabs && newId !in w.owner
    case LockReleased => w.holder.Some? && w.holder.value in w.tabs && !w.tabs[w.holder.value].t.holdsLock
    case LockAborted(id) => id in w.tabs && id in w.queue && w.tabs[id].t.closed
    case LockRejected(id) => id in w.tabs && id in w.queue
    case WriterError(id, leader, now) =>
      id in w.tabs && id in w.crashes && (w.crashes[id] != [] ==> w.crashes[id][|w.crashes[id]| - 1] <= now)
    case ClientEnvelope(id, up) =>
      && id in w.tabs && up in w.up && up.channel.client in w.tabs[id].t.bridges
      && w.tabs[id].t.bridges[up.channel.client].channel == up.channel
    // The worker-side handlers answer every request with a response of its kind, or an error.
    case WriterAnswers(request, answer) =>
      && request in w.asked && request !in w.answers
      && (answer.Response? ==> answer.kind == w.asked[request].body.kind)
    case WriterReply(id, client, request) =>
      && id in w.tabs && w.tabs[id].t.writer == Some(request.leader)
      && client in w.tabs[id].t.bridges && request in w.answers
    case PairEnvelope(id, down) => id in w.tabs && down in w.down && w.tabs[id].t.pairChannel == Some(down.channel)
    case Send(id, body) => id in w.tabs
    case Microtask(id) => id in w.tabs
    case Terminate(id) => id in w.tabs
    case CloseTransport(id) => id in w.tabs
  }

  const CLOSE_BODY := Body(CloseConnection, 0)

  /** `terminate` of the page client: a last `close` envelope, then the transport closes. */
  function TerminateEffect(tab: Tab): Effect {
    var posted := PostMessage(tab.t, tab.c.nextId, CLOSE_BODY);
    Close(posted.t).(up := posted.up)
  }

  function Terminated(c: WorkerClient.Client): WorkerClient.Client {
    WorkerClient.RejectAll(WorkerClient.TakeId(c, CLOSE_BODY).(attached := false), WorkerClient.ByTerminate)
  }

  function Next(w: World, step: Step): World
    requires Enabled(w, step)
  {
    match step
    case Start(id) =>
      Commit(w.(crashes := w.crashes[id := []]), id, Create(id), WorkerClient.FRESH)
    case Discover(id, sent) => Act(w, id, OnDiscovery(w.tabs[id].t, sent.msg))
    case Retry(id) => Act(w, id, RetryTimer(w.tabs[id].t))
    case Grant(newId) => Act(Granted(w, newId), w.queue[0], OnLockGranted(w.tabs[w.queue[0]].t, newId))
    case LockReleased => w.(holder := None)
    case LockAborted(id) => w.(queue := Without(w.queue, id))
    case LockRejected(id) => Act(Refused(w, id), id, OnLockRejected(w.tabs[id].t))
    case WriterError(id, leader, now) =>
      Act(Crashed(w, id, leader, now), id, HandleWriterFailure(w.tabs[id].t, leader, now))
    case ClientEnvelope(id, up) => Act(w, id, OnClientMessage(w.tabs[id].t, up.channel.client, up.id, up.body))
    case WriterAnswers(request, answer) => w.(answers := w.answers[request := answer])
    case WriterReply(id, client, request) =>
      Act(w, id, OnWriterMessage(w.tabs[id].t, client, request.env, w.answers[request]))
    case PairEnvelope(id, down) => Act(w, id, OnPairMessage(w.tabs[id].t, down.id, down.reply))
    case Send(id, body) =>
      Commit(w, id, PostMessage(w.tabs[id].t, w.tabs[id].c.nextId, body), WorkerClient.Register(w.tabs[id].c, body))
    case Microtask(id) => Act(w, id, RunMicrotask(w.tabs[id].t))
    case Terminate(id) => Commit(w, id, TerminateEffect(w.tabs[id]), Terminated(w.tabs[id].c))
    case CloseTransport(id) => Act(w, id, Close(w.tabs[id].t))
  }

  /** The lock passed to the head of the queue, which mints a leader id unless it is closed. */
  function Granted(w: World, newId: LeaderId): World
    requires Enabled(w, Grant(newId))
  {
    var id := w.queue[0];
    w.(holder := Some(id), queue := w.queue[1..],
       owner := if w.tabs[id].t.closed then w.owner else w.owner[newId := id])
  }

  function Refused(w: World, id: TabId): World {
    w.(queue := Without(w.queue, id), rejected := w.rejected + {id})
  }

  function Crashed(w: World, id: TabId, leader: LeaderId, now: int): World
    requires Enabled(w, WriterError(id, leader, now))
  {
    if Handles(w.tabs[id].t, leader) then w.(crashes := w.crashes[id := w.crashes[id] + [now]]) else w
  }

  ghost predicate Leads(w: World, v: World) {
    exists step: Step :: Enabled(w, step) && v == Next(w, step)
  }

  /** A run from the empty world. */
  ghost predicate Run(worlds: seq<World>) {
    && worlds != [] && worlds[0] == INIT
    && forall i :: 0 < i < |worlds| ==> Leads(worlds[i - 1], worlds[i])
  }
}
