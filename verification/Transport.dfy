/**
 One tab's leader transport as a state machine: every event handler of
 `createLeaderTransport` and `LeaderBridge` (packages/storage/src/leader.ts) as a function
 from the tab's state to its next state and the platform calls it makes.
 `TransportObject` shows that the imperative handlers compute these functions.
 */
module Transport {
  import opened Common
  import opened Wire
  import RestartBudget

  /** A live `LeaderBridge`; a disposed one is dropped from the registry at the same moment. */
  datatype Bridge = Bridge(channel: Channel, idMap: map<nat, nat>)

  datatype Readiness = Waiting | Ready | Rejected

  /** The closure variables of `createLeaderTransport`. `pendingPair` keeps the channel, which
      names the leader; `holdsLock` is `resolveLock !== null`; `localErrors` are the error
      envelopes queued as microtasks by a failed transport. */
  datatype Transport = Transport(
    self: TabId,
    pairChannel: Option<Channel>,
    currentLeader: Option<LeaderId>,
    pendingPair: Option<Channel>,
    closed: bool,
    failed: bool,
    writer: Option<LeaderId>,
    leaderId: Option<LeaderId>,
    bridges: map<TabId, Bridge>,
    nextEnvelope: nat,
    holdsLock: bool,
    ready: Readiness,
    inFlight: map<nat, Body>,
    failures: seq<int>,
    localErrors: seq<nat>)

  /** A request forwarded to the writer. */
  datatype Ask = Ask(env: nat, client: TabId, id: nat, body: Body)

  /** What a handler did: the new state, what it posted, the channels a bridge was opened on,
      the request it forwarded, the writer reply it passed on, what it dispatched to its
      listeners, and whether it queued a lock request. */
  datatype Effect = Effect(
    t: Transport,
    disc: set<Discovery>,
    up: set<Up>,
    down: set<Down>,
    bridged: set<Channel>,
    ask: Option<Ask>,
    forwarded: Option<nat>,
    events: seq<Event>,
    requestsLock: bool)

  function Quiet(t: Transport): Effect {
    Effect(t, {}, {}, {}, {}, None, None, [], false)
  }

  function New(self: TabId): Transport {
    Transport(self, None, None, None, false, false, None, None, map[], 1, false, Waiting, map[], [], [])
  }

  /** Construction: the lock is requested and the field is probed for a leader. */
  function Create(self: TabId): Effect {
    Quiet(New(self)).(disc := {LeaderQuery}, requestsLock := true)
  }

  function MarkReady(r: Readiness): Readiness {
    if r == Waiting then Ready else r
  }

  function FailReady(r: Readiness): Readiness {
    if r == Waiting then Rejected else r
  }

  /** `replayInFlight`: every buffered envelope, posted on `channel`. */
  function Replay(t: Transport, channel: Channel): set<Up> {
    set i | i in t.inFlight :: Up(channel, i, t.inFlight[i])
  }

  function PairWithLeader(t: Transport, leader: LeaderId): Effect {
    if t.closed then Quiet(t)
    else if t.currentLeader == Some(leader) && t.pairChannel.Some? then Quiet(t)
    else
      var channel := Channel(leader, t.self);
      Quiet(t.(currentLeader := Some(leader), pendingPair := Some(channel), pairChannel := Some(channel)))
        .(disc := {PairRequest(leader, t.self, channel)})
  }

  /** The retry timer armed by `pairWithLeader`; `clearPendingPair` cancels it. */
  function RetryTimer(t: Transport): Effect {
    match t.pendingPair
    case Some(channel) =>
      if t.closed then Quiet(t) else Quiet(t).(disc := {PairRequest(channel.leader, t.self, channel)})
    case None => Quiet(t)
  }

  function OnPairRequest(t: Transport, leader: LeaderId, client: TabId, channel: Channel): Effect {
    if t.writer.None? || t.leaderId != Some(leader) then Quiet(t)
    else
      Quiet(t.(bridges := t.bridges[client := Bridge(channel, map[])]))
        .(disc := {PairAck(leader, client)}, bridged := {channel})
  }

  function OnPairAck(t: Transport, leader: LeaderId, client: TabId): Effect {
    if client != t.self || t.pendingPair.None? || t.pendingPair.value.leader != leader then Quiet(t)
    else
      Quiet(t.(pendingPair := None, ready := MarkReady(t.ready)))
        .(up := if t.pairChannel.Some? then Replay(t, t.pairChannel.value) else {})
  }

  function OnLeaderFailed(t: Transport, leader: LeaderId): Effect {
    if t.currentLeader != Some(leader) then Quiet(t)
    else Quiet(t.(pairChannel := None, currentLeader := None, pendingPair := None)).(events := [ErrorEvent])
  }

  function OnDiscovery(t: Transport, msg: Discovery): Effect {
    match msg
    case LeaderElected(id) => if t.leaderId != Some(id) then PairWithLeader(t, id) else Quiet(t)
    case PairRequest(leader, client, channel) => OnPairRequest(t, leader, client, channel)
    case PairAck(leader, client) => OnPairAck(t, leader, client)
    case LeaderFailed(leader) => OnLeaderFailed(t, leader)
    case LeaderQuery =>
      if t.writer.None? || t.leaderId.None? then Quiet(t)
      else Quiet(t).(disc := {LeaderElected(t.leaderId.value)})
  }

  /** The lock callback: a closed transport releases at once, any other becomes the leader. */
  function OnLockGranted(t: Transport, newId: LeaderId): Effect {
    if t.closed then Quiet(t) else BecomeLeader(t.(holdsLock := true), newId)
  }

  function BecomeLeader(t: Transport, newId: LeaderId): Effect {
    if t.closed then Quiet(t)
    else
      var own := Channel(newId, t.self);
      Quiet(t.(
        pendingPair := None, leaderId := Some(newId), writer := Some(newId),
        bridges := t.bridges[t.self := Bridge(own, map[])],
        currentLeader := Some(newId), pairChannel := Some(own), ready := MarkReady(t.ready)))
        .(disc := {LeaderElected(newId)}, up := Replay(t, own), bridged := {own})
  }

  /** `giveUpLeadership`: bridges, writer and lock go together. */
  function GiveUpLeadership(t: Transport): Transport {
    t.(bridges := map[], writer := None, leaderId := None, holdsLock := false)
  }

  /** `failPending` of one bridge: an error envelope for each id still mapped. */
  function FailPending(b: Bridge): set<Down> {
    set e | e in b.idMap :: Down(b.channel, b.idMap[e], WriterCrashed)
  }

  function FailEveryPending(t: Transport): set<Down> {
    set c, d | c in t.bridges && d in FailPending(t.bridges[c]) :: d
  }

  /** `restartLockRequest`: one more lock request, or the terminal failure. */
  function RestartLockRequest(t: Transport, now: int): Effect {
    if t.closed then Quiet(t)
    else
      var failures := RestartBudget.Record(t.failures, now);
      if RestartBudget.Exhausted(failures) then
        Quiet(t.(failures := failures, failed := true, inFlight := map[],
                 pairChannel := None, currentLeader := None, pendingPair := None))
          .(events := [Envelopes(t.inFlight.Keys, PermanentlyFailed), ErrorEvent])
      else Quiet(t.(failures := failures)).(requestsLock := true)
  }

  /** The writer's `error` event, as seen by the listener installed for leader `expected`. */
  function HandleWriterFailure(t: Transport, expected: LeaderId, now: int): Effect {
    if t.closed || t.leaderId != Some(expected) then Quiet(t)
    else
      var restart := RestartLockRequest(GiveUpLeadership(t).(currentLeader := None), now);
      restart.(down := FailEveryPending(t), disc := {LeaderFailed(expected)}, events := [ErrorEvent] + restart.events)
  }

  /** The lock request was rejected by the platform. */
  function OnLockRejected(t: Transport): Effect {
    if t.closed then Quiet(t)
    else Quiet(t.(ready := FailReady(t.ready))).(events := [ErrorEvent])
  }

  /** `postMessage` of an envelope with a numeric id. */
  function PostMessage(t: Transport, id: nat, body: Body): Effect {
    if t.closed then Quiet(t)
    else if t.failed then Quiet(t.(localErrors := t.localErrors + [id]))
    else
      Quiet(t.(inFlight := t.inFlight[id := body]))
        .(up := if t.pairChannel.Some? then {Up(t.pairChannel.value, id, body)} else {})
  }

  /** The microtask queued by `postMessage` on a failed transport. */
  function RunMicrotask(t: Transport): Effect {
    if t.localErrors == [] then Quiet(t)
    else
      Quiet(t.(localErrors := t.localErrors[1..]))
        .(events := if t.closed then [] else [Envelopes({t.localErrors[0]}, PermanentlyFailed)])
  }

  /** `onPairMessage` for a terminal envelope. */
  function OnPairMessage(t: Transport, id: nat, reply: Reply): Effect {
    Quiet(t.(inFlight := t.inFlight - {id})).(events := [Envelopes({id}, reply)])
  }

  function Close(t: Transport): Effect {
    if t.closed then Quiet(t)
    else
      Quiet(GiveUpLeadership(t).(
        closed := true, pendingPair := None, ready := FailReady(t.ready), pairChannel := None, inFlight := map[]))
  }

  /** `#onClientMessage` of the bridge kept for `client`. */
  function OnClientMessage(t: Transport, client: TabId, id: nat, body: Body): Effect
    requires client in t.bridges
  {
    var bridge := t.bridges[client];
    if body.kind == CloseConnection then
      Quiet(t.(bridges := t.bridges - {client})).(down := {Down(bridge.channel, id, CloseAck)})
    else
      var env := t.nextEnvelope;
      Quiet(t.(nextEnvelope := env + 1,
               bridges := t.bridges[client := bridge.(idMap := bridge.idMap[env := id])]))
        .(ask := Some(Ask(env, client, id, body)))
  }

  /** `#onWriterMessage` of the bridge kept for `client`: only an id it mapped is passed on. */
  function OnWriterMessage(t: Transport, client: TabId, env: nat, answer: Answer): Effect
    requires client in t.bridges
  {
    var bridge := t.bridges[client];
    if env !in bridge.idMap then Quiet(t)
    else
      Quiet(t.(bridges := t.bridges[client := bridge.(idMap := bridge.idMap - {env})]))
        .(down := {Down(bridge.channel, bridge.idMap[env], FromWriter(answer))}, forwarded := Some(env))
  }
}
