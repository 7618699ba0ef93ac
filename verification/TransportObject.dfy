/**
 `createLeaderTransport` and `LeaderBridge` as the source writes them: closure variables
 changed in place by event handlers. Every handler is proved to compute the function of
 `Transport` that the protocol is verified with.

 An `Outbox` stands for the platform calls: everything ever posted on the discovery channel and
 on pair channels, every request handed to the writer, and so on.
 */
module TransportObject {
  import opened Common
  import opened Wire
  import opened Transport
  import T = Transport
  import RestartBudget

  /** One bridge: the per-client demultiplexer in front of the shared writer. Its methods return what
      they post on its channel. */
  class LeaderBridge {
    const channel: Channel
    var idMap: map<nat, nat>
    var disposed: bool

    ghost function View(): Bridge
      reads this
    {
      Bridge(channel, idMap)
    }

    constructor (channel: Channel)
      ensures View() == Bridge(channel, map[]) && !disposed
    {
      this.channel := channel;
      idMap, disposed := map[], false;
    }

    /** `#onClientMessage`; `env` is what the shared allocator returns, used if the request is
        forwarded. A close is answered here and disposes of this bridge alone. */
    method OnClientMessage(id: nat, body: Body, env: nat) returns (forwarded: bool, posted: set<Down>)
      modifies this
      ensures old(disposed) ==> unchanged(this) && !forwarded && posted == {}
      ensures !old(disposed) ==> forwarded == (body.kind != CloseConnection) && disposed == !forwarded
      ensures !old(disposed) ==> posted == if forwarded then {} else {Down(channel, id, CloseAck)}
      ensures idMap == if forwarded then old(idMap)[env := id] else old(idMap)
    {
      if disposed { return false, {}; }
      if body.kind == CloseConnection {
        Dispose();
        return false, {Down(channel, id, CloseAck)};
      }
      idMap := idMap[env := id];
      return true, {};
    }

    /** `#onWriterMessage`: a reply is passed on once, to the client that asked. */
    method OnWriterMessage(env: nat, answer: Answer) returns (posted: set<Down>)
      modifies this
      ensures disposed == old(disposed)
      ensures old(disposed) || env !in old(idMap) ==> unchanged(this) && posted == {}
      ensures !old(disposed) && env in old(idMap) ==>
        idMap == old(idMap) - {env} && posted == {Down(channel, old(idMap)[env], FromWriter(answer))}
    {
      if disposed { return {}; }
      if env !in idMap { return {}; }
      var id := idMap[env];
      idMap := idMap - {env};
      return {Down(channel, id, FromWriter(answer))};
    }

    method FailPending() returns (posted: set<Down>)
      modifies this
      ensures disposed == old(disposed)
      ensures old(disposed) ==> unchanged(this) && posted == {}
      ensures !old(disposed) ==> idMap == map[] && posted == T.FailPending(old(View()))
    {
      posted := {};
      if disposed { return; }
      var todo := idMap.Keys;
      while todo != {}
        invariant todo <= idMap.Keys && unchanged(this)
        invariant posted == set e | e in idMap && e !in todo :: Down(channel, idMap[e], WriterCrashed)
        decreases todo
      {
        var e :| e in todo;
        posted := posted + {Down(channel, idMap[e], WriterCrashed)};
        todo := todo - {e};
      }
      idMap := map[];
    }

    method Dispose()
      modifies `disposed
      ensures disposed
    {
      disposed := true;
    }
  }

  /** What `failPending` has posted when only `todo` is left. */
  ghost function FailedSoFar(bridges: map<TabId, Bridge>, todo: set<TabId>): set<Down> {
    set c, d | c in bridges && c !in todo && d in T.FailPending(bridges[c]) :: d
  }

  lemma FailOneMore(bridges: map<TabId, Bridge>, todo: set<TabId>, c: TabId)
    requires c in bridges && c in todo
    ensures FailedSoFar(bridges, todo - {c}) == FailedSoFar(bridges, todo) + T.FailPending(bridges[c])
  {
  }

  /** The leader's map from client to bridge. `view` is its content as values. */
  class BridgeRegistry {
    var open: map<TabId, LeaderBridge>
    ghost var view: map<TabId, Bridge>

    /** Every client has a bridge of its own, and none here is disposed. */
    ghost predicate Valid()
      reads this, open.Values
    {
      && view.Keys == open.Keys
      && (forall c :: c in open ==> !open[c].disposed && view[c] == open[c].View())
      && (forall c, d :: c in open && d in open && c != d ==> open[c] != open[d])
    }

    constructor ()
      ensures Valid() && view == map[] && open == map[]
    {
      open, view := map[], map[];
    }

    /** A new bridge for a client; `replacing` disposes of an earlier one. */
    method Open(client: TabId, channel: Channel, replacing: bool)
      requires Valid()
      modifies this, open.Values
      ensures Valid() && view == old(view)[client := Bridge(channel, map[])]
    {
      if replacing && client in open { open[client].Dispose(); }
      var bridge := new LeaderBridge(channel);
      open := open[client := bridge];
      view := view[client := Bridge(channel, map[])];
    }

    /** A client's envelope reaches its bridge. */
    method FromClient(client: TabId, id: nat, body: Body, env: nat) returns (forwarded: bool, posted: set<Down>)
      requires Valid() && client in view
      modifies this, open.Values
      ensures Valid() && forwarded == (body.kind != CloseConnection)
      ensures posted == if forwarded then {} else {Down(old(view)[client].channel, id, CloseAck)}
      ensures view == if !forwarded then old(view) - {client}
                      else var b := old(view)[client]; old(view)[client := b.(idMap := b.idMap[env := id])]
    {
      forwarded, posted := open[client].OnClientMessage(id, body, env);
      if forwarded {
        view := view[client := open[client].View()];
      } else {
        open := open - {client};
        view := view - {client};
      }
    }

    /** A writer's reply reaches the bridge of a client. */
    method FromWriter(client: TabId, env: nat, answer: Answer) returns (posted: set<Down>)
      requires Valid() && client in view
      modifies this, open.Values
      ensures Valid() && (env !in old(view)[client].idMap ==> posted == {} && view == old(view))
      ensures env in old(view)[client].idMap ==>
        && posted == {Down(old(view)[client].channel, old(view)[client].idMap[env], Wire.FromWriter(answer))}
        && view == old(view)[client := old(view)[client].(idMap := old(view)[client].idMap - {env})]
    {
      posted := open[client].OnWriterMessage(env, answer);
      view := view[client := open[client].View()];
    }

    method FailOne(client: TabId) returns (posted: set<Down>)
      requires Valid() && client in view
      modifies this, open.Values
      ensures Valid() && open == old(open) && posted == T.FailPending(old(view)[client])
      ensures view == old(view)[client := Bridge(old(view)[client].channel, map[])]
    {
      posted := open[client].FailPending();
      view := view[client := open[client].View()];
    }

    /** `failPending` on every bridge. */
    method FailAll() returns (posted: set<Down>)
      requires Valid()
      modifies this, open.Values
      ensures Valid() && open == old(open) && posted == FailedSoFar(old(view), {})
    {
      posted := {};
      var todo := open.Keys;
      while todo != {}
        invariant todo <= view.Keys == old(view).Keys && open == old(open) && Valid()
        invariant forall c :: c in todo ==> view[c] == old(view)[c]
        invariant posted == FailedSoFar(old(view), todo)
        decreases todo
      {
        var c :| c in todo;
        FailOneMore(old(view), todo, c);
        var some := FailOne(c);
        posted := posted + some;
        todo := todo - {c};
      }
    }

    method DisposeAll()
      modifies this, open.Values
      ensures Valid() && view == map[] && open == map[]
    {
      var todo := open.Keys;
      while todo != {}
        invariant todo <= open.Keys && unchanged(this)
        decreases todo
      {
        var c :| c in todo;
        open[c].Dispose();
        todo := todo - {c};
      }
      open, view := map[], map[];
    }
  }

  datatype Outbox = Outbox(
    disc: set<Discovery>, up: set<Up>, down: set<Down>, bridged: set<Channel>,
    asks: seq<Ask>, passedOn: seq<nat>, events: seq<Event>, lockRequests: nat)

  /** The outbox after the platform calls of `e`. */
  function Append(o: Outbox, e: Effect): Outbox {
    Outbox(o.disc + e.disc, o.up + e.up, o.down + e.down, o.bridged + e.bridged,
           o.asks + (if e.ask.Some? then [e.ask.value] else []),
           o.passedOn + (if e.forwarded.Some? then [e.forwarded.value] else []),
           o.events + e.events,
           o.lockRequests + (if e.requestsLock then 1 else 0))
  }

  lemma AppendQuiet(o: Outbox, t: Transport)
    ensures Append(o, Quiet(t)) == o
  {
  }

  lemma AppendAsk(o: Outbox, t: Transport, ask: Ask)
    ensures Append(o, Quiet(t).(ask := Some(ask))) == o.(asks := o.asks + [ask])
  {
    AppendQuiet(o, t);
  }

  lemma AppendDown(o: Outbox, t: Transport, down: set<Down>, forwarded: Option<nat>)
    ensures Append(o, Quiet(t).(down := down, forwarded := forwarded))
      == o.(down := o.down + down, passedOn := o.passedOn + if forwarded.Some? then [forwarded.value] else [])
  {
    AppendQuiet(o, t);
  }

  lemma CloseCalls(o: Outbox, t: Transport, client: TabId, id: nat, body: Body)
    requires client in t.bridges && body.kind == CloseConnection
    ensures var e := T.OnClientMessage(t, client, id, body);
      && e.t == t.(bridges := t.bridges - {client})
      && Append(o, e) == o.(down := o.down + {Down(t.bridges[client].channel, id, CloseAck)})
  {
    AppendDown(o, t.(bridges := t.bridges - {client}), {Down(t.bridges[client].channel, id, CloseAck)}, None);
  }

  lemma RequestCalls(o: Outbox, t: Transport, client: TabId, id: nat, body: Body)
    requires client in t.bridges && body.kind != CloseConnection
    ensures var e, b := T.OnClientMessage(t, client, id, body), t.bridges[client];
      && e.t == t.(nextEnvelope := t.nextEnvelope + 1,
        bridges := t.bridges[client := b.(idMap := b.idMap[t.nextEnvelope := id])])
      && Append(o, e) == o.(asks := o.asks + [Ask(t.nextEnvelope, client, id, body)])
  {
    AppendAsk(o, T.OnClientMessage(t, client, id, body).t, Ask(t.nextEnvelope, client, id, body));
  }

  /** The calls of a crash report, then those of the restart. */
  lemma AppendCrash(o: Outbox, restart: Effect, down: set<Down>, disc: set<Discovery>)
    requires restart.down == {} && restart.disc == {}
    ensures Append(o.(down := o.down + down, disc := o.disc + disc, events := o.events + [ErrorEvent]), restart)
      == Append(o, restart.(down := down, disc := disc, events := [ErrorEvent] + restart.events))
  {
  }

  lemma RestartPostsNothing(t: Transport, now: int)
    ensures T.RestartLockRequest(t, now).down == {} && T.RestartLockRequest(t, now).disc == {}
  {
  }

  /** The transport of one tab. */
  class LeaderTransport {
    const self: TabId
    var pairChannel: Option<Channel>
    var currentLeader: Option<LeaderId>
    var pendingPair: Option<Channel>
    var closed: bool
    var failed: bool
    var writer: Option<LeaderId>
    var leaderId: Option<LeaderId>
    const bridges: BridgeRegistry
    var nextEnvelope: nat
    var holdsLock: bool
    var ready: Readiness
    var inFlight: map<nat, Body>
    var failures: seq<int>
    var localErrors: seq<nat>

    var out: Outbox

    ghost predicate Valid()
      reads bridges, bridges.open.Values
    {
      bridges.Valid()
    }

    ghost function State(): Transport
      reads this, bridges
    {
      Transport(self, pairChannel, currentLeader, pendingPair, closed, failed, writer, leaderId, bridges.view,
                nextEnvelope, holdsLock, ready, inFlight, failures, localErrors)
    }

    /** Exactly the new state and the platform calls of `e`. */
    twostate predicate Performs(e: Effect)
      reads this, bridges, bridges.open.Values
    {
      Valid() && State() == e.t && out == Append(old(out), e)
    }

    constructor (clientId: TabId)
      ensures Valid() && State() == Create(clientId).t
      ensures out == Append(Outbox({}, {}, {}, {}, [], [], [], 0), Create(clientId))
    {
      self := clientId;
      pairChannel, currentLeader, pendingPair, closed, failed := None, None, None, false, false;
      writer, leaderId, nextEnvelope, holdsLock := None, None, 1, false;
      ready, inFlight, failures, localErrors := Waiting, map[], [], [];
      out := Outbox({LeaderQuery}, {}, {}, {}, [], [], [], 1);
      bridges := new BridgeRegistry();
    }

    method RequestLock()
      modifies `out
      ensures out == if closed then old(out) else old(out).(lockRequests := old(out).lockRequests + 1)
    {
      if closed { return; }
      out := out.(lockRequests := out.lockRequests + 1);
    }

    /** `markReady` and `failReady`: only the first settles `whenReady`. */
    method SettleReady(outcome: Readiness)
      modifies `ready
      ensures ready == if old(ready) == Waiting then outcome else old(ready)
    {
      if ready != Waiting { return; }
      ready := outcome;
    }

    /** `replayInFlight`. */
    method ReplayInFlight(channel: Channel)
      modifies `out
      ensures out == old(out).(up := old(out).up + Replay(State(), channel))
    {
      var todo := inFlight.Keys;
      while todo != {}
        invariant todo <= inFlight.Keys
        invariant out == old(out).(
          up := old(out).up + set i | i in inFlight && i !in todo :: Up(channel, i, inFlight[i]))
        decreases todo
      {
        var i :| i in todo;
        out := out.(up := out.up + {Up(channel, i, inFlight[i])});
        todo := todo - {i};
      }
    }

    method SendPairRequest(channel: Channel)
      modifies `out
      ensures out == if closed then old(out)
                     else old(out).(disc := old(out).disc + {PairRequest(channel.leader, self, channel)})
    {
      if closed { return; }
      out := out.(disc := out.disc + {PairRequest(channel.leader, self, channel)});
    }

    /** The old pending pair is cleared, the channel attached, the retry timer armed. */
    method AttachPending(channel: Channel)
      modifies `currentLeader, `pendingPair, `pairChannel
      ensures State() == old(State()).(currentLeader := Some(channel.leader), pendingPair := Some(channel),
        pairChannel := Some(channel))
    {
      currentLeader := Some(channel.leader);
      pendingPair := None;
      pairChannel := Some(channel);
      pendingPair := Some(channel);
    }

    method PairWithLeader(leader: LeaderId)
      requires Valid()
      modifies this
      ensures Performs(T.PairWithLeader(old(State()), leader))
    {
      if closed { return; }
      if currentLeader == Some(leader) && pairChannel.Some? { return; }
      var channel := Channel(leader, self);
      AttachPending(channel);
      SendPairRequest(channel);
    }

    method RetryTimer()
      requires Valid()
      modifies this
      ensures Performs(T.RetryTimer(old(State())))
    {
      if pendingPair.None? || closed { return; }
      SendPairRequest(pendingPair.value);
    }

    method OnPairRequest(leader: LeaderId, client: TabId, channel: Channel)
      requires Valid()
      modifies this, bridges, bridges.open.Values
      ensures Performs(T.OnPairRequest(old(State()), leader, client, channel))
    {
      if writer.None? || leaderId != Some(leader) { return; }
      bridges.Open(client, channel, true);
      out := out.(bridged := out.bridged + {channel});
      out := out.(disc := out.disc + {PairAck(leader, client)});
    }

    /** The leader has subscribed: flush the buffer, then be ready. */
    method CompletePairing()
      modifies `pendingPair, `ready, `out
      ensures State() == old(State()).(pendingPair := None, ready := MarkReady(old(ready)))
      ensures out == old(out).(
        up := old(out).up + if pairChannel.Some? then Replay(old(State()), pairChannel.value) else {})
    {
      pendingPair := None;
      if pairChannel.Some? { ReplayInFlight(pairChannel.value); }
      SettleReady(Ready);
    }

    method OnPairAck(leader: LeaderId, client: TabId)
      requires Valid()
      modifies this
      ensures Performs(T.OnPairAck(old(State()), leader, client))
    {
      if client != self { return; }
      if pendingPair.None? || pendingPair.value.leader != leader { return; }
      CompletePairing();
    }

    method OnLeaderFailed(leader: LeaderId)
      requires Valid()
      modifies this
      ensures Performs(T.OnLeaderFailed(old(State()), leader))
    {
      if currentLeader != Some(leader) { return; }
      DropPairing();
      out := out.(events := out.events + [ErrorEvent]);
    }

    method OnDiscoveryMessage(msg: Discovery)
      requires Valid()
      modifies this, bridges, bridges.open.Values
      ensures Performs(OnDiscovery(old(State()), msg))
    {
      match msg
      case LeaderElected(id) => if leaderId != Some(id) { PairWithLeader(id); }
      case PairRequest(leader, client, channel) => OnPairRequest(leader, client, channel);
      case PairAck(leader, client) => OnPairAck(leader, client);
      case LeaderFailed(leader) => OnLeaderFailed(leader);
      case LeaderQuery =>
        if writer.None? || leaderId.None? { return; }
        out := out.(disc := out.disc + {LeaderElected(leaderId.value)});
    }

    /** The first half of `becomeLeader`: identity, writer and the self-bridge. */
    method InstallWriter(newId: LeaderId)
      requires Valid()
      modifies `pendingPair, `leaderId, `writer, `out, bridges, bridges.open.Values
      ensures Valid() && State() == old(State()).(
        pendingPair := None, leaderId := Some(newId), writer := Some(newId),
        bridges := old(State()).bridges[self := Bridge(Channel(newId, self), map[])])
      ensures out == old(out).(bridged := old(out).bridged + {Channel(newId, self)})
    {
      pendingPair := None;
      leaderId := Some(newId);
      writer := Some(newId);
      var own := Channel(newId, self);
      bridges.Open(self, own, false);
      out := out.(bridged := out.bridged + {own});
    }

    /** The second half: both ends of the self-pair exist, so the buffer is flushed at once. */
    method SelfPair(own: Channel)
      modifies `currentLeader, `pairChannel, `ready, `out
      ensures State() == old(State()).(
        currentLeader := Some(own.leader), pairChannel := Some(own), ready := MarkReady(old(ready)))
      ensures out == old(out).(up := old(out).up + Replay(old(State()), own))
    {
      currentLeader := Some(own.leader);
      pairChannel := Some(own);
      ReplayInFlight(own);
      SettleReady(Ready);
    }

    method BecomeLeader(newId: LeaderId)
      requires Valid()
      modifies this, bridges, bridges.open.Values
      ensures Performs(T.BecomeLeader(old(State()), newId))
    {
      if closed { return; }
      InstallWriter(newId);
      SelfPair(Channel(newId, self));
      out := out.(disc := out.disc + {LeaderElected(newId)});
    }

    /** The lock callback. */
    method OnLockGranted(newId: LeaderId)
      requires Valid()
      modifies this, bridges, bridges.open.Values
      ensures Performs(T.OnLockGranted(old(State()), newId))
    {
      if closed { return; }
      holdsLock := true;
      BecomeLeader(newId);
    }

    method GiveUpLeadership()
      modifies `writer, `leaderId, `holdsLock, bridges, bridges.open.Values
      ensures Valid() && State() == T.GiveUpLeadership(old(State()))
    {
      bridges.DisposeAll();
      if writer.Some? { writer := None; }
      leaderId := None;
      if holdsLock { holdsLock := false; }
    }

    /** `detachPair`, `currentLeaderId = null`, `clearPendingPair`. */
    method DropPairing()
      modifies `pairChannel, `currentLeader, `pendingPair
      ensures State() == old(State()).(pairChannel := None, currentLeader := None, pendingPair := None)
    {
      pairChannel := None;
      currentLeader := None;
      pendingPair := None;
    }

    /** The terminal branch of `restartLockRequest`. */
    method FailForGood()
      modifies `failed, `inFlight, `pairChannel, `currentLeader, `pendingPair, `out
      ensures State() == old(State()).(
        failed := true, inFlight := map[], pairChannel := None, currentLeader := None, pendingPair := None)
      ensures out == old(out).(
        events := old(out).events + [Envelopes(old(inFlight).Keys, PermanentlyFailed), ErrorEvent])
    {
      failed := true;
      out := out.(events := out.events + [Envelopes(inFlight.Keys, PermanentlyFailed)]);
      inFlight := map[];
      DropPairing();
      out := out.(events := out.events + [ErrorEvent]);
    }

    method RestartLockRequest(now: int)
      requires Valid()
      modifies this
      ensures Performs(T.RestartLockRequest(old(State()), now))
    {
      if closed { return; }
      var giveUp;
      failures, giveUp := RestartBudget.RecordCrash(failures, now);
      if giveUp {
        FailForGood();
      } else {
        RequestLock();
      }
    }

    /** Bridges, then peers, then this tab's own listeners hear of the crash. */
    method ReportFailure(failing: LeaderId)
      requires Valid()
      modifies `out, bridges, bridges.open.Values
      ensures Valid() && bridges.open == old(bridges.open)
      ensures out == old(out).(
        down := old(out).down + FailEveryPending(old(State())),
        disc := old(out).disc + {LeaderFailed(failing)},
        events := old(out).events + [ErrorEvent])
    {
      var posted := bridges.FailAll();
      out := out.(down := out.down + posted);
      out := out.(disc := out.disc + {LeaderFailed(failing)});
      out := out.(events := out.events + [ErrorEvent]);
    }

    method StepDown()
      modifies `writer, `leaderId, `holdsLock, `currentLeader, bridges, bridges.open.Values
      ensures Valid() && State() == T.GiveUpLeadership(old(State())).(currentLeader := None)
    {
      GiveUpLeadership();
      currentLeader := None;
    }

    /** The first half of `handleWriterFailure`: report, then drop leadership. */
    method FailOver(failing: LeaderId)
      requires Valid()
      modifies `writer, `leaderId, `holdsLock, `currentLeader, `out, bridges, bridges.open.Values
      ensures Valid() && State() == T.GiveUpLeadership(old(State())).(currentLeader := None)
      ensures out == old(out).(
        down := old(out).down + FailEveryPending(old(State())),
        disc := old(out).disc + {LeaderFailed(failing)},
        events := old(out).events + [ErrorEvent])
    {
      ReportFailure(failing);
      StepDown();
    }

    method HandleWriterFailure(expected: LeaderId, now: int)
      requires Valid()
      modifies this, bridges, bridges.open.Values
      ensures Performs(T.HandleWriterFailure(old(State()), expected, now))
    {
      if closed { return; }
      if leaderId != Some(expected) { return; }
      FailOver(expected);
      ghost var restart := T.RestartLockRequest(State(), now);
      RestartPostsNothing(State(), now);
      AppendCrash(old(out), restart, FailEveryPending(old(State())), {LeaderFailed(expected)});
      RestartLockRequest(now);
    }

    method OnLockRejected()
      requires Valid()
      modifies this
      ensures Performs(T.OnLockRejected(old(State())))
    {
      if closed { return; }
      out := out.(events := out.events + [ErrorEvent]);
      SettleReady(Rejected);
    }

    method PostMessage(id: nat, body: Body)
      requires Valid()
      modifies this
      ensures Performs(T.PostMessage(old(State()), id, body))
    {
      if closed { return; }
      if failed {
        localErrors := localErrors + [id];
        return;
      }
      inFlight := inFlight[id := body];
      if pairChannel.Some? { out := out.(up := out.up + {Up(pairChannel.value, id, body)}); }
    }

    method RunMicrotask()
      requires Valid()
      modifies this
      ensures Performs(T.RunMicrotask(old(State())))
    {
      if localErrors == [] { return; }
      if !closed { out := out.(events := out.events + [Envelopes({localErrors[0]}, PermanentlyFailed)]); }
      localErrors := localErrors[1..];
    }

    method OnPairMessage(id: nat, reply: Reply)
      requires Valid()
      modifies this
      ensures Performs(T.OnPairMessage(old(State()), id, reply))
    {
      inFlight := inFlight - {id};
      out := out.(events := out.events + [Envelopes({id}, reply)]);
    }

    method Close()
      requires Valid()
      modifies this, bridges, bridges.open.Values
      ensures Performs(T.Close(old(State())))
    {
      if closed { return; }
      closed := true;
      SettleReady(Rejected);
      Surrender();
    }

    method Surrender()
      modifies `pendingPair, `pairChannel, `writer, `leaderId, `holdsLock, `inFlight, bridges, bridges.open.Values
      ensures Valid()
      ensures State() == T.GiveUpLeadership(old(State())).(pendingPair := None, pairChannel := None, inFlight := map[])
    {
      pendingPair := None;
      pairChannel := None;
      GiveUpLeadership();
      inFlight := map[];
    }

    /** The bridge's part: what it posts or asks, and the id it uses up. */
    method Relay(client: TabId, id: nat, body: Body)
      requires Valid() && client in State().bridges
      modifies `nextEnvelope, `out, bridges, bridges.open.Values
      ensures Valid() && nextEnvelope == old(nextEnvelope) + if body.kind == CloseConnection then 0 else 1
      ensures bridges.view == if body.kind == CloseConnection then old(bridges.view) - {client} else
        var b := old(bridges.view)[client]; old(bridges.view)[client := b.(idMap := b.idMap[old(nextEnvelope) := id])]
      ensures out == if body.kind == CloseConnection
        then old(out).(down := old(out).down + {Down(old(State()).bridges[client].channel, id, CloseAck)})
        else old(out).(asks := old(out).asks + [Ask(old(nextEnvelope), client, id, body)])
    {
      var env := nextEnvelope;
      var forwarded, posted := bridges.FromClient(client, id, body, env);
      if forwarded {
        nextEnvelope := env + 1;
        out := out.(asks := out.asks + [Ask(env, client, id, body)]);
      } else {
        out := out.(down := out.down + posted);
      }
    }

    method OnClientMessage(client: TabId, id: nat, body: Body)
      requires Valid() && client in State().bridges
      modifies this, bridges, bridges.open.Values
      ensures Performs(T.OnClientMessage(old(State()), client, id, body))
    {
      if body.kind == CloseConnection {
        CloseCalls(out, State(), client, id, body);
      } else {
        RequestCalls(out, State(), client, id, body);
      }
      Relay(client, id, body);
    }

    method OnWriterMessage(client: TabId, env: nat, answer: Answer)
      requires Valid() && client in State().bridges
      modifies this, bridges, bridges.open.Values
      ensures Performs(T.OnWriterMessage(old(State()), client, env, answer))
    {
      var posted := bridges.FromWriter(client, env, answer);
      if posted == {} {
        AppendQuiet(out, State());
        return;
      }
      out := out.(down := out.down + posted);
      out := out.(passedOn := out.passedOn + [env]);
      AppendDown(old(out), State(), posted, Some(env));
    }
  }
}
