/** The steps that move the lock or the writer, and the induction over every run. */
module ProtocolInduction {
  import opened Common
  import opened Wire
  import opened Transport
  import opened TransportInvariant
  import opened WorkerClient
  import opened Protocol
  import opened ProtocolInvariant
  import opened ProtocolSteps

  // ----- the lock queue

  lemma {:induction false} WithoutKeeps(queue: seq<TabId>, id: TabId)
    ensures forall k :: k in Without(queue, id) ==> k in queue
    ensures Distinct(queue) ==> Distinct(Without(queue, id)) && id !in Without(queue, id)
  {
    if queue != [] && queue[0] != id {
      WithoutKeeps(queue[1..], id);
      assert queue == [queue[0]] + queue[1..];
      if Distinct(queue) {
        assert queue[0] !in queue[1..];
        assert queue[0] !in Without(queue[1..], id);
      }
    }
  }

  lemma DequeueKeepsInv(w: World, id: TabId)
    requires Inv(w)
    ensures Inv(w.(queue := Without(w.queue, id)))
  {
    var u := w.(queue := Without(w.queue, id));
    WithoutKeeps(w.queue, id);
    UntouchedParts(w, u);
    LocksAfter(w, u);
  }

  /** A queue that only lost entries, under the same holder. */
  lemma LocksAfter(w: World, u: World)
    requires TabsOk(w) && LocksOk(w) && u == w.(queue := u.queue) && QueueOk(u)
    requires forall k :: k in u.queue ==> k in w.queue
    ensures TabsOk(u) && LocksOk(u)
  {
    forall k | k in u.tabs ensures TabOk(u, k) && LockOk(u, k) {
      assert TabOk(w, k) && LockOk(w, k);
    }
  }

  lemma ReleaseKeepsInv(w: World)
    requires Inv(w) && Enabled(w, LockReleased)
    ensures Inv(Next(w, LockReleased))
  {
    var v := w.(holder := None);
    UntouchedParts(w, v);
    forall k | k in v.tabs ensures TabOk(v, k) && LockOk(v, k) {
      assert TabOk(w, k) && LockOk(w, k);
    }
  }

  lemma PlainLockRejected(w: World, id: TabId)
    requires id in w.tabs && TabOk(w, id) && HandshakeOk(w, id)
    ensures PlainStep(w, id, OnLockRejected(w.tabs[id].t), w.tabs[id].c)
  {
    var t, c := w.tabs[id].t, w.tabs[id].c;
    var e := OnLockRejected(t);
    LockRejectedClient(t, c);
    HandshakeStays(w, id, e, c);
    BlandEvents(w, id, e, c);
  }

  lemma RefusedKeepsInv(w: World, id: TabId)
    requires Inv(w)
    ensures Inv(Refused(w, id))
  {
    DequeueKeepsInv(w, id);
    var u, v := w.(queue := Without(w.queue, id)), Refused(w, id);
    UntouchedParts(u, v);
    forall k | k in v.tabs ensures TabOk(v, k) && LockOk(v, k) { assert TabOk(u, k) && LockOk(u, k); }
  }

  lemma LockRejectedKeepsInv(w: World, id: TabId)
    requires Inv(w) && Enabled(w, LockRejected(id))
    ensures Inv(Next(w, LockRejected(id)))
  {
    var u := Refused(w, id);
    RefusedKeepsInv(w, id);
    assert TabOk(u, id) && HandshakeOk(u, id);
    PlainLockRejected(u, id);
    PlainKeepsInv(u, id, OnLockRejected(u.tabs[id].t), u.tabs[id].c);
  }

  // ----- election

  /** The world between the grant and the callback is sound for everyone but the new leader. */
  lemma GrantedParts(w: World, newId: LeaderId)
    requires Inv(w) && Enabled(w, Grant(newId))
    ensures var u := Granted(w, newId); TabsOk(u) && LocksOk(u) && RequestsOk(u) && MessagesOk(u) && PagesOk(u)
    ensures w.queue[0] !in Granted(w, newId).queue
  {
    var u := Granted(w, newId);
    UntouchedParts(w, u);
    assert QueueOk(u) by { assert forall i :: 0 <= i < |u.queue| ==> u.queue[i] == w.queue[i + 1]; }
    forall k | k in u.tabs ensures TabOk(u, k) && LockOk(u, k) {
      assert TabOk(w, k) && LockOk(w, k);
    }
  }

  lemma BecomeLeaderHandshake(u: World, id: TabId, newId: LeaderId)
    requires id in u.tabs && TabOk(u, id) && !u.tabs[id].t.closed
    ensures HandshakeOk(Act(u, id, OnLockGranted(u.tabs[id].t, newId)), id)
  {
    var t := u.tabs[id].t;
    var e := OnLockGranted(t, newId);
    var v := Act(u, id, e);
    forall i | i in e.t.inFlight ensures Up(Channel(newId, id), i, e.t.inFlight[i]) in v.live {
      assert Up(Channel(newId, id), i, t.inFlight[i]) in e.up;
    }
    assert Channel(newId, id) in v.bridged;
  }

  lemma GrantKeepsInv(w: World, newId: LeaderId)
    requires Inv(w) && Enabled(w, Grant(newId))
    ensures Inv(Next(w, Grant(newId)))
  {
    var u, id := Granted(w, newId), w.queue[0];
    GrantedParts(w, newId);
    assert TabOk(u, id) && HandshakeOk(u, id) && LockOk(w, id);
    if w.tabs[id].t.closed {
      PlainQuiet(u, id);
      PlainKeepsInv(u, id, Quiet(u.tabs[id].t), u.tabs[id].c);
    } else {
      ElectionKeepsInv(u, id, newId);
    }
  }

  lemma ElectionKeepsInv(u: World, id: TabId, newId: LeaderId)
    requires Inv(u) && id in u.tabs && id !in u.queue && u.holder == Some(id) && newId in u.owner
    requires u.owner[newId] == id
    requires !Terminal(u.tabs[id].t) && !u.tabs[id].t.holdsLock
    ensures Inv(Act(u, id, OnLockGranted(u.tabs[id].t, newId)))
  {
    var t, c := u.tabs[id].t, u.tabs[id].c;
    var e := OnLockGranted(t, newId);
    assert TabOk(u, id) && SettledOk(u, id);
    GrantOk(t, newId);
    HearNone(c);
    CommitTabs(u, id, e, c);
    CommitLocks(u, id, e, c);
    BecomeLeaderHandshake(u, id, newId);
    ElectionMessages(u, id, newId);
    CommitSettled(u, id, e, c);
    CommitPages(u, id, e, c);
    assert MapsOk(Commit(u, id, e, c), id);
    CommitRequests(u, id, e, c);
  }

  lemma ElectionMessages(u: World, id: TabId, newId: LeaderId)
    requires MessagesOk(u) && PagesOk(u) && id in u.tabs && TabOk(u, id)
    ensures MessagesOk(Act(u, id, OnLockGranted(u.tabs[id].t, newId)))
  {
    CommitMessages(u, id, OnLockGranted(u.tabs[id].t, newId), u.tabs[id].c);
  }

  // ----- a writer failure

  lemma CrashedLocks(w: World, u: World)
    requires LocksOk(w) && u == w.(crashes := u.crashes)
    ensures LocksOk(u)
  {
    forall k | k in u.tabs ensures LockOk(u, k) { assert LockOk(w, k); }
  }

  lemma CrashedTabs(w: World, u: World, id: TabId)
    requires TabsOk(w) && u == w.(crashes := u.crashes)
    requires forall k :: k in w.crashes && k != id ==> k in u.crashes && u.crashes[k] == w.crashes[k]
    ensures forall k :: k in u.tabs && k != id ==> TabOk(u, k)
  {
    forall k | k in u.tabs && k != id ensures TabOk(u, k) { assert TabOk(w, k); }
  }

  lemma CrashedParts(w: World, id: TabId, leader: LeaderId, now: int)
    requires Inv(w) && Enabled(w, WriterError(id, leader, now))
    ensures var u := Crashed(w, id, leader, now);
      && RequestsOk(u) && MessagesOk(u) && PagesOk(u) && LocksOk(u)
      && forall k :: k in u.tabs && k != id ==> TabOk(u, k)
  {
    var u := Crashed(w, id, leader, now);
    UntouchedParts(w, u);
    CrashedLocks(w, u);
    CrashedTabs(w, u, id);
  }

  /** The error envelopes a crash posts are for requests their clients did send. */
  lemma CrashDown(w: World, id: TabId, d: Down)
    requires RequestsOk(w) && id in w.tabs && TabOk(w, id) && d in FailEveryPending(w.tabs[id].t)
    ensures d.reply == WriterCrashed && Explained(w, d.channel.client, d.id, d.reply)
  {
    var t := w.tabs[id].t;
    var c :| c in t.bridges && d in FailPending(t.bridges[c]);
    var env :| env in t.bridges[c].idMap && d == Down(t.bridges[c].channel, t.bridges[c].idMap[env], WriterCrashed);
    assert MapsOk(w, id);
    assert Mapped(w, t.leaderId, c, env, t.bridges[c].idMap[env]);
    assert AskedOk(w, Request(t.leaderId.value, env));
  }

  lemma CrashMessages(u: World, id: TabId, leader: LeaderId, now: int)
    requires RequestsOk(u) && MessagesOk(u) && PagesOk(u)
    requires id in u.tabs && u.tabs[id].t.self == id && TransportOk(u.tabs[id].t)
    requires ClientOk(u.tabs[id].t, u.tabs[id].c)
    requires forall d :: d in FailEveryPending(u.tabs[id].t) ==> Explained(u, d.channel.client, d.id, d.reply)
    ensures MessagesOk(Act(u, id, HandleWriterFailure(u.tabs[id].t, leader, now)))
  {
    var e, c := HandleWriterFailure(u.tabs[id].t, leader, now), u.tabs[id].c;
    var v := Act(u, id, e);
    CommitGrows(u, id, e, c);
    forall d | d in e.down ensures DownOk(v, d) {
      ExplainedGrows(u, v, id, d.channel.client, d.id, d.reply);
    }
    CommitMessages(u, id, e, c);
  }

  lemma CrashHandshake(u: World, id: TabId, leader: LeaderId, now: int)
    requires id in u.tabs && HandshakeOk(u, id)
    ensures HandshakeOk(Act(u, id, HandleWriterFailure(u.tabs[id].t, leader, now)), id)
  {
    HandshakeStays(u, id, HandleWriterFailure(u.tabs[id].t, leader, now), u.tabs[id].c);
  }

  lemma WriterErrorKeepsInv(w: World, id: TabId, leader: LeaderId, now: int)
    requires Inv(w) && Enabled(w, WriterError(id, leader, now))
    ensures Inv(Next(w, WriterError(id, leader, now)))
  {
    assert TabOk(w, id) && HandshakeOk(w, id);
    if Handles(w.tabs[id].t, leader) {
      CrashKeepsInv(w, id, leader, now);
    } else {
      PlainQuiet(w, id);
      PlainKeepsInv(w, id, Quiet(w.tabs[id].t), w.tabs[id].c);
    }
  }

  lemma CrashTabs(w: World, id: TabId, leader: LeaderId, now: int)
    requires TabsOk(w) && Enabled(w, WriterError(id, leader, now)) && Handles(w.tabs[id].t, leader)
    requires var u := Crashed(w, id, leader, now); forall k :: k in u.tabs && k != id ==> TabOk(u, k)
    ensures TabsOk(Next(w, WriterError(id, leader, now)))
  {
    var u, t, c := Crashed(w, id, leader, now), w.tabs[id].t, w.tabs[id].c;
    assert TabOk(w, id);
    WriterFailureOk(t, leader, now);
    WriterFailureClient(t, c, leader, now);
    WriterFailureBudget(t, w.crashes[id], leader, now);
    CommitTabs(u, id, HandleWriterFailure(t, leader, now), c);
  }

  /** A crash gives the lock up, and asks for it again unless that was the last. */
  lemma CrashLock(t: Transport, leader: LeaderId, now: int)
    requires Handles(t, leader) && !t.failed
    ensures var e := HandleWriterFailure(t, leader, now);
      !e.t.holdsLock && e.t.leaderId.None? && (e.t.failed <==> !e.requestsLock)
  {
  }

  lemma CrashLocks(w: World, id: TabId, leader: LeaderId, now: int)
    requires TabsOk(w) && LocksOk(w) && Enabled(w, WriterError(id, leader, now)) && Handles(w.tabs[id].t, leader)
    requires LocksOk(Crashed(w, id, leader, now))
    ensures LocksOk(Next(w, WriterError(id, leader, now)))
  {
    var t := w.tabs[id].t;
    assert TabOk(w, id) && LockOk(w, id);
    CrashLock(t, leader, now);
    CommitLocks(Crashed(w, id, leader, now), id, HandleWriterFailure(t, leader, now), w.tabs[id].c);
  }

  lemma CrashKeepsInv(w: World, id: TabId, leader: LeaderId, now: int)
    requires Inv(w) && Enabled(w, WriterError(id, leader, now)) && Handles(w.tabs[id].t, leader)
    ensures Inv(Next(w, WriterError(id, leader, now)))
  {
    var u, t, c := Crashed(w, id, leader, now), w.tabs[id].t, w.tabs[id].c;
    var e := HandleWriterFailure(t, leader, now);
    CrashedParts(w, id, leader, now);
    CrashTabs(w, id, leader, now);
    CrashLocks(w, id, leader, now);
    assert TabOk(w, id);
    forall d | d in FailEveryPending(t) ensures Explained(u, d.channel.client, d.id, d.reply) {
      CrashDown(w, id, d);
    }
    CrashMessages(u, id, leader, now);
    CrashRest(u, id, leader, now);
  }

  lemma CrashRest(u: World, id: TabId, leader: LeaderId, now: int)
    requires RequestsOk(u) && MessagesOk(u) && PagesOk(u) && LocksOk(u)
    requires id in u.tabs && TransportOk(u.tabs[id].t) && ClientOk(u.tabs[id].t, u.tabs[id].c)
    requires Handles(u.tabs[id].t, leader)
    ensures var v := Act(u, id, HandleWriterFailure(u.tabs[id].t, leader, now)); RequestsOk(v) && PagesOk(v)
  {
    var t, c := u.tabs[id].t, u.tabs[id].c;
    var e := HandleWriterFailure(t, leader, now);
    assert HandshakeOk(u, id) && SettledOk(u, id);
    CrashHandshake(u, id, leader, now);
    BlandEvents(u, id, e, c);
    CommitSettled(u, id, e, c);
    CommitPages(u, id, e, c);
    assert MapsOk(Commit(u, id, e, c), id);
    CommitRequests(u, id, e, c);
  }

  // ----- the bridges

  lemma PlainClientClose(w: World, id: TabId, up: Up)
    requires id in w.tabs && TabOk(w, id) && HandshakeOk(w, id) && UpOk(w, up) && up.body.kind == CloseConnection
    requires up.channel.client in w.tabs[id].t.bridges && w.tabs[id].t.bridges[up.channel.client].channel == up.channel
    ensures PlainStep(w, id, OnClientMessage(w.tabs[id].t, up.channel.client, up.id, up.body), w.tabs[id].c)
  {
    var t, c := w.tabs[id].t, w.tabs[id].c;
    var e := OnClientMessage(t, up.channel.client, up.id, up.body);
    ClientMessageOk(t, up.channel.client, up.id, up.body);
    HearNone(c);
    HandshakeStays(w, id, e, c);
    CloseAckExplained(w, id, up);
  }

  lemma CloseAckExplained(w: World, id: TabId, up: Up)
    requires id in w.tabs && TabOk(w, id) && UpOk(w, up) && up.body.kind == CloseConnection
    requires up.channel.client in w.tabs[id].t.bridges && w.tabs[id].t.bridges[up.channel.client].channel == up.channel
    ensures var e := OnClientMessage(w.tabs[id].t, up.channel.client, up.id, up.body);
      forall d :: d in e.down ==> DownOk(Act(w, id, e), d)
  {
    var e := OnClientMessage(w.tabs[id].t, up.channel.client, up.id, up.body);
    CommitGrows(w, id, e, w.tabs[id].c);
    ExplainedGrows(w, Act(w, id, e), id, up.channel.client, up.id, CloseAck);
  }

  /** The allocator never hands out an id the writer of this tenure has seen. */
  lemma FreshEnvelope(w: World, id: TabId)
    requires RequestsOk(w) && id in w.tabs && LockOk(w, id) && w.tabs[id].t.leaderId.Some?
    ensures Request(w.tabs[id].t.leaderId.value, w.tabs[id].t.nextEnvelope) !in w.asked
  {
    var r := Request(w.tabs[id].t.leaderId.value, w.tabs[id].t.nextEnvelope);
    assert r in w.asked ==> AskedOk(w, r);
  }

  ghost predicate Asks(w: World, id: TabId, up: Up) {
    && id in w.tabs && TabOk(w, id) && UpOk(w, up) && up.body.kind != CloseConnection
    && up.channel.client in w.tabs[id].t.bridges
    && Request(w.tabs[id].t.leaderId.value, w.tabs[id].t.nextEnvelope) !in w.asked
  }

  lemma AskRecorded(w: World, id: TabId, up: Up)
    requires RequestsOk(w) && Asks(w, id, up) && LockOk(w, id)
    requires var v := Act(w, id, OnClientMessage(w.tabs[id].t, up.channel.client, up.id, up.body)); Grows(w, v, id)
    ensures var v := Act(w, id, OnClientMessage(w.tabs[id].t, up.channel.client, up.id, up.body));
      forall r :: r in v.asked ==> AskedOk(v, r)
  {
    var t := w.tabs[id].t;
    var v := Act(w, id, OnClientMessage(t, up.channel.client, up.id, up.body));
    var newest := Request(t.leaderId.value, t.nextEnvelope);
    assert newest !in w.answers;
    forall r | r in v.asked ensures AskedOk(v, r) {
      if r != newest { assert AskedOk(w, r); }
    }
  }

  lemma AskRequests(w: World, id: TabId, up: Up)
    requires RequestsOk(w) && LocksOk(w) && Asks(w, id, up)
    ensures var e := OnClientMessage(w.tabs[id].t, up.channel.client, up.id, up.body);
      Prepared(w, id, e, w.tabs[id].c) && RequestsOk(Act(w, id, e))
  {
    var t, c := w.tabs[id].t, w.tabs[id].c;
    var e := OnClientMessage(t, up.channel.client, up.id, up.body);
    var v := Act(w, id, e);
    assert LockOk(w, id);
    CommitGrows(w, id, e, c);
    assert v.forwards == w.forwards && v.answers == w.answers;
    OthersStayMapped(w, v, id);
    AskMaps(w, id, up);
    AskRecorded(w, id, up);
  }

  lemma AskMaps(w: World, id: TabId, up: Up)
    requires RequestsOk(w) && Asks(w, id, up)
    ensures MapsOk(Act(w, id, OnClientMessage(w.tabs[id].t, up.channel.client, up.id, up.body)), id)
  {
    var t := w.tabs[id].t;
    var e := OnClientMessage(t, up.channel.client, up.id, up.body);
    var v := Act(w, id, e);
    assert v.forwards == w.forwards && MapsOk(w, id);
    forall k, env | k in e.t.bridges && env in e.t.bridges[k].idMap
      ensures Mapped(v, e.t.leaderId, k, env, e.t.bridges[k].idMap[env])
    {
      if env != t.nextEnvelope {
        assert Mapped(w, t.leaderId, k, env, t.bridges[k].idMap[env]);
      }
    }
  }

  lemma AskKeepsInv(w: World, id: TabId, up: Up)
    requires Inv(w) && Enabled(w, ClientEnvelope(id, up)) && up.body.kind != CloseConnection
    ensures Inv(Next(w, ClientEnvelope(id, up)))
  {
    assert TabOk(w, id) && LockOk(w, id) && UpOk(w, up);
    FreshEnvelope(w, id);
    AskRequests(w, id, up);
    AskRest(w, id, up);
  }

  lemma AskRest(w: World, id: TabId, up: Up)
    requires TabsOk(w) && LocksOk(w) && MessagesOk(w) && PagesOk(w)
    requires id in w.tabs && up.channel.client in w.tabs[id].t.bridges && up.body.kind != CloseConnection
    requires Prepared(w, id, OnClientMessage(w.tabs[id].t, up.channel.client, up.id, up.body), w.tabs[id].c)
    ensures var v := Act(w, id, OnClientMessage(w.tabs[id].t, up.channel.client, up.id, up.body));
      TabsOk(v) && LocksOk(v) && MessagesOk(v) && PagesOk(v)
  {
    var t, c := w.tabs[id].t, w.tabs[id].c;
    var e := OnClientMessage(t, up.channel.client, up.id, up.body);
    assert TabOk(w, id) && LockOk(w, id) && HandshakeOk(w, id) && SettledOk(w, id);
    ClientMessageOk(t, up.channel.client, up.id, up.body);
    HearNone(c);
    HandshakeStays(w, id, e, c);
    CommitTabs(w, id, e, c);
    CommitLocks(w, id, e, c);
    CommitMessages(w, id, e, c);
    CommitSettled(w, id, e, c);
    CommitPages(w, id, e, c);
  }

  lemma ClientEnvelopeKeepsInv(w: World, id: TabId, up: Up)
    requires Inv(w) && Enabled(w, ClientEnvelope(id, up))
    ensures Inv(Next(w, ClientEnvelope(id, up)))
  {
    assert TabOk(w, id) && HandshakeOk(w, id) && UpOk(w, up);
    if up.body.kind == CloseConnection {
      PlainClientClose(w, id, up);
      PlainKeepsInv(w, id, OnClientMessage(w.tabs[id].t, up.channel.client, up.id, up.body), w.tabs[id].c);
    } else {
      AskKeepsInv(w, id, up);
    }
  }

  lemma WriterAnswersKeepsInv(w: World, request: Request, answer: Answer)
    requires Inv(w) && Enabled(w, WriterAnswers(request, answer))
    ensures Inv(Next(w, WriterAnswers(request, answer)))
  {
    AnswerTabs(w, request, answer);
    AnswerRequests(w, request, answer);
    AnswerMessages(w, request, answer);
  }

  lemma AnswerTabs(w: World, request: Request, answer: Answer)
    requires TabsOk(w) && LocksOk(w)
    ensures var v := w.(answers := w.answers[request := answer]); TabsOk(v) && LocksOk(v)
  {
    var v := w.(answers := w.answers[request := answer]);
    forall k | k in v.tabs ensures TabOk(v, k) && LockOk(v, k) { assert TabOk(w, k) && LockOk(w, k); }
  }

  lemma AnswerMessages(w: World, request: Request, answer: Answer)
    requires MessagesOk(w) && PagesOk(w) && Enabled(w, WriterAnswers(request, answer))
    ensures var v := w.(answers := w.answers[request := answer]); MessagesOk(v) && PagesOk(v)
  {
    var v := w.(answers := w.answers[request := answer]);
    assert Grows(w, v, 0) && Grows(w, v, 1);
    OthersStayExplained(w, v, 0);
    OthersStayExplained(w, v, 1);
  }

  lemma AnswerRequests(w: World, request: Request, answer: Answer)
    requires RequestsOk(w) && Enabled(w, WriterAnswers(request, answer))
    ensures RequestsOk(w.(answers := w.answers[request := answer]))
  {
    var v := w.(answers := w.answers[request := answer]);
    forall r | r in v.asked ensures AskedOk(v, r) { assert AskedOk(w, r); }
    forall k | k in v.tabs ensures MapsOk(v, k) {
      assert MapsOk(w, k);
      var t := v.tabs[k].t;
      forall c, e | c in t.bridges && e in t.bridges[c].idMap
        ensures Mapped(v, t.leaderId, c, e, t.bridges[c].idMap[e])
      {
        assert Mapped(w, t.leaderId, c, e, t.bridges[c].idMap[e]);
      }
    }
  }

  // ----- a writer reply, passed on by the one bridge that mapped it

  ghost predicate PassesOn(w: World, id: TabId, client: TabId, r: Request) {
    && Enabled(w, WriterReply(id, client, r))
    && r.env in w.tabs[id].t.bridges[client].idMap
  }

  lemma ReplyMaps(w: World, id: TabId, client: TabId, r: Request)
    requires RequestsOk(w) && LocksOk(w) && PassesOn(w, id, client, r) && TabOk(w, id)
    ensures MapsOk(Next(w, WriterReply(id, client, r)), id)
  {
    var t := w.tabs[id].t;
    var e := OnWriterMessage(t, client, r.env, w.answers[r]);
    var v := Next(w, WriterReply(id, client, r));
    assert v.forwards == w.forwards + [r] && v.asked == w.asked;
    assert MapsOk(w, id);
    forall k, env | k in e.t.bridges && env in e.t.bridges[k].idMap
      ensures Mapped(v, e.t.leaderId, k, env, e.t.bridges[k].idMap[env])
    {
      assert Mapped(w, t.leaderId, k, env, t.bridges[k].idMap[env]);
      assert env != r.env;
    }
  }

  lemma ReplyForwards(w: World, id: TabId, client: TabId, r: Request)
    requires RequestsOk(w) && PassesOn(w, id, client, r) && TabOk(w, id)
    ensures ForwardsOk(Next(w, WriterReply(id, client, r)))
  {
    var t := w.tabs[id].t;
    assert MapsOk(w, id);
    assert Mapped(w, t.leaderId, client, r.env, t.bridges[client].idMap[r.env]);
    assert Next(w, WriterReply(id, client, r)).forwards == w.forwards + [r];
  }

  lemma ReplyRequests(w: World, id: TabId, client: TabId, r: Request)
    requires RequestsOk(w) && LocksOk(w) && PassesOn(w, id, client, r) && TabOk(w, id)
    ensures RequestsOk(Next(w, WriterReply(id, client, r)))
  {
    var e, c := OnWriterMessage(w.tabs[id].t, client, r.env, w.answers[r]), w.tabs[id].c;
    CommitGrows(w, id, e, c);
    ReplyMaps(w, id, client, r);
    ReplyForwards(w, id, client, r);
    ReplyOthers(w, Next(w, WriterReply(id, client, r)), id, r);
  }

  lemma ReplyOthers(w: World, v: World, id: TabId, r: Request)
    requires RequestsOk(w) && LocksOk(w) && Grows(w, v, id) && id in w.tabs
    requires w.tabs[id].t.leaderId == Some(r.leader)
    requires v.asked == w.asked && v.answers == w.answers && v.forwards == w.forwards + [r]
    ensures forall k :: k in v.tabs && k != id ==> MapsOk(v, k)
    ensures forall q :: q in v.asked ==> AskedOk(v, q)
  {
    assert LockOk(w, id);
    OthersStayMapped(w, v, id);
    StillAsked(w, v, id);
  }

  lemma StillAsked(w: World, v: World, id: TabId)
    requires Grows(w, v, id) && v.asked == w.asked && v.answers == w.answers
    requires forall q :: q in w.asked ==> AskedOk(w, q)
    ensures forall q :: q in v.asked ==> AskedOk(v, q)
  {
    forall q | q in v.asked ensures AskedOk(v, q) { assert AskedOk(w, q); }
  }

  lemma ReplyExplained(w: World, id: TabId, client: TabId, r: Request)
    requires RequestsOk(w) && PassesOn(w, id, client, r) && TabOk(w, id)
    ensures var t, v := w.tabs[id].t, Next(w, WriterReply(id, client, r));
      Explained(v, client, t.bridges[client].idMap[r.env], FromWriter(w.answers[r]))
  {
    var t, c := w.tabs[id].t, w.tabs[id].c;
    var v := Next(w, WriterReply(id, client, r));
    var i := t.bridges[client].idMap[r.env];
    CommitGrows(w, id, OnWriterMessage(t, client, r.env, w.answers[r]), c);
    assert MapsOk(w, id);
    assert Mapped(w, t.leaderId, client, r.env, i);
    assert AskedOk(w, r);
    assert AnsweredBy(v, r, client, i, w.answers[r]);
  }

  lemma ReplyTabs(w: World, id: TabId, client: TabId, r: Request)
    requires TabsOk(w) && LocksOk(w) && PassesOn(w, id, client, r)
    ensures var v := Next(w, WriterReply(id, client, r)); TabsOk(v) && LocksOk(v)
  {
    var t, c := w.tabs[id].t, w.tabs[id].c;
    var e := OnWriterMessage(t, client, r.env, w.answers[r]);
    assert TabOk(w, id) && LockOk(w, id);
    WriterMessageOk(t, client, r.env, w.answers[r]);
    HearNone(c);
    CommitTabs(w, id, e, c);
    CommitLocks(w, id, e, c);
  }

  lemma ReplyMessages(w: World, id: TabId, client: TabId, r: Request)
    requires RequestsOk(w) && MessagesOk(w) && PagesOk(w) && PassesOn(w, id, client, r) && TabOk(w, id)
    ensures MessagesOk(Next(w, WriterReply(id, client, r)))
  {
    var t, c := w.tabs[id].t, w.tabs[id].c;
    ReplyExplained(w, id, client, r);
    CommitMessages(w, id, OnWriterMessage(t, client, r.env, w.answers[r]), c);
  }

  lemma ReplyPages(w: World, id: TabId, client: TabId, r: Request)
    requires RequestsOk(w) && MessagesOk(w) && PagesOk(w) && PassesOn(w, id, client, r) && TabOk(w, id)
    ensures PagesOk(Next(w, WriterReply(id, client, r)))
  {
    var t, c := w.tabs[id].t, w.tabs[id].c;
    var e := OnWriterMessage(t, client, r.env, w.answers[r]);
    assert HandshakeOk(w, id) && SettledOk(w, id);
    HandshakeStays(w, id, e, c);
    CommitSettled(w, id, e, c);
    CommitPages(w, id, e, c);
  }

  lemma WriterReplyKeepsInv(w: World, id: TabId, client: TabId, r: Request)
    requires Inv(w) && Enabled(w, WriterReply(id, client, r))
    ensures Inv(Next(w, WriterReply(id, client, r)))
  {
    assert TabOk(w, id) && HandshakeOk(w, id);
    if PassesOn(w, id, client, r) {
      ReplyRequests(w, id, client, r);
      ReplyTabs(w, id, client, r);
      ReplyMessages(w, id, client, r);
      ReplyPages(w, id, client, r);
    } else {
      PlainQuiet(w, id);
      PlainKeepsInv(w, id, Quiet(w.tabs[id].t), w.tabs[id].c);
    }
  }

  // ----- every step, every run

  lemma LockStepKeepsInv(w: World, step: Step)
    requires Inv(w) && Enabled(w, step)
    requires step.Start? || step.Grant? || step.LockReleased? || step.LockAborted? || step.LockRejected?
    ensures Inv(Next(w, step))
  {
    match step
    case Start(id) => StartKeepsInv(w, id);
    case Grant(newId) => GrantKeepsInv(w, newId);
    case LockReleased => ReleaseKeepsInv(w);
    case LockAborted(id) => DequeueKeepsInv(w, id);
    case LockRejected(id) => LockRejectedKeepsInv(w, id);
  }

  lemma WriterStepKeepsInv(w: World, step: Step)
    requires Inv(w) && Enabled(w, step)
    requires step.WriterError? || step.ClientEnvelope? || step.WriterAnswers? || step.WriterReply?
    ensures Inv(Next(w, step))
  {
    match step
    case WriterError(id, leader, now) => WriterErrorKeepsInv(w, id, leader, now);
    case ClientEnvelope(id, up) => ClientEnvelopeKeepsInv(w, id, up);
    case WriterAnswers(request, answer) => WriterAnswersKeepsInv(w, request, answer);
    case WriterReply(id, client, request) => WriterReplyKeepsInv(w, id, client, request);
  }

  lemma NextKeepsInv(w: World, step: Step)
    requires Inv(w) && Enabled(w, step)
    ensures Inv(Next(w, step))
  {
    if PlainKind(step) {
      PlainNextKeepsInv(w, step);
    } else if step.WriterError? || step.ClientEnvelope? || step.WriterAnswers? || step.WriterReply? {
      WriterStepKeepsInv(w, step);
    } else {
      LockStepKeepsInv(w, step);
    }
  }

  predicate PlainKind(step: Step) {
    || step.Discover? || step.Retry? || step.PairEnvelope? || step.Send?
    || step.Microtask? || step.Terminate? || step.CloseTransport?
  }

  function PlainEffect(w: World, step: Step): Effect
    requires PlainKind(step) && Enabled(w, step)
  {
    var t, c := w.tabs[step.id].t, w.tabs[step.id].c;
    match step
    case Discover(_, sent) => OnDiscovery(t, sent.msg)
    case Retry(_) => RetryTimer(t)
    case PairEnvelope(_, down) => OnPairMessage(t, down.id, down.reply)
    case Send(_, body) => PostMessage(t, c.nextId, body)
    case Microtask(_) => RunMicrotask(t)
    case Terminate(_) => TerminateEffect(w.tabs[step.id])
    case CloseTransport(_) => Close(t)
  }

  function PlainClient(w: World, step: Step): Client
    requires PlainKind(step) && Enabled(w, step)
  {
    var c := w.tabs[step.id].c;
    match step
    case Send(_, body) => Register(c, body)
    case Terminate(_) => Terminated(c)
    case _ => c
  }

  lemma PlainNext(w: World, step: Step)
    requires PlainKind(step) && Enabled(w, step)
    ensures Next(w, step) == Commit(w, step.id, PlainEffect(w, step), PlainClient(w, step))
  {
  }

  lemma PlainSteps(w: World, step: Step)
    requires PlainKind(step) && Enabled(w, step) && TabOk(w, step.id) && HandshakeOk(w, step.id)
    requires step.Discover? ==> DiscOk(w, step.sent)
    requires step.PairEnvelope? ==> DownOk(w, step.down)
    ensures PlainStep(w, step.id, PlainEffect(w, step), PlainClient(w, step))
  {
    match step
    case Discover(id, sent) => PlainDiscovery(w, id, sent.msg);
    case Retry(id) => PlainRetry(w, id);
    case PairEnvelope(id, down) => PlainPairEnvelope(w, id, down);
    case Send(id, body) => PlainSend(w, id, body);
    case Microtask(id) => PlainMicrotask(w, id);
    case Terminate(id) => PlainTerminate(w, id);
    case CloseTransport(id) => PlainClose(w, id);
  }

  lemma PlainNextKeepsInv(w: World, step: Step)
    requires Inv(w) && Enabled(w, step) && PlainKind(step)
    ensures Inv(Next(w, step))
  {
    assert TabOk(w, step.id) && HandshakeOk(w, step.id);
    PlainSteps(w, step);
    PlainNext(w, step);
    PlainKeepsInv(w, step.id, PlainEffect(w, step), PlainClient(w, step));
  }

  lemma LeadsKeepInv(w: World, v: World)
    requires Inv(w) && Leads(w, v)
    ensures Inv(v)
  {
    var step: Step :| Enabled(w, step) && v == Next(w, step);
    NextKeepsInv(w, step);
  }

  /** The invariant holds in every world of every run. */
  lemma {:induction false} RunsKeepInv(worlds: seq<World>, n: nat)
    requires Run(worlds) && n < |worlds|
    ensures Inv(worlds[n])
  {
    if n == 0 {
      InitInv();
    } else {
      RunsKeepInv(worlds, n - 1);
      LeadsKeepInv(worlds[n - 1], worlds[n]);
    }
  }
}
