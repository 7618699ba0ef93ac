/** The page side of the RPC: `WorkerClient` of packages/storage/src/rpc.ts. */
module WorkerClient {
  import opened Common
  import opened Wire

  /** How a `send` promise was settled. */
  datatype Settlement = ByReply(reply: Reply) | ByErrorEvent | ByTerminate

  /** What the caller of `send` sees. */
  datatype Verdict = Resolved(value: int) | Rejected | WrongKind

  /** The client's fields, with two records of its past: what it sent under each id and how each
      settled promise was settled. */
  datatype Client = Client(
    pending: set<nat>,
    nextId: nat,
    attached: bool,
    sent: map<nat, Body>,
    settled: map<nat, Settlement>)

  const FRESH := Client({}, 1, true, map[], map[])

  /** `send` up to its `await`: the id is taken and the promise is registered. */
  function Register(c: Client, body: Body): Client {
    c.(pending := c.pending + {c.nextId}, nextId := c.nextId + 1, sent := c.sent[c.nextId := body])
  }

  /** `terminate` takes an id for its `close` envelope but registers no promise. */
  function TakeId(c: Client, body: Body): Client {
    c.(nextId := c.nextId + 1, sent := c.sent[c.nextId := body])
  }

  /** Settles those of `ids` that are pending, leaves every other promise alone. */
  function Settle(c: Client, ids: set<nat>, how: Settlement): Client {
    c.(pending := c.pending - ids, settled := c.settled + map i | i in c.pending * ids :: how)
  }

  function RejectAll(c: Client, how: Settlement): Client {
    Settle(c, c.pending, how)
  }

  /** One dispatched event, heard only while the client listens. */
  function Hear(c: Client, event: Event): Client {
    if !c.attached then c
    else match event
      case Envelopes(ids, reply) => Settle(c, ids, ByReply(reply))
      case ErrorEvent => RejectAll(c, ByErrorEvent)
  }

  function HearAll(c: Client, events: seq<Event>): Client
    decreases |events|
  {
    if events == [] then c else HearAll(Hear(c, events[0]), events[1..])
  }

  /** The kind guard at the end of `send`. */
  function Judge(body: Body, how: Settlement): Verdict {
    match how
    case ByReply(FromWriter(Response(kind, value))) => if kind == body.kind then Resolved(value) else WrongKind
    case ByReply(CloseAck) => if body.kind == CloseConnection then Resolved(0) else WrongKind
    case _ => Rejected
  }

  /** Ids are handed out once, and an id is pending or settled but not both. */
  ghost predicate Valid(c: Client) {
    && (forall i :: i in c.sent ==> i < c.nextId)
    && c.pending <= c.sent.Keys
    && c.settled.Keys <= c.sent.Keys
    && c.pending !! c.settled.Keys
  }

  /** A promise settled once stays settled the same way, whatever is heard later: the duplicate
      replies that replay causes settle nothing twice. */
  ghost predicate Extends(c: Client, d: Client) {
    && (forall i :: i in c.settled ==> i in d.settled && d.settled[i] == c.settled[i])
    && (forall i :: i in c.sent ==> i in d.sent && d.sent[i] == c.sent[i])
  }

  lemma HearKeepsValid(c: Client, event: Event)
    requires Valid(c)
    ensures Valid(Hear(c, event)) && Extends(c, Hear(c, event))
    ensures Hear(c, event).sent == c.sent && Hear(c, event).nextId == c.nextId
    ensures Hear(c, event).pending <= c.pending
  {
  }

  lemma {:induction false} HearAllKeepsValid(c: Client, events: seq<Event>)
    requires Valid(c)
    ensures Valid(HearAll(c, events)) && Extends(c, HearAll(c, events))
    ensures HearAll(c, events).sent == c.sent && HearAll(c, events).nextId == c.nextId
    ensures HearAll(c, events).pending <= c.pending
    ensures HearAll(c, events).attached == c.attached
    decreases |events|
  {
    if events != [] {
      HearKeepsValid(c, events[0]);
      HearAllKeepsValid(Hear(c, events[0]), events[1..]);
    }
  }

  /** What the first event that concerns a promise does to it. */
  function FirstOutcome(events: seq<Event>, i: nat): Option<Settlement>
    decreases |events|
  {
    if events == [] then None
    else
      match events[0]
      case ErrorEvent => Some(ByErrorEvent)
      case Envelopes(ids, reply) => if i in ids then Some(ByReply(reply)) else FirstOutcome(events[1..], i)
  }

  /** A pending promise is settled by the first event that concerns it and by no later one; if none
      does, it stays pending. */
  lemma {:induction false} FirstEventSettles(c: Client, events: seq<Event>, i: nat)
    requires Valid(c) && c.attached && i in c.pending
    ensures match FirstOutcome(events, i)
            case None => i in HearAll(c, events).pending
            case Some(how) => i in HearAll(c, events).settled && HearAll(c, events).settled[i] == how
    decreases |events|
  {
    if events != [] {
      var d := Hear(c, events[0]);
      HearKeepsValid(c, events[0]);
      HearAllKeepsValid(d, events[1..]);
      if i in d.pending { FirstEventSettles(d, events[1..], i); }
    }
  }

  /** The object itself. `posted` and `closed` stand for the calls it makes on its transport. */
  class PageClient {
    var pending: set<nat>
    var nextId: nat
    var attached: bool
    var posted: seq<(nat, Body)>
    var closed: bool
    var settled: map<nat, Settlement>
    ghost var sent: map<nat, Body>

    ghost function State(): Client
      reads this
    {
      Client(pending, nextId, attached, sent, settled)
    }

    constructor ()
      ensures State() == FRESH && posted == [] && !closed
    {
      pending, nextId, attached, posted, closed := {}, 1, true, [], false;
      settled, sent := map[], map[];
    }

    method Send(body: Body) returns (id: nat)
      modifies this
      ensures id == old(nextId)
      ensures State() == Register(old(State()), body)
      ensures posted == old(posted) + [(id, body)] && closed == old(closed)
    {
      id := nextId;
      nextId := nextId + 1;
      sent := sent[id := body];
      pending := pending + {id};
      posted := posted + [(id, body)];
    }

    /** `#onMessage` for one envelope. */
    method OnMessage(id: nat, reply: Reply)
      modifies this
      ensures State() == Hear(old(State()), Envelopes({id}, reply))
      ensures posted == old(posted) && closed == old(closed)
    {
      if attached && id in pending {
        assert pending * {id} == {id};
        pending := pending - {id};
        settled := settled[id := ByReply(reply)];
      } else if attached {
        assert pending * {id} == {} && pending - {id} == pending;
      }
    }

    method RejectEvery(how: Settlement)
      modifies this
      ensures State() == RejectAll(old(State()), how)
      ensures posted == old(posted) && closed == old(closed)
    {
      var todo := pending;
      while todo != {}
        invariant todo <= pending == old(pending)
        invariant settled == old(settled) + map i | i in pending - todo :: how
        invariant unchanged(`pending, `nextId, `attached, `posted, `closed, `sent)
        decreases todo
      {
        var i :| i in todo;
        settled := settled[i := how];
        todo := todo - {i};
      }
      assert pending * pending == pending - todo;
      pending := {};
    }

    method OnError()
      modifies this
      ensures State() == Hear(old(State()), ErrorEvent)
      ensures posted == old(posted) && closed == old(closed)
    {
      if attached { RejectEvery(ByErrorEvent); }
    }

    method Terminate()
      modifies this
      ensures State() == RejectAll(TakeId(old(State()), Body(CloseConnection, 0)).(attached := false), ByTerminate)
      ensures posted == old(posted) + [(old(nextId), Body(CloseConnection, 0))] && closed
    {
      posted := posted + [(nextId, Body(CloseConnection, 0))];
      sent := sent[nextId := Body(CloseConnection, 0)];
      nextId := nextId + 1;
      attached := false;
      closed := true;
      RejectEvery(ByTerminate);
    }
  }
}
