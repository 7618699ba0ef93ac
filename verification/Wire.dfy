/**
 What travels between tabs: discovery messages, RPC envelopes on the per-pair channels, and
 the names of those channels (packages/storage/src/leader.ts, packages/storage/src/rpc.ts).

 Tabs and leader tenures are named by numbers. A per-pair channel is named by the leader and
 the client it joins; `PairChannelNameInjective` is why the strings can stand aside.
 */
module Wire {
  type TabId = nat
  type LeaderId = nat

  datatype Channel = Channel(leader: LeaderId, client: TabId)

  /** `LeaderMessage`, the discovery wire messages. */
  datatype Discovery =
    | LeaderElected(id: LeaderId)
    | PairRequest(leader: LeaderId, client: TabId, channel: Channel)
    | PairAck(leader: LeaderId, client: TabId)
    | LeaderQuery
    | LeaderFailed(leader: LeaderId)

  /** `WorkerRequest["kind"]`. */
  datatype Kind = Bootstrap | Ping | ListNotes | UpsertNote | GetNote | ArchiveNote | DeleteNote | CloseConnection

  /** A request: its kind and the rest of its fields, which the transport never looks at. */
  datatype Body = Body(kind: Kind, payload: int)

  /** What the writer says about one request. */
  datatype Answer = Response(kind: Kind, value: int) | Failure(message: int)

  /** The terminal envelopes a page can be handed for one of its request ids. */
  datatype Reply =
    | FromWriter(answer: Answer)
    | CloseAck          // made up by the bridge for a client's `close`
    | WriterCrashed     // made up by `failPending`
    | PermanentlyFailed // made up by a transport that has given up

  /** An envelope a client posted on a pair channel, and one a bridge posted back. */
  datatype Up = Up(channel: Channel, id: nat, body: Body)
  datatype Down = Down(channel: Channel, id: nat, reply: Reply)

  /** What the transport dispatches to its listeners. */
  datatype Event = Envelopes(ids: set<nat>, reply: Reply) | ErrorEvent

  /** `pairChannelName`. */
  function PairChannelName(leaderId: string, clientId: string): string {
    "opfs-pair-" + leaderId + "-" + clientId
  }

  /** The longer leader id starts with the shorter one and a dash, and the shorter pair's client id
      makes up for what is left of it. */
  predicate Overlap(l1: string, c1: string, l2: string, c2: string) {
    |l1| < |l2| && l1 + "-" <= l2 && c1 == l2[|l1| + 1..] + "-" + c2
  }

  lemma OverlapNames(l1: string, c1: string, l2: string, c2: string)
    requires |l1| < |l2|
    ensures PairChannelName(l1, c1) == PairChannelName(l2, c2) <==> Overlap(l1, c1, l2, c2)
  {
    var n1, n2, k := PairChannelName(l1, c1), PairChannelName(l2, c2), 10 + |l1|;
    assert n1[10..k + 1] == l1 + "-" && n1[k + 1..] == c1;
    assert n2[10..k + 1] == l2[..|l1| + 1] && n2[k + 1..] == l2[|l1| + 1..] + "-" + c2;
    assert n1 == n1[..10] + n1[10..k + 1] + n1[k + 1..] && n2 == n2[..10] + n2[10..k + 1] + n2[k + 1..];
    assert n1[..10] == "opfs-pair-" == n2[..10];
  }

  /** Names made from leader ids of one length never collide. Both production generators yield ids
      of one length in a given browser. */
  lemma PairChannelNameInjective(l1: string, c1: string, l2: string, c2: string)
    requires |l1| == |l2|
    requires PairChannelName(l1, c1) == PairChannelName(l2, c2)
    ensures l1 == l2 && c1 == c2
  {
    var n1, n2 := PairChannelName(l1, c1), PairChannelName(l2, c2);
    assert n1[10..10 + |l1|] == l1 && n2[10..10 + |l2|] == l2;
    assert n1[11 + |l1|..] == c1 && n2[11 + |l2|..] == c2;
  }

  /** Two pairs share a name exactly when they are equal or overlap one way or the other. */
  lemma PairChannelNamesExactly(l1: string, c1: string, l2: string, c2: string)
    ensures PairChannelName(l1, c1) == PairChannelName(l2, c2)
       <==> (l1 == l2 && c1 == c2) || Overlap(l1, c1, l2, c2) || Overlap(l2, c2, l1, c1)
  {
    if |l1| < |l2| {
      OverlapNames(l1, c1, l2, c2);
    } else if |l2| < |l1| {
      OverlapNames(l2, c2, l1, c1);
    } else if PairChannelName(l1, c1) == PairChannelName(l2, c2) {
      PairChannelNameInjective(l1, c1, l2, c2);
    }
  }

  /** Without the equal lengths two pairs can share a name. */
  lemma PairChannelNameCollides()
    ensures PairChannelName("a-b", "c") == PairChannelName("a", "b-c")
  {
    assert PairChannelName("a-b", "c") == "opfs-pair-a-b-c" == PairChannelName("a", "b-c");
  }
}
