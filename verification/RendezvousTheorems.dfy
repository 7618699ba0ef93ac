/** What the rendezvous backend promises, over every interleaving of its handlers. */
module RendezvousTheorems {
  import opened Common
  import opened RendezvousStore
  import opened RateLimit
  import opened Rendezvous
  import opened RendezvousInvariant

  ghost predicate Reachable(codeFor: Bytes -> string, w: World) {
    exists clock: nat, steps ::
      clock <= U64_MAX - TTL && Runs(codeFor, Start(clock), steps) && w == After(codeFor, Start(clock), steps)
  }

  lemma ReachableInv(codeFor: Bytes -> string, w: World)
    requires Reachable(codeFor, w)
    ensures Inv(codeFor, w)
  {
    var clock: nat, steps :|
      clock <= U64_MAX - TTL && Runs(codeFor, Start(clock), steps) && w == After(codeFor, Start(clock), steps);
    StartInv(codeFor, clock);
    RunsKeepInv(codeFor, Start(clock), steps);
  }

  // ----- one pickup per upload

  /** Transfer `j` picks up the blob that transfer `i` stored, and nothing touched the code between. */
  ghost predicate PickupOf(log: seq<Transfer>, i: nat, j: nat) {
    && i < j < |log| && log[i].Uploaded? && log[j].PickedUp?
    && log[i].code == log[j].code && log[i].bytes == log[j].bytes
    && log[j].now < log[i].expires
    && forall k :: i < k < j ==> log[k].code != log[j].code
  }

  lemma PickupExplains(log: seq<Transfer>, j: nat, mints: seq<Mint>)
    requires j < |log| && log[j].PickedUp? && Explained(log, j, mints)
    ensures LastOn(log, j, log[j].code) >= 0 && PickupOf(log, LastOn(log, j, log[j].code), j)
  {
  }

  lemma NoLaterPickup(log: seq<Transfer>, i: nat, j: nat, k: nat)
    requires PickupOf(log, i, j) && PickupOf(log, i, k)
    ensures k <= j
  {
    assert log[j].code == log[k].code;
  }

  /** Every pickup returns the bytes of one earlier upload, which no other pickup returns, and whose
      expiry is that of a rendezvous of the code and lies after the pickup's clock reading. */
  lemma OnePickupPerUpload(codeFor: Bytes -> string, w: World, j: nat)
    requires Reachable(codeFor, w) && j < |w.transfers| && w.transfers[j].PickedUp?
    ensures exists i: nat :: PickupOf(w.transfers, i, j) && MintedUntil(w.mints, w.transfers[j].code,
      w.transfers[i].expires)
                     && forall j': nat :: PickupOf(w.transfers, i, j') ==> j' == j
  {
    var log := w.transfers;
    ReachableInv(codeFor, w);
    assert Explained(log, j, w.mints);
    PickupExplains(log, j, w.mints);
    var i: nat := LastOn(log, j, log[j].code);
    assert Explained(log, i, w.mints);
    assert MintedUntil(w.mints, log[j].code, log[i].expires);
    forall j': nat | PickupOf(log, i, j') ensures j' == j {
      NoLaterPickup(log, i, j, j');
      NoLaterPickup(log, i, j', j);
    }
  }

  function Uploads(log: seq<Transfer>, n: nat, code: string): nat
    requires n <= |log|
  {
    if n == 0 then 0 else Uploads(log, n - 1, code) + if log[n - 1].Uploaded? && log[n - 1].code == code then 1 else 0
  }

  function Pickups(log: seq<Transfer>, n: nat, code: string): nat
    requires n <= |log|
  {
    if n == 0 then 0 else Pickups(log, n - 1, code) + if log[n - 1].PickedUp? && log[n - 1].code == code then 1 else 0
  }

  lemma {:induction false} PickupsCounted(log: seq<Transfer>, n: nat, code: string, mints: seq<Mint>)
    requires n <= |log| && forall j :: 0 <= j < |log| ==> Explained(log, j, mints)
    ensures Pickups(log, n, code) + (if Waiting(log, n, code).Some? then 1 else 0) <= Uploads(log, n, code)
  {
    if n > 0 {
      PickupsCounted(log, n - 1, code, mints);
      assert Explained(log, n - 1, mints);
    }
  }

  /** Successful downloads of a code, and the blob still waiting, never outnumber its uploads. */
  lemma PickupsNeverOutnumber(codeFor: Bytes -> string, w: World, code: string)
    requires Reachable(codeFor, w)
    ensures Pickups(w.transfers, |w.transfers|, code) + (if code in w.store.blobs then 1 else 0)
      <= Uploads(w.transfers, |w.transfers|, code)
  {
    ReachableInv(codeFor, w);
    PickupsCounted(w.transfers, |w.transfers|, code, w.mints);
    assert code in w.store.blobs ==> BlobIs(w.store.blobs[code], Waiting(w.transfers, |w.transfers|, code));
  }

  /** An upload is stored exactly when no earlier upload of the code is still to be picked up and
      unexpired: so a code takes a second upload after its pickup. */
  lemma UploadStoredExactly(codeFor: Bytes -> string, w: World, id: nat)
    requires Reachable(codeFor, w) && Enabled(w, InsertUpload(id))
    ensures var w', p := Next(codeFor, w, InsertUpload(id)), w.requests[id];
      var waiting := Waiting(w.transfers, |w.transfers|, p.code);
      && (w'.requests[id] == Done(NoContent) <==> !(waiting.Some? && w.clock < waiting.value.expires))
      && w'.requests[id] in {Done(NoContent), Done(Conflict)}
      && w'.transfers == w.transfers + if w'.requests[id] == Done(Conflict) then []
                                       else [Uploaded(p.code, p.blob, p.expires, w.clock)]
  {
    ReachableInv(codeFor, w);
    var code := w.requests[id].code;
    var waiting := Waiting(w.transfers, |w.transfers|, code);
    assert code in w.store.blobs ==> BlobIs(w.store.blobs[code], waiting);
  }

  /** A download that takes before the waiting upload expires gets its bytes; one whose clock read
      the expiry, or that finds nothing waiting, gets nothing. */
  lemma DownloadServed(codeFor: Bytes -> string, w: World, id: nat)
    requires Reachable(codeFor, w) && Enabled(w, Take(id))
    ensures var r := Next(codeFor, w, Take(id)).requests[id];
      var waiting := Waiting(w.transfers, |w.transfers|, w.requests[id].code);
      && (waiting.Some? && w.clock < waiting.value.expires ==> r == Done(Payload(waiting.value.bytes)))
      && (waiting.None? || waiting.value.expires <= w.requests[id].now ==> r == Done(NotFound))
      && (r != Done(NotFound) ==> waiting.Some? && r == Done(Payload(waiting.value.bytes)))
  {
    ReachableInv(codeFor, w);
    var code := w.requests[id].code;
    assert code in w.store.blobs ==> BlobIs(w.store.blobs[code], Waiting(w.transfers, |w.transfers|, code));
    assert ProgressOk(codeFor, w.requests[id], w.mints, w.clock);
  }

  // ----- rendezvous agreement

  /** Every key on record has 32 bytes and hashes to the code it is filed under. */
  lemma KeysMatchCodes(codeFor: Bytes -> string, w: World, code: string)
    requires Reachable(codeFor, w) && code in w.store.records
    ensures KeyOf(codeFor, code, w.store.records[code].value)
  {
    ReachableInv(codeFor, w);
    assert MintedAs(w.mints, code, w.store.records[code]);
  }

  /** A mint is accepted exactly when every earlier mint of its code has expired. */
  lemma MintAcceptedExactly(codeFor: Bytes -> string, w: World, id: nat)
    requires Reachable(codeFor, w) && Enabled(w, InsertMint(id))
    ensures var w', p := Next(codeFor, w, InsertMint(id)), w.requests[id];
      && (w'.requests[id] == Done(MintedCode(p.code, p.expires)) <==>
            forall i :: 0 <= i < |w.mints| && w.mints[i].code == p.code ==> w.mints[i].expires <= w.clock)
      && w'.requests[id] in {Done(MintedCode(p.code, p.expires)), Done(Conflict)}
      && w'.mints == w.mints + if w'.requests[id] == Done(Conflict) then []
                               else [Mint(p.code, p.epk, p.expires, w.clock)]
  {
    ReachableInv(codeFor, w);
    var p := w.requests[id];
    var swept := Sweep(w.store, w.clock).records;
    if p.code in swept {
      assert MintedAs(w.mints, p.code, w.store.records[p.code]);
    } else {
      forall i | 0 <= i < |w.mints| && w.mints[i].code == p.code ensures w.mints[i].expires <= w.clock {
        assert w.clock < w.mints[i].expires ==> OnRecord(w.store.records, w.mints[i]);
      }
    }
  }

  lemma MintsPersistStep(codeFor: Bytes -> string, w: World, s: Step)
    requires Enabled(w, s)
    ensures var w' := Next(codeFor, w, s); w.mints <= w'.mints && w.clock <= w'.clock
  {
  }

  lemma {:induction false} MintsPersist(codeFor: Bytes -> string, w: World, steps: seq<Step>)
    requires Runs(codeFor, w, steps)
    ensures var w' := After(codeFor, w, steps); w.mints <= w'.mints && w.clock <= w'.clock
    decreases |steps|
  {
    if steps != [] {
      MintsPersistStep(codeFor, w, steps[0]);
      MintsPersist(codeFor, Next(codeFor, w, steps[0]), steps[1..]);
    }
  }

  /** What becomes of a fetch that found this record. */
  ghost predicate FetchOutcome(w: World, id: nat, code: string, record: Entry<Bytes>) {
    id in w.requests &&
    (w.requests[id] == FetchGot(code, record)
     || w.requests[id] == Done(Payload(record.value))
     || (w.requests[id] == Done(Gone) && record.expires <= w.clock))
  }

  lemma {:induction false} FetchKeepsOutcome(codeFor: Bytes -> string, w: World, steps: seq<Step>, id: nat,
    code: string, record: Entry<Bytes>)
    requires Runs(codeFor, w, steps) && FetchOutcome(w, id, code, record)
    ensures FetchOutcome(After(codeFor, w, steps), id, code, record)
    decreases |steps|
  {
    if steps != [] {
      FetchStep(codeFor, w, steps[0], id, code, record);
      FetchKeepsOutcome(codeFor, Next(codeFor, w, steps[0]), steps[1..], id, code, record);
    }
  }

  lemma FetchStep(codeFor: Bytes -> string, w: World, s: Step, id: nat, code: string, record: Entry<Bytes>)
    requires Enabled(w, s) && FetchOutcome(w, id, code, record)
    ensures FetchOutcome(Next(codeFor, w, s), id, code, record)
  {
    MintsPersistStep(codeFor, w, s);
  }

  /** From the insert of a mint until its expiry, whatever runs in between, every fetch of the code
      finds that key; it is then answered with the key, or with Gone if its clock reading comes only
      after the expiry. */
  lemma FetchAgrees(codeFor: Bytes -> string, w: World, i: nat, before: seq<Step>, id: nat, after: seq<Step>)
    requires Reachable(codeFor, w) && i < |w.mints| && |w.mints[i].code| == CODE_LEN
    requires Runs(codeFor, w, before) && After(codeFor, w, before).clock < w.mints[i].expires
    requires id !in After(codeFor, w, before).requests
    requires Runs(codeFor, BeginsFetch(After(codeFor, w, before), id, w.mints[i].code), after)
    ensures var m := w.mints[i];
      var end := After(codeFor, BeginsFetch(After(codeFor, w, before), id, m.code), after);
      && FetchOutcome(end, id, m.code, Entry(m.epk, m.expires))
      && (end.clock < m.expires && end.requests[id].Done? ==> end.requests[id] == Done(Payload(m.epk)))
  {
    var m, mid := w.mints[i], After(codeFor, w, before);
    ReachableInv(codeFor, w);
    RunsKeepInv(codeFor, w, before);
    MintsPersist(codeFor, w, before);
    assert mid.mints[i] == m && OnRecord(mid.store.records, mid.mints[i]);
    FetchKeepsOutcome(codeFor, BeginsFetch(mid, id, m.code), after, id, m.code, Entry(m.epk, m.expires));
  }

  // ----- the rate limit

  /** A mint attempt is refused exactly when it makes its client's own run of short gaps longer than
      the limit, whatever other clients do. */
  lemma RefusedByOwnRun(codeFor: Bytes -> string, w: World, id: nat, ip: string, body: Bytes, later: nat)
    requires Reachable(codeFor, w) && Enabled(w, BeginMint(id, ip, body, later))
    ensures var w' := Next(codeFor, w, BeginMint(id, ip, body, later));
      && Mine(w'.attempts, ip) == Mine(w.attempts, ip) + [Attempt(ip, w.clock, later)]
      && (w'.requests[id] == Done(RateLimited) <==> !Accepted(Mine(w'.attempts, ip)))
      && w'.store.counters[ip].value == Min(RunLength(Mine(w'.attempts, ip)), U32_MAX)
  {
    ReachableInv(codeFor, w);
    CountIsRun(codeFor, w, ip, later);
    MineGrows(w.attempts, Attempt(ip, w.clock, later), ip);
  }

  /** No 300-second window holds more than ten accepted attempts of one client. */
  lemma RateLimitHolds(codeFor: Bytes -> string, w: World, ip: string, start: nat)
    requires Reachable(codeFor, w)
    ensures AcceptedInWindow(Mine(w.attempts, ip), start) <= 10
  {
    ReachableInv(codeFor, w);
    MineInOrder(w.attempts, ip);
    WindowBound(Mine(w.attempts, ip), start);
  }

  // ----- a pickup can be late

  lemma {:induction false} RunOn(codeFor: Bytes -> string, w: World, steps: seq<Step>, more: seq<Step>)
    requires Runs(codeFor, w, steps) && Runs(codeFor, After(codeFor, w, steps), more)
    ensures Runs(codeFor, w, steps + more)
    ensures After(codeFor, w, steps + more) == After(codeFor, After(codeFor, w, steps), more)
    decreases |steps|
  {
    if steps == [] {
      assert steps + more == more;
    } else {
      RunOn(codeFor, Next(codeFor, w, steps[0]), steps[1..], more);
      assert (steps + more)[1..] == steps[1..] + more;
    }
  }

  lemma OneStep(codeFor: Bytes -> string, w: World, s: Step)
    requires Enabled(w, s)
    ensures Runs(codeFor, w, [s]) && After(codeFor, w, [s]) == Next(codeFor, w, s)
  {
    assert [s][1..] == [];
  }

  lemma ThreeSteps(codeFor: Bytes -> string, w: World, a: Step, b: Step, c: Step)
    requires Enabled(w, a) && Enabled(Next(codeFor, w, a), b) && Enabled(Next(codeFor, Next(codeFor, w, a), b), c)
    ensures Runs(codeFor, w, [a, b, c])
    ensures After(codeFor, w, [a, b, c]) == Next(codeFor, Next(codeFor, Next(codeFor, w, a), b), c)
  {
    var w1 := Next(codeFor, w, a);
    var w2 := Next(codeFor, w1, b);
    OneStep(codeFor, w, a);
    OneStep(codeFor, w1, b);
    OneStep(codeFor, w2, c);
    RunOn(codeFor, w, [a], [b]);
    RunOn(codeFor, w, [a] + [b], [c]);
    assert [a] + [b] + [c] == [a, b, c];
  }

  /** A rendezvous until 300, its blob at 0, and a pickup at 300 by a handler whose clock read 0. */
  function AfterMint(code: string, epk: Bytes): World {
    World(0, Store(map[code := Entry(epk, 300)], map[], map["" := Entry(1, 300)]),
      map[0 := Done(MintedCode(code, 300))],
          [Attempt("", 0, 0)], [Mint(code, epk, 300, 0)], [])
  }

  function AfterUpload(code: string, epk: Bytes): World {
    var w := AfterMint(code, epk);
    w.(store := w.store.(blobs := map[code := Entry([7], 300)]), requests := w.requests[1 := Done(NoContent)],
       transfers := [Uploaded(code, [7], 300, 0)])
  }

  function AfterPickup(code: string, epk: Bytes): World {
    var w := AfterUpload(code, epk);
    w.(clock := 300, store := w.store.(blobs := map[]), requests := w.requests[2 := Done(Payload([7]))],
       transfers := [Uploaded(code, [7], 300, 0), PickedUp(code, [7], 0, 300)])
  }

  lemma MintRun(codeFor: Bytes -> string, epk: Bytes)
    requires |epk| == EPK_LEN
    ensures var steps := [BeginMint(0, "", epk, 0), ReadMintClock(0), InsertMint(0)];
      Runs(codeFor, Start(0), steps) && After(codeFor, Start(0), steps) == AfterMint(codeFor(epk), epk)
  {
    var code := codeFor(epk);
    var w1 := Next(codeFor, Start(0), BeginMint(0, "", epk, 0));
    assert w1 == World(0, Store(map[], map[], map["" := Entry(1, 300)]), map[0 := MintCounted(epk)],
      [Attempt("", 0, 0)], [], []);
    var w2 := Next(codeFor, w1, ReadMintClock(0));
    assert w2.requests == map[0 := MintTimed(code, epk, 300)];
    assert Next(codeFor, w2, InsertMint(0)) == AfterMint(code, epk);
    ThreeSteps(codeFor, Start(0), BeginMint(0, "", epk, 0), ReadMintClock(0), InsertMint(0));
  }

  lemma UploadRun(codeFor: Bytes -> string, code: string, epk: Bytes)
    requires |code| == CODE_LEN
    ensures var w, steps := AfterMint(code, epk), [BeginUpload(1, code, [7]), ReadUploadClock(1), InsertUpload(1)];
      Runs(codeFor, w, steps) && After(codeFor, w, steps) == AfterUpload(code, epk)
  {
    var w := AfterMint(code, epk);
    var w1 := Next(codeFor, w, BeginUpload(1, code, [7]));
    assert w1.requests[1] == UploadGot(code, [7], Entry(epk, 300));
    var w2 := Next(codeFor, w1, ReadUploadClock(1));
    assert w2 == w.(requests := w.requests[1 := UploadTimed(code, [7], 300)]);
    assert Next(codeFor, w2, InsertUpload(1)) == AfterUpload(code, epk);
    ThreeSteps(codeFor, w, BeginUpload(1, code, [7]), ReadUploadClock(1), InsertUpload(1));
  }

  lemma PickupRun(codeFor: Bytes -> string, code: string, epk: Bytes)
    requires |code| == CODE_LEN
    ensures var w, steps := AfterUpload(code, epk), [BeginDownload(2, code), Tick(300), Take(2)];
      Runs(codeFor, w, steps) && After(codeFor, w, steps) == AfterPickup(code, epk)
  {
    var w := AfterUpload(code, epk);
    var w2 := Next(codeFor, Next(codeFor, w, BeginDownload(2, code)), Tick(300));
    assert w2 == w.(clock := 300, requests := w.requests[2 := DownloadTimed(code, 0)]);
    assert Next(codeFor, w2, Take(2)) == AfterPickup(code, epk);
    ThreeSteps(codeFor, w, BeginDownload(2, code), Tick(300), Take(2));
  }

  /** One run of the kind, from an empty store. */
  lemma ALatePickup(codeFor: Bytes -> string, epk: Bytes)
    requires |epk| == EPK_LEN && |codeFor(epk)| == CODE_LEN
    ensures Reachable(codeFor, AfterPickup(codeFor(epk), epk))
    ensures var log := AfterPickup(codeFor(epk), epk).transfers; PickupOf(log, 0, 1) && log[1].at >= log[0].expires
  {
    var code := codeFor(epk);
    var mint, upload, pickup := [BeginMint(0, "", epk, 0), ReadMintClock(0), InsertMint(0)],
      [BeginUpload(1, code, [7]), ReadUploadClock(1), InsertUpload(1)], [BeginDownload(2, code), Tick(300), Take(2)];
    MintRun(codeFor, epk);
    UploadRun(codeFor, code, epk);
    PickupRun(codeFor, code, epk);
    RunOn(codeFor, Start(0), mint, upload);
    RunOn(codeFor, Start(0), mint + upload, pickup);
  }

  // ----- a code takes a second upload

  function AfterDownload(code: string, epk: Bytes): World {
    var w := AfterUpload(code, epk);
    w.(store := w.store.(blobs := map[]), requests := w.requests[2 := Done(Payload([7]))],
       transfers := [Uploaded(code, [7], 300, 0), PickedUp(code, [7], 0, 0)])
  }

  function AfterSecond(code: string, epk: Bytes): World {
    var w := AfterDownload(code, epk);
    w.(store := w.store.(blobs := map[code := Entry([8], 300)]), requests := w.requests[3 := Done(NoContent)],
       transfers := [Uploaded(code, [7], 300, 0), PickedUp(code, [7], 0, 0), Uploaded(code, [8], 300, 0)])
  }

  lemma DownloadRun(codeFor: Bytes -> string, code: string, epk: Bytes)
    requires |code| == CODE_LEN
    ensures var w, steps := AfterUpload(code, epk), [BeginDownload(2, code), Tick(0), Take(2)];
      Runs(codeFor, w, steps) && After(codeFor, w, steps) == AfterDownload(code, epk)
  {
    var w := AfterUpload(code, epk);
    var w2 := Next(codeFor, Next(codeFor, w, BeginDownload(2, code)), Tick(0));
    assert w2 == w.(requests := w.requests[2 := DownloadTimed(code, 0)]);
    assert Next(codeFor, w2, Take(2)) == AfterDownload(code, epk);
    ThreeSteps(codeFor, w, BeginDownload(2, code), Tick(0), Take(2));
  }

  lemma SecondRun(codeFor: Bytes -> string, code: string, epk: Bytes)
    requires |code| == CODE_LEN
    ensures var w, steps := AfterDownload(code, epk), [BeginUpload(3, code, [8]), ReadUploadClock(3), InsertUpload(3)];
      Runs(codeFor, w, steps) && After(codeFor, w, steps) == AfterSecond(code, epk)
  {
    var w := AfterDownload(code, epk);
    var w1 := Next(codeFor, w, BeginUpload(3, code, [8]));
    assert w1.requests[3] == UploadGot(code, [8], Entry(epk, 300));
    var w2 := Next(codeFor, w1, ReadUploadClock(3));
    assert w2 == w.(requests := w.requests[3 := UploadTimed(code, [8], 300)]);
    assert Next(codeFor, w2, InsertUpload(3)) == AfterSecond(code, epk);
    ThreeSteps(codeFor, w, BeginUpload(3, code, [8]), ReadUploadClock(3), InsertUpload(3));
  }

  /** Two uploads of one code, both stored well before the rendezvous expires. */
  lemma ACodeUploadedTwice(codeFor: Bytes -> string, epk: Bytes)
    requires |epk| == EPK_LEN && |codeFor(epk)| == CODE_LEN
    ensures var code, w := codeFor(epk), AfterSecond(codeFor(epk), epk);
      && Reachable(codeFor, w) && w.clock < w.mints[0].expires && |w.mints| == 1 && w.mints[0].code == code
      && Uploads(w.transfers, |w.transfers|, code) == 2
  {
    var code := codeFor(epk);
    var mint, upload := [BeginMint(0, "", epk, 0), ReadMintClock(0), InsertMint(0)],
      [BeginUpload(1, code, [7]), ReadUploadClock(1), InsertUpload(1)];
    var download, again := [BeginDownload(2, code), Tick(0), Take(2)],
      [BeginUpload(3, code, [8]), ReadUploadClock(3), InsertUpload(3)];
    MintRun(codeFor, epk);
    UploadRun(codeFor, code, epk);
    DownloadRun(codeFor, code, epk);
    SecondRun(codeFor, code, epk);
    RunOn(codeFor, Start(0), mint, upload);
    RunOn(codeFor, Start(0), mint + upload, download);
    RunOn(codeFor, Start(0), mint + upload + download, again);
    CountTwo(AfterSecond(code, epk).transfers, code);
  }

  lemma UploadsStep(log: seq<Transfer>, n: nat, code: string)
    requires n < |log|
    ensures Uploads(log, n + 1, code)
      == Uploads(log, n, code) + if log[n].Uploaded? && log[n].code == code then 1 else 0
  {
  }

  lemma CountTwo(log: seq<Transfer>, code: string)
    requires |log| == 3 && log[0].Uploaded? && log[1].PickedUp? && log[2].Uploaded?
    requires log[0].code == code == log[2].code
    ensures Uploads(log, |log|, code) == 2
  {
    UploadsStep(log, 0, code);
    UploadsStep(log, 1, code);
    UploadsStep(log, 2, code);
  }
}
