/**
 What each request to the rendezvous backend is answered, from its first step to its last, whatever
 other requests do in between.
 */
module RendezvousOutcomes {
  import opened Common
  import opened RendezvousStore
  import opened RateLimit
  import opened Rendezvous
  import opened RendezvousInvariant
  import opened RendezvousTheorems

  /** Steps of other requests, and of the clock. */
  ghost predicate Others(id: nat, steps: seq<Step>) {
    forall k :: 0 <= k < |steps| ==> steps[k].Tick? || steps[k].id != id
  }

  lemma OtherStep(codeFor: Bytes -> string, w: World, s: Step, id: nat)
    requires Enabled(w, s) && id in w.requests && (s.Tick? || s.id != id)
    ensures id in Next(codeFor, w, s).requests && Next(codeFor, w, s).requests[id] == w.requests[id]
  {
  }

  /** A request stays where its handler stands until its own next step. */
  lemma {:induction false} StaysPut(codeFor: Bytes -> string, w: World, steps: seq<Step>, id: nat)
    requires Runs(codeFor, w, steps) && id in w.requests && Others(id, steps)
    ensures var v := After(codeFor, w, steps);
      id in v.requests && v.requests[id] == w.requests[id] && w.clock <= v.clock
    decreases |steps|
  {
    if steps != [] {
      OtherStep(codeFor, w, steps[0], id);
      MintsPersistStep(codeFor, w, steps[0]);
      StaysPut(codeFor, Next(codeFor, w, steps[0]), steps[1..], id);
    }
  }

  /** Whatever a reachable world runs to is reachable. */
  lemma ReachableOn(codeFor: Bytes -> string, w: World, steps: seq<Step>)
    requires Reachable(codeFor, w) && Runs(codeFor, w, steps)
    ensures Reachable(codeFor, After(codeFor, w, steps))
  {
    var clock: nat, first :|
      clock <= U64_MAX - TTL && Runs(codeFor, Start(clock), first) && w == After(codeFor, Start(clock), first);
    RunOn(codeFor, Start(clock), first, steps);
  }

  /** A first step, and then steps of others. */
  ghost predicate BeginsThen(codeFor: Bytes -> string, w: World, s: Step, between: seq<Step>) {
    Enabled(w, s) && !s.Tick? && Runs(codeFor, Next(codeFor, w, s), between) && Others(s.id, between)
  }

  ghost function Then(codeFor: Bytes -> string, w: World, s: Step, between: seq<Step>): World
    requires BeginsThen(codeFor, w, s, between)
  {
    After(codeFor, Next(codeFor, w, s), between)
  }

  lemma ThenReachable(codeFor: Bytes -> string, w: World, s: Step, between: seq<Step>)
    requires Reachable(codeFor, w) && BeginsThen(codeFor, w, s, between)
    ensures Reachable(codeFor, Then(codeFor, w, s, between))
    ensures s.id in Next(codeFor, w, s).requests && s.id in Then(codeFor, w, s, between).requests
    ensures Then(codeFor, w, s, between).requests[s.id] == Next(codeFor, w, s).requests[s.id]
    ensures Next(codeFor, w, s).clock <= Then(codeFor, w, s, between).clock
  {
    OneStep(codeFor, w, s);
    ReachableOn(codeFor, w, [s]);
    ReachableOn(codeFor, Next(codeFor, w, s), between);
    StaysPut(codeFor, Next(codeFor, w, s), between, s.id);
  }

  // ----- download

  /** What a download answers, from the clock when it began: an upload that had expired by then is
      never served; one that is unexpired when it is taken always is; and one that expires in between
      is served late exactly if no write has swept it. */
  lemma DownloadExactly(codeFor: Bytes -> string, w: World, id: nat, code: string, between: seq<Step>)
    requires Reachable(codeFor, w) && BeginsThen(codeFor, w, BeginDownload(id, code), between)
    ensures id in Then(codeFor, w, BeginDownload(id, code), between).requests
    ensures |code| != 12 ==> Then(codeFor, w, BeginDownload(id, code), between).requests[id] == Done(BadRequest)
    ensures |code| == 12 ==>
      var v := Then(codeFor, w, BeginDownload(id, code), between);
      var waiting := Waiting(v.transfers, |v.transfers|, code);
      && Enabled(v, Take(id))
      && Next(codeFor, v, Take(id)).requests[id] ==
           if waiting.Some? && w.clock < waiting.value.expires
              && (v.clock < waiting.value.expires || code in v.store.blobs)
           then Done(Payload(waiting.value.bytes)) else Done(NotFound)
  {
    ThenReachable(codeFor, w, BeginDownload(id, code), between);
    if |code| == 12 { TakeExactly(codeFor, Then(codeFor, w, BeginDownload(id, code), between), id, code, w.clock); }
  }

  /** The clock is read before the blob is taken, so the expiry bounds the beginning of a download, not
      its end: it is served late exactly when it began before the expiry that has passed by now, and no
      write has swept the blob since. */
  lemma LateDownloadExactly(
    codeFor: Bytes -> string, w: World, id: nat, code: string, between: seq<Step>, upload: Transfer)
    requires Reachable(codeFor, w) && BeginsThen(codeFor, w, BeginDownload(id, code), between) && |code| == 12
    requires var v := Then(codeFor, w, BeginDownload(id, code), between);
      Waiting(v.transfers, |v.transfers|, code) == Some(upload)
    ensures var v := Then(codeFor, w, BeginDownload(id, code), between);
      && Enabled(v, Take(id))
      && (Next(codeFor, v, Take(id)).requests[id] == Done(Payload(upload.bytes)) && upload.expires <= v.clock
          <==> w.clock < upload.expires <= v.clock && code in v.store.blobs)
  {
    DownloadExactly(codeFor, w, id, code, between);
  }

  lemma TakeExactly(codeFor: Bytes -> string, v: World, id: nat, code: string, now: nat)
    requires Reachable(codeFor, v) && id in v.requests && v.requests[id] == DownloadTimed(code, now)
    ensures var waiting := Waiting(v.transfers, |v.transfers|, code);
      Next(codeFor, v, Take(id)).requests[id] ==
        if waiting.Some? && now < waiting.value.expires && (v.clock < waiting.value.expires || code in v.store.blobs)
        then Done(Payload(waiting.value.bytes)) else Done(NotFound)
  {
    DownloadServed(codeFor, v, id);
    ReachableInv(codeFor, v);
    assert ProgressOk(codeFor, v.requests[id], v.mints, v.clock);
    assert code in v.store.blobs ==> BlobIs(v.store.blobs[code], Waiting(v.transfers, |v.transfers|, code));
  }

  // ----- fetch

  /** What a fetch answers: a malformed code is refused, an unknown one not found; otherwise the mint
      it found is Gone exactly when it has expired by the clock reading, else its key is the answer. */
  lemma FetchExactly(codeFor: Bytes -> string, w: World, id: nat, code: string, between: seq<Step>)
    requires Reachable(codeFor, w) && BeginsThen(codeFor, w, BeginFetch(id, code), between)
    ensures id in Then(codeFor, w, BeginFetch(id, code), between).requests
    ensures var v := Then(codeFor, w, BeginFetch(id, code), between);
      && (|code| != 12 ==> v.requests[id] == Done(BadRequest))
      && (|code| == 12 && code !in w.store.records ==> v.requests[id] == Done(NotFound))
      && (|code| == 12 && code in w.store.records ==>
            && MintedAs(w.mints, code, w.store.records[code]) && Enabled(v, ReadFetchClock(id))
            && Next(codeFor, v, ReadFetchClock(id)).requests[id] ==
                 if w.store.records[code].expires <= v.clock then Done(Gone)
                 else Done(Payload(w.store.records[code].value)))
  {
    ThenReachable(codeFor, w, BeginFetch(id, code), between);
    ReachableInv(codeFor, w);
  }

  /** A fetch of a mint that had expired when it began. */
  ghost predicate TooLate(w: World, id: nat, code: string, record: Entry<Bytes>) {
    record.expires <= w.clock && id in w.requests
    && (w.requests[id] == FetchGot(code, record) || w.requests[id] == Done(Gone))
  }

  lemma TooLateStep(codeFor: Bytes -> string, w: World, s: Step, id: nat, code: string, record: Entry<Bytes>)
    requires Enabled(w, s) && TooLate(w, id, code, record)
    ensures TooLate(Next(codeFor, w, s), id, code, record)
  {
    MintsPersistStep(codeFor, w, s);
  }

  lemma {:induction false} StaysTooLate(
    codeFor: Bytes -> string, w: World, steps: seq<Step>, id: nat, code: string, record: Entry<Bytes>)
    requires Runs(codeFor, w, steps) && TooLate(w, id, code, record)
    ensures TooLate(After(codeFor, w, steps), id, code, record)
    decreases |steps|
  {
    if steps != [] {
      TooLateStep(codeFor, w, steps[0], id, code, record);
      StaysTooLate(codeFor, Next(codeFor, w, steps[0]), steps[1..], id, code, record);
    }
  }

  /** A fetch that begins at or after the expiry of the mint it finds never yields the key, whatever
      runs afterwards. */
  lemma ExpiredNeverFetched(codeFor: Bytes -> string, w: World, id: nat, code: string, after: seq<Step>)
    requires Reachable(codeFor, w) && Enabled(w, BeginFetch(id, code)) && |code| == 12
    requires code in w.store.records && w.store.records[code].expires <= w.clock
    requires Runs(codeFor, Next(codeFor, w, BeginFetch(id, code)), after)
    ensures var v := After(codeFor, Next(codeFor, w, BeginFetch(id, code)), after);
      id in v.requests && (v.requests[id].Done? ==> v.requests[id] == Done(Gone))
  {
    StaysTooLate(codeFor, Next(codeFor, w, BeginFetch(id, code)), after, id, code, w.store.records[code]);
  }

  // ----- mint

  /** What the first step of a mint decides: the client's own run of attempts, then the key's length. */
  lemma MintBegins(codeFor: Bytes -> string, w: World, id: nat, ip: string, body: Bytes, later: nat)
    requires Reachable(codeFor, w) && Enabled(w, BeginMint(id, ip, body, later))
    ensures var v := Next(codeFor, w, BeginMint(id, ip, body, later));
      v.requests[id] ==
        if RunLength(Mine(w.attempts, ip) + [Attempt(ip, w.clock, later)]) > 10 then Done(RateLimited)
        else if |body| > 32 then Done(PayloadTooLarge)
        else if |body| < 32 then Done(BadRequest)
        else MintCounted(body)
  {
    RefusedByOwnRun(codeFor, w, id, ip, body, later);
  }

  /** An accepted key is filed under its code until 300 seconds after the clock reading, exactly when
      every earlier mint of the code has expired by the insert; else the mint conflicts. */
  lemma MintExactly(
    codeFor: Bytes -> string, w: World, id: nat, epk: Bytes, before: seq<Step>)
    requires Reachable(codeFor, w) && id in w.requests && w.requests[id] == MintCounted(epk)
    requires BeginsThen(codeFor, w, ReadMintClock(id), before)
    ensures var v := Then(codeFor, w, ReadMintClock(id), before);
      && Enabled(v, InsertMint(id))
      && var v' := Next(codeFor, v, InsertMint(id));
         if forall i :: 0 <= i < |v.mints| && v.mints[i].code == codeFor(epk) ==> v.mints[i].expires <= v.clock then
           && v'.requests[id] == Done(MintedCode(codeFor(epk), w.clock + 300))
           && v'.mints == v.mints + [Mint(codeFor(epk), epk, w.clock + 300, v.clock)]
         else
           v'.requests[id] == Done(Conflict) && v'.mints == v.mints
  {
    ThenReachable(codeFor, w, ReadMintClock(id), before);
    MintAcceptedExactly(codeFor, Then(codeFor, w, ReadMintClock(id), before), id);
  }

  // ----- upload

  /** What the lookup and the checks of an upload decide. */
  lemma UploadChecked(codeFor: Bytes -> string, w: World, id: nat, code: string, body: Bytes, between: seq<Step>)
    requires Reachable(codeFor, w) && BeginsThen(codeFor, w, BeginUpload(id, code, body), between)
    ensures var v := Then(codeFor, w, BeginUpload(id, code, body), between);
      && id in v.requests
      && (|code| != 12 ==> v.requests[id] == Done(BadRequest))
      && (|code| == 12 && code !in w.store.records ==> v.requests[id] == Done(NotFound))
      && (|code| == 12 && code in w.store.records ==>
            && Enabled(v, ReadUploadClock(id))
            && Next(codeFor, v, ReadUploadClock(id)).requests[id] ==
                 if w.store.records[code].expires <= v.clock then Done(Gone)
                 else if |body| > 65536 then Done(PayloadTooLarge)
                 else if |body| == 0 then Done(BadRequest)
                 else UploadTimed(code, body, w.store.records[code].expires))
  {
    ThenReachable(codeFor, w, BeginUpload(id, code, body), between);
    ReachableInv(codeFor, Then(codeFor, w, BeginUpload(id, code, body), between));
  }

  /** A checked upload stores exactly the request's body, to expire with the rendezvous it was checked
      against, exactly when nothing unexpired is waiting under the code. */
  lemma UploadExactly(codeFor: Bytes -> string, w: World, id: nat, before: seq<Step>)
    requires Reachable(codeFor, w) && BeginsThen(codeFor, w, ReadUploadClock(id), before)
    requires w.clock < w.requests[id].record.expires && 0 < |w.requests[id].body| <= 65536
    ensures var v, p := Then(codeFor, w, ReadUploadClock(id), before), w.requests[id];
      && Enabled(v, InsertUpload(id))
      && var waiting, v' := Waiting(v.transfers, |v.transfers|, p.code), Next(codeFor, v, InsertUpload(id));
         if waiting.Some? && v.clock < waiting.value.expires then
           v'.requests[id] == Done(Conflict) && v'.transfers == v.transfers
         else
           && v'.requests[id] == Done(NoContent)
           && v'.transfers == v.transfers + [Uploaded(p.code, p.body, p.record.expires, v.clock)]
  {
    ReachableInv(codeFor, w);
    ThenReachable(codeFor, w, ReadUploadClock(id), before);
    UploadStoredExactly(codeFor, Then(codeFor, w, ReadUploadClock(id), before), id);
  }
}
