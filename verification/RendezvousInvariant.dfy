/** What every step of the rendezvous backend keeps, table by table. */
module RendezvousInvariant {
  import opened Common
  import opened RendezvousStore
  import opened RateLimit
  import opened Rendezvous

  type Table<V> = map<string, Entry<V>>

  // ----- rendezvous records

  /** A key a code may be filed with. */
  ghost predicate KeyOf(codeFor: Bytes -> string, code: string, epk: Bytes) {
    |epk| == EPK_LEN && codeFor(epk) == code
  }

  ghost predicate MintedAs(mints: seq<Mint>, code: string, e: Entry<Bytes>) {
    exists i :: 0 <= i < |mints| && mints[i].code == code && mints[i].epk == e.value && mints[i].expires == e.expires
  }

  ghost predicate MintedUntil(mints: seq<Mint>, code: string, expires: nat) {
    exists i :: 0 <= i < |mints| && mints[i].code == code && mints[i].expires == expires
  }

  /** Every record comes from a mint, a mint that has not expired is on record, and the next mint of
      a code comes no earlier than the expiry of the one before. */
  ghost predicate RecordsInv(codeFor: Bytes -> string, records: Table<Bytes>, mints: seq<Mint>, clock: nat) {
    && (forall code :: code in records ==> MintedAs(mints, code, records[code]))
    && (forall i :: 0 <= i < |mints| ==> mints[i].at <= clock && KeyOf(codeFor, mints[i].code, mints[i].epk))
    && (forall i :: 0 <= i < |mints| && clock < mints[i].expires ==> OnRecord(records, mints[i]))
    && (forall i, j :: 0 <= i < j < |mints| && mints[i].code == mints[j].code ==> mints[i].expires <= mints[j].at)
  }

  ghost predicate OnRecord(records: Table<Bytes>, m: Mint) {
    m.code in records && records[m.code] == Entry(m.epk, m.expires)
  }

  lemma RecordsSwept(codeFor: Bytes -> string, records: Table<Bytes>, mints: seq<Mint>, clock: nat, now: nat)
    requires RecordsInv(codeFor, records, mints, clock) && clock <= now
    ensures RecordsInv(codeFor, records, mints, now)
    ensures RecordsInv(codeFor, Retained(records, now), mints, now)
  {
    var after := Retained(records, now);
    forall i | 0 <= i < |mints| && now < mints[i].expires
      ensures OnRecord(records, mints[i]) && OnRecord(after, mints[i])
    {
    }
    forall code | code in after ensures MintedAs(mints, code, after[code]) {
      assert MintedAs(mints, code, records[code]);
    }
  }

  lemma RecordsInserted(codeFor: Bytes -> string, records: Table<Bytes>, mints: seq<Mint>, m: Mint)
    requires RecordsInv(codeFor, records, mints, m.at) && m.code !in records && KeyOf(codeFor, m.code, m.epk)
    ensures RecordsInv(codeFor, records[m.code := Entry(m.epk, m.expires)], mints + [m], m.at)
  {
    var after, log := records[m.code := Entry(m.epk, m.expires)], mints + [m];
    assert log[|mints|] == m;
    forall code | code in after ensures MintedAs(log, code, after[code]) {
      if code != m.code {
        var i :| 0 <= i < |mints| && mints[i].code == code
          && mints[i].epk == records[code].value && mints[i].expires == records[code].expires;
        assert log[i] == mints[i];
      }
    }
    forall i | 0 <= i < |log| && m.at < log[i].expires ensures OnRecord(after, log[i]) {
      if i < |mints| { assert OnRecord(records, mints[i]); }
    }
    forall i, j | 0 <= i < j < |log| && log[i].code == log[j].code ensures log[i].expires <= log[j].at {
      if j == |mints| { assert m.at < mints[i].expires ==> OnRecord(records, mints[i]); }
    }
  }

  // ----- blobs

  /** The last of the first `n` transfers that concerns a code, or -1. */
  function LastOn(log: seq<Transfer>, n: nat, code: string): (r: int)
    requires n <= |log|
    ensures -1 <= r < n && (r >= 0 ==> log[r].code == code)
    ensures forall i :: r < i < n ==> log[i].code != code
  {
    if n == 0 then -1 else if log[n - 1].code == code then n - 1 else LastOn(log, n - 1, code)
  }

  lemma {:induction false} LastOnAppended(log: seq<Transfer>, e: Transfer, n: nat, code: string)
    requires n <= |log|
    ensures LastOn(log + [e], n, code) == LastOn(log, n, code)
  {
    if n > 0 { LastOnAppended(log, e, n - 1, code); }
  }

  /** The upload a code waits to be picked up from. */
  function Waiting(log: seq<Transfer>, n: nat, code: string): (r: Option<Transfer>)
    requires n <= |log|
    ensures r.Some? ==> r.value.Uploaded? && r.value.code == code
  {
    var i := LastOn(log, n, code);
    if i >= 0 && log[i].Uploaded? then Some(log[i]) else None
  }

  lemma WaitingAppended(log: seq<Transfer>, e: Transfer, n: nat, code: string)
    requires n <= |log|
    ensures Waiting(log + [e], n, code) == Waiting(log, n, code)
    ensures Waiting(log + [e], |log| + 1, code)
         == if e.code != code then Waiting(log, |log|, code) else if e.Uploaded? then Some(e) else None
  {
    LastOnAppended(log, e, n, code);
    LastOnAppended(log, e, |log|, code);
  }

  /** A pickup hands out the upload that waits, read before it expired; an upload finds nothing
      waiting that has not expired, and expires with a rendezvous of its code. */
  ghost predicate Explained(log: seq<Transfer>, j: nat, mints: seq<Mint>)
    requires j < |log|
  {
    var e := log[j];
    var before := Waiting(log, j, e.code);
    match e
    case PickedUp(_, bytes, now, at) =>
      before.Some? && before.value.bytes == bytes && now < before.value.expires && now <= at
    case Uploaded(code, bytes, expires, at) =>
      && 0 < |bytes| <= MAX_BLOB
      && MintedUntil(mints, code, expires)
      && (before.Some? ==> before.value.expires <= at)
  }

  ghost predicate BlobIs(b: Entry<Bytes>, waiting: Option<Transfer>) {
    waiting.Some? && waiting.value.Uploaded? && b == Entry(waiting.value.bytes, waiting.value.expires)
  }

  ghost predicate BlobsInv(blobs: Table<Bytes>, log: seq<Transfer>, clock: nat) {
    && (forall code :: code in blobs ==> BlobIs(blobs[code], Waiting(log, |log|, code)))
    && (forall code {:trigger Waiting(log, |log|, code)} ::
          Waiting(log, |log|, code).Some? && clock < Waiting(log, |log|, code).value.expires ==> code in blobs)
  }

  ghost predicate LogInv(log: seq<Transfer>, mints: seq<Mint>, clock: nat) {
    && (forall j :: 0 <= j < |log| ==> Explained(log, j, mints))
    && (forall j :: 0 <= j < |log| ==> log[j].at <= clock)
  }

  lemma BlobsSwept(blobs: Table<Bytes>, log: seq<Transfer>, clock: nat, now: nat)
    requires BlobsInv(blobs, log, clock) && clock <= now
    ensures BlobsInv(blobs, log, now) && BlobsInv(Retained(blobs, now), log, now)
  {
  }

  lemma BlobsInserted(blobs: Table<Bytes>, log: seq<Transfer>, e: Transfer)
    requires e.Uploaded? && BlobsInv(blobs, log, e.at) && e.code !in blobs
    ensures BlobsInv(blobs[e.code := Entry(e.bytes, e.expires)], log + [e], e.at)
  {
    var all := log + [e];
    forall code ensures Waiting(all, |all|, code) == if e.code != code then Waiting(log, |log|, code) else Some(e) {
      WaitingAppended(log, e, |log|, code);
    }
  }

  /** A blob is removed because it was picked up or had expired. */
  lemma BlobsTaken(blobs: Table<Bytes>, log: seq<Transfer>, e: Transfer, clock: nat)
    requires e.PickedUp? && BlobsInv(blobs, log, clock)
    ensures BlobsInv(blobs - {e.code}, log + [e], clock)
  {
    var all := log + [e];
    forall code ensures Waiting(all, |all|, code) == if e.code != code then Waiting(log, |log|, code) else None {
      WaitingAppended(log, e, |log|, code);
    }
  }

  lemma BlobsDropped(blobs: Table<Bytes>, log: seq<Transfer>, code: string, now: nat, clock: nat)
    requires BlobsInv(blobs, log, clock) && now <= clock
    requires code in blobs ==> blobs[code].expires <= now
    ensures BlobsInv(blobs - {code}, log, clock)
  {
    assert code in blobs ==> BlobIs(blobs[code], Waiting(log, |log|, code));
  }

  lemma MintsGrow(mints: seq<Mint>, m: Mint, code: string, e: Entry<Bytes>)
    ensures MintedAs(mints, code, e) ==> MintedAs(mints + [m], code, e)
    ensures MintedUntil(mints, code, e.expires) ==> MintedUntil(mints + [m], code, e.expires)
  {
    if MintedAs(mints, code, e) {
      var i :| 0 <= i < |mints| && mints[i].code == code && mints[i].epk == e.value && mints[i].expires == e.expires;
      assert (mints + [m])[i] == mints[i];
    }
    if MintedUntil(mints, code, e.expires) {
      var i :| 0 <= i < |mints| && mints[i].code == code && mints[i].expires == e.expires;
      assert (mints + [m])[i] == mints[i];
    }
  }

  lemma ExplainedAppended(log: seq<Transfer>, e: Transfer, j: nat, mints: seq<Mint>)
    requires j < |log| && Explained(log, j, mints)
    ensures Explained(log + [e], j, mints)
  {
    WaitingAppended(log, e, j, log[j].code);
    assert (log + [e])[j] == log[j];
  }

  lemma LogGrows(log: seq<Transfer>, e: Transfer, mints: seq<Mint>, clock: nat)
    requires LogInv(log, mints, clock) && e.at == clock && Explained(log + [e], |log|, mints)
    ensures LogInv(log + [e], mints, clock)
  {
    forall j | 0 <= j < |log + [e]| ensures Explained(log + [e], j, mints) {
      if j < |log| { ExplainedAppended(log, e, j, mints); }
    }
  }

  lemma LogKeptByMint(log: seq<Transfer>, mints: seq<Mint>, m: Mint, clock: nat)
    requires LogInv(log, mints, clock)
    ensures LogInv(log, mints + [m], clock)
  {
    forall j | 0 <= j < |log| ensures Explained(log, j, mints + [m]) {
      assert Explained(log, j, mints);
      if log[j].Uploaded? { MintsGrow(mints, m, log[j].code, Entry([], log[j].expires)); }
    }
  }

  // ----- requests

  ghost predicate ProgressOk(codeFor: Bytes -> string, p: Progress, mints: seq<Mint>, clock: nat) {
    match p
    case MintCounted(epk) => |epk| == EPK_LEN
    case MintTimed(code, epk, _) => KeyOf(codeFor, code, epk)
    case FetchGot(code, record) => MintedAs(mints, code, record)
    case UploadGot(code, _, record) => MintedAs(mints, code, record)
    case UploadTimed(code, blob, expires) => 0 < |blob| <= MAX_BLOB && MintedUntil(mints, code, expires)
    case DownloadTimed(_, now) => now <= clock
    case Done(_) => true
  }

  ghost predicate RequestsInv(codeFor: Bytes -> string, requests: map<nat, Progress>, mints: seq<Mint>, clock: nat) {
    forall id :: id in requests ==> ProgressOk(codeFor, requests[id], mints, clock)
  }

  lemma RequestsKeptByMint(codeFor: Bytes -> string, requests: map<nat, Progress>, mints: seq<Mint>, m: Mint,
    clock: nat)
    requires RequestsInv(codeFor, requests, mints, clock)
    ensures RequestsInv(codeFor, requests, mints + [m], clock)
  {
    forall id | id in requests ensures ProgressOk(codeFor, requests[id], mints + [m], clock) {
      match requests[id]
      case FetchGot(code, record) => MintsGrow(mints, m, code, record);
      case UploadGot(code, _, record) => MintsGrow(mints, m, code, record);
      case UploadTimed(code, _, expires) => MintsGrow(mints, m, code, Entry([], expires));
      case _ =>
    }
  }

  // ----- counters

  ghost predicate AttemptsInv(counters: Table<nat>, attempts: seq<Attempt>, clock: nat) {
    && InOrder(attempts)
    && (forall i :: 0 <= i < |attempts| ==> attempts[i].at <= clock)
    && Tracks(counters, attempts, clock)
  }

  lemma MineGrows(log: seq<Attempt>, a: Attempt, ip: string)
    ensures Mine(log + [a], ip) == Mine(log, ip) + if a.ip == ip then [a] else []
  {
    assert (log + [a])[..|log|] == log;
  }

  /** One hit makes the counter the length of the client's run, whoever swept in between. */
  lemma HitCounts(counters: Table<nat>, log: seq<Attempt>, a: Attempt)
    requires AttemptsInv(counters, log, a.swept)
    ensures var left := Retained(counters, a.swept);
      Min((if a.ip in left then left[a.ip].value else 0) + 1, U32_MAX) == Min(RunLength(Mine(log, a.ip) + [a]), U32_MAX)
  {
    var h, left := Mine(log, a.ip), Retained(counters, a.swept);
    assert (h + [a])[..|h|] == h;
    assert a.ip in counters ==> CounterIs(counters[a.ip], h);
  }

  /** The counters after a hit. */
  function HitTable(counters: Table<nat>, log: seq<Attempt>, a: Attempt): Table<nat> {
    Retained(counters, a.swept)[a.ip := Entry(Min(RunLength(Mine(log, a.ip) + [a]), U32_MAX), a.at + TTL)]
  }

  lemma HitTracksOne(counters: Table<nat>, log: seq<Attempt>, a: Attempt, ip: string)
    requires Tracks(counters, log, a.swept) && a.swept <= a.at
    ensures var after, h := HitTable(counters, log, a), Mine(log + [a], ip);
      && (ip in after ==> CounterIs(after[ip], h))
      && (h != [] && a.at < h[|h| - 1].at + TTL ==> ip in after)
  {
    MineGrows(log, a, ip);
    var h := Mine(log, ip);
    if ip == a.ip {
      assert (h + [a])[|h + [a]| - 1] == a;
    } else {
      assert Mine(log + [a], ip) == h;
      assert ip in counters ==> CounterIs(counters[ip], h);
    }
  }

  lemma HitKeepsTracks(counters: Table<nat>, log: seq<Attempt>, a: Attempt)
    requires Tracks(counters, log, a.swept) && a.swept <= a.at
    ensures Tracks(HitTable(counters, log, a), log + [a], a.at)
  {
    var after, more := HitTable(counters, log, a), log + [a];
    forall ip
      ensures ip in after ==> CounterIs(after[ip], Mine(more, ip))
      ensures Mine(more, ip) != [] && a.at < Mine(more, ip)[|Mine(more, ip)| - 1].at + TTL ==> ip in after
    {
      HitTracksOne(counters, log, a, ip);
    }
  }

  lemma OrderGrows(log: seq<Attempt>, a: Attempt)
    requires InOrder(log) && a.swept <= a.at && forall i :: 0 <= i < |log| ==> log[i].at <= a.swept
    ensures InOrder(log + [a])
  {
  }

  lemma HitKeepsAttempts(counters: Table<nat>, log: seq<Attempt>, a: Attempt)
    requires AttemptsInv(counters, log, a.swept) && a.swept <= a.at
    ensures AttemptsInv(HitTable(counters, log, a), log + [a], a.at)
  {
    HitKeepsTracks(counters, log, a);
    OrderGrows(log, a);
  }

  // ----- the whole world

  ghost predicate Inv(codeFor: Bytes -> string, w: World) {
    && w.clock <= U64_MAX - TTL
    && RecordsInv(codeFor, w.store.records, w.mints, w.clock)
    && BlobsInv(w.store.blobs, w.transfers, w.clock)
    && LogInv(w.transfers, w.mints, w.clock)
    && RequestsInv(codeFor, w.requests, w.mints, w.clock)
    && AttemptsInv(w.store.counters, w.attempts, w.clock)
  }

  lemma StartInv(codeFor: Bytes -> string, clock: nat)
    requires clock <= U64_MAX - TTL
    ensures Inv(codeFor, Start(clock))
  {
  }

  lemma AttemptsSwept(counters: Table<nat>, log: seq<Attempt>, clock: nat, now: nat)
    requires AttemptsInv(counters, log, clock) && clock <= now
    ensures AttemptsInv(counters, log, now) && AttemptsInv(Retained(counters, now), log, now)
  {
    SweepKeepsTracks(counters, log, clock, now);
  }

  lemma RequestsLater(codeFor: Bytes -> string, requests: map<nat, Progress>, mints: seq<Mint>, clock: nat, now: nat)
    requires RequestsInv(codeFor, requests, mints, clock) && clock <= now
    ensures RequestsInv(codeFor, requests, mints, now)
  {
    forall id | id in requests ensures ProgressOk(codeFor, requests[id], mints, now) {
      assert ProgressOk(codeFor, requests[id], mints, clock);
    }
  }

  lemma TickKeeps(codeFor: Bytes -> string, w: World, now: nat)
    requires Inv(codeFor, w) && ClockMayRead(w, now)
    ensures Inv(codeFor, w.(clock := now))
  {
    RecordsSwept(codeFor, w.store.records, w.mints, w.clock, now);
    BlobsSwept(w.store.blobs, w.transfers, w.clock, now);
    AttemptsSwept(w.store.counters, w.attempts, w.clock, now);
    RequestsLater(codeFor, w.requests, w.mints, w.clock, now);
  }

  lemma SweepKeeps(codeFor: Bytes -> string, w: World)
    requires Inv(codeFor, w)
    ensures Inv(codeFor, w.(store := Sweep(w.store, w.clock)))
  {
    RecordsSwept(codeFor, w.store.records, w.mints, w.clock, w.clock);
    BlobsSwept(w.store.blobs, w.transfers, w.clock, w.clock);
    AttemptsSwept(w.store.counters, w.attempts, w.clock, w.clock);
  }

  lemma RequestKeeps(codeFor: Bytes -> string, w: World, id: nat, p: Progress)
    requires Inv(codeFor, w) && ProgressOk(codeFor, p, w.mints, w.clock)
    ensures Inv(codeFor, To(w, id, p))
  {
  }

  lemma CountValue(w: World, ip: string, later: nat)
    requires AttemptsInv(w.store.counters, w.attempts, w.clock)
    ensures Counted(w.store, ip, TTL, w.clock, later).value
      == Min(RunLength(Mine(w.attempts, ip) + [Attempt(ip, w.clock, later)]), U32_MAX)
  {
    HitCounts(w.store.counters, w.attempts, Attempt(ip, w.clock, later));
  }

  lemma CountTable(w: World, ip: string, later: nat)
    requires AttemptsInv(w.store.counters, w.attempts, w.clock) && ClockMayRead(w, later)
    ensures Counts(w, ip, later).store.counters == HitTable(w.store.counters, w.attempts, Attempt(ip, w.clock, later))
  {
    CountValue(w, ip, later);
    assert Counted(w.store, ip, TTL, w.clock, later).expires == later + TTL;
  }

  /** The counter is the length of the client's own run. */
  lemma CountIsRun(codeFor: Bytes -> string, w: World, ip: string, later: nat)
    requires Inv(codeFor, w) && ClockMayRead(w, later)
    ensures Counted(w.store, ip, TTL, w.clock, later).value
      == Min(RunLength(Mine(Counts(w, ip, later).attempts, ip)), U32_MAX)
  {
    CountValue(w, ip, later);
    MineGrows(w.attempts, Attempt(ip, w.clock, later), ip);
  }

  lemma CountKeeps(codeFor: Bytes -> string, w: World, ip: string, later: nat)
    requires Inv(codeFor, w) && ClockMayRead(w, later)
    ensures Inv(codeFor, Counts(w, ip, later))
  {
    CountTable(w, ip, later);
    HitKeepsAttempts(w.store.counters, w.attempts, Attempt(ip, w.clock, later));
    SweepKeeps(codeFor, w);
    TickKeeps(codeFor, w.(store := Sweep(w.store, w.clock)), later);
  }

  /** A world whose swept store lacks the code files the mint. */
  lemma MintFiled(codeFor: Bytes -> string, w: World, m: Mint)
    requires Inv(codeFor, w) && KeyOf(codeFor, m.code, m.epk) && m.code !in w.store.records && m.at == w.clock
    ensures Inv(codeFor, w.(store := w.store.(records := w.store.records[m.code := Entry(m.epk, m.expires)]),
      mints := w.mints + [m]))
  {
    RecordsInserted(codeFor, w.store.records, w.mints, m);
    LogKeptByMint(w.transfers, w.mints, m, w.clock);
    RequestsKeptByMint(codeFor, w.requests, w.mints, m, w.clock);
  }

  lemma InsertMintKeeps(codeFor: Bytes -> string, w: World, id: nat, code: string, epk: Bytes, expires: nat)
    requires Inv(codeFor, w) && KeyOf(codeFor, code, epk)
    ensures Inv(codeFor, InsertsMint(w, id, code, epk, expires))
  {
    var swept, m := w.(store := Sweep(w.store, w.clock)), Mint(code, epk, expires, w.clock);
    SweepKeeps(codeFor, w);
    if code in swept.store.records {
      RequestKeeps(codeFor, swept, id, Done(Conflict));
      assert InsertsMint(w, id, code, epk, expires) == To(swept, id, Done(Conflict));
    } else {
      MintFiled(codeFor, swept, m);
      var filed := swept.(store := swept.store.(records := swept.store.records[code := Entry(epk, expires)]),
        mints := w.mints + [m]);
      RequestKeeps(codeFor, filed, id, Done(MintedCode(code, expires)));
      assert InsertsMint(w, id, code, epk, expires) == To(filed, id, Done(MintedCode(code, expires)));
    }
  }

  lemma UploadExplained(log: seq<Transfer>, e: Transfer, mints: seq<Mint>, blobs: Table<Bytes>)
    requires BlobsInv(blobs, log, e.at) && e.Uploaded? && e.code !in blobs
    requires 0 < |e.bytes| <= MAX_BLOB && MintedUntil(mints, e.code, e.expires)
    ensures Explained(log + [e], |log|, mints)
  {
    WaitingAppended(log, e, |log|, e.code);
    assert (log + [e])[|log|] == e;
  }

  lemma UploadLogged(blobs: Table<Bytes>, log: seq<Transfer>, mints: seq<Mint>, e: Transfer)
    requires BlobsInv(blobs, log, e.at) && LogInv(log, mints, e.at) && e.Uploaded? && e.code !in blobs
    requires 0 < |e.bytes| <= MAX_BLOB && MintedUntil(mints, e.code, e.expires)
    ensures BlobsInv(blobs[e.code := Entry(e.bytes, e.expires)], log + [e], e.at) && LogInv(log + [e], mints, e.at)
  {
    BlobsInserted(blobs, log, e);
    UploadExplained(log, e, mints, blobs);
    LogGrows(log, e, mints, e.at);
  }

  lemma PickupExplained(log: seq<Transfer>, e: Transfer, mints: seq<Mint>, blobs: Table<Bytes>, clock: nat)
    requires BlobsInv(blobs, log, clock) && e.PickedUp? && e.now <= e.at
    requires e.code in blobs && blobs[e.code].value == e.bytes && e.now < blobs[e.code].expires
    ensures Explained(log + [e], |log|, mints)
  {
    WaitingAppended(log, e, |log|, e.code);
    assert (log + [e])[|log|] == e;
    assert BlobIs(blobs[e.code], Waiting(log, |log|, e.code));
  }

  lemma UploadFiled(codeFor: Bytes -> string, w: World, e: Transfer)
    requires Inv(codeFor, w) && e.Uploaded? && e.code !in w.store.blobs && e.at == w.clock
    requires 0 < |e.bytes| <= MAX_BLOB && MintedUntil(w.mints, e.code, e.expires)
    ensures Inv(codeFor, w.(store := w.store.(blobs := w.store.blobs[e.code := Entry(e.bytes, e.expires)]),
      transfers := w.transfers + [e]))
  {
    UploadLogged(w.store.blobs, w.transfers, w.mints, e);
  }

  lemma InsertUploadKeeps(codeFor: Bytes -> string, w: World, id: nat, code: string, blob: Bytes, expires: nat)
    requires Inv(codeFor, w) && 0 < |blob| <= MAX_BLOB && MintedUntil(w.mints, code, expires)
    ensures Inv(codeFor, InsertsUpload(w, id, code, blob, expires))
  {
    var swept, e := w.(store := Sweep(w.store, w.clock)), Uploaded(code, blob, expires, w.clock);
    SweepKeeps(codeFor, w);
    if code in swept.store.blobs {
      RequestKeeps(codeFor, swept, id, Done(Conflict));
      assert InsertsUpload(w, id, code, blob, expires) == To(swept, id, Done(Conflict));
    } else {
      UploadFiled(codeFor, swept, e);
      var filed := swept.(store := swept.store.(blobs := swept.store.blobs[code := Entry(blob, expires)]),
        transfers := w.transfers + [e]);
      RequestKeeps(codeFor, filed, id, Done(NoContent));
      assert InsertsUpload(w, id, code, blob, expires) == To(filed, id, Done(NoContent));
    }
  }

  lemma TakeKeeps(codeFor: Bytes -> string, w: World, id: nat, code: string, now: nat)
    requires Inv(codeFor, w) && now <= w.clock
    ensures Inv(codeFor, Takes(w, id, code, now))
  {
    match RendezvousStore.Taken(w.store, code, now)
    case None => BlobsDropped(w.store.blobs, w.transfers, code, now, w.clock);
    case Some(bytes) =>
      var e := PickedUp(code, bytes, now, w.clock);
      BlobsTaken(w.store.blobs, w.transfers, e, w.clock);
      PickupExplained(w.transfers, e, w.mints, w.store.blobs, w.clock);
      LogGrows(w.transfers, e, w.mints, w.clock);
  }

  /** The clamp on a blob's expiry never moves it: the record was seen unexpired at that reading. */
  lemma ClampIsRedundant(expires: nat, now: nat)
    requires now < expires && now <= U64_MAX - TTL
    ensures Max(expires, Min(now + 1, U64_MAX)) == expires
  {
  }

  lemma CheckUploadKeeps(codeFor: Bytes -> string, w: World, id: nat)
    requires Inv(codeFor, w) && Enabled(w, ReadUploadClock(id))
    ensures Inv(codeFor, Next(codeFor, w, ReadUploadClock(id)))
  {
    var p := w.requests[id];
    assert ProgressOk(codeFor, p, w.mints, w.clock);
    if p.record.expires > w.clock { ClampIsRedundant(p.record.expires, w.clock); }
    var i :| 0 <= i < |w.mints| && w.mints[i].code == p.code
      && w.mints[i].epk == p.record.value && w.mints[i].expires == p.record.expires;
    assert MintedUntil(w.mints, p.code, p.record.expires);
    RequestKeeps(codeFor, w, id, ChecksUpload(w, id, p.code, p.body, p.record).requests[id]);
  }

  lemma LookedMinted(codeFor: Bytes -> string, w: World, code: string)
    requires Inv(codeFor, w)
    ensures Looked(w, code).Ok? ==> MintedAs(w.mints, code, Looked(w, code).value)
  {
  }

  /** Every step keeps the invariant. */
  lemma NextKeepsInv(codeFor: Bytes -> string, w: World, s: Step)
    requires Inv(codeFor, w) && Enabled(w, s)
    ensures Inv(codeFor, Next(codeFor, w, s))
  {
    var p := if s.Tick? || s.id !in w.requests then Done(NotFound) else w.requests[s.id];
    assert ProgressOk(codeFor, p, w.mints, w.clock);
    match s
    case Tick(now) => TickKeeps(codeFor, w, now);
    case BeginMint(id, ip, body, later) =>
      CountKeeps(codeFor, w, ip, later);
      RequestKeeps(codeFor, Counts(w, ip, later), id, BeginsMint(w, id, ip, body, later).requests[id]);
    case ReadMintClock(id) => RequestKeeps(codeFor, w, id, MintTimed(codeFor(p.epk), p.epk, w.clock + TTL));
    case InsertMint(id) => InsertMintKeeps(codeFor, w, id, p.code, p.epk, p.expires);
    case BeginFetch(id, code) =>
      LookedMinted(codeFor, w, code);
      RequestKeeps(codeFor, w, id, BeginsFetch(w, id, code).requests[id]);
    case ReadFetchClock(id) => RequestKeeps(codeFor, w, id, AnswersFetch(w, id, p.record).requests[id]);
    case BeginUpload(id, code, body) =>
      LookedMinted(codeFor, w, code);
      RequestKeeps(codeFor, w, id, BeginsUpload(w, id, code, body).requests[id]);
    case ReadUploadClock(id) => CheckUploadKeeps(codeFor, w, id);
    case InsertUpload(id) => InsertUploadKeeps(codeFor, w, id, p.code, p.blob, p.expires);
    case BeginDownload(id, code) => RequestKeeps(codeFor, w, id, BeginsDownload(w, id, code).requests[id]);
    case Take(id) => TakeKeeps(codeFor, w, id, p.code, p.now);
  }

  lemma {:induction false} RunsKeepInv(codeFor: Bytes -> string, w: World, steps: seq<Step>)
    requires Inv(codeFor, w) && Runs(codeFor, w, steps)
    ensures Inv(codeFor, After(codeFor, w, steps))
    decreases |steps|
  {
    if steps != [] {
      NextKeepsInv(codeFor, w, steps[0]);
      RunsKeepInv(codeFor, Next(codeFor, w, steps[0]), steps[1..]);
    }
  }
}
