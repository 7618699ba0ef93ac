/**
 The four handlers of the rendezvous backend (apps/share-backend/src/handlers.rs) as interleaved
 sequences of lock-atomic store calls and clock readings. A world is the store, one nondecreasing
 clock, every request at the point its handler has reached, and the history of what happened.
 */
module Rendezvous {
  import opened Common
  import opened RendezvousStore
  import opened RateLimit

  const EPK_LEN := 32
  const CODE_LEN := 12
  const MAX_BLOB := 65536

  datatype Response =
    | Payload(bytes: Bytes)
    | MintedCode(code: string, expires: nat)
    | NoContent
    | BadRequest
    | NotFound
    | Gone
    | Conflict
    | RateLimited
    | PayloadTooLarge

  /** Where a handler stands between two of its steps. */
  datatype Progress =
    | MintCounted(epk: Bytes)
    | MintTimed(code: string, epk: Bytes, expires: nat)
    | FetchGot(code: string, record: Entry<Bytes>)
    | UploadGot(code: string, body: Bytes, record: Entry<Bytes>)
    | UploadTimed(code: string, blob: Bytes, expires: nat)
    | DownloadTimed(code: string, now: nat)
    | Done(response: Response)

  /** A rendezvous that was inserted, and when. */
  datatype Mint = Mint(code: string, epk: Bytes, expires: nat, at: nat)

  /** A blob that was stored, or handed out to a handler whose clock had read `now`. */
  datatype Transfer =
    | Uploaded(code: string, bytes: Bytes, expires: nat, at: nat)
    | PickedUp(code: string, bytes: Bytes, now: nat, at: nat)

  datatype World = World(
    clock: nat,
    store: Store,
    requests: map<nat, Progress>,
    attempts: seq<Attempt>,
    mints: seq<Mint>,
    transfers: seq<Transfer>
  )

  function Start(clock: nat): World {
    World(clock, Store(map[], map[], map[]), map[], [], [], [])
  }

  /** `later` is the second clock reading of the counter. */
  datatype Step =
    | Tick(now: nat)
    | BeginMint(id: nat, ip: string, body: Bytes, later: nat)
    | ReadMintClock(id: nat)
    | InsertMint(id: nat)
    | BeginFetch(id: nat, code: string)
    | ReadFetchClock(id: nat)
    | BeginUpload(id: nat, code: string, body: Bytes)
    | ReadUploadClock(id: nat)
    | InsertUpload(id: nat)
    | BeginDownload(id: nat, code: string)
    | Take(id: nat)

  /** The clock is a u64 that leaves room for one TTL. */
  ghost predicate ClockMayRead(w: World, now: nat) {
    w.clock <= now <= U64_MAX - TTL
  }

  ghost predicate Enabled(w: World, s: Step) {
    match s
    case Tick(now) => ClockMayRead(w, now)
    case BeginMint(id, _, _, later) => id !in w.requests && ClockMayRead(w, later)
    case ReadMintClock(id) => id in w.requests && w.requests[id].MintCounted?
    case InsertMint(id) => id in w.requests && w.requests[id].MintTimed?
    case BeginFetch(id, _) => id !in w.requests
    case ReadFetchClock(id) => id in w.requests && w.requests[id].FetchGot?
    case BeginUpload(id, _, _) => id !in w.requests
    case ReadUploadClock(id) => id in w.requests && w.requests[id].UploadGot?
    case InsertUpload(id) => id in w.requests && w.requests[id].UploadTimed?
    case BeginDownload(id, _) => id !in w.requests
    case Take(id) => id in w.requests && w.requests[id].DownloadTimed?
  }

  function To(w: World, id: nat, p: Progress): World {
    w.(requests := w.requests[id := p])
  }

  function Counts(w: World, ip: string, later: nat): World {
    w.(clock := later,
       store := IncrementMintCounter(w.store, ip, TTL, w.clock, later),
       attempts := w.attempts + [Attempt(ip, w.clock, later)])
  }

  /** `mint_rendezvous`, up to the clock reading. */
  function BeginsMint(w: World, id: nat, ip: string, body: Bytes, later: nat): World {
    var count := Counted(w.store, ip, TTL, w.clock, later).value;
    To(Counts(w, ip, later), id,
       if count > LIMIT then Done(RateLimited)
       else if |body| > EPK_LEN then Done(PayloadTooLarge)
       else if |body| != EPK_LEN then Done(BadRequest)
       else MintCounted(body))
  }

  function InsertsMint(w: World, id: nat, code: string, epk: Bytes, expires: nat): World {
    var ok := code !in Sweep(w.store, w.clock).records;
    var put := w.(store := PutRendezvous(w.store, code, Entry(epk, expires), w.clock));
    if ok then To(put.(mints := w.mints + [Mint(code, epk, expires, w.clock)]), id, Done(MintedCode(code, expires)))
    else To(put, id, Done(Conflict))
  }

  /** `assert_code`, then `get_rendezvous`. */
  function Looked(w: World, code: string): Result<Entry<Bytes>, Response> {
    if |code| != CODE_LEN then Err(BadRequest)
    else if code in w.store.records then Ok(w.store.records[code])
    else Err(NotFound)
  }

  function BeginsFetch(w: World, id: nat, code: string): World {
    To(w, id, match Looked(w, code) case Err(e) => Done(e) case Ok(r) => FetchGot(code, r))
  }

  function AnswersFetch(w: World, id: nat, record: Entry<Bytes>): World {
    To(w, id, Done(if record.expires <= w.clock then Gone else Payload(record.value)))
  }

  function BeginsUpload(w: World, id: nat, code: string, body: Bytes): World {
    To(w, id, match Looked(w, code) case Err(e) => Done(e) case Ok(r) => UploadGot(code, body, r))
  }

  function ChecksUpload(w: World, id: nat, code: string, body: Bytes, record: Entry<Bytes>): World {
    To(w, id,
       if record.expires <= w.clock then Done(Gone)
       else if |body| > MAX_BLOB then Done(PayloadTooLarge)
       else if body == [] then Done(BadRequest)
       else UploadTimed(code, body, Max(record.expires, Min(w.clock + 1, U64_MAX))))
  }

  function InsertsUpload(w: World, id: nat, code: string, blob: Bytes, expires: nat): World {
    var ok := code !in Sweep(w.store, w.clock).blobs;
    var put := w.(store := PutBlob(w.store, code, Entry(blob, expires), w.clock));
    if ok then To(put.(transfers := w.transfers + [Uploaded(code, blob, expires, w.clock)]), id, Done(NoContent))
    else To(put, id, Done(Conflict))
  }

  function BeginsDownload(w: World, id: nat, code: string): World {
    To(w, id, if |code| != CODE_LEN then Done(BadRequest) else DownloadTimed(code, w.clock))
  }

  function Takes(w: World, id: nat, code: string, now: nat): World {
    var after := w.(store := TakeBlob(w.store, code));
    match RendezvousStore.Taken(w.store, code, now)
    case None => To(after, id, Done(NotFound))
    case Some(bytes) =>
      To(after.(transfers := w.transfers + [PickedUp(code, bytes, now, w.clock)]), id, Done(Payload(bytes)))
  }

  /** One step; `codeFor` is the hash that files a key under its code. */
  ghost function Next(codeFor: Bytes -> string, w: World, s: Step): World
    requires Enabled(w, s)
  {
    match s
    case Tick(now) => w.(clock := now)
    case BeginMint(id, ip, body, later) => BeginsMint(w, id, ip, body, later)
    case ReadMintClock(id) =>
      var epk := w.requests[id].epk;
      To(w, id, MintTimed(codeFor(epk), epk, w.clock + TTL))
    case InsertMint(id) => var p := w.requests[id]; InsertsMint(w, id, p.code, p.epk, p.expires)
    case BeginFetch(id, code) => BeginsFetch(w, id, code)
    case ReadFetchClock(id) => AnswersFetch(w, id, w.requests[id].record)
    case BeginUpload(id, code, body) => BeginsUpload(w, id, code, body)
    case ReadUploadClock(id) => var p := w.requests[id]; ChecksUpload(w, id, p.code, p.body, p.record)
    case InsertUpload(id) => var p := w.requests[id]; InsertsUpload(w, id, p.code, p.blob, p.expires)
    case BeginDownload(id, code) => BeginsDownload(w, id, code)
    case Take(id) => var p := w.requests[id]; Takes(w, id, p.code, p.now)
  }

  ghost predicate Runs(codeFor: Bytes -> string, w: World, steps: seq<Step>)
    decreases |steps|
  {
    steps == [] || (Enabled(w, steps[0]) && Runs(codeFor, Next(codeFor, w, steps[0]), steps[1..]))
  }

  ghost function After(codeFor: Bytes -> string, w: World, steps: seq<Step>): World
    requires Runs(codeFor, w, steps)
    decreases |steps|
  {
    if steps == [] then w else After(codeFor, Next(codeFor, w, steps[0]), steps[1..])
  }
}
