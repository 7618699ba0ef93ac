/**
 The rolling mint counter (apps/share-backend/src/store_memory.rs, handlers.rs) against one
 client's own attempts: how long the current run of short gaps is, and how many attempts that lets
 through in any window.
 */
module RateLimit {
  import opened RendezvousStore

  const TTL := 300
  const LIMIT := 10

  /** One call of `increment_mint_counter`: the two clock readings it makes. */
  datatype Attempt = Attempt(ip: string, swept: nat, at: nat)

  /** Clock readings never go back. */
  ghost predicate InOrder(h: seq<Attempt>) {
    && (forall i :: 0 <= i < |h| ==> h[i].swept <= h[i].at)
    && (forall i, j :: 0 <= i < j < |h| ==> h[i].at <= h[j].swept)
  }

  /** How many attempts, ending with the last, each came within the TTL of the one before. */
  function RunLength(h: seq<Attempt>): (r: nat)
    ensures r <= |h| && (h != [] ==> r >= 1)
  {
    var n := |h|;
    if n == 0 then 0
    else if n >= 2 && h[n - 1].swept < h[n - 2].at + 300 then RunLength(h[..n - 1]) + 1
    else 1
  }

  /** The handler lets an attempt through while the count is at most the limit. */
  predicate Accepted(h: seq<Attempt>)
  {
    Min(RunLength(h), U32_MAX) <= 10
  }

  /** How many attempts, and how many accepted ones, fall into `[start, start + 300)`. */
  function InWindow(h: seq<Attempt>, start: nat): nat {
    if h == [] then 0
    else InWindow(h[..|h| - 1], start) + if start <= h[|h| - 1].at < start + 300 then 1 else 0
  }

  function AcceptedInWindow(h: seq<Attempt>, start: nat): nat {
    if h == [] then 0
    else AcceptedInWindow(h[..|h| - 1], start) + if start <= h[|h| - 1].at < start + 300 && Accepted(h) then 1 else 0
  }

  lemma {:induction false} AcceptedAreAttempts(h: seq<Attempt>, start: nat)
    ensures AcceptedInWindow(h, start) <= InWindow(h, start)
  {
    if h != [] { AcceptedAreAttempts(h[..|h| - 1], start); }
  }

  lemma {:induction false} NoneBefore(h: seq<Attempt>, start: nat)
    requires InOrder(h) && (h != [] ==> h[|h| - 1].at < start)
    ensures InWindow(h, start) == 0
  {
    if h != [] { NoneBefore(h[..|h| - 1], start); }
  }

  /** Attempts inside one window are one run. */
  lemma {:induction false} WindowIsOneRun(h: seq<Attempt>, start: nat)
    requires InOrder(h) && h != [] && start <= h[|h| - 1].at < start + 300
    ensures InWindow(h, start) <= RunLength(h)
  {
    var front := h[..|h| - 1];
    if front != [] && start <= front[|front| - 1].at {
      WindowIsOneRun(front, start);
    } else {
      NoneBefore(front, start);
    }
  }

  /** No half-open window of one TTL holds more accepted attempts than the limit. */
  lemma {:induction false} WindowBound(h: seq<Attempt>, start: nat)
    requires InOrder(h)
    ensures AcceptedInWindow(h, start) <= 10
  {
    if h != [] {
      WindowBound(h[..|h| - 1], start);
      if start <= h[|h| - 1].at < start + 300 && Accepted(h) {
        WindowIsOneRun(h, start);
        AcceptedAreAttempts(h, start);
      }
    }
  }

  // ----- one client's attempts within everybody's

  function Mine(log: seq<Attempt>, ip: string): (r: seq<Attempt>)
    ensures |r| <= |log| && forall i :: 0 <= i < |r| ==> r[i].ip == ip
  {
    if log == [] then []
    else
      var last := log[|log| - 1];
      Mine(log[..|log| - 1], ip) + if last.ip == ip then [last] else []
  }

  lemma {:induction false} MineBounded(log: seq<Attempt>, ip: string, t: nat)
    requires forall i :: 0 <= i < |log| ==> log[i].at <= t
    ensures forall i :: 0 <= i < |Mine(log, ip)| ==> Mine(log, ip)[i].at <= t
  {
    if log != [] { MineBounded(log[..|log| - 1], ip, t); }
  }

  lemma {:induction false} MineInOrder(log: seq<Attempt>, ip: string)
    requires InOrder(log)
    ensures InOrder(Mine(log, ip))
  {
    if log != [] {
      var front, last := log[..|log| - 1], log[|log| - 1];
      MineInOrder(front, ip);
      MineBounded(front, ip, last.swept);
    }
  }

  /** The counters after these attempts and any sweeps up to `clock`: each holds its client's run
      length, and only an expired one may be missing. */
  ghost predicate Tracks(counters: map<string, Entry<nat>>, log: seq<Attempt>, clock: nat) {
    && (forall ip :: ip in counters ==> CounterIs(counters[ip], Mine(log, ip)))
    && (forall ip {:trigger Mine(log, ip)} ::
          Mine(log, ip) != [] && clock < Mine(log, ip)[|Mine(log, ip)| - 1].at + TTL ==> ip in counters)
  }

  ghost predicate CounterIs(c: Entry<nat>, h: seq<Attempt>) {
    h != [] && c == Entry(Min(RunLength(h), U32_MAX), h[|h| - 1].at + TTL)
  }

  lemma SweepKeepsTracks(counters: map<string, Entry<nat>>, log: seq<Attempt>, clock: nat, now: nat)
    requires Tracks(counters, log, clock) && clock <= now
    ensures Tracks(Retained(counters, now), log, now)
  {
  }
}
