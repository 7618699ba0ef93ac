/**
 The least-recently-used cache in front of the Markdown stripper (apps/web/src/notes/markdown.tsx).
 The parser is a function the cache knows nothing about; a JavaScript Map is its entries in
 insertion order.
 */
module StripCache {
  import opened Common

  const CAP := 200

  datatype Entry = Entry(source: string, text: string)

  type Cache = seq<Entry>

  // ----- Map operations on insertion order

  function Lookup(cache: Cache, source: string): (r: Option<string>)
    ensures r.Some? <==> source in Sources(cache)
  {
    if cache == [] then None
    else if cache[0].source == source then Some(cache[0].text)
    else assert Sources(cache) == [cache[0].source] + Sources(cache[1..]); Lookup(cache[1..], source)
  }

  function Sources(cache: Cache): (r: seq<string>)
    ensures |r| == |cache| && forall i :: 0 <= i < |r| ==> r[i] == cache[i].source
  {
    seq(|cache|, i requires 0 <= i < |cache| => cache[i].source)
  }

  function Delete(cache: Cache, source: string): Cache {
    if cache == [] then []
    else if cache[0].source == source then Delete(cache[1..], source)
    else [cache[0]] + Delete(cache[1..], source)
  }

  // ----- one call

  /** The cache after `stripMarkdown(source)`. */
  function Called(parse: string -> string, cache: Cache, source: string): Cache {
    if source == "" then cache
    else
      match Lookup(cache, source)
      case Some(text) => Delete(cache, source) + [Entry(source, text)]
      case None =>
        var more := cache + [Entry(source, parse(source))];
        if |more| > CAP then more[1..] else more
  }

  /** What `stripMarkdown(source)` returns. */
  function Returned(parse: string -> string, cache: Cache, source: string): string {
    if source == "" then ""
    else
      match Lookup(cache, source)
      case Some(text) => text
      case None => parse(source)
  }

  function Parses(cache: Cache, source: string): bool {
    source != "" && Lookup(cache, source).None?
  }

  class Stripper {
    var cache: Cache
    var parseCalls: nat

    constructor ()
      ensures cache == [] && parseCalls == 0
    {
      cache, parseCalls := [], 0;
    }

    method Strip(parse: string -> string, source: string) returns (r: string)
      modifies this
      ensures r == Returned(parse, old(cache), source)
      ensures cache == Called(parse, old(cache), source)
      ensures parseCalls == old(parseCalls) + if Parses(old(cache), source) then 1 else 0
    {
      if source == "" { return ""; }
      var cached := Lookup(cache, source);
      if cached.Some? {
        cache := Delete(cache, source);
        cache := cache + [Entry(source, cached.value)];
        return cached.value;
      }
      parseCalls := parseCalls + 1;
      r := parse(source);
      cache := cache + [Entry(source, r)];
      if |cache| > CAP { cache := cache[1..]; }
    }
  }

  // ----- what the cache holds

  /** The distinct sources of a history of calls, each at its last call, oldest first. */
  function Recency(calls: seq<string>): seq<string> {
    if calls == [] then []
    else
      var last := calls[|calls| - 1];
      if last == "" then Recency(calls[..|calls| - 1]) else Without(Recency(calls[..|calls| - 1]), last) + [last]
  }

  function Without(s: seq<string>, x: string): seq<string> {
    if s == [] then [] else if s[0] == x then Without(s[1..], x) else [s[0]] + Without(s[1..], x)
  }

  /** The last 200 of them. */
  function Recent(calls: seq<string>): seq<string> {
    LastOf(Recency(calls), 200)
  }

  function LastOf(s: seq<string>, n: nat): seq<string> {
    if |s| <= n then s else s[|s| - n..]
  }

  function AfterCalls(parse: string -> string, calls: seq<string>): Cache {
    if calls == [] then []
    else Called(parse, AfterCalls(parse, calls[..|calls| - 1]), calls[|calls| - 1])
  }

  ghost predicate Distinct(s: seq<string>) {
    forall i, j :: 0 <= i < j < |s| ==> s[i] != s[j]
  }

  lemma {:induction false} WithoutAbsent(s: seq<string>, x: string)
    requires forall i :: 0 <= i < |s| ==> s[i] != x
    ensures Without(s, x) == s
  {
    if s != [] {
      WithoutAbsent(s[1..], x);
      assert s == [s[0]] + s[1..];
    }
  }

  lemma {:induction false} WithoutAt(s: seq<string>, p: nat)
    requires p < |s| && Distinct(s)
    ensures Without(s, s[p]) == s[..p] + s[p + 1..]
  {
    var x := s[p];
    if p == 0 {
      WithoutAbsent(s[1..], x);
    } else {
      WithoutAt(s[1..], p - 1);
      assert s[1..][..p - 1] == s[1..p] && s[1..][p..] == s[p + 1..];
      assert [s[0]] + (s[1..p] + s[p + 1..]) == s[..p] + s[p + 1..];
    }
  }

  lemma LastOfPush(s: seq<string>, x: string, n: nat)
    requires n > 0
    ensures LastOf(s + [x], n) == LastOf(s, n - 1) + [x]
  {
  }

  lemma LastOfLast(s: seq<string>, m: nat, n: nat)
    requires m <= n
    ensures LastOf(LastOf(s, n), m) == LastOf(s, m)
  {
  }

  lemma CutLate(r: seq<string>, tail: seq<string>, d: nat, p: nat)
    requires d + p < |r| && tail == r[d..]
    ensures (r[..d + p] + r[d + p + 1..])[d..] == tail[..p] + tail[p + 1..]
  {
  }

  lemma TailDistinct(r: seq<string>, d: nat)
    requires Distinct(r) && d <= |r|
    ensures Distinct(r[d..])
  {
  }

  lemma HitCut(r: seq<string>, tail: seq<string>, x: string, d: nat, p: nat)
    requires Distinct(r) && d + p < |r| && tail == r[d..] && tail[p] == x
    ensures |Without(r, x)| == |r| - 1 && Without(r, x)[d..] == Without(tail, x)
  {
    TailDistinct(r, d);
    assert r[d + p] == x;
    WithoutAt(tail, p);
    WithoutAt(r, d + p);
    CutLate(r, tail, d, p);
  }

  /** Moving a source to the end of the recency order moves it to the end of the last `n`. */
  lemma BumpedHit(r: seq<string>, x: string, p: nat, n: nat)
    requires Distinct(r) && p < |LastOf(r, n)| && LastOf(r, n)[p] == x
    ensures LastOf(Without(r, x) + [x], n) == Without(LastOf(r, n), x) + [x]
  {
    var d := |r| - |LastOf(r, n)|;
    assert LastOf(r, n) == r[d..] && r[d + p] == x;
    HitCut(r, LastOf(r, n), x, d, p);
    LastOfPush(Without(r, x), x, n);
    assert LastOf(Without(r, x), n - 1) == Without(r, x)[d..];
  }

  lemma WithoutEarly(r: seq<string>, x: string, d: nat)
    requires Distinct(r) && d <= |r| && forall i :: d <= i < |r| ==> r[i] != x
    ensures Without(r, x) == r || (d > 0 && |Without(r, x)| == |r| - 1 && Without(r, x)[d - 1..] == r[d..])
  {
    if p :| 0 <= p < |r| && r[p] == x { WithoutAt(r, p); } else { WithoutAbsent(r, x); }
  }

  lemma BumpedMiss(r: seq<string>, x: string, n: nat)
    requires Distinct(r) && n > 0 && forall i :: 0 <= i < |LastOf(r, n)| ==> LastOf(r, n)[i] != x
    ensures LastOf(Without(r, x) + [x], n) == LastOf(LastOf(r, n) + [x], n)
  {
    var d, t := |r| - |LastOf(r, n)|, Without(r, x);
    assert LastOf(r, n) == r[d..];
    forall i | d <= i < |r| ensures r[i] != x { assert r[i] == LastOf(r, n)[i - d]; }
    WithoutEarly(r, x, d);
    LastOfPush(t, x, n);
    LastOfPush(LastOf(r, n), x, n);
    LastOfLast(r, n - 1, n);
    if t != r {
      assert LastOf(t, n - 1) == t[d - 1..][1..];
      assert LastOf(r, n - 1) == r[d..][1..];
    }
  }

  lemma {:induction false} DeletedSources(cache: Cache, x: string)
    ensures Sources(Delete(cache, x)) == Without(Sources(cache), x)
  {
    if cache == [] {
      assert Sources(cache) == [];
    } else {
      DeletedSources(cache[1..], x);
      assert Sources(cache)[1..] == Sources(cache[1..]);
      if cache[0].source != x {
        assert Sources([cache[0]] + Delete(cache[1..], x)) == [cache[0].source] + Sources(Delete(cache[1..], x));
      }
    }
  }

  // ----- the recency order

  lemma {:induction false} WithoutKeeps(s: seq<string>, x: string, y: string)
    ensures y in Without(s, x) <==> y in s && y != x
  {
    if s != [] {
      WithoutKeeps(s[1..], x, y);
      assert s == [s[0]] + s[1..];
    }
  }

  lemma {:induction false} WithoutDistinct(s: seq<string>, x: string)
    requires Distinct(s)
    ensures Distinct(Without(s, x)) && x !in Without(s, x)
  {
    WithoutKeeps(s, x, x);
    if p :| 0 <= p < |s| && s[p] == x { WithoutAt(s, p); } else { WithoutAbsent(s, x); }
  }

  lemma {:induction false} RecencyDistinct(calls: seq<string>)
    ensures Distinct(Recency(calls))
  {
    if calls != [] {
      RecencyDistinct(calls[..|calls| - 1]);
      WithoutDistinct(Recency(calls[..|calls| - 1]), calls[|calls| - 1]);
    }
  }

  /** The last call of a source, or -1. */
  function LastCall(calls: seq<string>, x: string): (r: int)
    ensures -1 <= r < |calls| && (r >= 0 ==> calls[r] == x) && forall i :: r < i < |calls| ==> calls[i] != x
  {
    if calls == [] then -1
    else if calls[|calls| - 1] == x then |calls| - 1
    else LastCall(calls[..|calls| - 1], x)
  }

  ghost predicate SortedBy(s: seq<string>, calls: seq<string>) {
    forall i, j :: 0 <= i < j < |s| ==> LastCall(calls, s[i]) < LastCall(calls, s[j])
  }

  /** The order lists exactly the non-empty sources called, by their last calls. */
  ghost predicate ByLastCall(r: seq<string>, calls: seq<string>) {
    SortedBy(r, calls) && forall x :: x in r <==> x != "" && LastCall(calls, x) >= 0
  }

  lemma WithoutSorted(s: seq<string>, x: string, calls: seq<string>)
    requires Distinct(s) && SortedBy(s, calls)
    ensures SortedBy(Without(s, x), calls)
  {
    if p :| 0 <= p < |s| && s[p] == x { WithoutAt(s, p); } else { WithoutAbsent(s, x); }
  }

  lemma LastCallGrows(calls: seq<string>, x: string)
    requires calls != []
    ensures LastCall(calls, x) == if calls[|calls| - 1] == x then |calls| - 1 else LastCall(calls[..|calls| - 1], x)
  {
  }

  lemma PushSorted(t: seq<string>, calls: seq<string>)
    requires calls != [] && SortedBy(t, calls[..|calls| - 1]) && calls[|calls| - 1] !in t
    ensures SortedBy(t + [calls[|calls| - 1]], calls)
  {
    var last := calls[|calls| - 1];
    var u := t + [last];
    forall i, j | 0 <= i < j < |u| ensures LastCall(calls, u[i]) < LastCall(calls, u[j]) {
      assert u[i] == t[i] && t[i] in t;
      LastCallGrows(calls, t[i]);
      LastCallGrows(calls, u[j]);
      if j < |t| { assert u[j] == t[j] && t[j] in t; }
    }
  }

  lemma BumpedByLastCall(known: seq<string>, calls: seq<string>)
    requires calls != [] && calls[|calls| - 1] != "" && Distinct(known) && ByLastCall(known, calls[..|calls| - 1])
    ensures ByLastCall(Without(known, calls[|calls| - 1]) + [calls[|calls| - 1]], calls)
  {
    var last := calls[|calls| - 1];
    var u := Without(known, last) + [last];
    WithoutDistinct(known, last);
    WithoutSorted(known, last, calls[..|calls| - 1]);
    PushSorted(Without(known, last), calls);
    forall x ensures x in u <==> x != "" && LastCall(calls, x) >= 0 {
      WithoutKeeps(known, last, x);
      LastCallGrows(calls, x);
    }
  }

  lemma {:induction false} RecencyByLastCall(calls: seq<string>)
    ensures ByLastCall(Recency(calls), calls)
  {
    if calls != [] {
      var front, last := calls[..|calls| - 1], calls[|calls| - 1];
      RecencyByLastCall(front);
      RecencyDistinct(front);
      if last != "" {
        BumpedByLastCall(Recency(front), calls);
      } else {
        forall x | x != "" ensures LastCall(calls, x) == LastCall(front, x) { LastCallGrows(calls, x); }
        forall i | 0 <= i < |Recency(front)|
          ensures Recency(front)[i] != ""
        {
          assert Recency(front)[i] in Recency(front);
        }
      }
    }
  }

  // ----- the cache against its history

  ghost predicate Faithful(parse: string -> string, cache: Cache) {
    forall i :: 0 <= i < |cache| ==> cache[i].text == parse(cache[i].source)
  }

  lemma {:induction false} LookupParses(parse: string -> string, cache: Cache, x: string)
    requires Faithful(parse, cache) && Lookup(cache, x).Some?
    ensures Lookup(cache, x) == Some(parse(x))
  {
    if cache[0].source != x { LookupParses(parse, cache[1..], x); }
  }

  lemma {:induction false} DeleteFaithful(parse: string -> string, cache: Cache, x: string)
    requires Faithful(parse, cache)
    ensures Faithful(parse, Delete(cache, x))
  {
    if cache != [] { DeleteFaithful(parse, cache[1..], x); }
  }

  lemma SourcesPush(cache: Cache, e: Entry)
    ensures Sources(cache + [e]) == Sources(cache) + [e.source]
  {
  }

  /** After any calls the cache holds exactly the last 200 distinct non-empty sources, in recency
      order, each with its parsed text. */
  lemma {:induction false} CacheIsRecent(parse: string -> string, calls: seq<string>)
    ensures Sources(AfterCalls(parse, calls)) == Recent(calls) && Faithful(parse, AfterCalls(parse, calls))
  {
    if calls != [] {
      var front, x := calls[..|calls| - 1], calls[|calls| - 1];
      CacheIsRecent(parse, front);
      if x != "" { CalledIsRecent(parse, AfterCalls(parse, front), Recency(front), x) by { RecencyDistinct(front); } }
    }
  }

  lemma HitSources(cache: Cache, r: seq<string>, e: Entry, n: nat)
    requires Distinct(r) && Sources(cache) == LastOf(r, n) && e.source in Sources(cache)
    ensures Sources(Delete(cache, e.source) + [e]) == LastOf(Without(r, e.source) + [e.source], n)
  {
    var p :| 0 <= p < |Sources(cache)| && Sources(cache)[p] == e.source;
    BumpedHit(r, e.source, p, n);
    DeletedSources(cache, e.source);
    SourcesPush(Delete(cache, e.source), e);
  }

  lemma MissSources(cache: Cache, r: seq<string>, e: Entry, n: nat)
    requires Distinct(r) && n > 0 && Sources(cache) == LastOf(r, n) && e.source !in Sources(cache)
    ensures var more := cache + [e];
      Sources(if |more| > n then more[1..] else more) == LastOf(Without(r, e.source) + [e.source], n)
  {
    var more := cache + [e];
    BumpedMiss(r, e.source, n);
    SourcesPush(cache, e);
    if |more| > n { assert Sources(more[1..]) == Sources(more)[1..]; }
  }

  lemma CalledIsRecent(parse: string -> string, cache: Cache, r: seq<string>, x: string)
    requires Faithful(parse, cache) && Distinct(r) && Sources(cache) == LastOf(r, CAP) && x != ""
    ensures Sources(Called(parse, cache, x)) == LastOf(Without(r, x) + [x], CAP)
    ensures Faithful(parse, Called(parse, cache, x))
  {
    if Lookup(cache, x).Some? {
      LookupParses(parse, cache, x);
      DeleteFaithful(parse, cache, x);
      HitSources(cache, r, Entry(x, parse(x)), CAP);
    } else {
      MissSources(cache, r, Entry(x, parse(x)), CAP);
    }
  }

  /** After any calls `stripMarkdown` equals the uncached function, and the parser runs exactly when
      the source is not among the 200 most recent. */
  lemma StripIsExact(parse: string -> string, calls: seq<string>, source: string)
    ensures Returned(parse, AfterCalls(parse, calls), source) == if source == "" then "" else parse(source)
    ensures Parses(AfterCalls(parse, calls), source) <==> source != "" && source !in Recent(calls)
  {
    CacheIsRecent(parse, calls);
    if Lookup(AfterCalls(parse, calls), source).Some? { LookupParses(parse, AfterCalls(parse, calls), source); }
  }
}
