/** Two bounded-resource loops: the sliding-window rate limiter of the MCP gateway
    (execution/mcp_gateway.py), with times as reals, and the capped drain of a
    process's output (execution/process.py). */
module Bounded {
  import opened Wrappers

  /* ---- The rate limiter ------------------------------------------------------------------ */

  datatype Call = Call(tool: string, limit: int, now: real)

  /** The deque without the leading times before the cutoff. */
  function Evict(window: seq<real>, cutoff: real): seq<real> {
    if window != [] && window[0] < cutoff then Evict(window[1..], cutoff) else window
  }

  function WindowOf(calls: map<string, seq<real>>, tool: string): seq<real> {
    if tool in calls then calls[tool] else []
  }

  /** The call is let through: too few earlier ones are left in the window. */
  predicate LetThrough(window: seq<real>, c: Call) {
    |Evict(window, c.now - 60.0)| < c.limit
  }

  function NextWindow(window: seq<real>, c: Call): seq<real> {
    Evict(window, c.now - 60.0) + if LetThrough(window, c) then [c.now] else []
  }

  class RateLimiter {
    var calls: map<string, seq<real>>

    constructor ()
      ensures calls == map[]
    {
      calls := map[];
    }

    /** `check_and_record`; false is McpRateLimitExceededError. */
    method CheckAndRecord(tool: string, limit: int, now: real) returns (ok: bool)
      modifies this
      ensures ok <==> LetThrough(WindowOf(old(calls), tool), Call(tool, limit, now))
      ensures calls == old(calls)[tool := NextWindow(WindowOf(old(calls), tool), Call(tool, limit, now))]
    {
      var window := if tool in calls then calls[tool] else [];
      var cutoff := now - 60.0;
      while window != [] && window[0] < cutoff
        invariant Evict(window, cutoff) == Evict(WindowOf(old(calls), tool), cutoff)
        decreases |window|
      {
        window := window[1..];
      }
      assert window == Evict(WindowOf(old(calls), tool), now - 60.0) && window + [] == window;
      calls := calls[tool := window];
      if |window| >= limit {
        return false;
      }
      calls := calls[tool := window + [now]];
      return true;
    }
  }

  /* ---- The limiter and the full history ----------------------------------------------------- */

  /** The deque of one tool after a history of calls of all tools. */
  function Window(history: seq<Call>, tool: string): seq<real> {
    if history == [] then []
    else
      var n := |history| - 1;
      var before := Window(history[..n], tool);
      if history[n].tool == tool then NextWindow(before, history[n]) else before
  }

  /** The times of all the calls of one tool that were ever let through. */
  function Accepted(history: seq<Call>, tool: string): seq<real> {
    if history == [] then []
    else
      var n := |history| - 1;
      var before := Accepted(history[..n], tool);
      if history[n].tool == tool && LetThrough(Window(history[..n], tool), history[n]) then before + [history[n].now]
      else before
  }

  function Since(times: seq<real>, from: real): seq<real> {
    if times == [] then []
    else
      var n := |times| - 1;
      Since(times[..n], from) + if times[n] >= from then [times[n]] else []
  }

  /** How many of the times lie in the closed interval. */
  function CountIn(times: seq<real>, lo: real, hi: real): nat {
    if times == [] then 0
    else
      var n := |times| - 1;
      CountIn(times[..n], lo, hi) + if lo <= times[n] <= hi then 1 else 0
  }

  ghost predicate Sorted(times: seq<real>) {
    forall i, j :: 0 <= i < j < |times| ==> times[i] <= times[j]
  }

  /** The clock never runs backwards between two calls of the tool. */
  ghost predicate ClockAdvances(history: seq<Call>, tool: string) {
    forall i, j :: 0 <= i < j < |history| && history[i].tool == tool && history[j].tool == tool ==>
      history[i].now <= history[j].now
  }

  /** The time of the tool's latest call. */
  function LatestCall(history: seq<Call>, tool: string): Option<real> {
    if history == [] then None
    else
      var n := |history| - 1;
      if history[n].tool == tool then Some(history[n].now) else LatestCall(history[..n], tool)
  }

  lemma {:induction false} EvictIsSince(times: seq<real>, from: real)
    requires Sorted(times)
    ensures Evict(times, from) == Since(times, from)
    decreases |times|
  {
    if times != [] && times[0] < from {
      EvictIsSince(times[1..], from);
      SinceDropsHead(times, from);
    } else {
      SinceKeepsAll(times, from);
    }
  }

  lemma {:induction false} SinceDropsHead(times: seq<real>, from: real)
    requires times != [] && times[0] < from
    ensures Since(times, from) == Since(times[1..], from)
    decreases |times|
  {
    var n := |times| - 1;
    if n > 0 {
      SinceDropsHead(times[..n], from);
      assert times[..n][1..] == times[1..][..n - 1];
    }
  }

  lemma {:induction false} SinceKeepsAll(times: seq<real>, from: real)
    requires forall i :: 0 <= i < |times| ==> times[i] >= from
    ensures Since(times, from) == times
  {
    if times != [] {
      SinceKeepsAll(times[..|times| - 1], from);
    }
  }

  lemma {:induction false} SinceTwice(times: seq<real>, earlier: real, later: real)
    requires earlier <= later
    ensures Since(Since(times, earlier), later) == Since(times, later)
  {
    if times != [] {
      var n := |times| - 1;
      var kept := Since(times[..n], earlier);
      SinceTwice(times[..n], earlier, later);
      SinceAppend(kept, times[n], later);
      assert kept + [] == kept && Since(times[..n], later) + [] == Since(times[..n], later);
    }
  }

  lemma SinceAppend(times: seq<real>, t: real, from: real)
    ensures Since(times + [t], from) == Since(times, from) + if t >= from then [t] else []
  {
    assert (times + [t])[..|times|] == times;
  }

  lemma SortedAppend(times: seq<real>, t: real)
    requires Sorted(times) && forall x <- times :: x <= t
    ensures Sorted(times + [t])
  {
    forall i | 0 <= i < |times| ensures times[i] <= t {
      assert times[i] in times;
    }
  }

  lemma {:induction false} SinceIsPart(times: seq<real>, from: real)
    ensures forall t <- Since(times, from) :: t in times
  {
    if times != [] {
      var n := |times| - 1;
      SinceIsPart(times[..n], from);
      assert forall t <- times[..n] :: t in times;
    }
  }

  lemma {:induction false} SinceSorted(times: seq<real>, from: real)
    requires Sorted(times)
    ensures Sorted(Since(times, from))
  {
    if times != [] {
      var n := |times| - 1;
      var kept := Since(times[..n], from);
      SinceSorted(times[..n], from);
      SinceIsPart(times[..n], from);
      forall t <- kept ensures t <= times[n] {
        var i :| 0 <= i < n && times[..n][i] == t;
        assert times[i] <= times[n];
      }
      SortedAppend(kept, times[n]);
      assert kept + [] == kept;
    }
  }

  lemma {:induction false} LatestBounds(history: seq<Call>, tool: string)
    requires ClockAdvances(history, tool)
    ensures forall i :: 0 <= i < |history| && history[i].tool == tool ==>
                          LatestCall(history, tool).Some? && history[i].now <= LatestCall(history, tool).value
  {
    if history != [] {
      LatestBounds(history[..|history| - 1], tool);
    }
  }

  /** What the deque knows about the full history of accepted calls. */
  ghost predicate Remembers(history: seq<Call>, tool: string) {
    var accepted, latest := Accepted(history, tool), LatestCall(history, tool);
    && Sorted(accepted)
    && (latest.None? ==> accepted == [] && Window(history, tool) == [])
    && (latest.Some? ==>
          && (forall t <- accepted :: t <= latest.value)
          && Window(history, tool) == Since(accepted, latest.value - 60.0))
  }

  /** On the next call of the tool, what is left in the deque are the accepted
      calls of the sixty seconds before it. */
  lemma EvictedIsRecent(history: seq<Call>, tool: string, now: real)
    requires Remembers(history, tool)
    requires LatestCall(history, tool).Some? ==> LatestCall(history, tool).value <= now
    ensures Evict(Window(history, tool), now - 60.0) == Since(Accepted(history, tool), now - 60.0)
  {
    var accepted := Accepted(history, tool);
    if LatestCall(history, tool).Some? {
      var cutoff := LatestCall(history, tool).value - 60.0;
      SinceSorted(accepted, cutoff);
      SinceTwice(accepted, cutoff, now - 60.0);
      EvictIsSince(Window(history, tool), now - 60.0);
    }
  }

  lemma HistoryStep(history: seq<Call>, tool: string, c: Call)
    requires c.tool == tool
    ensures var longer := history + [c];
            && Window(longer, tool) == NextWindow(Window(history, tool), c)
            && Accepted(longer, tool)
               == Accepted(history, tool) + (if LetThrough(Window(history, tool), c) then [c.now] else [])
            && LatestCall(longer, tool) == Some(c.now)
  {
    var longer := history + [c];
    assert longer[..|history|] == history && longer[|history|] == c;
  }

  /** One more call of the tool, on a clock that has not gone back. */
  lemma RememberNext(history: seq<Call>, tool: string, c: Call)
    requires Remembers(history, tool) && c.tool == tool
    requires LatestCall(history, tool).Some? ==> LatestCall(history, tool).value <= c.now
    ensures Remembers(history + [c], tool)
  {
    hide Sorted, Window, Accepted, LatestCall, Evict, Since;
    var accepted := Accepted(history, tool);
    HistoryStep(history, tool, c);
    EvictedIsRecent(history, tool, c.now);
    SinceAppend(accepted, c.now, c.now - 60.0);
    assert forall t <- accepted :: t <= c.now;
    SortedAppend(accepted, c.now);
    assert accepted + [] == accepted;
    assert Since(accepted, c.now - 60.0) + [] == Since(accepted, c.now - 60.0);
  }

  /** On a clock that does not go back, the deque of a tool is exactly its accepted
      calls of the last sixty seconds before its latest call. */
  lemma {:induction false} WindowIsRecentHistory(history: seq<Call>, tool: string)
    requires ClockAdvances(history, tool)
    ensures Remembers(history, tool)
  {
    if history != [] {
      var n := |history| - 1;
      WindowIsRecentHistory(history[..n], tool);
      if history[n].tool == tool {
        LatestBounds(history[..n], tool);
        LatestIsACall(history[..n], tool);
        RememberNext(history[..n], tool, history[n]);
        assert history[..n] + [history[n]] == history;
      }
    }
  }

  lemma {:induction false} LatestIsACall(history: seq<Call>, tool: string)
    ensures LatestCall(history, tool).Some? ==>
              exists i :: 0 <= i < |history|
                          && history[i].tool == tool && history[i].now == LatestCall(history, tool).value
  {
    if history != [] {
      var n := |history| - 1;
      LatestIsACall(history[..n], tool);
      if history[n].tool != tool && LatestCall(history[..n], tool).Some? {
        var i :| 0 <= i < n && history[..n][i].tool == tool
                 && history[..n][i].now == LatestCall(history[..n], tool).value;
        assert history[i].tool == tool;
      }
    }
  }

  /** A call is refused exactly when the accepted calls of the last sixty seconds
      already reach the limit. */
  lemma RefusedExactlyAtTheLimit(history: seq<Call>, c: Call)
    requires ClockAdvances(history + [c], c.tool)
    ensures LetThrough(Window(history, c.tool), c)
            <==> |Since(Accepted(history, c.tool), c.now - 60.0)| < c.limit
  {
    var longer := history + [c];
    forall i, j | 0 <= i < j < |history| && history[i].tool == c.tool && history[j].tool == c.tool
      ensures history[i].now <= history[j].now
    {
      assert longer[i] == history[i] && longer[j] == history[j];
    }
    WindowIsRecentHistory(history, c.tool);
    LatestIsACall(history, c.tool);
    if LatestCall(history, c.tool).Some? {
      var i :| 0 <= i < |history| && history[i].tool == c.tool && history[i].now == LatestCall(history, c.tool).value;
      assert longer[i] == history[i] && longer[|history|] == c;
    }
    EvictedIsRecent(history, c.tool, c.now);
  }

  lemma {:induction false} CountAtMostSince(times: seq<real>, lo: real, hi: real, from: real)
    requires from <= lo
    ensures CountIn(times, lo, hi) <= |Since(times, from)|
  {
    if times != [] {
      CountAtMostSince(times[..|times| - 1], lo, hi, from);
    }
  }

  ghost predicate FixedLimit(history: seq<Call>, tool: string, limit: nat) {
    forall c <- history :: c.tool == tool ==> c.limit == limit
  }

  lemma PrefixBehaves(history: seq<Call>, tool: string, limit: nat)
    requires history != [] && ClockAdvances(history, tool) && FixedLimit(history, tool, limit)
    ensures ClockAdvances(history[..|history| - 1], tool) && FixedLimit(history[..|history| - 1], tool, limit)
    ensures history[|history| - 1].tool == tool ==> history[|history| - 1].limit == limit
  {
    assert history[|history| - 1] in history;
    assert forall x <- history[..|history| - 1] :: x in history;
  }

  lemma AcceptedStep(history: seq<Call>, tool: string)
    requires history != []
    ensures var n := |history| - 1;
            var before := Accepted(history[..n], tool);
            Accepted(history, tool)
            == if history[n].tool == tool && LetThrough(Window(history[..n], tool), history[n])
               then before + [history[n].now] else before
  {
  }

  lemma OneMoreInside(times: seq<real>, now: real, lo: real, limit: nat)
    requires |Since(times, now - 60.0)| < limit && CountIn(times, lo, lo + 60.0) <= limit
    ensures CountIn(times + [now], lo, lo + 60.0) <= limit
  {
    assert (times + [now])[..|times|] == times;
    if lo <= now <= lo + 60.0 {
      CountAtMostSince(times, lo, lo + 60.0, now - 60.0);
    }
  }

  /** Under a fixed limit no closed interval of sixty seconds, wherever it lies,
      holds more accepted calls of a tool than the limit. */
  lemma {:induction false} NoBurstBeyondTheLimit(history: seq<Call>, tool: string, limit: nat, lo: real)
    requires ClockAdvances(history, tool) && FixedLimit(history, tool, limit)
    ensures CountIn(Accepted(history, tool), lo, lo + 60.0) <= limit
  {
    if history != [] {
      var n := |history| - 1;
      var c := history[n];
      assert history == history[..n] + [c];
      PrefixBehaves(history, tool, limit);
      hide Since, Window, Accepted, FixedLimit, ClockAdvances;
      NoBurstBeyondTheLimit(history[..n], tool, limit, lo);
      if c.tool == tool && LetThrough(Window(history[..n], tool), c) {
        RefusedExactlyAtTheLimit(history[..n], c);
        OneMoreInside(Accepted(history[..n], tool), c.now, lo, limit);
      }
      AcceptedStep(history, tool);
    }
  }

  function CallsOf(history: seq<Call>, tool: string): seq<Call> {
    if history == [] then []
    else
      var n := |history| - 1;
      CallsOf(history[..n], tool) + if history[n].tool == tool then [history[n]] else []
  }

  /** Tools do not affect each other: a tool fares as if it were alone. */
  lemma {:induction false} ToolsAreIndependent(history: seq<Call>, tool: string)
    ensures Window(history, tool) == Window(CallsOf(history, tool), tool)
    ensures Accepted(history, tool) == Accepted(CallsOf(history, tool), tool)
  {
    if history != [] {
      var n := |history| - 1;
      ToolsAreIndependent(history[..n], tool);
      var own := CallsOf(history[..n], tool);
      assert (own + [history[n]])[..|own|] == own && own + [] == own;
    }
  }

  /* ---- The capped drain ----------------------------------------------------------------------- */

  type Bytes = seq<bv8>

  /** What the chunks of a stream amount to: everything up to the first empty read. */
  function Content(chunks: seq<Bytes>): Bytes {
    if chunks == [] || chunks[0] == [] then [] else chunks[0] + Content(chunks[1..])
  }

  function Take(b: Bytes, n: nat): Bytes {
    if |b| <= n then b else b[..n]
  }

  /** Read so far, then the rest. */
  ghost predicate ReadSoFar(chunks: seq<Bytes>, i: nat, sofar: Bytes) {
    i <= |chunks| && sofar + Content(chunks[i..]) == Content(chunks)
  }

  lemma ReadOneMore(chunks: seq<Bytes>, i: nat, sofar: Bytes)
    requires ReadSoFar(chunks, i, sofar) && i < |chunks| && chunks[i] != []
    ensures ReadSoFar(chunks, i + 1, sofar + chunks[i])
  {
    assert chunks[i..][0] == chunks[i] && chunks[i..][1..] == chunks[i + 1..];
    assert sofar + (chunks[i] + Content(chunks[i + 1..])) == (sofar + chunks[i]) + Content(chunks[i + 1..]);
  }

  lemma TakeOneMore(sofar: Bytes, chunk: Bytes, n: nat)
    requires |sofar| < n
    ensures Take(sofar + chunk, n) == sofar + Take(chunk, n - |sofar|)
  {
  }

  /** `_drain`: however the stream is cut into chunks, the result is its first
      `maxBytes` bytes, and both the flag and the cap event say exactly whether
      there were more. */
  method Drain(chunks: seq<Bytes>, maxBytes: nat) returns (output: Bytes, truncated: bool, capEvent: bool)
    ensures output == Take(Content(chunks), maxBytes)
    ensures |Content(chunks)| <= maxBytes ==> output == Content(chunks)
    ensures |Content(chunks)| > maxBytes ==> output == Content(chunks)[..maxBytes]
    ensures truncated == capEvent
    ensures truncated <==> |Content(chunks)| > maxBytes
  {
    output, truncated, capEvent := [], false, false;
    var total, i := 0, 0;
    ghost var sofar: Bytes := [];
    assert chunks[0..] == chunks;
    while i < |chunks| && chunks[i] != []
      invariant ReadSoFar(chunks, i, sofar) && output == Take(sofar, maxBytes) && total == |output|
      invariant truncated == capEvent && (truncated <==> |sofar| > maxBytes)
    {
      var chunk := chunks[i];
      ReadOneMore(chunks, i, sofar);
      if total < maxBytes {
        var remaining := maxBytes - total;
        TakeOneMore(sofar, chunk, maxBytes);
        output := output + Take(chunk, remaining);
        total := total + |Take(chunk, remaining)|;
        if |chunk| > remaining {
          truncated, capEvent := true, true;
        }
      } else {
        assert Take(sofar + chunk, maxBytes) == Take(sofar, maxBytes);
        truncated, capEvent := true, true;
      }
      sofar := sofar + chunk;
      i := i + 1;
    }
    assert Content(chunks[i..]) == [];
  }

  /** Two ways of cutting one stream into non-empty chunks amount to the same content. */
  lemma {:induction false} ContentOfChunks(chunks: seq<Bytes>)
    requires forall r <- chunks :: r != []
    ensures Content(chunks) == Joined(chunks)
  {
    if chunks != [] {
      assert chunks[0] in chunks && forall r <- chunks[1..] :: r in chunks;
      ContentOfChunks(chunks[1..]);
    }
  }

  function Joined(chunks: seq<Bytes>): Bytes {
    if chunks == [] then [] else chunks[0] + Joined(chunks[1..])
  }
}
