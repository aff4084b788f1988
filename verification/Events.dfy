/** The event machinery of a provider adapter (providers/codex.py) and the stream
    normaliser (providers/event_stream.py): a producer that retries invalid
    output, consumers that follow its events from any cursor, and the check that
    a stream has been neither replayed nor reordered. */
module Events {
  import opened Wrappers

  datatype Body = FromProvider(tag: string) | RetryWarning(attempt: nat)

  datatype Event = Event(invocation: string, sequence: int, body: Body)

  ghost predicate Numbered(events: seq<Event>, id: string) {
    forall i :: 0 <= i < |events| ==> events[i].sequence == i && events[i].invocation == id
  }

  function Bodies(events: seq<Event>): seq<Body> {
    seq(|events|, i requires 0 <= i < |events| => events[i].body)
  }

  function Warnings(events: seq<Event>): nat {
    if events == [] then 0
    else Warnings(events[..|events| - 1]) + if events[|events| - 1].body.RetryWarning? then 1 else 0
  }

  /* ---- The retry loop --------------------------------------------------------------------- */

  datatype TurnStatus = Completed | Interrupted | Broken

  datatype Turn = Turn(status: TurnStatus, text: Option<string>)

  /** A notification carries any number of events and may report the turn's end. */
  datatype Notification = Notification(tags: seq<string>, completed: Option<Turn>)

  /** What a turn streams, and whether the stream then raises. */
  datatype TurnScript = TurnScript(notifications: seq<Notification>, raises: bool)

  /** `schema`: whether structured output is asked for; `valid`: which texts validate. */
  datatype Ask = Ask(schema: bool, valid: string -> bool, maxRetries: nat)

  /** The provider: the script of the k-th retry, or None if creating the turn
      raises, and whether a cancel has been requested by the end of turn k. */
  datatype Provider = Provider(first: TurnScript, retry: nat -> Option<TurnScript>, cancelled: nat -> bool)

  function FromTags(tags: seq<string>): seq<Body> {
    seq(|tags|, i requires 0 <= i < |tags| => FromProvider(tags[i]))
  }

  /** Everything a turn streams, in order. */
  function Streamed(notifications: seq<Notification>): seq<Body> {
    if notifications == [] then []
    else
      var n := |notifications| - 1;
      Streamed(notifications[..n]) + FromTags(notifications[n].tags)
  }

  /** What the first `turns` turns stream, with a warning before each retry. */
  function Transcript(p: Provider, turns: nat): seq<Body> {
    if turns == 0 then []
    else if turns == 1 then Streamed(p.first.notifications)
    else
      Transcript(p, turns - 1) + [RetryWarning(turns - 1)]
      + if p.retry(turns - 1).Some? then Streamed(p.retry(turns - 1).value.notifications) else []
  }

  datatype ProtocolStatus = Succeeded | Cancelled | InvalidOutput | ProviderError(retriable: bool)

  datatype RunResult = RunResult(status: ProtocolStatus, structured: Option<string>)

  /** A turn that delivers what was asked for. */
  predicate Acceptable(ask: Ask, t: Turn) {
    ask.schema && t.text.Some? ==> ask.valid(t.text.value)
  }

  /** `_build_result` */
  function BuildResult(ask: Ask, turn: Option<Turn>, failed: bool): (r: RunResult)
    ensures r.status == Succeeded <==>
              !failed && turn.Some? && turn.value.status == Completed && Acceptable(ask, turn.value)
    ensures r.status == InvalidOutput <==>
              !failed && turn.Some? && turn.value.status == Completed && !Acceptable(ask, turn.value)
    ensures r.status == Cancelled <==> !failed && turn.Some? && turn.value.status == Interrupted
    ensures r.status == ProviderError(true) <==> !failed && turn.None?
    ensures r.structured.Some? <==>
              !failed && turn.Some? && ask.schema && turn.value.text.Some? && Acceptable(ask, turn.value)
    ensures r.structured.Some? ==> r.structured == turn.value.text
  {
    if failed then RunResult(ProviderError(false), None)
    else if turn.None? then RunResult(ProviderError(true), None)
    else
      var t := turn.value;
      var structured := if ask.schema && t.text.Some? && ask.valid(t.text.value) then t.text else None;
      var status :=
        match t.status
        case Interrupted => Cancelled
        case Broken => ProviderError(false)
        case Completed => if ask.schema && t.text.Some? && structured.None? then InvalidOutput else Succeeded;
      RunResult(status, structured)
  }

  class Invocation {
    const id: string
    var events: seq<Event>
    var done: bool
    var result: Option<RunResult>

    constructor (id: string)
      ensures this.id == id && events == [] && !done && result == None
    {
      this.id := id;
      events, done, result := [], false, None;
    }

    method Append(sequence: nat, body: Body)
      requires Numbered(events, id) && sequence == |events|
      modifies this`events
      ensures Numbered(events, id) && events == old(events) + [Event(id, sequence, body)]
      ensures Warnings(events) == Warnings(old(events)) + if body.RetryWarning? then 1 else 0
      ensures Bodies(events) == Bodies(old(events)) + [body]
    {
      assert (events + [Event(id, sequence, body)])[..|events|] == events;
      events := events + [Event(id, sequence, body)];
    }

    /** The events of one turn; the last reported end of the turn counts. */
    method Stream(script: TurnScript, start: nat) returns (sequence: nat, turn: Option<Turn>)
      requires Numbered(events, id) && start == |events|
      modifies this`events
      ensures Numbered(events, id) && sequence == |events| && old(events) <= events
      ensures Warnings(events) == Warnings(old(events))
      ensures turn == LastTurn(script.notifications)
      ensures Bodies(events) == Bodies(old(events)) + Streamed(script.notifications)
    {
      hide Numbered, Warnings;
      sequence, turn := start, None;
      for i := 0 to |script.notifications|
        invariant Numbered(events, id) && sequence == |events| && old(events) <= events
        invariant Warnings(events) == Warnings(old(events))
        invariant turn == LastTurn(script.notifications[..i])
        invariant Bodies(events) == Bodies(old(events)) + Streamed(script.notifications[..i])
      {
        ghost var before := Bodies(events);
        var n := script.notifications[i];
        assert script.notifications[..i + 1][..i] == script.notifications[..i];
        for j := 0 to |n.tags|
          invariant Numbered(events, id) && sequence == |events| && old(events) <= events
          invariant Warnings(events) == Warnings(old(events))
          invariant Bodies(events) == before + FromTags(n.tags[..j])
        {
          assert FromTags(n.tags[..j + 1]) == FromTags(n.tags[..j]) + [FromProvider(n.tags[j])];
          Append(sequence, FromProvider(n.tags[j]));
          sequence := sequence + 1;
        }
        assert n.tags[..|n.tags|] == n.tags;
        if n.completed.Some? {
          turn := n.completed;
        }
      }
      assert script.notifications[..|script.notifications|] == script.notifications;
    }

    /** `_run_with_retries`. Every event of every turn is appended, in order, with a
        warning before each retry, numbered 0, 1, 2, ... across the retries;
        at most `maxRetries + 1` turns are used; the invocation is done unless the
        turn of a retry that was due could not be created; and invalid output is accepted only
        when no retry is left or a cancel was requested. */
    method RunWithRetries(ask: Ask, provider: Provider) returns (turns: nat)
      requires events == [] && !done && result == None
      modifies this
      ensures Numbered(events, id)
      ensures 1 <= turns <= ask.maxRetries + 1
      ensures done <==> result.Some?
      ensures !done ==> turns <= ask.maxRetries && provider.retry(turns).None? && Retried(ask, provider, turns - 1)
      ensures done <==> !LeftOpen(ask, provider)
      ensures Warnings(events) == if done then turns - 1 else turns
      ensures Bodies(events) == Transcript(provider, turns) + if done then [] else [RetryWarning(turns)]
      ensures done ==>
                var last := ScriptOf(provider, turns - 1);
                && last.Some?
                && result == Some(BuildResult(ask, LastTurn(last.value.notifications), last.value.raises))
      ensures done && result.value.status == InvalidOutput ==>
                turns == ask.maxRetries + 1 || provider.cancelled(turns - 1)
      ensures forall k :: 0 <= k < turns - 1 ==> Retried(ask, provider, k)
    {
      hide BuildResult, LastTurn, Retried, StopsAt, LeftOpen, Streamed, Transcript, Numbered, Warnings, Bodies;
      FirstTurn(provider, id);
      var sequence, attempt := 0, 0;
      var script := provider.first;
      var turn := None;
      while true
        invariant Numbered(events, id) && sequence == |events| && !done && result == None
        invariant 0 <= attempt <= ask.maxRetries && Warnings(events) == attempt
        invariant Bodies(events) + Streamed(script.notifications) == Transcript(provider, attempt + 1)
        invariant ScriptOf(provider, attempt) == Some(script)
        invariant forall k :: 0 <= k < attempt ==> Retried(ask, provider, k)
        decreases ask.maxRetries - attempt
      {
        sequence, turn := Stream(script, sequence);
        turns := attempt + 1;
        RetriedExactly(ask, provider, attempt, script);
        if script.raises || turn.None? || provider.cancelled(attempt) {
          break;
        }
        if turn.value.status != Completed || !ask.schema || turn.value.text.None? || ask.valid(turn.value.text.value) {
          break;
        }
        if attempt + 1 > ask.maxRetries {
          break;
        }
        attempt := attempt + 1;
        Append(sequence, RetryWarning(attempt));
        sequence := sequence + 1;
        var next := provider.retry(attempt);
        if next.None? {
          StopsHere(ask, provider, attempt);
          return;
        }
        NextTurn(provider, attempt);
        script := next.value;
      }
      NotLeftOpen(ask, provider, attempt);
      result := Some(BuildResult(ask, turn, script.raises));
      done := true;
    }
  }

  function LastTurn(notifications: seq<Notification>): Option<Turn> {
    if notifications == [] then None
    else
      var n := |notifications| - 1;
      if notifications[n].completed.Some? then notifications[n].completed else LastTurn(notifications[..n])
  }

  /** It is the last end of the turn that was reported, and none if none was. */
  lemma {:induction false} LastTurnMeans(notifications: seq<Notification>)
    ensures LastTurn(notifications).None? <==> forall n <- notifications :: n.completed.None?
    ensures forall i :: 0 <= i < |notifications| && notifications[i].completed.Some?
                        && (forall j :: i < j < |notifications| ==> notifications[j].completed.None?)
              ==> LastTurn(notifications) == notifications[i].completed
  {
    if notifications != [] {
      var n := |notifications| - 1;
      LastTurnMeans(notifications[..n]);
      assert notifications == notifications[..n] + [notifications[n]];
      forall i | 0 <= i < |notifications| && notifications[i].completed.Some?
                 && (forall j :: i < j < |notifications| ==> notifications[j].completed.None?)
        ensures LastTurn(notifications) == notifications[i].completed
      {
        if i < n {
          assert notifications[n].completed.None? && notifications[..n][i] == notifications[i];
          forall j | i < j < n ensures notifications[..n][j].completed.None? {
          }
        }
      }
    }
  }

  function ScriptOf(p: Provider, k: nat): Option<TurnScript> {
    if k == 0 then Some(p.first) else p.retry(k)
  }

  /** A turn is retried only if it completed, uncancelled, with invalid output. */
  predicate Retried(ask: Ask, p: Provider, k: nat) {
    var script := ScriptOf(p, k);
    && script.Some? && !script.value.raises && !p.cancelled(k)
    && var turn := LastTurn(script.value.notifications);
    && turn.Some? && turn.value.status == Completed && !Acceptable(ask, turn.value)
  }

  lemma FirstTurn(p: Provider, id: string)
    ensures Transcript(p, 1) == Streamed(p.first.notifications)
    ensures Numbered([], id) && Warnings([]) == 0 && Bodies([]) == []
  {
  }

  lemma NextTurn(p: Provider, k: nat)
    requires k > 0 && p.retry(k).Some?
    ensures Transcript(p, k + 1) == Transcript(p, k) + [RetryWarning(k)] + Streamed(p.retry(k).value.notifications)
  {
  }

  /** All turns before turn `m` called for a retry, and turn `m` cannot be created. */
  predicate StopsAt(ask: Ask, p: Provider, m: nat) {
    1 <= m <= ask.maxRetries && p.retry(m).None? && forall k :: 0 <= k < m ==> Retried(ask, p, k)
  }

  lemma RetriedExactly(ask: Ask, p: Provider, k: nat, script: TurnScript)
    requires ScriptOf(p, k) == Some(script)
    ensures Retried(ask, p, k) <==>
              && !script.raises && !p.cancelled(k)
              && var turn := LastTurn(script.notifications);
              && turn.Some? && turn.value.status == Completed && !Acceptable(ask, turn.value)
  {
  }

  lemma StopsHere(ask: Ask, p: Provider, m: nat)
    requires 1 <= m <= ask.maxRetries && p.retry(m).None? && forall k :: 0 <= k < m ==> Retried(ask, p, k)
    ensures LeftOpen(ask, p)
  {
    assert StopsAt(ask, p, m);
  }

  /** The invocation is never done. */
  ghost predicate LeftOpen(ask: Ask, p: Provider) {
    exists m: nat :: StopsAt(ask, p, m)
  }

  lemma NotLeftOpen(ask: Ask, p: Provider, last: nat)
    requires last <= ask.maxRetries && ScriptOf(p, last).Some? && forall k :: 0 <= k < last ==> Retried(ask, p, k)
    requires !Retried(ask, p, last) || last == ask.maxRetries
    ensures !LeftOpen(ask, p)
  {
    forall m: nat ensures !StopsAt(ask, p, m) {
      assert 1 <= m < last ==> Retried(ask, p, m);
    }
  }

  /* ---- Consumers ---------------------------------------------------------------------------------- */

  /** A consumer of `stream_events`: how far it has read the list, what it has
      taken but not yet delivered, and what its caller has received. */
  datatype Consumer = Consumer(
    cursor: int, index: nat, pending: seq<Event>, finished: bool, delivered: seq<Event>, returned: bool)

  datatype World = World(id: string, events: seq<Event>, done: bool, consumers: map<nat, Consumer>)

  /** The producer emits and completes; consumers join with a cursor, poll under
      the lock, and deliver one event at a time, in any interleaving. */
  datatype Step = Emit(body: Body) | Complete | Join(p: nat, cursor: int) | Poll(p: nat) | Deliver(p: nat)

  function Polled(w: World, c: Consumer): Consumer {
    if c.pending != [] || c.returned then c
    else if c.finished then c.(returned := true)
    else if c.index >= |w.events| && !w.done then c
    else c.(pending := w.events[if c.index <= |w.events| then c.index else |w.events|..],
            index := |w.events|, finished := w.done)
  }

  function Delivered(c: Consumer): Consumer {
    if c.pending == [] then c
    else
      var next := c.(pending := c.pending[1..]);
      if c.pending[0].sequence > c.cursor then next.(delivered := c.delivered + [c.pending[0]]) else next
  }

  function Next(w: World, s: Step): World {
    match s
    case Emit(body) => if w.done then w else w.(events := w.events + [Event(w.id, |w.events|, body)])
    case Complete => w.(done := true)
    case Join(p, cursor) =>
      if p in w.consumers then w else w.(consumers := w.consumers[p := Consumer(cursor, 0, [], false, [], false)])
    case Poll(p) => if p in w.consumers then w.(consumers := w.consumers[p := Polled(w, w.consumers[p])]) else w
    case Deliver(p) => if p in w.consumers then w.(consumers := w.consumers[p := Delivered(w.consumers[p])]) else w
  }

  function RunAll(id: string, steps: seq<Step>): World {
    if steps == [] then World(id, [], false, map[])
    else Next(RunAll(id, steps[..|steps| - 1]), steps[|steps| - 1])
  }

  /** The events a cursor has not seen. */
  function After(events: seq<Event>, cursor: int): seq<Event> {
    if cursor < 0 then events
    else if cursor + 1 <= |events| then events[cursor + 1..]
    else []
  }

  /** Delivered is what the cursor has not seen of what has left the queue. */
  ghost predicate ConsumerFits(w: World, c: Consumer) {
    && c.index <= |w.events| && |c.pending| <= c.index
    && c.pending == w.events[c.index - |c.pending|..c.index]
    && c.delivered == After(w.events[..c.index - |c.pending|], c.cursor)
    && (c.finished ==> w.done && c.index == |w.events|)
    && (c.returned ==> c.finished && c.pending == [])
  }

  ghost predicate WorldFits(w: World) {
    Numbered(w.events, w.id) && forall p <- w.consumers :: ConsumerFits(w, w.consumers[p])
  }

  lemma EmitFits(w: World, body: Body, c: Consumer)
    requires !w.done && ConsumerFits(w, c)
    ensures ConsumerFits(Next(w, Emit(body)), c)
  {
    var w' := Next(w, Emit(body));
    var k := c.index - |c.pending|;
    assert w'.events[..k] == w.events[..k] && w'.events[k..c.index] == w.events[k..c.index];
  }

  lemma PollFits(w: World, c: Consumer)
    requires ConsumerFits(w, c)
    ensures ConsumerFits(w, Polled(w, c))
  {
  }

  lemma AfterNext(events: seq<Event>, e: Event, cursor: int)
    ensures After(events + [e], cursor) == After(events, cursor) + if |events| > cursor then [e] else []
  {
  }

  lemma DeliverFits(w: World, c: Consumer)
    requires ConsumerFits(w, c) && Numbered(w.events, w.id)
    ensures ConsumerFits(w, Delivered(c))
  {
    if c.pending != [] {
      hide After;
      var k := c.index - |c.pending|;
      assert c.pending[0] == w.events[k] && w.events[k].sequence == k;
      assert c.pending[1..] == w.events[k + 1..c.index];
      assert w.events[..k + 1] == w.events[..k] + [w.events[k]];
      AfterNext(w.events[..k], w.events[k], c.cursor);
    }
  }

  lemma StepFits(w: World, s: Step)
    requires WorldFits(w)
    ensures WorldFits(Next(w, s)) && Next(w, s).id == w.id
  {
    hide ConsumerFits;
    var w' := Next(w, s);
    forall p <- w'.consumers ensures ConsumerFits(w', w'.consumers[p]) {
      ConsumerStep(w, s, p);
    }
  }

  /** A consumer is only concerned with the events and the done flag. */
  lemma UntouchedFits(w: World, w': World, c: Consumer)
    requires ConsumerFits(w, c) && w'.events == w.events && (w.done ==> w'.done)
    ensures ConsumerFits(w', c)
  {
  }

  lemma ConsumerStep(w: World, s: Step, p: nat)
    requires WorldFits(w) && p in Next(w, s).consumers
    ensures ConsumerFits(Next(w, s), Next(w, s).consumers[p])
  {
    hide ConsumerFits, Polled, Delivered;
    var w' := Next(w, s);
    if s.Emit? && !w.done {
      EmitFits(w, s.body, w.consumers[p]);
    } else if p !in w.consumers {
      JoinFits(w', s.cursor);
    } else {
      var c := w.consumers[p];
      PollFits(w, c);
      DeliverFits(w, c);
      UntouchedFits(w, w', c);
      UntouchedFits(w, w', Polled(w, c));
      UntouchedFits(w, w', Delivered(c));
    }
  }

  lemma JoinFits(w: World, cursor: int)
    ensures ConsumerFits(w, Consumer(cursor, 0, [], false, [], false))
  {
  }

  /** In every interleaving. */
  lemma {:induction false} EveryWorldFits(id: string, steps: seq<Step>)
    ensures WorldFits(RunAll(id, steps)) && RunAll(id, steps).id == id
  {
    if steps != [] {
      EveryWorldFits(id, steps[..|steps| - 1]);
      StepFits(RunAll(id, steps[..|steps| - 1]), steps[|steps| - 1]);
    }
  }

  /** A consumer never sees an event twice, out of order, or from before its
      cursor, and returns only once the producer is done and it has delivered
      exactly the events after its cursor. */
  lemma ConsumerGetsEverything(id: string, steps: seq<Step>, p: nat)
    requires p in RunAll(id, steps).consumers
    ensures var w := RunAll(id, steps);
            var c := w.consumers[p];
            && c.delivered <= After(w.events, c.cursor)
            && (c.returned ==> w.done && c.delivered == After(w.events, c.cursor))
  {
    EveryWorldFits(id, steps);
    var w := RunAll(id, steps);
    var c := w.consumers[p];
    assert ConsumerFits(w, c);
    var k := c.index - |c.pending|;
    assert w.events[..|w.events|] == w.events;
    if c.cursor >= 0 && c.cursor + 1 <= k {
      assert w.events[..k][c.cursor + 1..] == w.events[c.cursor + 1..][..k - (c.cursor + 1)];
    }
  }

  lemma RunOneMore(id: string, steps: seq<Step>, s: Step)
    ensures RunAll(id, steps + [s]) == Next(RunAll(id, steps), s)
  {
    assert (steps + [s])[..|steps|] == steps;
  }

  /** Without the producer's completion nothing is ever done. */
  lemma {:induction false} StillOpen(id: string, steps: seq<Step>, more: seq<Step>)
    requires !RunAll(id, steps).done && Complete !in more
    ensures !RunAll(id, steps + more).done
  {
    if more == [] {
      assert steps + more == steps;
    } else {
      var n := |more| - 1;
      assert more[n] in more && forall s <- more[..n] :: s in more;
      StillOpen(id, steps, more[..n]);
      RunOneMore(id, steps + more[..n], more[n]);
      assert steps + more == steps + more[..n] + [more[n]];
    }
  }

  /** A consumer delivers what it has taken. */
  lemma {:induction false} Drain(id: string, steps: seq<Step>, p: nat) returns (more: seq<Step>)
    requires p in RunAll(id, steps).consumers
    ensures Complete !in more
    ensures var w, w' := RunAll(id, steps), RunAll(id, steps + more);
            && w'.events == w.events && w'.done == w.done && p in w'.consumers
            && w'.consumers[p].pending == [] && w'.consumers[p].index == w.consumers[p].index
            && w'.consumers[p].finished == w.consumers[p].finished
    decreases |RunAll(id, steps).consumers[p].pending|
  {
    hide RunAll;
    if RunAll(id, steps).consumers[p].pending == [] {
      more := [];
      assert steps + more == steps;
    } else {
      RunOneMore(id, steps, Deliver(p));
      var rest := Drain(id, steps + [Deliver(p)], p);
      more := [Deliver(p)] + rest;
      assert steps + more == steps + [Deliver(p)] + rest;
    }
  }

  lemma ReturnedIsFinished(id: string, steps: seq<Step>, p: nat)
    requires p in RunAll(id, steps).consumers && RunAll(id, steps).consumers[p].returned
    ensures RunAll(id, steps).consumers[p].finished
  {
    EveryWorldFits(id, steps);
    assert ConsumerFits(RunAll(id, steps), RunAll(id, steps).consumers[p]);
  }

  lemma PollOnce(id: string, steps: seq<Step>, p: nat) returns (more: seq<Step>)
    requires p in RunAll(id, steps).consumers
    ensures Complete !in more && p in RunAll(id, steps + more).consumers
    ensures var w, w' := RunAll(id, steps), RunAll(id, steps + more);
            && w'.done == w.done
            && (w.done ==> w'.consumers[p].finished)
            && (w.consumers[p].finished ==> w'.consumers[p].returned)
  {
    hide RunAll;
    var drained := Drain(id, steps, p);
    if RunAll(id, steps + drained).consumers[p].returned {
      ReturnedIsFinished(id, steps + drained, p);
    }
    RunOneMore(id, steps + drained, Poll(p));
    more := drained + [Poll(p)];
    assert steps + more == steps + drained + [Poll(p)];
  }

  /** Whatever else happens, a consumer can come to its end without the producer if
      and only if the producer is done: on an invocation that is never done it
      waits for ever. */
  lemma ReturnsExactlyWhenDone(id: string, steps: seq<Step>, p: nat)
    requires p in RunAll(id, steps).consumers
    ensures (exists more :: Complete !in more && ReturnedIn(RunAll(id, steps + more), p)) <==> RunAll(id, steps).done
  {
    if RunAll(id, steps).done {
      var first := PollOnce(id, steps, p);
      var second := PollOnce(id, steps + first, p);
      assert steps + (first + second) == steps + first + second;
      assert ReturnedIn(RunAll(id, steps + (first + second)), p);
    } else {
      forall more | Complete !in more ensures !ReturnedIn(RunAll(id, steps + more), p) {
        StillOpen(id, steps, more);
        NeverReturned(id, steps + more, p);
      }
    }
  }

  predicate ReturnedIn(w: World, p: nat) {
    p in w.consumers && w.consumers[p].returned
  }

  lemma NeverReturned(id: string, steps: seq<Step>, p: nat)
    requires !RunAll(id, steps).done
    ensures !ReturnedIn(RunAll(id, steps), p)
  {
    EveryWorldFits(id, steps);
    var w := RunAll(id, steps);
    assert p in w.consumers ==> ConsumerFits(w, w.consumers[p]);
  }

  /** What a consumer got before it went away, and what a second one got by
      resuming after the last of it, are together the whole stream. */
  lemma PrefixPlusResume(id: string, steps: seq<Step>, p: nat, q: nat)
    requires p in RunAll(id, steps).consumers && q in RunAll(id, steps).consumers
    requires var w := RunAll(id, steps);
             && w.consumers[p].cursor < 0
             && w.consumers[q].cursor == |w.consumers[p].delivered| - 1
             && w.consumers[q].returned
    ensures var w := RunAll(id, steps);
            && w.consumers[p].delivered + w.consumers[q].delivered == w.events
            && (w.consumers[p].delivered != [] ==>
                  w.consumers[q].cursor == w.consumers[p].delivered[|w.consumers[p].delivered| - 1].sequence)
  {
    ConsumerGetsEverything(id, steps, p);
    ConsumerGetsEverything(id, steps, q);
    EveryWorldFits(id, steps);
    var w := RunAll(id, steps);
    var d := w.consumers[p].delivered;
    assert d <= w.events;
    assert d != [] ==> d[|d| - 1] == w.events[|d| - 1];
  }

  /* ---- normalize_events -------------------------------------------------------------------------------- */

  ghost predicate Increasing(events: seq<Event>) {
    forall i, j :: 0 <= i < j < |events| ==> events[i].sequence < events[j].sequence
  }

  ghost predicate NeverBack(events: seq<Event>) {
    forall i, j :: 0 <= i < j < |events| ==> events[i].sequence <= events[j].sequence
  }

  ghost predicate AllOf(events: seq<Event>, id: string) {
    forall i :: 0 <= i < |events| ==> events[i].invocation == id
  }

  /** The first event of each run of equal sequence numbers. */
  function Firsts(events: seq<Event>): seq<Event> {
    if events == [] then []
    else
      var n := |events| - 1;
      Firsts(events[..n]) + if n > 0 && events[n - 1].sequence == events[n].sequence then [] else [events[n]]
  }

  /** All events are of the invocation, and no sequence number goes back. */
  ghost predicate Orderly(events: seq<Event>, id: string) {
    AllOf(events, id) && NeverBack(events)
  }

  lemma AppendIncreasing(events: seq<Event>, e: Event)
    requires Increasing(events) && (events != [] ==> events[|events| - 1].sequence < e.sequence)
    ensures Increasing(events + [e])
  {
  }

  lemma {:induction false} FirstsAreIncreasing(events: seq<Event>)
    requires NeverBack(events)
    ensures Increasing(Firsts(events))
    ensures events != [] ==> Firsts(events) != []
                             && Firsts(events)[|Firsts(events)| - 1].sequence == events[|events| - 1].sequence
  {
    if events != [] {
      hide Increasing;
      var n := |events| - 1;
      FirstsAreIncreasing(events[..n]);
      if n > 0 && events[n - 1].sequence != events[n].sequence {
        AppendIncreasing(Firsts(events[..n]), events[n]);
      } else if n == 0 {
        NothingIncreasing();
        AppendIncreasing([], events[n]);
      }
    }
  }

  lemma NothingIncreasing()
    ensures Increasing([])
  {
  }

  lemma {:induction false} FirstsOfIncreasing(events: seq<Event>)
    requires Increasing(events)
    ensures Firsts(events) == events
  {
    if events != [] {
      hide Firsts;
      var n := |events| - 1;
      FirstsOfIncreasing(events[..n]);
      FirstsNext(events[..n], events[n]);
      assert events == events[..n] + [events[n]];
    }
  }

  /** What the next event adds to an orderly prefix. */
  lemma OrderlyNext(events: seq<Event>, i: nat, id: string)
    requires i < |events| && Orderly(events[..i], id)
    ensures Orderly(events[..i + 1], id) <==>
              events[i].invocation == id && (i > 0 ==> events[i - 1].sequence <= events[i].sequence)
    ensures Firsts(events[..i + 1])
            == Firsts(events[..i]) + if i > 0 && events[i - 1].sequence == events[i].sequence then [] else [events[i]]
  {
    var longer := events[..i + 1];
    assert longer[..i] == events[..i];
    if Orderly(longer, id) {
      assert longer[i].invocation == id;
      assert i > 0 ==> longer[i - 1].sequence <= longer[i].sequence;
    }
    if events[i].invocation == id && (i > 0 ==> events[i - 1].sequence <= events[i].sequence) {
      forall j, k | 0 <= j < k < |longer| ensures longer[j].sequence <= longer[k].sequence {
        assert longer[j] == events[..i][j];
        if k == i {
          assert i > 0 && events[..i][i - 1] == events[i - 1];
        } else {
          assert longer[k] == events[..i][k];
        }
      }
      forall k | 0 <= k < |longer| ensures longer[k].invocation == id {
        if k < i {
          assert longer[k] == events[..i][k];
        }
      }
    }
  }

  lemma OrderlyPrefix(events: seq<Event>, i: nat, id: string)
    requires i <= |events| && Orderly(events, id)
    ensures Orderly(events[..i], id)
  {
  }

  /** Two different events under one sequence number. */
  ghost predicate Replaces(events: seq<Event>) {
    exists i, j :: 0 <= i < j < |events| && events[i].sequence == events[j].sequence && events[i] != events[j]
  }

  /** `normalize_events`: it raises exactly when an event belongs to another
      invocation or a sequence number goes back; what it yields until then is
      strictly increasing, and a strictly increasing stream passes unchanged.

      The documented promise is that a replaced event is an error as well. It is
      kept exactly on the streams that are disorderly anyway or replace nothing. */
  method NormalizeEvents(events: seq<Event>, id: string) returns (yielded: seq<Event>, raised: bool)
    ensures !raised <==> Orderly(events, id)
    ensures !raised ==> yielded == Firsts(events)
    ensures raised ==> exists n :: 0 <= n < |events| && Orderly(events[..n], id) && !Orderly(events[..n + 1], id)
                                   && yielded == Firsts(events[..n])
    ensures Increasing(yielded)
    ensures AllOf(events, id) && Increasing(events) ==> !raised && yielded == events
    ensures (raised <==> !Orderly(events, id) || Replaces(events)) <==> (Orderly(events, id) ==> !Replaces(events))
  {
    yielded, raised := [], false;
    var last: Option<int> := None;
    var i := 0;
    while i < |events| && !raised
      invariant 0 <= i <= |events| && Orderly(events[..i], id) && yielded == Firsts(events[..i])
      invariant last == if i == 0 then None else Some(events[i - 1].sequence)
      invariant raised ==> i < |events| && !Orderly(events[..i + 1], id)
      decreases |events| - i, !raised
    {
      hide AllOf, NeverBack, Increasing, Firsts;
      OrderlyNext(events, i, id);
      if events[i].invocation != id || (last.Some? && events[i].sequence < last.value) {
        raised := true;
      } else {
        if last.None? || events[i].sequence != last.value {
          last := Some(events[i].sequence);
          yielded := yielded + [events[i]];
        }
        i := i + 1;
      }
    }
    Concluded(events, id, i, raised);
  }

  lemma IncreasingNeverGoesBack(events: seq<Event>)
    requires Increasing(events)
    ensures NeverBack(events)
  {
  }

  /** What the end of the loop says about the whole stream. */
  lemma Concluded(events: seq<Event>, id: string, i: nat, raised: bool)
    requires i <= |events| && Orderly(events[..i], id)
    requires if raised then i < |events| && !Orderly(events[..i + 1], id) else i == |events|
    ensures !raised <==> Orderly(events, id)
    ensures !raised ==> events[..i] == events
    ensures Increasing(Firsts(events[..i]))
    ensures AllOf(events, id) && Increasing(events) ==> !raised && Firsts(events) == events
  {
    hide AllOf, NeverBack, Increasing, Firsts;
    FirstsAreIncreasing(events[..i]);
    if raised && Orderly(events, id) {
      OrderlyPrefix(events, i + 1, id);
    }
    if AllOf(events, id) && Increasing(events) {
      FirstsOfIncreasing(events);
      IncreasingNeverGoesBack(events);
    }
    assert !raised ==> events[..i] == events;
  }

  /** The stream a returned consumer has received passes the normaliser unchanged. */
  lemma StreamsAreNormal(id: string, steps: seq<Step>, p: nat)
    requires p in RunAll(id, steps).consumers
    ensures var d := RunAll(id, steps).consumers[p].delivered; AllOf(d, id) && Increasing(d) && Firsts(d) == d
  {
    ConsumerGetsEverything(id, steps, p);
    EveryWorldFits(id, steps);
    var w := RunAll(id, steps);
    var c := w.consumers[p];
    var all := After(w.events, c.cursor);
    forall i | 0 <= i < |all| ensures all[i].invocation == id && all[i].sequence == i + |w.events| - |all| {
    }
    forall i | 0 <= i < |c.delivered| ensures c.delivered[i] == all[i] {
    }
    FirstsOfIncreasing(c.delivered);
  }

  /** In an orderly stream an event that repeats a number just seen is dropped in
      silence, whatever it says: the outcome is that of the stream without it. */
  lemma RepeatedNumberIsDropped(events: seq<Event>, i: nat, id: string)
    requires Orderly(events, id) && 0 < i < |events| && events[i].sequence == events[i - 1].sequence
    ensures var without := events[..i] + events[i + 1..];
            Orderly(without, id) && Firsts(events) == Firsts(without)
  {
    var without := events[..i] + events[i + 1..];
    forall j ensures 0 <= j < |without| ==> without[j] == events[if j < i then j else j + 1] {
    }
    DropRepeated(events[..i], events[i], events[i + 1..]);
    assert events == events[..i] + [events[i]] + events[i + 1..];
  }

  lemma {:induction false} FirstsNext(events: seq<Event>, e: Event)
    ensures Firsts(events + [e])
            == Firsts(events) + if events != [] && events[|events| - 1].sequence == e.sequence then [] else [e]
  {
    var longer := events + [e];
    assert longer[..|events|] == events && longer[|events|] == e;
    assert events != [] ==> longer[|events| - 1] == events[|events| - 1];
  }

  lemma {:induction false} DropRepeated(init: seq<Event>, e: Event, tail: seq<Event>)
    requires init != [] && e.sequence == init[|init| - 1].sequence
    ensures Firsts(init + [e] + tail) == Firsts(init + tail)
  {
    hide Firsts;
    if tail == [] {
      FirstsNext(init, e);
      assert init + [e] + tail == init + [e] && init + tail == init;
    } else {
      var n := |tail| - 1;
      DropRepeated(init, e, tail[..n]);
      FirstsNext(init + [e] + tail[..n], tail[n]);
      FirstsNext(init + tail[..n], tail[n]);
      assert init + [e] + tail == init + [e] + tail[..n] + [tail[n]];
      assert init + tail == init + tail[..n] + [tail[n]];
    }
  }

  /** Such streams exist: orderly, and with a replaced event that is dropped. */
  lemma ReplacedEventIsDropped(id: string)
    ensures var a, b := Event(id, 0, FromProvider("first")), Event(id, 0, FromProvider("second"));
            Orderly([a, b], id) && Replaces([a, b]) && Firsts([a, b]) == [a]
  {
    var a, b := Event(id, 0, FromProvider("first")), Event(id, 0, FromProvider("second"));
    assert "first"[0] != "second"[0];
    assert [a, b][0] != [a, b][1];
    assert [a, b][..1] == [a] && [a][..0] == [];
    assert Firsts([a]) == [a];
  }
}
