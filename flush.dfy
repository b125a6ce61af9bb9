/**
 * The buffering and flush cycle of a logger as pure transitions: the buffer of
 * serialized lines not yet delivered (`unsynced`) and the count of lines in the
 * request in flight (`numBeingSent`, 0 when there is none), changed by three events:
 * a write, a timer tick, and the completion of the request.
 */
module Flush {
  import opened Wrappers
  import opened Lines

  datatype State = State(unsynced: seq<string>, numBeingSent: nat)

  /** A new logger: nothing buffered, nothing in flight. */
  const Initial := State([], 0)

  function Min(a: nat, b: nat): nat {
    if a <= b then a else b
  }

  /**
   * What holds between events: the lines in flight are at the head of the buffer, and
   * there are no more of them than a batch may hold.
   */
  predicate Inv(s: State, maxLines: nat) {
    0 < maxLines && s.numBeingSent <= |s.unsynced| && s.numBeingSent <= maxLines
  }

  /** `unsynced.slice(0, maxLines)`: the oldest lines, at most `maxLines` of them. */
  function Batch(unsynced: seq<string>, maxLines: nat): (b: seq<string>)
    ensures |b| == Min(maxLines, |unsynced|)
    ensures b <= unsynced
  {
    unsynced[..Min(maxLines, |unsynced|)]
  }

  /** `write`: one more line at the tail; nothing is sent. */
  function WriteStep(s: State, line: string): (r: State)
    ensures r.unsynced == s.unsynced + [line] && r.numBeingSent == s.numBeingSent
    ensures forall m: nat :: Inv(s, m) ==> Inv(r, m)
  {
    State(s.unsynced + [line], s.numBeingSent)
  }

  /** Several writes in order. */
  function WriteAll(s: State, lines: seq<string>): (r: State)
    ensures r.unsynced == s.unsynced + lines && r.numBeingSent == s.numBeingSent
    decreases |lines|
  {
    if lines == [] then s else WriteAll(WriteStep(s, lines[0]), lines[1..])
  }

  /** The request body of a tick, if it sends one, and the state after it. */
  datatype TickResult = TickResult(body: Option<string>, next: State)

  /**
   * `syncLogsToSumo`: nothing happens while a request is in flight or when the buffer
   * is empty; otherwise the batch is sent as its lines joined by newlines, the buffer is
   * kept, and the gate closes on the batch's size.
   */
  function TickStep(s: State, maxLines: nat): (t: TickResult)
    ensures t.body.None? <==> s.numBeingSent > 0 || s.unsynced == []
    ensures t.body.None? ==> t.next == s
    ensures t.body.Some? ==>
              t.body.value == Join(Batch(s.unsynced, maxLines), "\n") &&
              t.next.unsynced == s.unsynced && t.next.numBeingSent == |Batch(s.unsynced, maxLines)|
    ensures Inv(s, maxLines) ==> Inv(t.next, maxLines)
    ensures Inv(s, maxLines) && t.body.Some? ==> t.next.numBeingSent > 0
  {
    if s.numBeingSent > 0 || s.unsynced == [] then TickResult(None, s)
    else
      var lines := Batch(s.unsynced, maxLines);
      TickResult(Some(Join(lines, "\n")), State(s.unsynced, |lines|))
  }

  /**
   * Whether a completion counts as failed: a transport error, or a status outside
   * [200, 400).
   */
  function Failed(error: bool, status: int): (r: bool)
    ensures !r <==> !error && 200 <= status < 400
  {
    error || status < 200 || status >= 400
  }

  /**
   * The failure test as index.js writes it, on the response's `status` property: None
   * when the response has no such property, and then both comparisons with `undefined`
   * are false, so only a transport error fails.
   */
  function FailedAsWritten(error: bool, status: Option<int>): (r: bool)
    ensures status.Some? ==> r == Failed(error, status.value)
    ensures status.None? ==> r == error
  {
    error || (status.Some? && (status.value < 200 || status.value >= 400))
  }

  /**
   * A response that carries its code only as `statusCode` (as Node's http responses
   * do) reads as success however bad the code: a 500 response is not retried.
   */
  lemma MissingStatusReadsAsSuccess()
    ensures !FailedAsWritten(false, None)
    ensures Failed(false, 500)
  {
  }

  /** The status codes of the status test: 100, 400 and 500 are retried, 200 succeeds. */
  lemma StatusTestCodes()
    ensures Failed(false, 100) && Failed(false, 400) && Failed(false, 500) && !Failed(false, 200)
    ensures Failed(false, 199) && !Failed(false, 399) && Failed(true, 200)
  {
  }

  /**
   * The completion callback: on success the first `numBeingSent` lines are removed
   * (`splice(0, numBeingSent)`, which stops at the end of the buffer); on failure the
   * buffer is kept; either way the gate opens.
   */
  function CompleteStep(s: State, failed: bool): (r: State)
    ensures r.numBeingSent == 0
    ensures failed ==> r.unsynced == s.unsynced
    ensures !failed && s.numBeingSent <= |s.unsynced| ==> s.unsynced == s.unsynced[..s.numBeingSent] + r.unsynced
    ensures forall m: nat :: Inv(s, m) ==> Inv(r, m)
  {
    if failed then State(s.unsynced, 0)
    else State(s.unsynced[Min(s.numBeingSent, |s.unsynced|)..], 0)
  }

  /** A tick on an idle logger with buffered lines always sends a request. */
  lemma IdleTickSends(s: State, maxLines: nat)
    requires Inv(s, maxLines) && s.numBeingSent == 0 && s.unsynced != []
    ensures TickStep(s, maxLines).body.Some?
    ensures Split(TickStep(s, maxLines).body.value, '\n') == Batch(s.unsynced, maxLines) ||
            exists i :: 0 <= i < |s.unsynced| && '\n' in s.unsynced[i]
  {
    var b := Batch(s.unsynced, maxLines);
    if forall i :: 0 <= i < |s.unsynced| ==> '\n' !in s.unsynced[i] {
      assert forall i :: 0 <= i < |b| ==> b[i] == s.unsynced[i];
      SplitJoin(b, '\n');
    }
  }

  /**
   * Single flight: once a tick has sent a request, further ticks send nothing until
   * the completion, whatever is written meanwhile.
   */
  lemma OneRequestInFlight(s: State, maxLines: nat, newer: seq<string>)
    requires Inv(s, maxLines) && TickStep(s, maxLines).body.Some?
    ensures var busy := WriteAll(TickStep(s, maxLines).next, newer);
            TickStep(busy, maxLines) == TickResult(None, busy)
  {
  }

  /**
   * Retry: after a failed request the next tick sends the same oldest lines again, with
   * lines written meanwhile only after them; the body is the same one when the first
   * batch was full or nothing was written.
   */
  lemma FailedBatchIsResentFirst(s: State, maxLines: nat, newer: seq<string>)
    requires Inv(s, maxLines) && s.numBeingSent == 0 && s.unsynced != []
    ensures var first := TickStep(s, maxLines);
            var after := CompleteStep(WriteAll(first.next, newer), true);
            var second := TickStep(after, maxLines);
            first.body.Some? && second.body.Some? &&
            Batch(s.unsynced, maxLines) <= Batch(after.unsynced, maxLines) &&
            (second.body == first.body || first.body.value + "\n" <= second.body.value) &&
            (|s.unsynced| >= maxLines || newer == [] ==> second.body == first.body)
  {
    var first := TickStep(s, maxLines);
    var after := CompleteStep(WriteAll(first.next, newer), true);
    assert after.unsynced == s.unsynced + newer;
    var b1, b2 := Batch(s.unsynced, maxLines), Batch(after.unsynced, maxLines);
    assert b1 <= b2;
    JoinPrefix(b1, b2, "\n");
    if |s.unsynced| >= maxLines || newer == [] {
      assert b1 == b2;
    }
  }

  /**
   * Success: exactly the lines that were sent leave the buffer, and the lines written
   * while the request was in flight remain, in order, behind the rest.
   */
  lemma SuccessRemovesExactlyTheBatch(s: State, maxLines: nat, newer: seq<string>)
    requires Inv(s, maxLines) && s.numBeingSent == 0 && s.unsynced != []
    ensures var first := TickStep(s, maxLines);
            var after := CompleteStep(WriteAll(first.next, newer), false);
            Batch(s.unsynced, maxLines) + after.unsynced == s.unsynced + newer &&
            after.numBeingSent == 0
  {
    var first := TickStep(s, maxLines);
    var busy := WriteAll(first.next, newer);
    assert busy.unsynced[..busy.numBeingSent] == Batch(s.unsynced, maxLines);
  }

  /** One event of the logger's life: a write, a timer tick, or the completion of the request. */
  datatype Event = Write(line: string) | Tick | Complete(error: bool, status: int)

  /**
   * A logger's state together with its history: the batch recorded when the request in
   * flight was sent, the concatenation of every batch whose request succeeded, and the
   * bodies sent so far.
   */
  datatype Trace = Trace(state: State, inFlight: seq<string>, delivered: seq<string>, bodies: seq<string>)

  const Start := Trace(Initial, [], [], [])

  function Step(t: Trace, maxLines: nat, e: Event): Trace {
    match e
    case Write(line) => t.(state := WriteStep(t.state, line))
    case Tick =>
      var d := TickStep(t.state, maxLines);
      if d.body.Some? then Trace(d.next, Batch(t.state.unsynced, maxLines), t.delivered, t.bodies + [d.body.value])
      else t
    case Complete(error, status) =>
      var failed := Failed(error, status);
      Trace(CompleteStep(t.state, failed), [], if failed then t.delivered else t.delivered + t.inFlight, t.bodies)
  }

  /** The events in order. */
  function Run(t: Trace, maxLines: nat, events: seq<Event>): Trace
    decreases |events|
  {
    if events == [] then t else Run(Step(t, maxLines, events[0]), maxLines, events[1..])
  }

  /** The lines written by a sequence of events, in order. */
  function WrittenLines(events: seq<Event>): seq<string>
    decreases |events|
  {
    if events == [] then []
    else (if events[0].Write? then [events[0].line] else []) + WrittenLines(events[1..])
  }

  /** The invariant of a trace: the buffer invariant, and the recorded batch is the head the gate counts. */
  predicate Consistent(t: Trace, maxLines: nat) {
    Inv(t.state, maxLines) && t.inFlight == t.state.unsynced[..t.state.numBeingSent]
  }

  lemma StepKeepsOrder(t: Trace, maxLines: nat, e: Event)
    requires Consistent(t, maxLines)
    ensures Consistent(Step(t, maxLines, e), maxLines)
    ensures t.delivered + t.state.unsynced + (if e.Write? then [e.line] else []) ==
            Step(t, maxLines, e).delivered + Step(t, maxLines, e).state.unsynced
  {
    match e
    case Write(line) =>
      assert (t.state.unsynced + [line])[..t.state.numBeingSent] == t.state.unsynced[..t.state.numBeingSent];
    case Tick =>
    case Complete(error, status) =>
      if !Failed(error, status) {
        var u, n := t.state.unsynced, t.state.numBeingSent;
        assert u == u[..n] + u[n..];
      }
  }

  /**
   * What a tick records is what goes on the wire: when it sends, the new body is the
   * recorded in-flight batch joined by newlines, that batch is the oldest buffered
   * lines, and the body splits back into it when no line holds a newline.
   */
  lemma TickRecordsSentBatch(t: Trace, maxLines: nat)
    requires Consistent(t, maxLines) && TickStep(t.state, maxLines).body.Some?
    requires forall i :: 0 <= i < |t.state.unsynced| ==> '\n' !in t.state.unsynced[i]
    ensures var t' := Step(t, maxLines, Tick);
            t'.bodies == t.bodies + [Join(t'.inFlight, "\n")] &&
            t'.inFlight == Batch(t.state.unsynced, maxLines) && t'.inFlight != [] &&
            Split(t'.bodies[|t.bodies|], '\n') == t'.inFlight
  {
    var t' := Step(t, maxLines, Tick);
    var b := Batch(t.state.unsynced, maxLines);
    assert forall i :: 0 <= i < |b| ==> b[i] == t.state.unsynced[i];
    SplitJoin(b, '\n');
  }

  /**
   * Order and delivery over any sequence of events: every line written is either
   * delivered or still buffered, delivered lines come first, and nothing is reordered,
   * lost or duplicated on the way.
   */
  lemma {:induction false} RunKeepsOrder(t: Trace, maxLines: nat, events: seq<Event>)
    requires Consistent(t, maxLines)
    ensures Consistent(Run(t, maxLines, events), maxLines)
    ensures t.delivered + t.state.unsynced + WrittenLines(events) ==
            Run(t, maxLines, events).delivered + Run(t, maxLines, events).state.unsynced
    decreases |events|
  {
    if events != [] {
      var e := events[0];
      StepKeepsOrder(t, maxLines, e);
      var t' := Step(t, maxLines, e);
      RunKeepsOrder(t', maxLines, events[1..]);
      var w := if e.Write? then [e.line] else [];
      assert WrittenLines(events) == w + WrittenLines(events[1..]);
    }
  }

  /**
   * At-least-once, in order: from a new logger, the concatenation of the batches whose
   * requests succeeded is a prefix of the lines written, and the buffer holds exactly the rest.
   */
  lemma DeliveredIsPrefixOfWritten(maxLines: nat, events: seq<Event>)
    requires maxLines > 0
    ensures var t := Run(Start, maxLines, events);
            t.delivered <= WrittenLines(events) &&
            t.state.unsynced == WrittenLines(events)[|t.delivered|..]
  {
    RunKeepsOrder(Start, maxLines, events);
    var t := Run(Start, maxLines, events);
    assert Start.delivered + Start.state.unsynced + WrittenLines(events) == WrittenLines(events);
    assert WrittenLines(events) == t.delivered + t.state.unsynced;
  }
}
