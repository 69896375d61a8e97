/** The relay's bounded upload queue and the forwarding worker's retry and
    backoff bookkeeping (main.go). The upload handler and one iteration of the
    worker loop are atomic steps; the network, the sleeps and the logging are
    outside the model, and the result of a forwarding attempt is an input. */
module Relay {
  import opened Backoff

  newtype byte = b: int | 0 <= b < 256

  /** One accepted upload: the value of the `Name` header and the body bytes. */
  datatype Entry = Entry(name: string, content: seq<byte>)

  /** The capacity of the buffered `queue` channel. */
  const Capacity: nat := 300

  /** What the upstream call of one forwarding attempt produced: `client.Do`
      failed, or a response came back with a status and a body that the JSON
      decoder accepts or rejects. */
  datatype Outcome = TransportError | Response(status: int, decodes: bool)

  datatype Option<T> = None | Some(value: T)

  /** The worker's view of the process state: the queued entries, head first,
      and the stored backoff delay `lastDuration`. */
  datatype Worker = Worker(queue: seq<Entry>, backoff: Duration)

  /** One iteration of the worker loop: the state after it, how long it slept,
      and the entry it took out of the queue for good, if any. */
  datatype StepResult = StepResult(next: Worker, slept: Duration, forwarded: Option<Entry>)

  /** A run of iterations: the final state, the sleep of each iteration, and
      the entries taken out for good, in order. */
  datatype Trace = Trace(final: Worker, waits: seq<Duration>, forwarded: seq<Entry>)

  /** What the program keeps true between iterations: the channel holds at most
      its capacity, and the stored delay is non-negative and at most three
      times the cap (it is clamped before every multiplication). */
  predicate WellFormed(w: Worker)
  {
    |w.queue| <= Capacity && 0 <= w.backoff <= 3 * MaxDuration
  }

  function AsSeq(e: Option<Entry>): seq<Entry>
  {
    if e.Some? then [e.value] else []
  }

  /** What the first half of an iteration on a non-empty queue leaves: the
      state after the clamp is written back and the head is received, the
      received entry, and the time slept before the receive. */
  datatype Received = Received(rest: Worker, entry: Entry, slept: Duration)

  /** What the second half of an iteration leaves: the state after the
      outcome is handled, and the entry taken out for good, if any. */
  datatype Settled = Settled(next: Worker, forwarded: Option<Entry>)

  /** An outcome after which the worker sends the entry back into the channel. */
  predicate Requeues(o: Outcome)
  {
    o.TransportError? || (o.Response? && o.status != 200)
  }

  /** The worker's send back into the channel does not block: either there is
      no send, or there is a free slot. */
  predicate CanSettle(w: Worker, o: Outcome)
  {
    Requeues(o) ==> |w.queue| < Capacity
  }

  /** The first half of an iteration on a non-empty queue: the stored delay is
      clamped to the cap and written back, the worker sleeps that long, and
      receives the head of the channel, which frees one slot. */
  function Dequeue(w: Worker): (r: Received)
    requires WellFormed(w) && |w.queue| > 0
    ensures [r.entry] + r.rest.queue == w.queue
    ensures |r.rest.queue| < Capacity
    ensures 0 <= r.slept <= MaxDuration && r.rest.backoff == r.slept
    ensures r.slept <= w.backoff && (r.slept == w.backoff || r.slept == MaxDuration)
  {
    var wait := Clamp(w.backoff);
    Received(Worker(w.queue[1..], wait), w.queue[0], wait)
  }

  /** The second half of an iteration, after the upstream call: on a transport
      error or a non-200 status the received entry is sent back into the
      channel, which needs a free slot, and the delay grows (one second after
      a zero delay, otherwise doubled or tripled); on status 200 the entry is
      gone for good, and the delay resets to zero when the body decodes. */
  function Settle(w: Worker, e: Entry, o: Outcome): (r: Settled)
    requires |w.queue| <= Capacity && 0 <= w.backoff <= MaxDuration
    requires CanSettle(w, o)
    ensures WellFormed(r.next)
    ensures r.next.queue + AsSeq(r.forwarded) == w.queue + [e]
  {
    match o
    case TransportError =>
      Settled(Worker(w.queue + [e], Grow(w.backoff, 2)), None)
    case Response(status, decodes) =>
      if status != 200 then Settled(Worker(w.queue + [e], Grow(w.backoff, 3)), None)
      else if !decodes then Settled(w, Some(e))
      else Settled(w.(backoff := 0), Some(e))
  }

  /** One iteration of `push`, with nothing else happening between its two
      halves. An empty queue is a 5-second idle poll. */
  function Step(w: Worker, o: Outcome): (r: StepResult)
    requires WellFormed(w)
    ensures WellFormed(r.next)
    ensures 0 <= r.slept <= MaxDuration
  {
    if |w.queue| == 0 then StepResult(w, IdlePoll, None)
    else
      var d := Dequeue(w);
      var s := Settle(d.rest, d.entry, o);
      StepResult(s.next, d.slept, s.forwarded)
  }

  /** The `upload` handler's effect on the state: a request with an empty
      name changes nothing; a named one is appended at the back. The send
      blocks on a full channel, so a named upload needs a free slot. */
  function Admit(w: Worker, name: string, content: seq<byte>): (r: Worker)
    requires WellFormed(w)
    requires name != "" ==> |w.queue| < Capacity
    ensures WellFormed(r) && r.backoff == w.backoff
    ensures r.queue == w.queue + (if name == "" then [] else [Entry(name, content)])
  {
    if name == "" then w else w.(queue := w.queue + [Entry(name, content)])
  }

  /** The worker loop run for as many iterations as there are outcomes; the
      i-th outcome is what the upstream answers in the i-th iteration (an
      iteration on an empty queue makes no call and ignores it). */
  function Run(w: Worker, outcomes: seq<Outcome>): (r: Trace)
    requires WellFormed(w)
    ensures WellFormed(r.final)
    ensures |r.waits| == |outcomes|
    ensures forall i :: 0 <= i < |r.waits| ==> 0 <= r.waits[i] <= MaxDuration
    decreases |outcomes|
  {
    if outcomes == [] then Trace(w, [], [])
    else
      var t := Run(w, outcomes[..|outcomes| - 1]);
      var s := Step(t.final, outcomes[|outcomes| - 1]);
      Trace(s.next, t.waits + [s.slept], t.forwarded + AsSeq(s.forwarded))
  }

  /** Something that happens to the process: an upload request reaches the
      handler, or the worker runs one iteration with the given upstream answer. */
  datatype Event = UploadRequest(name: string, content: seq<byte>) | Iteration(outcome: Outcome)

  /** A run of handler calls and worker iterations: the final state, the
      entries taken out for good, the entries the handler queued, the entries
      the worker received from the channel, and every entry sent into the
      channel (by the handler or by a requeue), each in order. */
  datatype Log = Log(final: Worker, forwarded: seq<Entry>, accepted: seq<Entry>, received: seq<Entry>, sent: seq<Entry>)

  /** The entry an iteration receives from the channel: the head, if any. */
  function Head(w: Worker): seq<Entry>
  {
    if |w.queue| > 0 then [w.queue[0]] else []
  }

  /** The entry an iteration sends back into the channel: the head it
      received, when the outcome is a failure. */
  function Requeued(w: Worker, o: Outcome): seq<Entry>
  {
    if |w.queue| > 0 && Requeues(o) then [w.queue[0]] else []
  }

  /** Handler calls and worker iterations in the order given. A named upload
      that finds the channel full is still blocked in the handler at that
      point and has no effect there. */
  function Replay(w: Worker, events: seq<Event>): (r: Log)
    requires WellFormed(w)
    ensures WellFormed(r.final)
    decreases |events|
  {
    if events == [] then Log(w, [], [], [], [])
    else
      var t := Replay(w, events[..|events| - 1]);
      match events[|events| - 1]
      case UploadRequest(name, content) =>
        if name == "" || |t.final.queue| == Capacity then t
        else
          var e := [Entry(name, content)];
          Log(Admit(t.final, name, content), t.forwarded, t.accepted + e, t.received, t.sent + e)
      case Iteration(o) =>
        var s := Step(t.final, o);
        Log(s.next, t.forwarded + AsSeq(s.forwarded), t.accepted,
            t.received + Head(t.final), t.sent + Requeued(t.final, o))
  }

  /** The process-wide state of main.go: the `queue` channel and the backoff
      counter `lastDuration`, shared by the `upload` handler and the `push`
      worker. */
  class Pipeline {
    var queue: seq<Entry>
    var lastDuration: Duration

    ghost predicate Valid()
      reads this
    {
      WellFormed(State())
    }

    function State(): Worker
      reads this
    {
      Worker(queue, lastDuration)
    }

    /** Program start: an empty channel and a zero delay. */
    constructor ()
      ensures Valid()
      ensures queue == [] && lastDuration == 0
    {
      queue := [];
      lastDuration := 0;
    }

    /** The `upload` handler. A request without a `Name` header (or with an
        empty one) gets 400 and changes nothing; otherwise the body is queued
        at the back and the default 200 is returned. A full channel blocks the
        handler; here that is a precondition. */
    method Upload(name: string, content: seq<byte>) returns (status: int)
      requires Valid()
      requires name != "" ==> |queue| < Capacity
      modifies this
      ensures Valid()
      ensures State() == Admit(old(State()), name, content)
      ensures name == "" ==> status == 400 && queue == old(queue)
      ensures name != "" ==> status == 200 && queue == old(queue) + [Entry(name, content)]
      ensures lastDuration == old(lastDuration)
    {
      if name == "" {
        status := 400;
        return;
      }
      queue := queue + [Entry(name, content)];
      status := 200;
    }

    /** The first half of an iteration on a non-empty queue: clamp the delay
        and write it back, sleep it, and receive the head. */
    method Receive() returns (entry: Entry, slept: Duration)
      requires Valid() && |queue| > 0
      modifies this
      ensures Valid() && lastDuration <= MaxDuration
      ensures var d := Dequeue(old(State()));
        State() == d.rest && entry == d.entry && slept == d.slept
    {
      lastDuration := Clamp(lastDuration);
      slept := lastDuration;
      entry := queue[0];
      queue := queue[1..];
    }

    /** The second half of an iteration, given what the upstream answers. A
        requeue is a send on the channel and needs a free slot. */
    method Complete(entry: Entry, outcome: Outcome)
      requires Valid() && lastDuration <= MaxDuration
      requires CanSettle(State(), outcome)
      modifies this
      ensures Valid()
      ensures State() == Settle(old(State()), entry, outcome).next
    {
      match outcome
      case TransportError =>
        queue := queue + [entry];
        if lastDuration == 0 {
          lastDuration := Second;
        } else {
          lastDuration := lastDuration * 2;
        }
      case Response(status, decodes) =>
        if status != 200 {
          queue := queue + [entry];
          if lastDuration == 0 {
            lastDuration := Second;
          } else {
            lastDuration := lastDuration * 3;
          }
        } else if decodes {
          lastDuration := 0;
        }
    }

    /** One iteration of the `push` loop with nothing happening between its
        receive and its completion. */
    method WorkerStep(outcome: Outcome) returns (slept: Duration)
      requires Valid()
      modifies this
      ensures Valid()
      ensures State() == Step(old(State()), outcome).next
      ensures slept == Step(old(State()), outcome).slept
    {
      if |queue| == 0 {
        slept := IdlePoll;
        return;
      }
      var entry;
      entry, slept := Receive();
      Complete(entry, outcome);
    }

    /** The `push` loop, run for one iteration per outcome. */
    method Push(outcomes: seq<Outcome>) returns (waits: seq<Duration>)
      requires Valid()
      modifies this
      ensures Valid()
      ensures State() == Run(old(State()), outcomes).final
      ensures waits == Run(old(State()), outcomes).waits
    {
      waits := [];
      var i := 0;
      while i < |outcomes|
        invariant 0 <= i <= |outcomes|
        invariant Valid()
        invariant State() == Run(old(State()), outcomes[..i]).final
        invariant waits == Run(old(State()), outcomes[..i]).waits
      {
        assert outcomes[..i + 1][..i] == outcomes[..i];
        var slept := WorkerStep(outcomes[i]);
        waits := waits + [slept];
        i := i + 1;
      }
      assert outcomes[..i] == outcomes;
    }
  }
}
