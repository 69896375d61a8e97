/** What the worker loop and the upload handler guarantee, stated over the
    step function of module Relay. */
module RelayProperties {
  import opened Backoff
  import opened Relay

  /** A failure that requeues the head and multiplies the delay by `factor`. */
  predicate FailsWith(o: Outcome, factor: Duration)
  {
    Requeues(o) && (factor == 2 || factor == 3) && (factor == 2 <==> o.TransportError?)
  }

  /** A status 200, which takes the head out for good. */
  predicate Forwards(o: Outcome)
  {
    o.Response? && !Requeues(o)
  }

  /** An iteration that finds the queue empty only sleeps the idle poll. */
  lemma StepIdleWhenEmpty(w: Worker, o: Outcome)
    requires WellFormed(w) && |w.queue| == 0
    ensures Step(w, o).next == w
    ensures Step(w, o).slept == IdlePoll
    ensures Step(w, o).forwarded == None
  {
  }

  /** Before a send, the stored delay is replaced by its minimum with the cap,
      and that is exactly what the worker sleeps. */
  lemma StepWaitsClampedDelay(w: Worker, o: Outcome)
    requires WellFormed(w) && |w.queue| > 0
    ensures Step(w, o).slept == if w.backoff <= MaxDuration then w.backoff else MaxDuration
    ensures 0 <= Step(w, o).slept <= MaxDuration
  {
  }

  /** A transport error moves the head to the back, keeps the others in order,
      and makes the delay one second after a zero wait, double the wait
      otherwise. */
  lemma StepTransportErrorRequeues(w: Worker)
    requires WellFormed(w) && |w.queue| > 0
    ensures var r := Step(w, TransportError);
      && r.next.queue == w.queue[1..] + [w.queue[0]]
      && r.forwarded == None
      && r.next.backoff == (if r.slept == 0 then Second else 2 * r.slept)
      && r.next.backoff > r.slept
  {
  }

  /** A non-200 status moves the head to the back, keeps the others in order,
      and makes the delay one second after a zero wait, triple the wait
      otherwise, so never more than three times the cap. */
  lemma StepBadStatusRequeues(w: Worker, status: int, decodes: bool)
    requires WellFormed(w) && |w.queue| > 0 && status != 200
    ensures var r := Step(w, Response(status, decodes));
      && r.next.queue == w.queue[1..] + [w.queue[0]]
      && r.forwarded == None
      && r.next.backoff == (if r.slept == 0 then Second else 3 * r.slept)
      && r.slept < r.next.backoff <= 3 * MaxDuration
  {
  }

  /** Status 200 takes the head out of the queue for good. A decodable body
      resets the delay to zero; an undecodable one leaves the clamped delay. */
  lemma StepOkForwardsHead(w: Worker, decodes: bool)
    requires WellFormed(w) && |w.queue| > 0
    ensures var r := Step(w, Response(200, decodes));
      && r.next.queue == w.queue[1..]
      && r.forwarded == Some(w.queue[0])
      && r.next.backoff == (if decodes then 0 else r.slept)
  {
  }

  /** A failure grows the stored delay when it was within the cap. */
  lemma FailureGrowsDelayWithinCap(w: Worker, o: Outcome, factor: Duration)
    requires WellFormed(w) && |w.queue| > 0 && w.backoff <= MaxDuration
    requires FailsWith(o, factor)
    ensures Step(w, o).next.backoff > w.backoff
  {
  }

  /** Because the clamp is written back before the multiplication, the stored
      delay can also shrink after a failure: a status 500 at the cap stores
      three times the cap, and a transport error after it stores twice the cap. */
  lemma FailureCanShrinkDelay(e: Entry)
    ensures var w := Worker([e], MaxDuration);
      var s1 := Step(w, Response(500, false));
      var s2 := Step(s1.next, TransportError);
      && s1.next.backoff == 3 * MaxDuration
      && s2.next.backoff == 2 * MaxDuration
      && s2.next.backoff < s1.next.backoff
  {
  }

  /** An iteration loses no entry: whatever it does not take out for good is
      still queued. */
  lemma StepConservesEntries(w: Worker, o: Outcome)
    requires WellFormed(w)
    ensures multiset(w.queue) == multiset(Step(w, o).next.queue) + multiset(AsSeq(Step(w, o).forwarded))
  {
  }

  /** Over any run, every entry that was queued at the start is either still
      queued or was taken out after a status 200. */
  lemma {:induction false} RunConservesEntries(w: Worker, outcomes: seq<Outcome>)
    requires WellFormed(w)
    ensures multiset(w.queue) == multiset(Run(w, outcomes).final.queue) + multiset(Run(w, outcomes).forwarded)
  {
    if outcomes != [] {
      var prefix := outcomes[..|outcomes| - 1];
      RunConservesEntries(w, prefix);
      var t := Run(w, prefix);
      StepConservesEntries(t.final, outcomes[|outcomes| - 1]);
    }
  }

  /** An iteration answered with status 200 forwards the head, if there is
      one: the entry forwarded followed by the new queue is the old queue. */
  lemma ForwardingStep(w: Worker, o: Outcome)
    requires WellFormed(w) && Forwards(o)
    ensures AsSeq(Step(w, o).forwarded) + Step(w, o).next.queue == w.queue
    ensures |AsSeq(Step(w, o).forwarded)| == if |w.queue| > 0 then 1 else 0
  {
  }

  /** Appending to a sequence that was split in two. */
  lemma AppendRegroup<T>(a: seq<T>, b: seq<T>, c: seq<T>, d: seq<T>)
    requires b + c == d
    ensures (a + b) + c == a + d
  {
  }

  /** When every iteration gets status 200, the entries leave the queue in
      the order they were queued: what was forwarded, followed by what is
      still queued, is the queue the run started from. An iteration forwards
      one entry until the queue runs dry, and idles after that. */
  lemma {:induction false} ForwardsInQueueOrder(w: Worker, outcomes: seq<Outcome>)
    requires WellFormed(w)
    requires forall i :: 0 <= i < |outcomes| ==> Forwards(outcomes[i])
    ensures Run(w, outcomes).forwarded + Run(w, outcomes).final.queue == w.queue
    ensures |Run(w, outcomes).forwarded| == if |outcomes| <= |w.queue| then |outcomes| else |w.queue|
    ensures |outcomes| <= |w.queue| ==> Run(w, outcomes).forwarded == w.queue[..|outcomes|]
  {
    if outcomes != [] {
      var n := |outcomes|;
      var prefix := outcomes[..n - 1];
      ForwardsInQueueOrder(w, prefix);
      var t := Run(w, prefix);
      var s := Step(t.final, outcomes[n - 1]);
      ForwardingStep(t.final, outcomes[n - 1]);
      AppendRegroup(t.forwarded, AsSeq(s.forwarded), s.next.queue, t.final.queue);
      var r := Run(w, outcomes);
      assert r.forwarded + r.final.queue == w.queue;
      assert r.forwarded == w.queue[..|r.forwarded|];
    }
  }

  /** First in, first out across the handler and the worker: when no
      iteration fails, what was forwarded followed by what is still queued is
      the queue the run started from followed by everything the handler
      queued, in arrival order. */
  lemma {:induction false} ForwardsInArrivalOrder(w: Worker, events: seq<Event>)
    requires WellFormed(w)
    requires forall i :: 0 <= i < |events| && events[i].Iteration? ==> Forwards(events[i].outcome)
    ensures Replay(w, events).forwarded + Replay(w, events).final.queue == w.queue + Replay(w, events).accepted
  {
    if events != [] {
      var n := |events|;
      var prefix := events[..n - 1];
      ForwardsInArrivalOrder(w, prefix);
      var t := Replay(w, prefix);
      match events[n - 1]
      case UploadRequest(name, content) =>
        if name != "" && |t.final.queue| < Capacity {
          var e := [Entry(name, content)];
          AppendRegroup(t.forwarded, t.final.queue, e, t.final.queue + e);
          AppendRegroup(w.queue, t.accepted, e, t.accepted + e);
        }
      case Iteration(o) =>
        var s := Step(t.final, o);
        ForwardingStep(t.final, o);
        AppendRegroup(t.forwarded, AsSeq(s.forwarded), s.next.queue, t.final.queue);
    }
  }

  /** Over any interleaving of uploads and iterations, failures included, no
      entry is lost: the entries queued at the start together with those the
      handler accepted are the entries still queued together with those
      forwarded after a status 200. */
  lemma {:induction false} ReplayConservesEntries(w: Worker, events: seq<Event>)
    requires WellFormed(w)
    ensures multiset(w.queue) + multiset(Replay(w, events).accepted)
         == multiset(Replay(w, events).final.queue) + multiset(Replay(w, events).forwarded)
  {
    if events != [] {
      var n := |events|;
      var prefix := events[..n - 1];
      ReplayConservesEntries(w, prefix);
      var t := Replay(w, prefix);
      match events[n - 1]
      case UploadRequest(name, content) =>
        if name != "" && |t.final.queue| < Capacity {
          var e := Entry(name, content);
          var r := Replay(w, events);
          assert r.final.queue == t.final.queue + [e];
          assert r.accepted == t.accepted + [e];
          assert r.forwarded == t.forwarded;
          assert multiset(r.final.queue) == multiset(t.final.queue) + multiset{e};
          assert multiset(r.accepted) == multiset(t.accepted) + multiset{e};
          calc {
            multiset(w.queue) + multiset(r.accepted);
            (multiset(w.queue) + multiset(t.accepted)) + multiset{e};
            (multiset(t.final.queue) + multiset(t.forwarded)) + multiset{e};
            multiset(r.final.queue) + multiset(r.forwarded);
          }
        }
      case Iteration(o) =>
        var s := Step(t.final, o);
        StepConservesEntries(t.final, o);
        var r := Replay(w, events);
        assert r.final == s.next;
        assert r.accepted == t.accepted;
        assert r.forwarded == t.forwarded + AsSeq(s.forwarded);
        assert multiset(r.forwarded) == multiset(t.forwarded) + multiset(AsSeq(s.forwarded));
    }
  }

  /** What an iteration does to the channel: it receives the head, if any,
      and sends that entry back after a failure. */
  lemma StepThroughChannel(w: Worker, o: Outcome)
    requires WellFormed(w)
    ensures Head(w) + Step(w, o).next.queue == w.queue + Requeued(w, o)
  {
    if |w.queue| > 0 {
      assert w.queue == [w.queue[0]] + w.queue[1..];
    }
  }

  /** The channel is first in, first out over any interleaving of uploads and
      iterations, failures included: what the worker received, followed by
      what is still queued, is the starting queue followed by everything sent
      into the channel, uploads and requeues alike, in the order sent. So an
      entry that fails goes to the back, behind every entry sent before its
      requeue. */
  lemma {:induction false} ChannelIsFirstInFirstOut(w: Worker, events: seq<Event>)
    requires WellFormed(w)
    ensures Replay(w, events).received + Replay(w, events).final.queue == w.queue + Replay(w, events).sent
  {
    if events != [] {
      var n := |events|;
      var prefix := events[..n - 1];
      ChannelIsFirstInFirstOut(w, prefix);
      var t := Replay(w, prefix);
      match events[n - 1]
      case UploadRequest(name, content) =>
        if name != "" && |t.final.queue| < Capacity {
          var e := [Entry(name, content)];
          AppendRegroup(t.received, t.final.queue, e, t.final.queue + e);
          AppendRegroup(w.queue, t.sent, e, t.sent + e);
        }
      case Iteration(o) =>
        var s := Step(t.final, o);
        var r := Requeued(t.final, o);
        StepThroughChannel(t.final, o);
        AppendRegroup(t.received, Head(t.final), s.next.queue, t.final.queue + r);
        AppendRegroup(w.queue, t.sent, r, t.sent + r);
    }
  }

  /** The requeue is a send on the channel, and it can find no room: the
      receive frees one slot of a full channel, an upload can take that slot
      while the upstream call is in flight, and a failure then has nowhere to
      put the entry back. The worker is the channel's only receiver, so in
      main.go that send blocks for good. */
  lemma RequeueCanFindChannelFull(w: Worker, name: string, content: seq<byte>, decodes: bool)
    requires WellFormed(w) && |w.queue| == Capacity && name != ""
    ensures var d := Dequeue(w);
      var refilled := Admit(d.rest, name, content);
      && |refilled.queue| == Capacity
      && !CanSettle(refilled, TransportError)
      && !CanSettle(refilled, Response(500, decodes))
  {
  }

  /** When nothing happens between the receive and the completion, as in
      `Step`, the receive has just freed a slot, so the requeue of a failure
      always has room and the worker never blocks on its own channel. */
  lemma StepRequeueHasRoom(w: Worker, o: Outcome)
    requires WellFormed(w) && |w.queue| > 0
    ensures CanSettle(Dequeue(w).rest, o)
    ensures Requeues(o) ==> |Step(w, o).next.queue| == |w.queue|
  {
  }

  /** One more failure moves the schedule one step on. */
  lemma ScheduleStep(factor: Duration, k: nat)
    requires factor == 2 || factor == 3
    ensures Clamp(Grow(Schedule(factor as nat, k), factor)) == Schedule(factor as nat, k + 1)
  {
    var f := factor as nat;
    if k > 0 {
      assert Pow(f, k) == f * Pow(f, k - 1);
    }
  }

  /** A run whose last iteration fails on a non-empty queue: that iteration
      keeps the queue's length, sleeps the clamped delay and stores it grown
      by the failure's factor. */
  lemma RunEndingInFailure(w: Worker, outcomes: seq<Outcome>, factor: Duration)
    requires WellFormed(w) && outcomes != []
    requires |Run(w, outcomes[..|outcomes| - 1]).final.queue| > 0
    requires FailsWith(outcomes[|outcomes| - 1], factor)
    ensures var t := Run(w, outcomes[..|outcomes| - 1]);
      var r := Run(w, outcomes);
      && |r.final.queue| == |t.final.queue|
      && r.waits == t.waits + [Clamp(t.final.backoff)]
      && r.final.backoff == Grow(Clamp(t.final.backoff), factor)
  {
  }

  /** The retry schedule: while every attempt fails with the same factor, the
      waits follow Schedule, and the queue keeps its length. */
  lemma {:induction false} WaitsFollowSchedule(w: Worker, outcomes: seq<Outcome>, factor: Duration, k: nat)
    requires WellFormed(w) && |w.queue| > 0
    requires factor == 2 || factor == 3
    requires Clamp(w.backoff) == Schedule(factor as nat, k)
    requires forall i :: 0 <= i < |outcomes| ==> FailsWith(outcomes[i], factor)
    ensures |Run(w, outcomes).final.queue| == |w.queue|
    ensures Clamp(Run(w, outcomes).final.backoff) == Schedule(factor as nat, k + |outcomes|)
    ensures forall i :: 0 <= i < |outcomes| ==> Run(w, outcomes).waits[i] == Schedule(factor as nat, k + i)
  {
    if outcomes != [] {
      var n := |outcomes|;
      var prefix := outcomes[..n - 1];
      WaitsFollowSchedule(w, prefix, factor, k);
      var t := Run(w, prefix);
      RunEndingInFailure(w, outcomes, factor);
      var wait := Schedule(factor as nat, k + n - 1);
      assert Clamp(t.final.backoff) == wait;
      ScheduleStep(factor, k + n - 1);
      WaitsExtend(t.waits, wait, factor as nat, k);
    }
  }

  lemma WaitsExtend(waits: seq<Duration>, last: Duration, factor: nat, k: nat)
    requires factor >= 1
    requires forall i :: 0 <= i < |waits| ==> waits[i] == Schedule(factor, k + i)
    requires last == Schedule(factor, k + |waits|)
    ensures forall i :: 0 <= i < |waits| + 1 ==> (waits + [last])[i] == Schedule(factor, k + i)
  {
  }

  /** From a zero delay, n failures of one kind make the worker wait
      0, 1 s, f s, f^2 s, ... before its successive attempts, capped at
      15 minutes. */
  lemma WaitsFromZeroDelay(w: Worker, outcomes: seq<Outcome>, factor: Duration)
    requires WellFormed(w) && |w.queue| > 0 && w.backoff == 0
    requires factor == 2 || factor == 3
    requires forall i :: 0 <= i < |outcomes| ==> FailsWith(outcomes[i], factor)
    ensures forall i :: 0 <= i < |outcomes| ==> Run(w, outcomes).waits[i] == Schedule(factor as nat, i)
  {
    assert Clamp(w.backoff) == Schedule(factor as nat, 0);
    WaitsFollowSchedule(w, outcomes, factor, 0);
  }

  /** An entry whose every attempt gets status 500: the waits before the
      first three attempts are 0, 1 s and 3 s, and before the fourth 9 s. */
  lemma RejectedEntryWaits(e: Entry)
    ensures var r := Response(500, false);
      Run(Worker([e], 0), [r, r, r, r]).waits == [0, Second, 3 * Second, 9 * Second]
  {
    var r := Response(500, false);
    var os := [r, r, r, r];
    WaitsFromZeroDelay(Worker([e], 0), os, 3);
    assert Schedule(3, 2) == 3 * Second;
    assert Schedule(3, 3) == 9 * Second;
  }

  /** The same entry when the delay already stood at one second: the waits
      before its first three attempts are 1 s, 3 s and 9 s. */
  lemma RejectedEntryWaitsFromOneSecond(e: Entry)
    ensures var r := Response(500, false);
      Run(Worker([e], Second), [r, r, r]).waits == [Second, 3 * Second, 9 * Second]
  {
    var r := Response(500, false);
    WaitsFollowSchedule(Worker([e], Second), [r, r, r], 3, 1);
    assert Schedule(3, 2) == 3 * Second;
    assert Schedule(3, 3) == 9 * Second;
  }

  /** A queued entry answered with 200 and a decodable body leaves the queue
      empty and the delay at zero. */
  lemma ForwardedEntryEmptiesQueue(e: Entry)
    ensures Run(Worker([e], 0), [Response(200, true)]).final == Worker([], 0)
    ensures Run(Worker([e], 0), [Response(200, true)]).forwarded == [e]
  {
  }
}

/** The handler and the worker used together, as the running process
    interleaves them. */
module RelayScenarios {
  import opened Backoff
  import opened Relay

  /** A named upload is accepted, and one iteration answered with status 200
      and a decodable body forwards it and leaves the queue empty with a zero
      delay; the iteration sleeps nothing, since the delay started at zero. */
  method UploadIsForwarded(name: string, content: seq<byte>) returns (status: int, slept: Duration, remaining: nat, delay: Duration)
    requires name != ""
    ensures status == 200 && slept == 0 && remaining == 0 && delay == 0
  {
    var p := new Pipeline();
    status := p.Upload(name, content);
    slept := p.WorkerStep(Response(200, true));
    remaining := |p.queue|;
    delay := p.lastDuration;
  }

  /** An upload without a name is refused and leaves nothing for the worker,
      whose next iteration is an idle poll. */
  method NamelessUploadIsRefused(content: seq<byte>) returns (status: int, slept: Duration, remaining: nat)
    ensures status == 400 && slept == IdlePoll && remaining == 0
  {
    var p := new Pipeline();
    status := p.Upload("", content);
    slept := p.WorkerStep(TransportError);
    remaining := |p.queue|;
  }

  /** An upload whose every attempt is rejected stays queued: after three
      iterations answered with status 500 it is still the only entry, and the
      waits were 0, 1 s and 3 s. */
  method RejectedUploadStaysQueued(name: string, content: seq<byte>) returns (waits: seq<Duration>, remaining: seq<Entry>)
    requires name != ""
    ensures waits == [0, Second, 3 * Second]
    ensures remaining == [Entry(name, content)]
  {
    var p := new Pipeline();
    var _ := p.Upload(name, content);
    var r := Response(500, false);
    ghost var e := Entry(name, content);
    ghost var w := Worker([e], 0);
    assert [r, r, r][..2] == [r, r] && [r, r][..1] == [r] && [r][..0] == [];
    assert Run(w, [r]) == Trace(Worker([e], Second), [0], []);
    assert Run(w, [r, r]) == Trace(Worker([e], 3 * Second), [0, Second], []);
    waits := p.Push([r, r, r]);
    remaining := p.queue;
  }
}
