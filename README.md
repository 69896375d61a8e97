# Relay upload queue and retry backoff

A model of the core of a small upload relay (main.go). An HTTP handler,
`upload`, takes a file name from the `Name` header and the request body, and
puts an entry on a buffered channel of capacity 300. A single worker loop,
`push`, takes entries off that channel one at a time and forwards them to an
upstream album API. A failed forward puts the entry back at the end of the
queue and grows a process-wide backoff delay, `lastDuration`. Before every
send the delay is clamped to 15 minutes, written back, and slept.

The model has four modules:

- `Backoff`: durations as Go's `time.Duration`, a signed 64-bit count of
  nanoseconds, written as a newtype whose range check proves that
  `lastDuration *= 2` and `*= 3` never overflow. It also holds the clamp, the
  growth after a failure, and the closed-form retry schedule.
- `Relay`: the entries, the upstream outcome of one attempt as an input
  (`TransportError`, or `Response(status, decodes)`), and the process state as
  values. An iteration of the worker loop has two halves: `Dequeue` clamps the
  delay, writes it back, sleeps it and receives the head; `Settle` handles the
  upstream outcome, and its requeue needs a free slot. `Step` is one whole
  iteration and `Run` a run of iterations. `Admit` is the handler's effect,
  and `Replay` runs handler calls and iterations interleaved. The class
  `Pipeline` holds the channel as a `seq<Entry>` and the delay as a field. Its
  methods are the handler (`Upload`), the two halves of an iteration
  (`Receive`, `Complete`), a whole iteration (`WorkerStep`) and the loop
  (`Push`). `Upload` states its effect directly and is also tied to `Admit`;
  the others are proved against `Dequeue`, `Settle`, `Step` or `Run`.
- `RelayProperties` and `RelayScenarios`: the properties of the step function
  and of runs, and clients that use the handler and the worker together.

The handler and each half of a worker iteration are atomic steps, and the
caller chooses how they interleave. Every channel send that can block in
main.go becomes a precondition: `Upload` needs a free slot, and so does a
requeue in `Complete` and `Settle` (`CanSettle`).

main.go can deadlock on its own requeue. The receive at line 49 frees one slot
of a full channel. While the upstream call at line 71 is in flight, an upload
(line 119) can take that slot. If the call then fails, the send at line 74 or
85 finds the channel full. The worker is the channel's only receiver, so that
send never completes; the worker stops, and every later upload blocks too.
`RequeueCanFindChannelFull` shows that this state is reached from any full
channel. `WorkerStep`, `Step`, `Run` and `Replay` run the two halves of an
iteration with nothing between them, so in them the requeue always has room.

Where the system's documented behaviour and main.go disagree, the model
follows main.go:

- The documentation's scenario says that for an entry always answered with
  status 500, "after three forwarding attempts" the wait before the third
  attempt is `min(9 × base, cap)` "(starting from 1 unit)". From the process's
  initial zero delay, main.go waits 0, 1 s and 3 s before the first three
  attempts, and 9 s only before the fourth (`RejectedEntryWaits`,
  `RejectedUploadStaysQueued`). Only when the delay already stands at one
  second are the three waits 1 s, 3 s and 9 s
  (`RejectedEntryWaitsFromOneSecond`). So the two disagree only when the
  delay starts at zero, as it does at process start.
- The documentation says that every failure strictly increases the stored delay
  and that the stored delay can exceed the cap indefinitely. In main.go the
  clamp at line 46 is written back into `lastDuration` before each
  multiplication. So the stored delay is at most three times the cap. A
  failure always stores more than the wait it just slept, and more than the
  old stored delay when that was within the cap (`FailureGrowsDelayWithinCap`).
  But it can shrink: from three times the cap, a transport error stores twice
  the cap (`FailureCanShrinkDelay`).

## Model

| member | source | states |
|---|---|---|
| `Backoff.Clamp` | main.go:46 | the wait is at most the stored delay and at most the 15-minute cap, and equals one of the two |
| `Backoff.Grow` | main.go:75-89 | after a failure the new delay is strictly more than the wait that preceded it and at most factor × cap, so the int64 multiplication cannot overflow; a zero wait gives one second |
| `Backoff.CapInSeconds` | main.go:35 | the 15-minute cap is 900 whole seconds, the bound the closed-form schedule compares against |
| `Backoff.Schedule` | main.go:46-47 | the closed-form wait before attempt k + 1 of a run of same-kind failures is between 0 and the cap, and zero only before the first attempt |
| `Relay.Dequeue` | main.go:45-49 | the first half of an iteration sleeps exactly `min(lastDuration, 15 min)` (the stored delay or the cap, and never more than the stored delay), leaves that value stored, and receives the head: the head followed by the rest is the old queue, and the rest has a free slot |
| `Relay.Settle` | main.go:71-102 | the second half of an iteration keeps the channel within its capacity and the delay within 0 and 3 × cap, and loses no entry: the new queue followed by the entry forwarded is the old queue followed by the received entry |
| `Relay.Admit` | main.go:107-119 | the handler's effect: an empty name leaves the queue as it was, a named upload appends `Entry{name, body}` at the back; the delay is unchanged and the channel stays within its capacity |
| `Relay.Step` | main.go:38-103 | one loop iteration keeps the channel at or below its capacity of 300 and the stored delay within 0 and 3 × cap, and sleeps between 0 and the cap |
| `Relay.Run` | main.go:38-103 | a run of iterations keeps those bounds, records one sleep per iteration, and every sleep is within 0 and the cap |
| `Relay.Replay` | main.go:38-121 | a run of handler calls and worker iterations, interleaved, keeps the channel within its capacity of 300 and the delay within 0 and 3 × cap; it records what was forwarded, accepted, received from and sent into the channel |
| `Relay.Pipeline.constructor` | main.go:30-35 | the process starts with an empty channel and a zero delay |
| `Relay.Pipeline.Upload` | main.go:106-121 | an empty `Name` gives 400 and changes nothing; otherwise `Entry{name, body}` is appended at the back, the earlier entries keep their order, the delay is unchanged, and the result is 200 |
| `Relay.Pipeline.Receive` | main.go:45-49 | the first half of an iteration updates the channel and `lastDuration` as `Dequeue` says, leaves the delay at most the cap, and returns the received head and the time slept |
| `Relay.Pipeline.Complete` | main.go:71-102 | the second half of an iteration updates the channel and `lastDuration` as `Settle` says; a requeue needs a free slot, as the channel send does |
| `Relay.Pipeline.WorkerStep` | main.go:38-103 | one iteration updates the channel and `lastDuration` exactly as the step function says, and returns the time slept |
| `Relay.Pipeline.Push` | main.go:37-104 | the loop, run once per upstream outcome, reaches the state of the run and returns its sleeps |
| `RelayProperties.StepIdleWhenEmpty` | main.go:39-43 | on an empty channel an iteration sleeps 5 s and changes neither the channel nor the delay |
| `RelayProperties.StepWaitsClampedDelay` | main.go:45-47 | before a send the wait is exactly `min(lastDuration, 15 min)`, so it is between 0 and the cap |
| `RelayProperties.StepTransportErrorRequeues` | main.go:71-81 | on a transport error the head moves to the back, the other entries keep their order, nothing is forwarded, and the delay becomes 1 s after a zero wait and twice the wait otherwise |
| `RelayProperties.StepBadStatusRequeues` | main.go:83-92 | on a non-200 status the head moves to the back, the other entries keep their order, and the delay becomes 1 s after a zero wait and three times the wait otherwise, never above 3 × cap |
| `RelayProperties.StepOkForwardsHead` | main.go:94-102 | on status 200 the head leaves the queue for good; the delay resets to 0 if the body decodes, and otherwise stays at the clamped value |
| `RelayProperties.FailureGrowsDelayWithinCap` | main.go:75-89 | a failure strictly increases a stored delay that was within the cap |
| `RelayProperties.FailureCanShrinkDelay` | main.go:46-89 | because the clamp is written back, a 500 at the cap stores 3 × cap and a following transport error stores 2 × cap, which is less |
| `RelayProperties.StepConservesEntries` | main.go:49-99 | an iteration loses no entry: the old queue is the new queue plus the entry forwarded, as multisets |
| `RelayProperties.RunConservesEntries` | main.go:38-103 | over any run, the entries queued at the start are the entries still queued plus those forwarded after a 200 |
| `RelayProperties.ForwardingStep` | main.go:94-102 | an iteration answered with 200 forwards the head if there is one: the entry forwarded followed by the new queue is the old queue |
| `RelayProperties.ForwardsInQueueOrder` | main.go:49-102 | for every run in which each attempt gets a 200, including idle iterations once the queue runs dry, what was forwarded followed by what is still queued is the starting queue; one entry is forwarded per iteration until the queue is empty |
| `RelayProperties.ForwardsInArrivalOrder` | main.go:49-119 | across interleaved uploads and iterations in which no attempt fails, what was forwarded followed by what is still queued is the starting queue followed by every accepted upload, in arrival order |
| `RelayProperties.ReplayConservesEntries` | main.go:49-119 | across any interleaving of uploads and iterations, failures included, the starting queue plus every accepted upload equals, as multisets, what is still queued plus what was forwarded: no upload is lost on a failure |
| `RelayProperties.StepThroughChannel` | main.go:49-85 | an iteration receives the head, if any, and sends it back after a failure: the entry received followed by the new queue is the old queue followed by the entry requeued |
| `RelayProperties.ChannelIsFirstInFirstOut` | main.go:49-119 | across any interleaving, failures included, what the worker received followed by what is still queued is the starting queue followed by every entry sent into the channel, uploads and requeues alike, in the order sent; a failed entry goes to the back behind everything sent before its requeue |
| `RelayProperties.StepRequeueHasRoom` | main.go:49-85 | when nothing runs between the receive and the completion, the slot the receive frees is there for the requeue, so a failure keeps the queue's length and the send cannot block |
| `RelayProperties.RequeueCanFindChannelFull` | main.go:49-85 | from a full channel, a receive followed by an upload leaves the channel full again, so a failure's requeue has no free slot |
| `RelayProperties.ScheduleStep` | main.go:46-89 | one more failure moves the closed-form schedule one step on, through the clamp and the growth |
| `RelayProperties.WaitsFollowSchedule` | main.go:46-89 | while every attempt fails the same way, the queue keeps its length and each wait is the schedule's value |
| `RelayProperties.WaitsFromZeroDelay` | main.go:34-89 | from a zero delay, repeated failures wait 0, 1 s, f s, f² s, … capped at 15 minutes, with f = 2 for transport errors and f = 3 for non-200 statuses |
| `RelayProperties.RejectedEntryWaits` | main.go:83-90 | an entry always answered with 500 is waited for 0, 1 s, 3 s and 9 s before its first four attempts |
| `RelayProperties.RejectedEntryWaitsFromOneSecond` | main.go:83-90 | when the delay already stands at one second, an entry always answered with 500 is waited for 1 s, 3 s and 9 s before its first three attempts |
| `RelayProperties.ForwardedEntryEmptiesQueue` | main.go:94-102 | a single entry answered with a decodable 200 is forwarded, and the queue is left empty with a zero delay |
| `RelayScenarios.UploadIsForwarded` | main.go:106-121 | a named upload is accepted with 200 and one iteration answered with a decodable 200 forwards it at once, leaving the channel empty and the delay zero |
| `RelayScenarios.NamelessUploadIsRefused` | main.go:107-112 | an upload without a name gets 400 and leaves nothing queued, so the worker only polls |
| `RelayScenarios.RejectedUploadStaysQueued` | main.go:83-91 | an upload whose attempts all get 500 stays the only queued entry, after waits of 0, 1 s and 3 s |

## Findings

| source | as written | input that shows it | evidently intended | confidence | as-written member | corrected member |
|---|---|---|---|---|---|---|
| main.go:49-119 | the worker requeues a failed entry with a blocking send on the channel it alone receives from, after its receive has freed a slot that the handler may take meanwhile | a full channel of 300 entries; the worker receives the head; an upload fills the freed slot while the upstream call is in flight; the call fails with a transport error or status 500 | the requeue of a failure always has room, so the worker never blocks on its own channel | high, not executed | `RelayProperties.RequeueCanFindChannelFull` | `RelayProperties.StepRequeueHasRoom` |

The model's `Step`, `Run`, `Replay` and `WorkerStep` keep the freed slot for the requeue, which is the intended behaviour; `Receive` and `Complete` keep the behaviour as written.

## Left out

- HTTP server setup, routing and `http.ListenAndServe` (main.go:123-137): I/O. The `Name` header is a parameter, with the empty string for a missing header.
- Reading the body with `io.ReadAll` (main.go:114-117): the body is the given byte sequence. On a read error the source queues whatever was read, which is again just a byte sequence.
- Building the multipart body, the MIME type lookup by extension and its `application/octet-stream` fallback, and the request headers (main.go:51-69): thin wrappers over library calls whose behaviour is not part of this model.
- `client.Do` and the JSON decoding of `UploadResponse` (main.go:71, main.go:94-95): replaced by the `Outcome` input of each iteration. The decoded response is only logged, so it is not modelled.
- `time.Sleep` (main.go:41, main.go:47): the wait is the returned duration value. Nothing sleeps.
- The goroutine, blocking channel semantics and the check-then-receive race (main.go:39, main.go:49, main.go:128): the handler and each half of a worker iteration are atomic steps interleaved by the caller, and a send that would block is a precondition.
- `Relay.Pipeline.WorkerStep`: it runs the receive and the completion of an iteration with nothing in between, as do `Step`, `Run` and `Replay`. So their requeue always has room, and they cannot reach main.go's self-deadlock, where an upload takes the slot freed by the receive and the worker then blocks forever on its own requeue (lines 49, 74, 85, 119). `Receive` and `Complete` can be interleaved with `Upload`, and `RequeueCanFindChannelFull` shows the deadlock state.
- `Relay.Replay`: a named upload that finds the channel full is still blocked in the handler and has no effect at that point. A later event for the same request stands for the handler going on once a slot is free.
- `Relay.Pipeline.Upload`: a send on a full channel blocks the handler until the worker frees a slot. In the model it is a precondition that the channel has room.
- `Relay.Run`: an iteration that finds the channel empty makes no upstream call. It still consumes one outcome of the run, which it ignores.
- Environment variables, `.env` loading and all log output (main.go:124-128, main.go:73, main.go:97, main.go:101, main.go:120): configuration and I/O.
