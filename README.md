# Feed subscription scheduler

A model of the polling loop behind one feed subscription of the feeder RSS
reader, and of the fixture table of canned feed responses.

The loop (`sub.loop`) keeps three locals: `pending`, the FIFO of fetched
items not yet delivered; `next`, the time of the next poll; and `err`, the
error of the last fetch. Each iteration arms a fetch timer for
`max(0, next - now)` and then takes one of three cases:

- **close**: reply with `err` and return.
- **fetch**: call the fetcher. On an error the batch is dropped and the next
  poll is set 10 seconds after the clock reading. On success the whole batch
  is appended to `pending`, and `next` is the time the fetcher suggested.
- **send**: enabled only while `pending` is non-empty. It delivers the head
  and drops it.

The model has three modules:

- `Subscription` (`subscription.dfy`) holds the values: `Item`,
  `FetchResult`, the loop's locals as `LoopState`, the delay function and one
  pure function per case. It also holds the class `Sub`, the loop's frame as
  mutable fields, with one method per case. Ghost fields record what was
  delivered and what was fetched, and `Valid()` is the FIFO invariant.
- `Loop` (`loop.dfy`) runs the loop over a sequence of select choices
  (`Event`). `Admissible` says that each choice is enabled when it is
  taken. `Run` gives the final locals, the delivered items and the close
  reply. The lemmas state FIFO delivery, the
  close reply, termination by close, and the backoff.
- `FakeResult` (`fakeresult.dfy`) holds the four-entry table of canned
  responses and its lookup.

Time is an integer number of nanoseconds since Go's zero `time.Time`, and a
duration is an integer number of nanoseconds. `Time.Sub` saturates at the
largest `time.Duration`, and `FetchDelay` does the same. Each fetch event
carries three clock values:

- the `time.Now()` reading that armed the timer;
- the moment the timer fired;
- the `time.Now()` reading taken after `Fetch` returned, which the backoff
  is added to.

The select's choice is an input, as is what the fetcher returns.

Three behaviours one might expect of such a loop are absent from the code,
and the model follows the code:

- There is no GUID de-duplication: a batch is appended unconditionally. The
  lemma `Loop.SameGuidDeliveredTwice` shows an item delivered twice.
- There is no 10-item cap on `pending`: the fetch timer is armed on every
  iteration, however much is pending.
- There is no asynchronous in-flight fetch: `Fetch` is called synchronously
  inside the select case.

A close is the one choice that is always ready. Every choice after it is
never taken, because the loop has returned. `Run` ignores such choices, and
`Loop.CloseIsTerminal` proves they change nothing. `Taken` cuts a sequence of
choices just after its first close.

The comment on `next` says the zero time is January 1 of year 0. Go's zero
time is January 1 of year 1. Only its being earlier than any clock reading
matters here.

## Model

| member | source | states |
|---|---|---|
| Subscription.Init | subscription/subscription.go:67-69 | The loop starts with nothing pending, `next` at the zero time and no error. |
| Subscription.Sub.constructor | subscription/subscription.go:67-69 | A fresh loop frame has nothing pending, `next` at the zero time, no error, and nothing sent or fetched. |
| Subscription.FetchDelay | subscription/subscription.go:71-77 | The delay is never negative and never above the largest duration. It is 0 exactly when `next` is not after `now`. Otherwise the timer fires no later than `next`: exactly at `next` when that is within the largest duration, and after exactly the largest duration when it is not. |
| Subscription.FetchReady | subscription/subscription.go:77 | The timer never fires before it is armed. When `next` is after the arming time and within the largest duration of it, the fetch is ready exactly from `next` on. When `next` is not after the arming time, it is ready at once. |
| Subscription.AfterSend | subscription/subscription.go:98-99 | Sending splits `pending` into the delivered head and the remaining tail, so it shrinks by one. `next` and `err` are unchanged. |
| Subscription.AfterFetch | subscription/subscription.go:89-96 | `err` becomes the fetch error. A failed fetch keeps `pending` and sets `next` to the clock plus 10 seconds. A successful one appends the batch in order, so `pending` grows by the batch length, and adopts the suggested `next`. |
| Subscription.Sub.Send | subscription/subscription.go:79-99 | Enabled only when something is pending. Returns exactly the old head and leaves the old tail. Records the item as sent and keeps the FIFO invariant. |
| Subscription.Sub.Fetch | subscription/subscription.go:89-96 | Enabled once the armed timer has fired, with the clock read after the fetcher returns no earlier. The new locals are those of `AfterFetch`. Only a successful batch is recorded as fetched, and the FIFO invariant is kept. |
| Subscription.Sub.Close | subscription/subscription.go:85-88 | Replies with the current `err`, marks the loop finished (so no further case can run), and leaves the locals unchanged. |
| Loop.Enabled | subscription/subscription.go:79-98 | Which select case is ready. Close always is. Send is ready exactly when something is pending. A fetch is ready exactly when its timer has fired (`FetchReady` for the current `next`) and the post-fetch clock is no earlier than the firing. So the timer was armed no later than it fired. |
| Loop.Admissible | subscription/subscription.go:70-101 | By definition, each choice up to the first close is enabled in the state it is taken in. The contract states this for the first choice, and that a sequence starting with close is always admissible, because nothing after the close is taken. |
| Loop.Run | subscription/subscription.go:70-101 | Runs the loop one select choice per iteration. There is a reply exactly when a close is among the choices, and the reply is the `err` held when the loop returned. |
| Loop.Taken | subscription/subscription.go:84-88 | The choices actually taken: a prefix of the given ones, with no close before its last element. It is all of them when there is no close, and otherwise ends with the first close. |
| Loop.CloseIsTerminal | subscription/subscription.go:84-88 | Nothing after a close changes the run. The run equals the run cut just after any close in it. |
| Loop.RunOfTaken | subscription/subscription.go:84-88 | A run equals the run of the choices it actually takes. |
| Loop.Fifo | subscription/subscription.go:96-99 | In every admissible run, the delivered items followed by the final `pending` equal the initial `pending` followed by every batch that was taken and fetched successfully, in order. |
| Loop.DeliveredInFetchOrder | subscription/subscription.go:66-102 | From the loop's start, the delivered items are a prefix of all successfully fetched items, and the rest is exactly what is pending. Nothing is lost or reordered. |
| Loop.ErrIsLastFetchError | subscription/subscription.go:91-95 | After any run, `err` is the error of the most recent fetch taken, or the initial `err` if no fetch was taken. A success resets it to nil. |
| Loop.CloseReply | subscription/subscription.go:85-88 | The loop replies exactly when a close is chosen. The reply is the error of the most recent fetch before that close, or the initial `err` if no fetch ran. |
| Loop.CloseReplyFromStart | subscription/subscription.go:67-88 | From the loop's start, the close reply is the error of the most recent fetch before it, or nil if there was none. |
| Loop.SendsThenFetch | subscription/subscription.go:74-77 | Sends do not move the schedule: a fetch after a run of sends fires only once the delay computed from the same `next` has passed. |
| Loop.BackoffHonoured | subscription/subscription.go:92-94 | After a failed fetch whose clock read `c`, the next fetch fires no earlier than `c` plus 10 seconds. This assumes the clock did not go backwards. |
| Loop.FailingFeedDeliversNothing | subscription/subscription.go:92-96 | If every fetch fails, nothing is ever pending or delivered. |
| Loop.SameGuidDeliveredTwice | subscription/subscription.go:96 | Batches are appended without GUID checks: the same item fetched twice is delivered twice. |
| FakeResult.FakeResponse | subscription/fakeresult.go:14-51 | Gives the exact canned item of each of the three success URIs. The error URI gives an empty list, because its error is never returned. At most one item comes back. Only the table's keys are accepted. |
| FakeResult.FakeRequestKeys | subscription/fakeresult.go:15-50 | The table has exactly the four keys. |
| FakeResult.EntryShapes | subscription/fakeresult.go:16-49 | An entry has no error exactly when it is a success entry, and then it holds exactly one item. The error entry holds no item and the error "Mock error". |
| FakeResult.GuidsDistinct | subscription/fakeresult.go:16-45 | No GUID occurs twice in the table. |
| FakeResult.Feed1Scenario | subscription/fakeresult.go:16-25 | A loop whose one fetch returns the first feed's batch, followed by a send and a close, delivers exactly "Three Jobless Freaks" and replies nil. |

## Left out

- Goroutines, channels and the `select` itself: the choice made in each iteration is an input (`Loop.Event`), and `Admissible` states which choices the select can make. Sending on `s.updates`, the `errc` reply channel, and closing `s.updates` after the reply are not modelled beyond the reply value and the `done` flag.
- `time.Now`, `time.After` and the timer: clock readings and the moment the timer fires are parameters. `Loop.BackoffHonoured` assumes the clock does not run backwards between iterations.
- The fetcher: what `Fetch` returns is an input. `Fetch(domain)` (subscription/subscription.go:24-26), `Subscribe` (which returns nil, lines 47-55) and `Merge` (lines 60-62) are stubs without logic.
- `Updates` and `Close` on `sub` (subscription/subscription.go:104-111) only move values across channels. `closing` is never created (lines 48-51), so `Close` as written would block forever. The loop's close case (line 85) receives from that nil channel and so is never ready either. The model treats close as an external choice that is always available, which is the evident intent.
- Overflow of `time.Time.Add`: times are unbounded integers, so `clock + Backoff` never wraps.
- An unknown URI in `fakeResponse` dereferences a nil entry and panics. `FakeResult.FakeResponse` requires a key of the table instead of modelling the panic.
- main.go is not part of this model: it wires three subscriptions together and prints the merged stream.
