/**
 * One feed subscription: the item record, the fetch result, the three locals
 * of the scheduler loop (pending, next, err) and what each event of the loop
 * does to them.
 *
 * Time is an integer count of nanoseconds since Go's zero time.Time; a
 * duration is an integer count of nanoseconds, as Go's time.Duration is.
 */
module Subscription {

  datatype Option<T> = None | Some(value: T)

  /** A feed entry; a subset of the RSS fields. */
  datatype Item = Item(title: string, channel: string, guid: string)

  /** A Go error value, represented by its message. */
  type Error = string

  type Time = int

  /** What one call of the fetcher returns: a batch, the suggested next poll time and an error. */
  datatype FetchResult = FetchResult(items: seq<Item>, next: Time, err: Option<Error>)

  /** The zero time.Time, the initial value of `next`. */
  const ZeroTime: Time := 0

  const Second: int := 1_000_000_000

  /** The fixed delay before the next fetch after a failed one. */
  const Backoff: int := 10 * Second

  /** Go's largest time.Duration, 1<<63 - 1 nanoseconds; Time.Sub saturates there. */
  const MaxDuration: int := 0x7FFF_FFFF_FFFF_FFFF

  /**
   * The delay after which the loop's fetch timer fires: nothing when `next` is
   * not after `now`, otherwise the time left until `next`, saturated at the
   * largest duration as Time.Sub does.
   */
  function FetchDelay(next: Time, now: Time): (d: int)
    ensures 0 <= d <= MaxDuration
    ensures d == 0 <==> next <= now
    ensures now < next ==> now + d <= next
    ensures now < next && next - now <= MaxDuration ==> now + d == next
    ensures now < next && next - now > MaxDuration ==> d == MaxDuration
  {
    if next > now then
      if next - now <= MaxDuration then next - now else MaxDuration
    else
      0
  }

  /**
   * The fetch case of the select can be taken only once the timer armed at
   * `armedAt` has fired, i.e. at `firedAt`, no earlier than the delay.
   */
  predicate FetchReady(next: Time, armedAt: Time, firedAt: Time): (r: bool)
    ensures r ==> armedAt <= firedAt
    ensures r && next - armedAt <= MaxDuration ==> next <= firedAt
    ensures next <= armedAt ==> (r <==> armedAt <= firedAt)
    ensures armedAt < next && next - armedAt <= MaxDuration ==> (r <==> next <= firedAt)
  {
    armedAt + FetchDelay(next, armedAt) <= firedAt
  }

  /** The loop's locals: the FIFO of undelivered items, the next poll time and the last fetch error. */
  datatype LoopState = LoopState(pending: seq<Item>, next: Time, err: Option<Error>)

  /** The locals as declared before the first iteration. */
  function Init(): (s: LoopState)
    ensures s.pending == [] && s.next == ZeroTime && s.err == None
  {
    LoopState([], ZeroTime, None)
  }

  /** The send case: the head of `pending` is delivered and removed; the rest is kept. */
  function AfterSend(s: LoopState): (r: LoopState)
    requires s.pending != []
    ensures [s.pending[0]] + r.pending == s.pending
    ensures |r.pending| == |s.pending| - 1
    ensures r.next == s.next && r.err == s.err
  {
    s.(pending := s.pending[1..])
  }

  /**
   * The fetch case, given what the fetcher returned and the clock read after
   * it returned: a failure keeps `pending`, records the error and backs off;
   * a success appends the whole batch, adopts the suggested time and clears
   * the error.
   */
  function AfterFetch(s: LoopState, result: FetchResult, clock: Time): (r: LoopState)
    ensures r.err == result.err
    ensures result.err.Some? ==> r.pending == s.pending && r.next == clock + Backoff
    ensures result.err.None? ==> r.pending == s.pending + result.items && r.next == result.next
    ensures result.err.None? ==> |r.pending| == |s.pending| + |result.items|
  {
    var s' := s.(next := result.next, err := result.err);
    if s'.err.Some? then
      s'.(next := clock + Backoff)
    else
      s'.(pending := s'.pending + result.items)
  }

  /**
   * The frame of one running scheduler loop. Each method is one case of the
   * loop's select. The ghost fields record every item delivered so far and
   * every item of every successful batch, in order.
   */
  class Sub {
    var pending: seq<Item>
    var next: Time
    var err: Option<Error>
    /** Set once the close case has replied; the loop has then returned. */
    var done: bool
    ghost var sent: seq<Item>
    ghost var batches: seq<Item>

    /** FIFO: what was delivered, followed by what is pending, is every fetched item in order. */
    ghost predicate Valid()
      reads this
    {
      sent + pending == batches
    }

    function State(): (s: LoopState)
      reads this
    {
      LoopState(pending, next, err)
    }

    constructor ()
      ensures Valid() && !done
      ensures pending == [] && next == ZeroTime && err == None
      ensures sent == [] && batches == []
    {
      pending, next, err := [], ZeroTime, None;
      done := false;
      sent, batches := [], [];
    }

    /** The send case, enabled only while something is pending. */
    method Send() returns (first: Item)
      requires Valid() && !done && pending != []
      modifies this
      ensures Valid() && !done
      ensures first == old(pending[0])
      ensures [first] + pending == old(pending)
      ensures State() == AfterSend(old(State()))
      ensures sent == old(sent) + [first] && batches == old(batches)
    {
      first := pending[0];
      pending := pending[1..];
      sent := sent + [first];
    }

    /**
     * The fetch case, enabled once the timer armed at `armedAt` has fired at
     * `firedAt`; `clock` is read after the fetcher returns.
     */
    method Fetch(armedAt: Time, firedAt: Time, result: FetchResult, clock: Time)
      requires Valid() && !done && FetchReady(next, armedAt, firedAt) && firedAt <= clock
      modifies this
      ensures Valid() && !done
      ensures State() == AfterFetch(old(State()), result, clock)
      ensures sent == old(sent)
      ensures batches == old(batches) + (if result.err.None? then result.items else [])
    {
      var fetched := result.items;
      next, err := result.next, result.err;
      if err.Some? {
        next := clock + Backoff;
        return;
      }
      pending := pending + fetched;
      batches := batches + fetched;
    }

    /** The close case: reply with the current error and stop. */
    method Close() returns (reply: Option<Error>)
      requires Valid() && !done
      modifies this`done
      ensures Valid() && done
      ensures reply == err
      ensures State() == old(State())
    {
      reply := err;
      done := true;
    }
  }
}
