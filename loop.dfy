/**
 * The scheduler loop of a subscription run over a whole sequence of select
 * choices. The choice the select makes in each iteration is given as an
 * event; what the fetcher returns and what the clock reads are carried by
 * the fetch event.
 */
module Loop {
  import opened Subscription

  /**
   * One iteration's select choice. A fetch records the clock reading that
   * armed the timer, the moment the timer fired, what the fetcher returned
   * and the clock reading taken after it returned.
   */
  datatype Event =
    | Close
    | Fetch(armedAt: Time, firedAt: Time, result: FetchResult, clock: Time)
    | Send

  /**
   * Whether the select can take this case in state `s`. Close is always
   * ready; send needs something pending; a fetch needs its timer to have
   * fired, and the clock read after the fetcher returned is no earlier.
   */
  predicate Enabled(s: LoopState, ev: Event): (r: bool)
    ensures ev.Close? ==> r
    ensures ev.Send? ==> (r <==> s.pending != [])
    ensures ev.Fetch? ==> (r <==> FetchReady(s.next, ev.armedAt, ev.firedAt) && ev.firedAt <= ev.clock)
    ensures ev.Fetch? && r ==> ev.armedAt <= ev.firedAt <= ev.clock
  {
    match ev
    case Close => true
    case Send => s.pending != []
    case Fetch(armedAt, firedAt, _, clock) => FetchReady(s.next, armedAt, firedAt) && firedAt <= clock
  }

  /**
   * Every choice the loop takes is enabled when it is taken. Once a close is
   * taken the loop has returned, so whatever follows it is never taken and
   * is not constrained.
   */
  predicate Admissible(s: LoopState, evs: seq<Event>): (r: bool)
    ensures r && evs != [] ==> Enabled(s, evs[0])
    ensures evs != [] && evs[0].Close? ==> r
    decreases |evs|
  {
    evs == [] ||
    (Enabled(s, evs[0]) &&
     match evs[0]
     case Close => true
     case Send => Admissible(AfterSend(s), evs[1..])
     case Fetch(_, _, result, clock) => Admissible(AfterFetch(s, result, clock), evs[1..]))
  }

  /**
   * Where a run of the loop ends: the final locals, the items delivered in
   * order, and the close reply if the loop has returned.
   */
  datatype Outcome = Outcome(state: LoopState, sent: seq<Item>, reply: Option<Option<Error>>)

  /**
   * The loop over a sequence of select choices, one iteration per choice,
   * until the choices run out or a close makes it return.
   */
  function Run(s: LoopState, evs: seq<Event>): (r: Outcome)
    requires Admissible(s, evs)
    ensures r.reply.Some? <==> Close in evs
    ensures r.reply.Some? ==> r.reply.value == r.state.err
    decreases |evs|
  {
    if evs == [] then Outcome(s, [], None)
    else
      assert evs == [evs[0]] + evs[1..];
      match evs[0]
      case Close => Outcome(s, [], Some(s.err))
      case Send =>
        var o := Run(AfterSend(s), evs[1..]);
        o.(sent := [s.pending[0]] + o.sent)
      case Fetch(_, _, result, clock) => Run(AfterFetch(s, result, clock), evs[1..])
  }

  /** The choices the loop actually takes: everything up to and including the first close. */
  function Taken(evs: seq<Event>): (r: seq<Event>)
    ensures r <= evs
    ensures forall i :: 0 <= i < |r| - 1 ==> !r[i].Close?
    ensures Close !in evs ==> r == evs
    ensures Close in evs ==> r != [] && r[|r| - 1] == Close
    decreases |evs|
  {
    if evs == [] then []
    else if evs[0].Close? then [Close]
    else
      assert evs == [evs[0]] + evs[1..];
      [evs[0]] + Taken(evs[1..])
  }

  /** Every item of every successful fetch, batch after batch. */
  function Batches(evs: seq<Event>): (r: seq<Item>)
    decreases |evs|
  {
    if evs == [] then []
    else if evs[0].Fetch? && evs[0].result.err.None? then evs[0].result.items + Batches(evs[1..])
    else Batches(evs[1..])
  }

  /** The error of the most recent fetch in `evs`, or `e` if there is none. */
  function LastError(e: Option<Error>, evs: seq<Event>): (r: Option<Error>)
    decreases |evs|
  {
    if evs == [] then e
    else LastError(if evs[0].Fetch? then evs[0].result.err else e, evs[1..])
  }

  predicate AllSends(evs: seq<Event>)
  {
    forall i :: 0 <= i < |evs| ==> evs[i].Send?
  }

  /** Before the first close, the choices taken are the first choice and those taken after it. */
  lemma TakenCons(evs: seq<Event>)
    requires evs != [] && !evs[0].Close?
    ensures Taken(evs) != [] && Taken(evs)[0] == evs[0] && Taken(evs)[1..] == Taken(evs[1..])
  {
  }

  /**
   * A close ends the run: whatever follows the close at index `i` is never
   * taken, so the run is the same as the run cut just after that close.
   */
  lemma {:induction false} CloseIsTerminal(s: LoopState, evs: seq<Event>, i: nat)
    requires Admissible(s, evs)
    requires i < |evs| && evs[i].Close?
    ensures Admissible(s, evs[..i + 1]) && Run(s, evs) == Run(s, evs[..i + 1])
    decreases i
  {
    var cut := evs[..i + 1];
    if evs[0].Close? {
      assert cut[0] == Close;
    } else {
      assert cut[0] == evs[0] && cut[1..] == evs[1..][..i];
      match evs[0]
      case Send =>
        CloseIsTerminal(AfterSend(s), evs[1..], i - 1);
      case Fetch(_, _, result, clock) =>
        CloseIsTerminal(AfterFetch(s, result, clock), evs[1..], i - 1);
    }
  }

  /** In particular, a run is the run of the choices it actually takes. */
  lemma {:induction false} RunOfTaken(s: LoopState, evs: seq<Event>)
    requires Admissible(s, evs)
    ensures Admissible(s, Taken(evs)) && Run(s, evs) == Run(s, Taken(evs))
    decreases |evs|
  {
    if evs != [] {
      if evs[0].Close? {
        assert Taken(evs) == [Close];
      } else {
        TakenCons(evs);
        match evs[0]
        case Send =>
          RunOfTaken(AfterSend(s), evs[1..]);
        case Fetch(_, _, result, clock) =>
          RunOfTaken(AfterFetch(s, result, clock), evs[1..]);
      }
    }
  }

  /** One step of `Batches`: the first choice's successful batch, if any, comes first. */
  lemma BatchesCons(t: seq<Event>)
    requires t != []
    ensures Batches(t) == (if t[0].Fetch? && t[0].result.err.None? then t[0].result.items else []) + Batches(t[1..])
  {
  }

  /** Delivering the head keeps delivered-then-pending equal to pending-then-fetched. */
  lemma SendKeepsOrder(pending: seq<Item>, tail: seq<Item>, sent: seq<Item>, rest: seq<Item>, fetched: seq<Item>)
    requires pending != [] && [pending[0]] + tail == pending
    requires sent + rest == tail + fetched
    ensures ([pending[0]] + sent) + rest == pending + fetched
  {
    calc {
      ([pending[0]] + sent) + rest;
      [pending[0]] + (sent + rest);
      [pending[0]] + (tail + fetched);
      ([pending[0]] + tail) + fetched;
    }
  }

  /** Appending a batch keeps delivered-then-pending equal to pending-then-fetched. */
  lemma FetchKeepsOrder(pending: seq<Item>, batch: seq<Item>, sent: seq<Item>, rest: seq<Item>, fetched: seq<Item>)
    requires sent + rest == (pending + batch) + fetched
    ensures sent + rest == pending + (batch + fetched)
  {
  }

  /**
   * FIFO: the items delivered, followed by those still pending, are the items
   * pending at the start followed by every batch the loop fetched
   * successfully, in order.
   */
  lemma {:induction false} Fifo(s: LoopState, evs: seq<Event>)
    requires Admissible(s, evs)
    ensures Run(s, evs).sent + Run(s, evs).state.pending == s.pending + Batches(Taken(evs))
    decreases |evs|
  {
    if evs == [] {
    } else if evs[0].Close? {
      assert Taken(evs) == [Close];
      BatchesCons([Close]);
    } else {
      TakenCons(evs);
      BatchesCons(Taken(evs));
      var rest := Batches(Taken(evs[1..]));
      match evs[0]
      case Send =>
        var s' := AfterSend(s);
        Fifo(s', evs[1..]);
        var o := Run(s', evs[1..]);
        SendKeepsOrder(s.pending, s'.pending, o.sent, o.state.pending, rest);
      case Fetch(_, _, result, clock) =>
        var s' := AfterFetch(s, result, clock);
        Fifo(s', evs[1..]);
        var o := Run(s', evs[1..]);
        if result.err.None? {
          FetchKeepsOrder(s.pending, result.items, o.sent, o.state.pending, rest);
        }
    }
  }

  /**
   * From the loop's start, what is delivered is a prefix of everything
   * fetched successfully, and the rest of it is exactly what is pending:
   * no item is lost or reordered.
   */
  lemma DeliveredInFetchOrder(evs: seq<Event>)
    requires Admissible(Init(), evs)
    ensures Run(Init(), evs).sent + Run(Init(), evs).state.pending == Batches(Taken(evs))
    ensures Run(Init(), evs).sent <= Batches(Taken(evs))
    ensures |Run(Init(), evs).sent| + |Run(Init(), evs).state.pending| == |Batches(Taken(evs))|
  {
    Fifo(Init(), evs);
    var o := Run(Init(), evs);
    assert Init().pending + Batches(Taken(evs)) == Batches(Taken(evs));
    assert (o.sent + o.state.pending)[..|o.sent|] == o.sent;
  }

  /** `err` always holds the error of the most recent fetch the loop took. */
  lemma {:induction false} ErrIsLastFetchError(s: LoopState, evs: seq<Event>)
    requires Admissible(s, evs)
    ensures Run(s, evs).state.err == LastError(s.err, Taken(evs))
    decreases |evs|
  {
    if evs != [] {
      var t := Taken(evs);
      match evs[0]
      case Close =>
        assert t == [Close] && t[1..] == [];
      case Send =>
        TakenCons(evs);
        ErrIsLastFetchError(AfterSend(s), evs[1..]);
      case Fetch(_, _, result, clock) =>
        TakenCons(evs);
        ErrIsLastFetchError(AfterFetch(s, result, clock), evs[1..]);
    }
  }

  /**
   * The loop replies exactly when a close is chosen, and the reply is the
   * error of the most recent fetch before that close, or the initial `err`
   * if no fetch ran.
   */
  lemma CloseReply(s: LoopState, evs: seq<Event>)
    requires Admissible(s, evs)
    ensures Run(s, evs).reply.Some? <==> Close in evs
    ensures Run(s, evs).reply.Some? ==> Run(s, evs).reply.value == LastError(s.err, Taken(evs))
  {
    ErrIsLastFetchError(s, evs);
  }

  /** From the loop's start, a close replies nil unless the most recent fetch failed. */
  lemma CloseReplyFromStart(evs: seq<Event>)
    requires Admissible(Init(), evs) && Close in evs
    ensures Run(Init(), evs).reply == Some(LastError(None, Taken(evs)))
  {
    CloseReply(Init(), evs);
  }

  /** Sends leave the poll schedule alone, so the next fetch still waits for `s.next`. */
  lemma {:induction false} SendsThenFetch(s: LoopState, sends: seq<Event>, ev: Event)
    requires AllSends(sends) && ev.Fetch?
    requires Admissible(s, sends + [ev])
    ensures FetchReady(s.next, ev.armedAt, ev.firedAt)
    decreases |sends|
  {
    if sends == [] {
      assert (sends + [ev])[0] == ev;
    } else {
      assert (sends + [ev])[0] == sends[0];
      assert (sends + [ev])[1..] == sends[1..] + [ev];
      SendsThenFetch(AfterSend(s), sends[1..], ev);
    }
  }

  /**
   * After a failed fetch whose clock read `c`, the next fetch fires no
   * earlier than `c` plus the backoff, provided the clock has not gone
   * backwards when that fetch's timer was armed.
   */
  lemma BackoffHonoured(s: LoopState, evs: seq<Event>)
    requires Admissible(s, evs) && |evs| >= 2
    requires evs[0].Fetch? && evs[0].result.err.Some?
    requires AllSends(evs[1..|evs| - 1]) && evs[|evs| - 1].Fetch?
    requires evs[|evs| - 1].armedAt >= evs[0].clock
    ensures evs[|evs| - 1].firedAt >= evs[0].clock + Backoff
  {
    var failed, ev := evs[0], evs[|evs| - 1];
    var s' := AfterFetch(s, failed.result, failed.clock);
    assert evs[1..] == evs[1..|evs| - 1] + [ev];
    SendsThenFetch(s', evs[1..|evs| - 1], ev);
  }

  /** A feed whose every fetch fails never delivers an item. */
  lemma FailingFeedDeliversNothing(evs: seq<Event>)
    requires Admissible(Init(), evs)
    requires forall i :: 0 <= i < |evs| && evs[i].Fetch? ==> evs[i].result.err.Some?
    ensures Run(Init(), evs).sent == []
    ensures Run(Init(), evs).state.pending == []
  {
    var t := Taken(evs);
    forall i | 0 <= i < |t| && t[i].Fetch?
      ensures t[i].result.err.Some?
    {
      assert t[i] == evs[i];
    }
    NoSuccessNoBatches(t);
    Fifo(Init(), evs);
  }

  lemma {:induction false} NoSuccessNoBatches(evs: seq<Event>)
    requires forall i :: 0 <= i < |evs| && evs[i].Fetch? ==> evs[i].result.err.Some?
    ensures Batches(evs) == []
    decreases |evs|
  {
    if evs != [] {
      assert forall i :: 0 <= i < |evs| - 1 && evs[1..][i].Fetch? ==> evs[1..][i].result.err.Some? by {
        forall i | 0 <= i < |evs| - 1 && evs[1..][i].Fetch?
          ensures evs[1..][i].result.err.Some?
        {
          assert evs[1..][i] == evs[i + 1];
        }
      }
      NoSuccessNoBatches(evs[1..]);
    }
  }

  /**
   * Without de-duplication, an item fetched twice is delivered twice: two
   * successful fetches of the same one-item batch followed by two sends.
   */
  lemma SameGuidDeliveredTwice(it: Item, t: Time)
    requires t >= 0
    ensures var batch := FetchResult([it], t, None);
            var evs := [Fetch(t, t, batch, t), Fetch(t, t, batch, t), Send, Send];
            Admissible(Init(), evs) && Run(Init(), evs).sent == [it, it]
  {
    var batch := FetchResult([it], t, None);
    var evs := [Fetch(t, t, batch, t), Fetch(t, t, batch, t), Send, Send];
    var s1 := AfterFetch(Init(), batch, t);
    var s2 := AfterFetch(s1, batch, t);
    var s3 := AfterSend(s2);
    assert s2.pending == [it, it] && s3.pending == [it];
    assert Admissible(AfterSend(s3), evs[4..]);
    assert Admissible(s3, evs[3..]);
    assert Admissible(s2, evs[2..]);
    assert Admissible(s1, evs[1..]);
    assert Run(s3, evs[3..]).sent == [it];
    assert Run(s2, evs[2..]).sent == [it, it];
  }
}
