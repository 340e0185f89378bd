/**
 * The canned responses of the fake feed endpoints: a constant table from a
 * request URI to a batch of items and an error, and the lookup that returns
 * the batch of a URI.
 */
module FakeResult {
  import opened Subscription
  import opened Loop

  datatype FakeResult = FakeResult(response: seq<Item>, error: Option<Error>)

  const Feed1: string := "/book/feed1/success"
  const Feed2: string := "/book/feed2/success"
  const Feed3: string := "/book/feed3/success"
  const FeedError: string := "/book/feed/error"

  const FakeRequest: map<string, FakeResult> := map[
    Feed1 := FakeResult([Item("Three Jobless Freaks", "Flipkart", "Test GUID1")], None),
    Feed2 := FakeResult([Item("Five Point Someone", "Amazon", "Test GUID2")], None),
    Feed3 := FakeResult([Item("The Golden Leaf", "Amazon", "Test GUID3")], None),
    FeedError := FakeResult([], Some("Mock error"))
  ]

  /**
   * The items canned for `uri`. The table's error is never returned. A URI
   * outside the table dereferences a nil entry, so callers must pass one of
   * its keys.
   */
  function FakeResponse(uri: string): (r: seq<Item>)
    requires uri in FakeRequest
    ensures uri == Feed1 ==> r == [Item("Three Jobless Freaks", "Flipkart", "Test GUID1")]
    ensures uri == Feed2 ==> r == [Item("Five Point Someone", "Amazon", "Test GUID2")]
    ensures uri == Feed3 ==> r == [Item("The Golden Leaf", "Amazon", "Test GUID3")]
    ensures uri == FeedError ==> r == []
    ensures |r| <= 1
  {
    FakeRequest[uri].response
  }

  /** The table has exactly these four keys. */
  lemma FakeRequestKeys()
    ensures FakeRequest.Keys == {Feed1, Feed2, Feed3, FeedError}
    ensures |FakeRequest| == 4
  {
  }

  /** The success entries carry one item each and no error; the error entry carries no item. */
  lemma EntryShapes(uri: string)
    requires uri in FakeRequest
    ensures FakeRequest[uri].error.None? <==> uri != FeedError
    ensures FakeRequest[uri].error.None? ==> |FakeResponse(uri)| == 1
    ensures FakeRequest[uri].error.Some? ==> FakeResponse(uri) == [] && FakeRequest[uri].error.value == "Mock error"
  {
  }

  /** No GUID appears under two different URIs, or twice under one. */
  lemma GuidsDistinct(u: string, v: string, i: nat, j: nat)
    requires u in FakeRequest && v in FakeRequest
    requires i < |FakeResponse(u)| && j < |FakeResponse(v)|
    requires FakeResponse(u)[i].guid == FakeResponse(v)[j].guid
    ensures u == v && i == j
  {
  }

  /**
   * A subscription whose one fetch returns the first feed's canned batch
   * delivers exactly that batch's item and then closes without error.
   */
  lemma Feed1Scenario(t: Time, later: Time)
    requires t >= 0
    ensures var evs := [Fetch(t, t, FetchResult(FakeResponse(Feed1), later, None), t), Send, Close];
            Admissible(Init(), evs) &&
            Run(Init(), evs).sent == [Item("Three Jobless Freaks", "Flipkart", "Test GUID1")] &&
            Run(Init(), evs).reply == Some(None)
  {
    var evs := [Fetch(t, t, FetchResult(FakeResponse(Feed1), later, None), t), Send, Close];
    var s1 := AfterFetch(Init(), FetchResult(FakeResponse(Feed1), later, None), t);
    assert s1.pending == FakeResponse(Feed1);
    assert Admissible(AfterSend(s1), evs[2..]);
    assert Admissible(s1, evs[1..]);
    assert Run(AfterSend(s1), evs[2..]) == Outcome(AfterSend(s1), [], Some(None));
    assert Run(s1, evs[1..]).sent == [s1.pending[0]];
  }
}
