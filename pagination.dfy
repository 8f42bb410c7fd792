/**
 * The cursor-pagination loop shared (as four copies) by `listFiles`,
 * `listConferenceRecords`, `listRecordings` and `listTranscripts`: request a page
 * with the current token (absent at first), append its items if it has any, adopt
 * its `nextPageToken`, and stop after the first page whose token is falsy.
 *
 * Every page request goes through the retry executor: `scripts[k]` scripts the
 * attempts of the (k+1)-th page request and `jitters[k]` the jitter it draws.
 */
module Pagination {
  import opened Wrappers
  import opened Retry

  /** One listing response: the items field may be missing, the token absent or empty. */
  datatype Page<+T> = Page(items: Option<seq<T>>, nextPageToken: Option<string>)

  /** JavaScript truthiness of a token: `undefined` and "" are both falsy. */
  predicate IsTruthy(token: Option<string>) {
    token.Some? && token.value != ""
  }

  /** The items a response contributes: none for a failure or a page without the field. */
  function ItemsOf<T>(response: Outcome<Page<T>>): seq<T> {
    if response.Ok? && response.value.items.Some? then response.value.items.value else []
  }

  /** A response after which no further page is requested. */
  predicate EndsListing<T>(response: Outcome<Page<T>>) {
    response.Err? || !IsTruthy(response.value.nextPageToken)
  }

  /** The remote eventually ends the listing (or fails) within the scripted responses. */
  predicate Finishes<T>(responses: seq<Outcome<Page<T>>>) {
    exists k :: 0 <= k < |responses| && EndsListing(responses[k])
  }

  function LastRequestFrom<T>(responses: seq<Outcome<Page<T>>>, from: nat): (n: nat)
    requires exists k :: from <= k < |responses| && EndsListing(responses[k])
    ensures from <= n < |responses| && EndsListing(responses[n])
    ensures forall j :: from <= j < n ==> !EndsListing(responses[j])
    decreases |responses| - from
  {
    if EndsListing(responses[from]) then from else LastRequestFrom(responses, from + 1)
  }

  /** The index of the last page requested: the first response that ends the listing. */
  function LastRequest<T>(responses: seq<Outcome<Page<T>>>): (n: nat)
    requires Finishes(responses)
    ensures n < |responses| && EndsListing(responses[n])
    ensures forall j :: 0 <= j < n ==> !EndsListing(responses[j])
  {
    LastRequestFrom(responses, 0)
  }

  /** The items of the given responses, in response order, then in order within each page. */
  function Flatten<T>(responses: seq<Outcome<Page<T>>>): seq<T> {
    if responses == [] then [] else ItemsOf(responses[0]) + Flatten(responses[1..])
  }

  /** The number of items the given responses carry, page by page. */
  function TotalItems<T>(responses: seq<Outcome<Page<T>>>): nat {
    if responses == [] then 0 else |ItemsOf(responses[0])| + TotalItems(responses[1..])
  }

  /** The result of a listing: the first failure rethrown, or every page's items. */
  function Listing<T>(responses: seq<Outcome<Page<T>>>): Outcome<seq<T>>
    requires Finishes(responses)
  {
    var n := LastRequest(responses);
    if responses[n].Err? then Err(responses[n].failure) else Ok(Flatten(responses[..n + 1]))
  }

  /** Every page request has a script of attempts and jitters for the retry executor. */
  predicate Scripted<T>(scripts: seq<seq<Outcome<T>>>, jitters: seq<seq<nat>>) {
    |jitters| == |scripts| &&
    forall k :: 0 <= k < |scripts| ==> |scripts[k]| >= MaxAttempts && ValidJitters(jitters[k])
  }

  /** What each page request yields once it has gone through the retry executor. */
  function Settled<T>(scripts: seq<seq<Outcome<T>>>): (responses: seq<Outcome<T>>)
    requires forall k :: 0 <= k < |scripts| ==> |scripts[k]| >= MaxAttempts
    ensures |responses| == |scripts|
  {
    if scripts == [] then [] else [RetryOutcome(scripts[0])] + Settled(scripts[1..])
  }

  lemma {:induction false} SettledAt<T>(scripts: seq<seq<Outcome<T>>>, k: nat)
    requires forall j :: 0 <= j < |scripts| ==> |scripts[j]| >= MaxAttempts
    requires k < |scripts|
    ensures Settled(scripts)[k] == RetryOutcome(scripts[k])
  {
    if k > 0 {
      SettledAt(scripts[1..], k - 1);
    }
  }

  lemma {:induction false} FlattenAppend<T>(a: seq<Outcome<Page<T>>>, b: seq<Outcome<Page<T>>>)
    ensures Flatten(a + b) == Flatten(a) + Flatten(b)
  {
    if a == [] {
      assert a + b == b;
    } else {
      assert (a + b)[1..] == a[1..] + b;
      FlattenAppend(a[1..], b);
    }
  }

  lemma FlattenSnoc<T>(responses: seq<Outcome<Page<T>>>, i: nat)
    requires i < |responses|
    ensures Flatten(responses[..i + 1]) == Flatten(responses[..i]) + ItemsOf(responses[i])
  {
    FlattenAppend(responses[..i], [responses[i]]);
    assert responses[..i + 1] == responses[..i] + [responses[i]];
    assert Flatten([responses[i]]) == ItemsOf(responses[i]) + Flatten([]);
  }

  lemma LastIsFirstEnd<T>(responses: seq<Outcome<Page<T>>>, i: nat)
    requires Finishes(responses) && i <= LastRequest(responses) && EndsListing(responses[i])
    ensures i == LastRequest(responses)
  {
  }

  /**
   * The request log of a listing: the first request carries no token, and the
   * (k+2)-th carries the `nextPageToken` of the (k+1)-th response, which was truthy.
   */
  predicate TokensLogged<T>(requests: seq<Option<string>>, responses: seq<Outcome<Page<T>>>) {
    0 < |requests| <= |responses| + 1 && requests[0] == None &&
    forall k :: 0 <= k < |requests| - 1 ==>
      responses[k].Ok? && requests[k + 1] == responses[k].value.nextPageToken && IsTruthy(requests[k + 1])
  }

  lemma LogNextToken<T>(requests: seq<Option<string>>, responses: seq<Outcome<Page<T>>>, i: nat)
    requires TokensLogged(requests, responses) && |requests| == i
    requires i <= |responses| && responses[i - 1].Ok?
    requires IsTruthy(responses[i - 1].value.nextPageToken)
    ensures TokensLogged(requests + [responses[i - 1].value.nextPageToken], responses)
  {
  }

  /**
   * The paging loop: a `do ... while (pageToken)` that appends each page's items.
   * It returns the listing or rethrows the first page failure, and logs the token
   * each page request carried.
   */
  method CollectPages<T>(scripts: seq<seq<Outcome<Page<T>>>>, jitters: seq<seq<nat>>)
    returns (r: Outcome<seq<T>>, requests: seq<Option<string>>)
    requires Scripted(scripts, jitters)
    requires Finishes(Settled(scripts))
    ensures r == Listing(Settled(scripts))
    ensures |requests| == LastRequest(Settled(scripts)) + 1
    ensures TokensLogged(requests, Settled(scripts))
  {
    ghost var responses := Settled(scripts);
    ghost var last := LastRequest(responses);
    var all: seq<T> := [];
    var pageToken: Option<string> := None;
    var i := 0;
    requests := [];
    while true
      invariant i <= last
      invariant all == Flatten(responses[..i])
      invariant |requests| == i
      invariant i == 0 ==> pageToken == None
      invariant i > 0 ==> TokensLogged(requests, responses)
      invariant i > 0 ==> responses[i - 1].Ok? && pageToken == responses[i - 1].value.nextPageToken
      invariant i > 0 ==> IsTruthy(pageToken)
      decreases last - i
    {
      if i > 0 {
        LogNextToken(requests, responses, i);
      }
      requests := requests + [pageToken];
      var res, _, _ := ExecuteWithRetry(scripts[i], jitters[i]);
      SettledAt(scripts, i);
      if res.Err? {
        LastIsFirstEnd(responses, i);
        assert Listing(responses) == Err(responses[i].failure);
        return Err(res.failure), requests;
      }
      FlattenSnoc(responses, i);
      if res.value.items.Some? {
        all := all + res.value.items.value;
      }
      pageToken := res.value.nextPageToken;
      i := i + 1;
      if !IsTruthy(pageToken) {
        LastIsFirstEnd(responses, i - 1);
        assert Listing(responses) == Ok(Flatten(responses[..i]));
        assert all == Flatten(responses[..i]);
        break;
      }
    }
    r := Ok(all);
  }

  /** What a listing method returns: the listing of the settled responses and its request log. */
  ghost predicate ListingReturned<T>(scripts: seq<seq<Outcome<Page<T>>>>, r: Outcome<seq<T>>, requests: seq<Option<string>>)
    requires forall k :: 0 <= k < |scripts| ==> |scripts[k]| >= MaxAttempts
    requires Finishes(Settled(scripts))
  {
    r == Listing(Settled(scripts)) &&
    |requests| == LastRequest(Settled(scripts)) + 1 &&
    TokensLogged(requests, Settled(scripts))
  }

  /** The result is exactly as long as the sum of the page sizes: nothing is dropped or deduplicated. */
  lemma {:induction false} FlattenLength<T>(responses: seq<Outcome<Page<T>>>)
    ensures |Flatten(responses)| == TotalItems(responses)
  {
    if responses != [] {
      FlattenLength(responses[1..]);
    }
  }

  /** An item is in the result exactly when some page carries it. */
  lemma {:induction false} FlattenMembership<T>(responses: seq<Outcome<Page<T>>>, x: T)
    ensures x in Flatten(responses) <==> exists k :: 0 <= k < |responses| && x in ItemsOf(responses[k])
  {
    if responses != [] {
      FlattenMembership(responses[1..], x);
      if x in Flatten(responses[1..]) {
        var k :| 0 <= k < |responses[1..]| && x in ItemsOf(responses[1..][k]);
        assert x in ItemsOf(responses[k + 1]);
      }
      if exists k :: 0 <= k < |responses| && x in ItemsOf(responses[k]) {
        var k :| 0 <= k < |responses| && x in ItemsOf(responses[k]);
        if k > 0 {
          assert x in ItemsOf(responses[1..][k - 1]);
        }
      }
    }
  }

  /** A page without an items field contributes nothing, wherever it stands. */
  lemma ItemlessPageContributesNothing<T>(
    before: seq<Outcome<Page<T>>>, token: Option<string>, after: seq<Outcome<Page<T>>>)
    ensures Flatten(before + [Ok(Page(None, token))] + after) == Flatten(before + after)
  {
    FlattenAppend(before + [Ok(Page(None, token))], after);
    FlattenAppend(before, [Ok(Page(None, token))]);
    FlattenAppend(before, after);
  }

  /** Three pages of 1000, 1000 and 42 items, the last without a token: 2042 items. */
  lemma ThreePagesListing<T>(p1: seq<T>, p2: seq<T>, p3: seq<T>, t1: string, t2: string)
    requires |p1| == 1000 && |p2| == 1000 && |p3| == 42
    requires t1 != "" && t2 != ""
    ensures var responses := [Ok(Page(Some(p1), Some(t1))), Ok(Page(Some(p2), Some(t2))), Ok(Page(Some(p3), None))];
      Finishes(responses) &&
      Listing(responses) == Ok(p1 + p2 + p3) && |Listing(responses).value| == 2042
  {
    var responses := [Ok(Page(Some(p1), Some(t1))), Ok(Page(Some(p2), Some(t2))), Ok(Page(Some(p3), None))];
    assert EndsListing(responses[2]);
    assert LastRequest(responses) == 2;
    assert responses[..3] == responses;
    assert Flatten(responses[2..]) == p3 by {
      assert responses[2..][1..] == [];
      assert p3 + [] == p3;
    }
    assert Flatten(responses[1..]) == p2 + p3 by { assert responses[1..][1..] == responses[2..]; }
    assert Flatten(responses) == p1 + (p2 + p3);
    assert p1 + (p2 + p3) == p1 + p2 + p3;
  }
}
