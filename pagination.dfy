/**
 * The continuation-token loops of `_get_jobs`, `_get_pods`, `_cleanup_jobs`
 * and `_cleanup_pods`: one call without a token, then one call per truthy
 * `_continue` token, stopping at the first falsy one. The API server is
 * modelled by the replies it gives to successive calls.
 */
module Pagination {
  import opened Wrappers
  import opened Errors
  import opened Text
  import opened Chunking

  /** `metadata._continue` of a reply: absent (`None`) or a text. */
  type Token = Option<string>

  /** Python truthiness of a token: `None` and `''` are falsy. */
  predicate Truthy(c: Token) {
    c.Some? && c.value != ""
  }

  /** One call of a loop: the `limit` and the `_continue` argument (absent on the first call). */
  datatype Request = Request(limit: int, cont: Token)

  /** The server's answer to one call: a page, or an API error that raises. */
  datatype Reply<T> =
    | Page(items: seq<T>, cont: Token, resourceVersion: string)
    | Failure(status: int)

  /** What a list loop returns: all items and the last page's resource version. */
  datatype Listing<T> = Listing(items: seq<T>, resourceVersion: string)

  /** After this reply the loop makes no further call. */
  predicate Stops<T>(r: Reply<T>) {
    r.Failure? || !Truthy(r.cont)
  }

  /** The server ends the pagination within the replies given. */
  predicate Terminates<T>(replies: seq<Reply<T>>) {
    exists k :: 0 <= k < |replies| && Stops(replies[k])
  }

  /** Index of the reply to the loop's last call: the first stopping reply. */
  function LastCall<T>(replies: seq<Reply<T>>): (k: nat)
    requires Terminates(replies)
    ensures k < |replies| && Stops(replies[k])
    ensures forall j :: 0 <= j < k ==> !Stops(replies[j])
  {
    if Stops(replies[0]) then 0
    else
      assert Terminates(replies[1..]) by {
        var k :| 0 <= k < |replies| && Stops(replies[k]);
        assert Stops(replies[1..][k - 1]);
      }
      1 + LastCall(replies[1..])
  }

  lemma SentUpToNext<T>(limit: int, replies: seq<Reply<T>>, n: nat)
    requires 0 < n <= |replies|
    ensures SentUpTo(limit, replies, n + 1) == SentUpTo(limit, replies, n) + [Request(limit, TokenOf(replies[n - 1]))]
  {
  }

  function TokenOf<T>(r: Reply<T>): Token {
    if r.Page? then r.cont else None
  }

  /** The first `n` calls a loop makes against `replies`. */
  function SentUpTo<T>(limit: int, replies: seq<Reply<T>>, n: nat): (sent: seq<Request>)
    requires n <= |replies| + 1
    ensures |sent| == n
    ensures forall i :: 0 < i < n ==> sent[i].cont == TokenOf(replies[i - 1])
  {
    seq(n, i requires 0 <= i < n => Request(limit, if i == 0 then None else TokenOf(replies[i - 1])))
  }

  /**
   * All calls a loop makes: exactly one first call with no token, then one
   * per truthy token, each carrying the token of the previous reply.
   */
  function Sent<T>(limit: int, replies: seq<Reply<T>>): (sent: seq<Request>)
    requires Terminates(replies)
    ensures |sent| == LastCall(replies) + 1
    ensures sent[0] == Request(limit, None)
    ensures forall i :: 0 < i < |sent| ==> Truthy(sent[i].cont) && sent[i] == Request(limit, replies[i - 1].cont)
  {
    SentUpTo(limit, replies, LastCall(replies) + 1)
  }

  /** The items of the pages among `replies`, concatenated in arrival order. */
  function Collected<T>(replies: seq<Reply<T>>): seq<T> {
    if replies == [] then []
    else
      var last := replies[|replies| - 1];
      Collected(replies[..|replies| - 1]) + (if last.Page? then last.items else [])
  }

  lemma {:induction false} CollectedAppend<T>(a: seq<Reply<T>>, b: seq<Reply<T>>)
    ensures Collected(a + b) == Collected(a) + Collected(b)
    decreases |b|
  {
    if b == [] {
      assert a + b == a;
    } else {
      var b' := b[..|b| - 1];
      CollectedAppend(a, b');
      assert (a + b)[..|a + b| - 1] == a + b';
    }
  }

  /** What a list loop returns or raises. */
  function ListOutcome<T>(replies: seq<Reply<T>>): Result<Listing<T>, Exception>
    requires Terminates(replies)
  {
    var k := LastCall(replies);
    match replies[k]
    case Failure(status) => Err(ApiException(status))
    case Page(_, _, rv) => Ok(Listing(Collected(replies[..k + 1]), rv))
  }

  /** What a delete loop raises, if anything. */
  function DeleteOutcome<T>(replies: seq<Reply<T>>): Option<Exception>
    requires Terminates(replies)
  {
    var k := LastCall(replies);
    if replies[k].Failure? then Some(ApiException(replies[k].status)) else None
  }

  /** The list loop: follow tokens, extending the item list page by page. */
  method ListAll<T>(limit: int, replies: seq<Reply<T>>) returns (outcome: Result<Listing<T>, Exception>, sent: seq<Request>)
    requires Terminates(replies)
    ensures sent == Sent(limit, replies)
    ensures outcome == ListOutcome(replies)
  {
    sent := [Request(limit, None)];
    var result := replies[0];
    if result.Failure? {
      return Err(ApiException(result.status)), sent;
    }
    var c := result.cont;
    var items := result.items;
    var k := 0;
    assert replies[..1] == [replies[0]];
    while Truthy(c)
      invariant k <= LastCall(replies)
      invariant result == replies[k] && result.Page? && c == result.cont
      invariant sent == SentUpTo(limit, replies, k + 1)
      invariant items == Collected(replies[..k + 1])
      decreases LastCall(replies) - k
    {
      SentUpToNext(limit, replies, k + 1);
      k := k + 1;
      sent := sent + [Request(limit, c)];
      result := replies[k];
      if result.Failure? {
        return Err(ApiException(result.status)), sent;
      }
      c := result.cont;
      assert replies[..k + 1][..k] == replies[..k];
      items := items + result.items;
    }
    outcome := Ok(Listing(items, result.resourceVersion));
  }

  /** The delete loop: the same token following, discarding what each call returns. */
  method DeleteAll<T>(limit: int, replies: seq<Reply<T>>) returns (raised: Option<Exception>, sent: seq<Request>)
    requires Terminates(replies)
    ensures sent == Sent(limit, replies)
    ensures raised == DeleteOutcome(replies)
  {
    sent := [Request(limit, None)];
    var result := replies[0];
    if result.Failure? {
      return Some(ApiException(result.status)), sent;
    }
    var c := result.cont;
    var k := 0;
    while Truthy(c)
      invariant k <= LastCall(replies)
      invariant result == replies[k] && result.Page? && c == result.cont
      invariant sent == SentUpTo(limit, replies, k + 1)
      decreases LastCall(replies) - k
    {
      SentUpToNext(limit, replies, k + 1);
      k := k + 1;
      sent := sent + [Request(limit, c)];
      result := replies[k];
      if result.Failure? {
        return Some(ApiException(result.status)), sent;
      }
      c := result.cont;
    }
    raised := None;
  }

  /**
   * A server holding a collection answers with its consecutive chunks, a
   * non-empty token on every page but the last, and its resource version;
   * an empty collection is one empty page.
   */
  function Served<T>(chunks: seq<seq<T>>, rv: string): (replies: seq<Reply<T>>)
    ensures |replies| == if chunks == [] then 1 else |chunks|
  {
    if |chunks| <= 1 then [Page(if chunks == [] then [] else chunks[0], None, rv)]
    else [Page(chunks[0], Some(NatToString(|chunks| - 1)), rv)] + Served(chunks[1..], rv)
  }

  /** Every page the server gives but the last carries a truthy token. */
  lemma {:induction false} ServedStops<T>(chunks: seq<seq<T>>, rv: string)
    ensures Stops(Served(chunks, rv)[|Served(chunks, rv)| - 1])
    ensures forall j :: 0 <= j < |Served(chunks, rv)| - 1 ==> !Stops(Served(chunks, rv)[j])
  {
    if |chunks| > 1 {
      var r := Served(chunks, rv);
      ServedStops(chunks[1..], rv);
      assert r == [r[0]] + Served(chunks[1..], rv);
      forall j | 0 < j < |r| - 1 ensures !Stops(r[j]) {
        assert r[j] == Served(chunks[1..], rv)[j - 1];
      }
    }
  }

  lemma ServedLastCall<T>(chunks: seq<seq<T>>, rv: string)
    ensures Terminates(Served(chunks, rv))
    ensures LastCall(Served(chunks, rv)) == |Served(chunks, rv)| - 1
  {
    var r := Served(chunks, rv);
    ServedStops(chunks, rv);
    assert Stops(r[|r| - 1]);
  }

  lemma {:induction false} ServedCollected<T>(chunks: seq<seq<T>>, rv: string)
    ensures Collected(Served(chunks, rv)) == Flatten(chunks)
  {
    var r := Served(chunks, rv);
    if |chunks| <= 1 {
      assert r[..0] == [];
      assert Collected(r) == Collected(r[..0]) + Flatten(chunks);
    } else {
      ServedCollected(chunks[1..], rv);
      assert r == [r[0]] + Served(chunks[1..], rv);
      CollectedAppend([r[0]], Served(chunks[1..], rv));
      assert [r[0]][..0] == [];
      assert Collected([r[0]]) == chunks[0];
    }
  }

  /**
   * Pagination completeness: listing a collection of `N` items served in
   * pages of at most `limit` returns exactly those items, in server order,
   * with the resource version of the last page, after ceil(N / limit) calls
   * (one call when the collection is empty).
   */
  lemma ListingIsComplete<T>(all: seq<T>, limit: nat, rv: string)
    requires limit > 0
    ensures Terminates(Served(Chunks(all, limit), rv))
    ensures ListOutcome(Served(Chunks(all, limit), rv)) == Ok(Listing(all, rv))
    ensures |Sent(limit, Served(Chunks(all, limit), rv))| == if all == [] then 1 else (|all| + limit - 1) / limit
  {
    var chunks := Chunks(all, limit);
    var r := Served(chunks, rv);
    ServedLastCall(chunks, rv);
    ServedCollected(chunks, rv);
    FlattenChunks(all, limit);
    assert r[..LastCall(r) + 1] == r;
    if all != [] {
      assert |chunks| > 0;
    }
  }
}
