/**
 * Fetching and merging for one poll cycle: every planned query is sent to the
 * catalog client, all answers are awaited together, and the answered asset
 * lists are concatenated in query order.
 *
 * The catalog client is a parameter `fetch` that maps a query to its
 * already-resolved response; awaiting the responses concurrently is not
 * modelled, only its outcome: every response, or a rejection.
 */
module Fetch {

  import opened Wrappers
  import opened Queries

  /** An asset record of the catalog; only its `id` matters here, the rest of
      the record is carried along unread. */
  datatype Asset = Asset(id: int, record: string)

  /** What the catalog client answers to one query. */
  datatype Response = Assets(assets: seq<Asset>) | Rejected

  /** The outcome of awaiting all requests together: the responses in query
      order, or nothing when any request was rejected. */
  function Fetched(queries: seq<Query>, fetch: Query -> Response): Option<seq<seq<Asset>>>
  {
    if exists i :: 0 <= i < |queries| && fetch(queries[i]).Rejected? then None
    else Some(seq(|queries|, i requires 0 <= i < |queries| => fetch(queries[i]).assets))
  }

  /** The responses concatenated in order. */
  function Flatten(responses: seq<seq<Asset>>): seq<Asset>
  {
    if |responses| == 0 then []
    else Flatten(responses[..|responses| - 1]) + responses[|responses| - 1]
  }

  /** The sum of the response lengths. */
  function TotalLength(responses: seq<seq<Asset>>): nat
  {
    if |responses| == 0 then 0
    else TotalLength(responses[..|responses| - 1]) + |responses[|responses| - 1]|
  }

  /** Reducing the responses by concatenation without a starting value: there
      is nothing to reduce when no query was planned. */
  function Merged(responses: seq<seq<Asset>>): Option<seq<Asset>>
  {
    if |responses| == 0 then None else Some(Flatten(responses))
  }

  /** The merged list is as long as all responses together. */
  lemma {:induction false} FlattenLength(responses: seq<seq<Asset>>)
    ensures |Flatten(responses)| == TotalLength(responses)
  {
    if |responses| > 0 {
      FlattenLength(responses[..|responses| - 1]);
    }
  }

  /** Merging keeps query order: the merge of two runs of responses is the
      merge of the first followed by the merge of the second. */
  lemma {:induction false} FlattenAppend(xs: seq<seq<Asset>>, ys: seq<seq<Asset>>)
    ensures Flatten(xs + ys) == Flatten(xs) + Flatten(ys)
  {
    if |ys| == 0 {
      assert xs + ys == xs;
    } else {
      assert (xs + ys)[..|xs + ys| - 1] == xs + ys[..|ys| - 1];
      FlattenAppend(xs, ys[..|ys| - 1]);
    }
  }

  /** An asset is in the merged list exactly when some response holds it. */
  lemma {:induction false} FlattenMembership(responses: seq<seq<Asset>>, a: Asset)
    ensures a in Flatten(responses) <==> exists i :: 0 <= i < |responses| && a in responses[i]
  {
    if |responses| > 0 {
      var init := responses[..|responses| - 1];
      FlattenMembership(init, a);
      if a in Flatten(responses) && a !in responses[|responses| - 1] {
        var i :| 0 <= i < |init| && a in init[i];
        assert a in responses[i];
      }
      if !(a in Flatten(init)) && a !in responses[|responses| - 1] {
        forall i | 0 <= i < |responses| ensures a !in responses[i] {
          if i < |init| {
            assert init[i] == responses[i];
          }
        }
      }
    }
  }

  /** Issues one request per query and awaits them all: every response in
      query order, or nothing when any request was rejected. */
  method FetchAll(queries: seq<Query>, fetch: Query -> Response) returns (responses: Option<seq<seq<Asset>>>)
    ensures responses.None? <==> exists i :: 0 <= i < |queries| && fetch(queries[i]).Rejected?
    ensures responses.Some? ==>
      |responses.value| == |queries| &&
      forall i :: 0 <= i < |queries| ==> fetch(queries[i]) == Assets(responses.value[i])
    ensures responses == Fetched(queries, fetch)
  {
    var answers := [];
    for i := 0 to |queries|
      invariant |answers| == i
      invariant forall j :: 0 <= j < i ==> fetch(queries[j]) == Assets(answers[j])
    {
      var response := fetch(queries[i]);
      if response.Rejected? {
        return None;
      }
      answers := answers + [response.assets];
    }
    assert answers == seq(|queries|, i requires 0 <= i < |queries| => fetch(queries[i]).assets);
    responses := Some(answers);
  }

  /** Reduces the responses by concatenation, starting from the first one. */
  method MergeResponses(responses: seq<seq<Asset>>) returns (merged: Option<seq<Asset>>)
    ensures merged == Merged(responses)
  {
    if |responses| == 0 {
      return None;
    }
    var assets := responses[0];
    assert responses[..1] == [responses[0]];
    for i := 1 to |responses|
      invariant assets == Flatten(responses[..i])
    {
      assert responses[..i + 1][..i] == responses[..i];
      assets := assets + responses[i];
    }
    assert responses[..|responses|] == responses;
    merged := Some(assets);
  }
}
