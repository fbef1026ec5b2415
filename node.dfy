/**
 * The mxd-new-assets node: on every tick it plans the catalog queries from
 * its `content` and `area` settings, fetches and merges their answers, and
 * sends the assets whose ids were not seen in the last successful tick.
 *
 * The host runtime (reading the settings, scheduling ticks, setting the
 * status, delivering messages) is outside the model: the settings are the
 * node's constant fields, the catalog client is the `fetch` parameter of a
 * tick, and what the tick reports or sends is its `Outcome`.
 */
module Node {

  import opened Wrappers
  import opened Queries
  import opened Fetch
  import opened Novelty

  /** One tick as a function of the seen ids before it: its outcome and the
      seen ids after it. */
  function Cycle(seen: set<int>, content: string, area: string, fetch: Query -> Response): (t: Transition)
    ensures t.outcome.Failed? ==> t.seen == seen
    ensures !t.outcome.Failed? ==> t.seen != {}
    ensures seen == {} ==> !t.outcome.Sent?
    ensures t.outcome == Failed(FetchRejected) <==>
      exists i :: 0 <= i < |Plan(content, area)| && fetch(Plan(content, area)[i]).Rejected?
    ensures t.outcome == Failed(NoResponses) <==> |Plan(content, area)| == 0
  {
    match Fetched(Plan(content, area), fetch)
    case None => Transition(Failed(FetchRejected), seen)
    case Some(responses) =>
      match Merged(responses)
      case None => Transition(Failed(NoResponses), seen)
      case Some(assets) =>
        if |assets| == 0 then Transition(Failed(NoAssets), seen)
        else Observe(seen, assets)
  }

  /** The query was answered, and its answer holds the asset. */
  ghost predicate Answered(fetch: Query -> Response, q: Query, a: Asset)
  {
    fetch(q).Assets? && a in fetch(q).assets
  }

  /** An asset of this tick: one that some planned query answered. */
  ghost predicate Fetches(content: string, area: string, fetch: Query -> Response, a: Asset)
  {
    exists i :: 0 <= i < |Plan(content, area)| && Answered(fetch, Plan(content, area)[i], a)
  }

  /** When every request succeeds, the merged assets are exactly those the
      queries answered. */
  lemma MergedAssets(content: string, area: string, fetch: Query -> Response)
    requires |Plan(content, area)| > 0
    requires forall i :: 0 <= i < |Plan(content, area)| ==> fetch(Plan(content, area)[i]).Assets?
    ensures Fetched(Plan(content, area), fetch).Some?
    ensures var responses := Fetched(Plan(content, area), fetch).value;
      && Merged(responses).Some?
      && forall a :: a in Merged(responses).value <==> Fetches(content, area, fetch, a)
  {
    var qs := Plan(content, area);
    var responses := Fetched(qs, fetch).value;
    forall a ensures a in Flatten(responses) <==> Fetches(content, area, fetch, a) {
      FlattenMembership(responses, a);
      if a in Flatten(responses) {
        var i :| 0 <= i < |responses| && a in responses[i];
        assert Answered(fetch, qs[i], a);
      }
      if Fetches(content, area, fetch, a) {
        var i :| 0 <= i < |qs| && Answered(fetch, qs[i], a);
        assert a in responses[i];
      }
    }
  }

  /** A tick whose requests all succeed but answer no asset fails, and so
      leaves the seen ids as they were. */
  lemma EmptyResultFails(seen: set<int>, content: string, area: string, fetch: Query -> Response)
    requires |Plan(content, area)| > 0
    requires forall i :: 0 <= i < |Plan(content, area)| ==> fetch(Plan(content, area)[i]) == Assets([])
    ensures Cycle(seen, content, area, fetch) == Transition(Failed(NoAssets), seen)
  {
    MergedAssets(content, area, fetch);
    var merged := Merged(Fetched(Plan(content, area), fetch).value).value;
    assert forall a :: a !in merged;
  }

  /** A tick fails for want of assets exactly when queries were planned and
      every one of them was answered with an empty list; in particular a tick
      whose requests all succeed with at least one asset does not fail. */
  lemma NoAssetsExactlyWhenAllEmpty(seen: set<int>, content: string, area: string, fetch: Query -> Response)
    ensures Cycle(seen, content, area, fetch).outcome == Failed(NoAssets) <==>
      |Plan(content, area)| > 0 &&
      forall i :: 0 <= i < |Plan(content, area)| ==> fetch(Plan(content, area)[i]) == Assets([])
  {
    var qs := Plan(content, area);
    if Cycle(seen, content, area, fetch).outcome == Failed(NoAssets) {
      assert |qs| > 0;
      assert forall i :: 0 <= i < |qs| ==> fetch(qs[i]).Assets?;
      MergedAssets(content, area, fetch);
      var merged := Merged(Fetched(qs, fetch).value).value;
      assert merged == [];
      assert forall a :: !Fetches(content, area, fetch, a);
      forall i | 0 <= i < |qs| ensures fetch(qs[i]) == Assets([]) {
        if fetch(qs[i]).assets != [] {
          assert Fetches(content, area, fetch, fetch(qs[i]).assets[0]);
          assert false;
        }
      }
    }
    if |qs| > 0 && forall i :: 0 <= i < |qs| ==> fetch(qs[i]) == Assets([]) {
      EmptyResultFails(seen, content, area, fetch);
    }
  }

  /** After a successful tick the seen ids are exactly the ids this tick
      fetched: ids of earlier ticks are not kept. */
  lemma SuccessReplacesSeen(seen: set<int>, content: string, area: string, fetch: Query -> Response, x: int)
    requires !Cycle(seen, content, area, fetch).outcome.Failed?
    ensures x in Cycle(seen, content, area, fetch).seen <==>
      exists a :: Fetches(content, area, fetch, a) && a.id == x
  {
    MergedAssets(content, area, fetch);
    var merged := Merged(Fetched(Plan(content, area), fetch).value).value;
    if exists a :: Fetches(content, area, fetch, a) && a.id == x {
      var a :| Fetches(content, area, fetch, a) && a.id == x;
      var i :| 0 <= i < |merged| && merged[i] == a;
    }
  }

  /** After a tick that is not the first run, an asset is sent exactly when
      this tick fetched it and its id was not seen before the tick. */
  lemma SuccessSendsExactlyNew(seen: set<int>, content: string, area: string, fetch: Query -> Response, a: Asset)
    requires seen != {}
    requires !Cycle(seen, content, area, fetch).outcome.Failed?
    ensures var t := Cycle(seen, content, area, fetch);
      t.outcome.Sent? && a in t.outcome.payload <==> Fetches(content, area, fetch, a) && a.id !in seen
  {
    MergedAssets(content, area, fetch);
    var merged := Merged(Fetched(Plan(content, area), fetch).value).value;
    if Fetches(content, area, fetch, a) && a.id !in seen {
      var i :| 0 <= i < |merged| && merged[i] == a;
    }
  }

  /** An id that one successful tick did not fetch is reported again when a
      later successful tick fetches it. */
  lemma DroppedIdIsReportedAgain(seen: set<int>, content: string, area: string,
                                 first: Query -> Response, second: Query -> Response, a: Asset)
    requires !Cycle(seen, content, area, first).outcome.Failed?
    requires a.id !in Cycle(seen, content, area, first).seen
    requires forall i :: 0 <= i < |Plan(content, area)| ==> second(Plan(content, area)[i]).Assets?
    requires Fetches(content, area, second, a)
    ensures var t := Cycle(Cycle(seen, content, area, first).seen, content, area, second);
      t.outcome.Sent? && a in t.outcome.payload
  {
    MergedAssets(content, area, second);
    var merged := Merged(Fetched(Plan(content, area), second).value).value;
    assert a in merged;
  }

  /** The node: its settings, fixed when it is created, and the ids seen in the
      last successful tick, which persist from tick to tick. */
  class NewAssetsNode {
    const content: string
    const area: string
    var lastRunAssets: set<int>

    constructor (content: string, area: string)
      ensures this.content == content && this.area == area
      ensures lastRunAssets == {}
    {
      this.content := content;
      this.area := area;
      lastRunAssets := {};
    }

    /** One tick: plan, fetch, merge, classify, replace the seen ids, and
        report what is to be sent. A failed tick changes nothing. */
    method Tick(fetch: Query -> Response) returns (outcome: Outcome)
      modifies this
      ensures Transition(outcome, lastRunAssets) == Cycle(old(lastRunAssets), content, area, fetch)
      ensures outcome.Failed? ==> lastRunAssets == old(lastRunAssets)
      ensures !outcome.Failed? ==> lastRunAssets != {}
    {
      var queries := BuildQueries(content, area);
      var responses := FetchAll(queries, fetch);
      if responses.None? {
        return Failed(FetchRejected);
      }
      var merged := MergeResponses(responses.value);
      if merged.None? {
        return Failed(NoResponses);
      }
      var assets := merged.value;
      if |assets| == 0 {
        return Failed(NoAssets);
      }
      var newAssets, currentRunAssets := Scan(lastRunAssets, assets);
      lastRunAssets := currentRunAssets;
      outcome := if |newAssets| > 0 then Sent(newAssets) else Silent;
    }
  }
}
