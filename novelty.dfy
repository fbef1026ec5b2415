/**
 * The novelty tracker of the mxd-new-assets node: which of this cycle's
 * assets are new against the ids seen in the last successful cycle, and what
 * the seen ids become.
 *
 * The JavaScript keeps the new assets in a Set of record objects. Every
 * fetched record is a distinct object, so that Set never merges two records,
 * and it hands them on in insertion order: it is modelled as a sequence.
 */
module Novelty {

  import opened Fetch

  /** Why a tick ends without classifying anything. */
  datatype TickError =
    | FetchRejected   // a catalog request was rejected
    | NoResponses     // no query was planned, so there is nothing to reduce
    | NoAssets        // the merged responses hold no asset

  /** What a tick reports: a failure, a success with nothing to send, or the
      message sent with the new assets. */
  datatype Outcome = Failed(error: TickError) | Silent | Sent(payload: seq<Asset>)

  /** A tick's outcome together with the seen ids it leaves behind. */
  datatype Transition = Transition(outcome: Outcome, seen: set<int>)

  /** The ids of a list of assets. */
  function Ids(assets: seq<Asset>): set<int>
  {
    if |assets| == 0 then {}
    else Ids(assets[..|assets| - 1]) + {assets[|assets| - 1].id}
  }

  /** The assets, in order, whose id is not among `seen`. */
  function Fresh(seen: set<int>, assets: seq<Asset>): seq<Asset>
  {
    if |assets| == 0 then []
    else
      var last := assets[|assets| - 1];
      Fresh(seen, assets[..|assets| - 1]) + (if last.id in seen then [] else [last])
  }

  /** The assets reported as new: none on the first run, when nothing has been
      seen yet, and otherwise those whose id was not seen. */
  function NewAssets(seen: set<int>, assets: seq<Asset>): seq<Asset>
  {
    if |seen| == 0 then [] else Fresh(seen, assets)
  }

  /** An id is among the ids exactly when some asset carries it. */
  lemma {:induction false} IdsMembership(assets: seq<Asset>, x: int)
    ensures x in Ids(assets) <==> exists i :: 0 <= i < |assets| && assets[i].id == x
  {
    if |assets| > 0 {
      var init := assets[..|assets| - 1];
      IdsMembership(init, x);
      if x in Ids(init) {
        var i :| 0 <= i < |init| && init[i].id == x;
        assert assets[i].id == x;
      }
      if exists i :: 0 <= i < |assets| && assets[i].id == x {
        var i :| 0 <= i < |assets| && assets[i].id == x;
        if i < |init| {
          assert init[i].id == x;
        }
      }
    }
  }

  /** An asset is fresh exactly when it is one of the assets and its id was
      not seen. */
  lemma {:induction false} FreshMembership(seen: set<int>, assets: seq<Asset>, a: Asset)
    ensures a in Fresh(seen, assets) <==> a in assets && a.id !in seen
  {
    if |assets| > 0 {
      var init := assets[..|assets| - 1];
      FreshMembership(seen, init, a);
      assert assets == init + [assets[|assets| - 1]];
    }
  }

  /** The fresh assets keep the order of the assets: those of an earlier run
      of assets come before those of a later one. */
  lemma {:induction false} FreshAppend(seen: set<int>, xs: seq<Asset>, ys: seq<Asset>)
    ensures Fresh(seen, xs + ys) == Fresh(seen, xs) + Fresh(seen, ys)
  {
    if |ys| == 0 {
      assert xs + ys == xs;
    } else {
      assert (xs + ys)[..|xs + ys| - 1] == xs + ys[..|ys| - 1];
      FreshAppend(seen, xs, ys[..|ys| - 1]);
    }
  }

  /** The novelty step of a successful tick: classify this cycle's assets
      against the old seen ids, then replace the seen ids by this cycle's. */
  function Observe(seen: set<int>, assets: seq<Asset>): (t: Transition)
    ensures t.seen == Ids(assets)
    ensures forall x :: x in t.seen <==> exists i :: 0 <= i < |assets| && assets[i].id == x
    ensures |assets| > 0 ==> t.seen != {}
    ensures !t.outcome.Failed?
    ensures seen == {} ==> t.outcome == Silent
    ensures seen != {} ==>
      (t.outcome.Sent? <==> exists i :: 0 <= i < |assets| && assets[i].id !in seen)
    ensures t.outcome.Sent? ==>
      forall a :: a in t.outcome.payload <==> a in assets && a.id !in seen
  {
    assert forall x :: x in Ids(assets) <==> exists i :: 0 <= i < |assets| && assets[i].id == x by {
      forall x { IdsMembership(assets, x); }
    }
    assert forall a :: a in Fresh(seen, assets) <==> a in assets && a.id !in seen by {
      forall a { FreshMembership(seen, assets, a); }
    }
    assert seen != {} && (exists i :: 0 <= i < |assets| && assets[i].id !in seen) ==>
      |Fresh(seen, assets)| > 0 by {
      if seen != {} && exists i :: 0 <= i < |assets| && assets[i].id !in seen {
        var i :| 0 <= i < |assets| && assets[i].id !in seen;
        assert assets[i] in Fresh(seen, assets);
      }
    }
    assert |Fresh(seen, assets)| > 0 ==> exists i :: 0 <= i < |assets| && assets[i].id !in seen by {
      if |Fresh(seen, assets)| > 0 {
        var a := Fresh(seen, assets)[0];
        assert a in Fresh(seen, assets);
        var i :| 0 <= i < |assets| && assets[i] == a;
      }
    }
    var found := NewAssets(seen, assets);
    Transition(if |found| > 0 then Sent(found) else Silent, Ids(assets))
  }

  /** The classification loop of a tick: whether this is the first run is
      decided once, before the loop, from the old seen ids, which the loop
      only reads; every asset's id is collected for the next cycle. */
  method Scan(seen: set<int>, assets: seq<Asset>) returns (newAssets: seq<Asset>, current: set<int>)
    ensures newAssets == NewAssets(seen, assets)
    ensures current == Ids(assets)
  {
    var firstRun := false;
    if |seen| == 0 {
      firstRun := true;
    }
    current := {};
    newAssets := [];
    for i := 0 to |assets|
      invariant current == Ids(assets[..i])
      invariant newAssets == if firstRun then [] else Fresh(seen, assets[..i])
    {
      assert assets[..i + 1][..i] == assets[..i];
      if !firstRun && assets[i].id !in seen {
        newAssets := newAssets + [assets[i]];
      }
      current := current + {assets[i].id};
    }
    assert assets[..|assets|] == assets;
  }

  /** An id missing from one successful cycle is new again when it shows up in
      a later one, even if it was seen before: the seen ids are replaced, not
      accumulated. */
  lemma DroppedIdIsNewAgain(seen: set<int>, earlier: seq<Asset>, later: seq<Asset>, a: Asset)
    requires |earlier| > 0
    requires forall i :: 0 <= i < |earlier| ==> earlier[i].id != a.id
    requires a in later
    ensures var t := Observe(Observe(seen, earlier).seen, later);
      t.outcome.Sent? && a in t.outcome.payload
  {
  }

  /** The three consecutive cycles of the delisting example: with ids {1, 2}
      seen, fetching 1, 2, 3 reports 3 alone; fetching 2, 3 next reports
      nothing and forgets 1; fetching 1, 2 after that reports 1 again. */
  lemma RelistingScenario(r1: string, r2: string, r3: string)
    ensures var a1, a2, a3 := Asset(1, r1), Asset(2, r2), Asset(3, r3);
      var t1 := Observe({1, 2}, [a1, a2, a3]);
      var t2 := Observe(t1.seen, [a2, a3]);
      var t3 := Observe(t2.seen, [a1, a2]);
      && t1 == Transition(Sent([a3]), {1, 2, 3})
      && t2 == Transition(Silent, {2, 3})
      && t3 == Transition(Sent([a1]), {1, 2})
  {
    var a1, a2, a3 := Asset(1, r1), Asset(2, r2), Asset(3, r3);
    ScenarioIds(a1, a2, a3);
    ScenarioFresh(a1, a2, a3);
  }

  /** The ids of the example's three fetches. */
  lemma ScenarioIds(a1: Asset, a2: Asset, a3: Asset)
    requires a1.id == 1 && a2.id == 2 && a3.id == 3
    ensures Ids([a1, a2, a3]) == {1, 2, 3}
    ensures Ids([a2, a3]) == {2, 3}
    ensures Ids([a1, a2]) == {1, 2}
  {
    assert [a1, a2, a3][..2] == [a1, a2];
    assert [a1, a2][..1] == [a1] && [a2, a3][..1] == [a2];
    assert [a1][..0] == [] && [a2][..0] == [];
    assert Ids([a1]) == {1} && Ids([a2]) == {2};
    assert Ids([a1, a2]) == {1, 2};
  }

  /** The fresh assets of the example's three fetches. */
  lemma ScenarioFresh(a1: Asset, a2: Asset, a3: Asset)
    requires a1.id == 1 && a2.id == 2 && a3.id == 3
    ensures Fresh({1, 2}, [a1, a2, a3]) == [a3]
    ensures Fresh({1, 2, 3}, [a2, a3]) == []
    ensures Fresh({2, 3}, [a1, a2]) == [a1]
  {
    assert [a1, a2, a3][..2] == [a1, a2];
    assert [a1, a2][..1] == [a1] && [a2, a3][..1] == [a2];
    assert [a1][..0] == [] && [a2][..0] == [];
    assert Fresh({1, 2}, [a1]) == [];
    assert Fresh({1, 2}, [a1, a2]) == [];
    assert Fresh({1, 2, 3}, [a2]) == [];
    assert Fresh({2, 3}, [a1]) == [a1];
  }
}
