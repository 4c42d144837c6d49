/**
 * The `fetch-recommendations` edge function: the caller's three most ordered
 * items when they have any order history, otherwise the three best sellers,
 * keeping only available menu items and, on the fallback path, dropping
 * repeated menu items.
 */
module Recommendations {
  import opened Wrappers
  import opened Seqs
  import opened Sorting
  import opened Grouping
  import opened AnalyticsData

  /** The joined `menu_items` row; its other columns are copied through unchanged. */
  datatype MenuEntry = MenuEntry(id: int, name: string, price: real, isAvailable: bool, outletId: int)

  /** A row of `order_statistics`: whose orders, at which outlet, how often, and the joined item. */
  datatype StatRow = StatRow(userId: string, outletId: int, orderCount: int, item: Option<MenuEntry>)

  /** `recommendation_type`. */
  datatype Kind = UserFavorite | Popular

  /** A recommended item: the menu item spread with `order_count` and `recommendation_type`. */
  datatype Recommendation = Recommendation(item: MenuEntry, orderCount: int, kind: Kind)

  /** The body: `type: 'user_favorites'` or `type: 'popular_items'` with the list. */
  datatype Outcome = Favorites(recs: seq<Recommendation>) | PopularItems(recs: seq<Recommendation>)

  /** `.limit(3)` on both queries. */
  const QueryLimit: nat := 3

  /** `if (outlet_id) query = query.eq('outlet_id', outlet_id)`. */
  function InOutlet(outletId: Option<int>): StatRow -> bool
  {
    (s: StatRow) => !Truthy(outletId) || s.outletId == outletId.value
  }

  /** `.eq('user_id', user.id)` together with the outlet filter. */
  function OfUserIn(userId: string, outletId: Option<int>): StatRow -> bool
  {
    (s: StatRow) => s.userId == userId && InOutlet(outletId)(s)
  }

  /** `.order('order_count', { ascending: false })`. */
  function ByOrderCountDesc(): StatRow -> int
  {
    (s: StatRow) => -s.orderCount
  }

  /** The rows a query returns: the matching rows, most ordered first, at most three. */
  function Query(stats: seq<StatRow>, p: StatRow -> bool): (r: seq<StatRow>)
    ensures |r| <= QueryLimit
    ensures forall s :: s in r ==> s in stats && p(s)
  {
    var matching := Filter(stats, p);
    var sorted := SortBy(matching, ByOrderCountDesc());
    SameElements(sorted, matching);
    Take(sorted, QueryLimit)
  }

  /** The selector `stat => stat.menu_items && stat.menu_items.is_available`. */
  function Available(): StatRow -> bool
  {
    (s: StatRow) => s.item.Some? && s.item.value.isAvailable
  }

  /** `.map(stat => ({ ...stat.menu_items, order_count, recommendation_type }))` over rows with an item. */
  function Tagged(rows: seq<StatRow>, kind: Kind): (r: seq<Recommendation>)
    requires forall s :: s in rows ==> s.item.Some?
    ensures |r| == |rows|
    ensures forall i :: 0 <= i < |r| ==> r[i] == Recommendation(rows[i].item.value, rows[i].orderCount, kind)
  {
    seq(|rows|, i requires 0 <= i < |rows| => Recommendation(rows[i].item.value, rows[i].orderCount, kind))
  }

  /** The available items of some rows, tagged. */
  function AvailableTagged(rows: seq<StatRow>, kind: Kind): (r: seq<Recommendation>)
    ensures |r| <= |rows|
    ensures forall x :: x in r ==> x.item.isAvailable && x.kind == kind
    ensures forall x :: x in r ==> exists s :: s in rows && s.item == Some(x.item) && s.orderCount == x.orderCount
  {
    var kept := Filter(rows, Available());
    var r := Tagged(kept, kind);
    forall x | x in r ensures exists s :: s in rows && s.item == Some(x.item) && s.orderCount == x.orderCount {
      var i :| 0 <= i < |r| && r[i] == x;
      assert kept[i] in kept;
    }
    r
  }

  /** The key of the `seen` set: the menu item's id. */
  function IdOf(): Recommendation -> int
  {
    (r: Recommendation) => r.item.id
  }

  /**
   * The de-duplicating filter: a `seen` set of ids, each item kept only when
   * its id has not been seen, and its id then added.
   */
  method DropSeen(recs: seq<Recommendation>) returns (kept: seq<Recommendation>)
    ensures kept == KeepFirstBy(recs, IdOf())
  {
    var seen: set<int> := {};
    kept := [];
    for i := 0 to |recs|
      invariant kept == KeepFirstBy(recs[..i], IdOf())
      invariant seen == KeysOf(kept, IdOf())
    {
      assert recs[..i + 1][..i] == recs[..i];
      var id := recs[i].item.id;
      if id !in seen {
        KeysOfSnoc(kept, recs[i], IdOf());
        seen := seen + {id};
        kept := kept + [recs[i]];
      }
    }
    assert recs[..|recs|] == recs;
  }

  /**
   * The response: 401 without a user, 500 when the body does not parse
   * (`request` is `None`) or a query fails; the favourites whenever the
   * caller's query returns a row, else the de-duplicated best sellers.
   */
  function Recommend(
    user: Option<string>, authFails: bool, request: Option<Option<int>>,
    stats: seq<StatRow>, userFails: bool, outletFails: bool): Response<Outcome>
  {
    if authFails || user.None? then Fail(401)
    else if request.None? || userFails then Fail(500)
    else
      var mine := Query(stats, OfUserIn(user.value, request.value));
      if |mine| > 0 then Ok(Favorites(AvailableTagged(mine, UserFavorite)))
      else if outletFails then Fail(500)
      else Ok(PopularItems(KeepFirstBy(AvailableTagged(Query(stats, InOutlet(request.value)), Popular), IdOf())))
  }

  /** The handler: the two queries, then the filter with the `seen` set. */
  method Handle(
    user: Option<string>, authFails: bool, request: Option<Option<int>>,
    stats: seq<StatRow>, userFails: bool, outletFails: bool) returns (resp: Response<Outcome>)
    ensures resp == Recommend(user, authFails, request, stats, userFails, outletFails)
  {
    if authFails || user.None? {
      return Fail(401);
    }
    if request.None? || userFails {
      return Fail(500);
    }
    var mine := Query(stats, OfUserIn(user.value, request.value));
    if |mine| > 0 {
      return Ok(Favorites(AvailableTagged(mine, UserFavorite)));
    }
    if outletFails {
      return Fail(500);
    }
    var recs := DropSeen(AvailableTagged(Query(stats, InOutlet(request.value)), Popular));
    resp := Ok(PopularItems(recs));
  }

  /** Without a user the answer is 401, before anything is read. */
  lemma SignedInOnly(request: Option<Option<int>>, stats: seq<StatRow>, userFails: bool, outletFails: bool, authFails: bool)
    ensures Recommend(None, authFails, request, stats, userFails, outletFails) == Fail(401)
  {
  }

  /**
   * A caller with history gets favourites, even when none of them is
   * available any more and the list comes back empty: the best sellers are
   * then not consulted.
   */
  lemma FavoritesWhenHistory(user: string, request: Option<int>, stats: seq<StatRow>, outletFails: bool)
    requires exists s :: s in stats && OfUserIn(user, request)(s)
    ensures var r := Recommend(Some(user), false, Some(request), stats, false, outletFails);
      r.Ok? && r.body.Favorites?
    ensures (forall s :: s in stats ==> !Available()(s)) ==>
      Recommend(Some(user), false, Some(request), stats, false, outletFails) == Ok(Favorites([]))
  {
    var s :| s in stats && OfUserIn(user, request)(s);
    var matching := Filter(stats, OfUserIn(user, request));
    assert s in matching;
    var sorted := SortBy(matching, ByOrderCountDesc());
    assert |sorted| == |matching| > 0;
    var mine := Query(stats, OfUserIn(user, request));
    if forall s :: s in stats ==> !Available()(s) {
      FilterKeepsNone(mine, Available());
    }
  }

  /**
   * Every answer lists at most three items, all available, each tagged with
   * its path; the best sellers carry distinct ids, in the order the query
   * returned them, and every available best seller's id is listed.
   */
  lemma RecommendMeaning(
    user: Option<string>, authFails: bool, request: Option<Option<int>>,
    stats: seq<StatRow>, userFails: bool, outletFails: bool)
    ensures var r := Recommend(user, authFails, request, stats, userFails, outletFails);
      r.Ok? ==>
        && |r.body.recs| <= QueryLimit
        && (forall x :: x in r.body.recs ==> x.item.isAvailable)
        && (r.body.Favorites? ==> forall x :: x in r.body.recs ==> x.kind == UserFavorite)
        && (r.body.PopularItems? ==> forall x :: x in r.body.recs ==> x.kind == Popular)
        && (r.body.PopularItems? ==>
              var all := AvailableTagged(Query(stats, InOutlet(request.value)), Popular);
              && DistinctKeys(r.body.recs, IdOf())
              && IsSubseq(r.body.recs, all)
              && KeysOf(r.body.recs, IdOf()) == KeysOf(all, IdOf()))
  {
    var r := Recommend(user, authFails, request, stats, userFails, outletFails);
    if r.Ok? && r.body.PopularItems? {
      var all := AvailableTagged(Query(stats, InOutlet(request.value)), Popular);
      KeepFirstByIsSubseq(all, IdOf());
      forall x | x in r.body.recs ensures x in all {
        SubseqMembers(r.body.recs, all, x);
      }
    }
  }
}
