/**
 * The item lists the user controller keeps on a user record: the watchlist (add without
 * duplicates, remove every copy), the recently viewed list (move to the front, at most
 * 20), and the read-only views built from them: recently viewed items in list order and
 * the combined interests (first 20 distinct ids of recent, watchlist and rated).
 */
module UserLists {

  import opened Wrappers
  import opened Seqs
  import opened Models
  import Session

  /** `$slice: 20` and `.slice(0, 20)`. */
  const RecentLimit: nat := 20

  /** The watchlist after adding `id`: appended only when no element equals it. */
  function Watched(list: seq<string>, id: string): (r: seq<string>)
    ensures id in r
    ensures id in list ==> r == list
    ensures id !in list ==> r == list + [id]
  {
    if id in list then list else list + [id]
  }

  /** Adding twice is adding once. */
  lemma WatchedIdempotent(list: seq<string>, id: string)
    ensures Watched(Watched(list, id), id) == Watched(list, id)
  {
  }

  /** A watchlist without duplicates stays without duplicates. */
  lemma WatchedKeepsNoDups(list: seq<string>, id: string)
    requires NoDups(list)
    ensures NoDups(Watched(list, id))
  {
    if id !in list {
      var r := list + [id];
      forall i, j | 0 <= i < j < |r| ensures r[i] != r[j] {
        if j == |list| {
          assert r[i] == list[i];
        }
      }
    }
  }

  /** Removing what was just added gives back the list it was added to. */
  lemma {:induction false} UnwatchUndoesWatch(list: seq<string>, id: string)
    requires id !in list
    ensures Without(Watched(list, id), id) == list
  {
    WithoutAppended(list, id);
  }

  /**
   * The recently viewed list after viewing `iid`: `iid` first, then the old list without
   * `iid` in its old order, cut to 20 elements.
   */
  function PushRecent(list: seq<string>, iid: string): (r: seq<string>)
    ensures |r| >= 1 && r[0] == iid
    ensures multiset(r)[iid] == 1
    ensures |r| <= RecentLimit
    ensures r[1..] == Prefix(Without(list, iid), RecentLimit - 1)
  {
    var r := Prefix([iid] + Without(list, iid), RecentLimit);
    assert r == [iid] + Prefix(Without(list, iid), RecentLimit - 1);
    assert multiset(r) == multiset([iid]) + multiset(Prefix(Without(list, iid), RecentLimit - 1));
    assert iid !in Prefix(Without(list, iid), RecentLimit - 1);
    r
  }

  /** Viewing the item already at the front of a list of at most 20 changes nothing. */
  lemma {:induction false} PushRecentAtFront(list: seq<string>, iid: string)
    requires |list| <= RecentLimit && list != [] && list[0] == iid && iid !in list[1..]
    ensures PushRecent(list, iid) == list
  {
    assert list == [iid] + list[1..];
    assert Without(list, iid) == Without(list[1..], iid);
  }

  /** The ids of the rated entries: `ratedItems.map(r => r.itemId)`. */
  function RatedIds(rated: seq<RatedItem>): (r: seq<string>)
    ensures |r| == |rated| && forall k :: 0 <= k < |rated| ==> r[k] == rated[k].itemId
  {
    seq(|rated|, k requires 0 <= k < |rated| => rated[k].itemId)
  }

  /** `[...recentlyViewed, ...watchlist, ...ratedIds]`. */
  function AllInterests(u: User): seq<string> {
    u.recentlyViewed + u.watchlist + RatedIds(u.ratedItems)
  }

  /** `Array.from(new Set(all)).slice(0, 20)`. */
  function InterestIds(u: User): (r: seq<string>)
    ensures NoDups(r) && |r| <= RecentLimit
    ensures forall id :: id in r ==> id in u.recentlyViewed || id in u.watchlist || id in RatedIds(u.ratedItems)
  {
    var d := Distinct(AllInterests(u));
    var r := Prefix(d, RecentLimit);
    assert forall id :: id in r ==> id in d;
    r
  }

  /**
   * The interests keep the order of first occurrence in the combined list, and they are the
   * first 20 distinct ids: there are `min(distinct, 20)` of them, none is lost unless
   * there are more than 20, and an id left out is first seen after every kept one.
   */
  lemma InterestIdsOrder(u: User)
    ensures var r, all := InterestIds(u), AllInterests(u);
      && (forall i, j :: 0 <= i < j < |r| ==> r[i] in all && r[j] in all && FirstIndex(all, r[i]) < FirstIndex(all, r[j]))
      && |r| == Min(|Distinct(all)|, RecentLimit)
      && (|Distinct(all)| <= RecentLimit ==> forall id :: id in all ==> id in r)
      && (forall id :: id in all && id !in r ==>
            |r| == RecentLimit && forall x :: x in r ==> FirstIndex(all, x) < FirstIndex(all, id))
  {
    var all := AllInterests(u);
    var d := Distinct(all);
    var r := InterestIds(u);
    DistinctFirstOccurrence(all);
    assert r == d[..|r|];
    forall id | id in all && id !in r
      ensures |r| == RecentLimit && forall x :: x in r ==> FirstIndex(all, x) < FirstIndex(all, id)
    {
      var p := FirstIndex(d, id);
      assert p >= |r|;
      forall x | x in r ensures FirstIndex(all, x) < FirstIndex(all, id) {
        var q :| 0 <= q < |r| && r[q] == x;
        assert d[q] == x;
      }
    }
  }

  /** Recently viewed ids come first: an interest from the recent list is never preceded by one that is not. */
  lemma InterestsRecentFirst(u: User)
    ensures var r := InterestIds(u);
      forall i, j :: 0 <= i < j < |r| && r[j] in u.recentlyViewed ==> r[i] in u.recentlyViewed
  {
    var r, all := InterestIds(u), AllInterests(u);
    InterestIdsOrder(u);
    forall i, j | 0 <= i < j < |r| && r[j] in u.recentlyViewed
      ensures r[i] in u.recentlyViewed
    {
      var kj := FirstIndex(u.recentlyViewed, r[j]);
      assert all[kj] == r[j];
      assert all[..kj + 1][kj] == r[j];
      assert FirstIndex(all, r[j]) <= kj;
      var ki := FirstIndex(all, r[i]);
      assert ki < |u.recentlyViewed|;
      assert all[ki] == u.recentlyViewed[ki];
    }
  }

  /** `Item.find({ itemId: { $in: ids } })`: the items, in collection order, whose id is listed. */
  function ItemsIn(items: seq<Item>, ids: seq<string>): (r: seq<Item>)
    ensures IsSubseq(r, items)
    ensures forall it :: it in r <==> it in items && it.itemId in ids
    ensures forall it :: multiset(r)[it] == if it.itemId in ids then multiset(items)[it] else 0
  {
    FilterIsSubseq(items, (it: Item) => it.itemId in ids);
    Filter(items, (it: Item) => it.itemId in ids)
  }

  /** A position found in the tail, as a position in the whole sequence. */
  function ShiftedFind(k: Option<nat>): Option<nat> {
    if k.Some? then Some(k.value + 1) else None
  }

  /** Searching the items found for a listed id finds what searching the whole collection finds. */
  lemma {:induction false} FindItemInItemsIn(items: seq<Item>, ids: seq<string>, id: string)
    requires id in ids
    ensures FindItem(ItemsIn(items, ids), id).Some? <==> FindItem(items, id).Some?
    ensures FindItem(items, id).Some? ==>
      ItemsIn(items, ids)[FindItem(ItemsIn(items, ids), id).value] == items[FindItem(items, id).value]
  {
    if items != [] {
      FindItemInItemsIn(items[1..], ids, id);
      var found, rest := ItemsIn(items, ids), ItemsIn(items[1..], ids);
      if items[0].itemId == id {
        assert found == [items[0]] + rest;
        assert FindItem(items, id) == Some(0) && FindItem(found, id) == Some(0);
      } else if items[0].itemId in ids {
        assert found == [items[0]] + rest;
        assert found[1..] == rest;
        assert FindItem(found, id) == ShiftedFind(FindItem(rest, id));
        assert FindItem(items, id) == ShiftedFind(FindItem(items[1..], id));
      } else {
        assert found == rest;
        assert FindItem(items, id) == ShiftedFind(FindItem(items[1..], id));
      }
    }
  }

  function ItemIds(items: seq<Item>): (r: seq<string>)
    ensures |r| == |items| && forall k :: 0 <= k < |items| ==> r[k] == items[k].itemId
  {
    seq(|items|, k requires 0 <= k < |items| => items[k].itemId)
  }

  lemma ItemIdsCons(x: Item, s: seq<Item>)
    ensures ItemIds([x] + s) == [x.itemId] + ItemIds(s)
  {
    var l, r := ItemIds([x] + s), [x.itemId] + ItemIds(s);
    forall k | 0 <= k < |l| ensures l[k] == r[k] {
      if k > 0 {
        assert ([x] + s)[k] == s[k - 1];
      }
    }
  }

  /** `ids.map(id => found.find(item => item.itemId === id)).filter(item => item !== undefined)`. */
  function OrderedLookup(ids: seq<string>, found: seq<Item>): (r: seq<Item>)
    ensures |r| <= |ids|
    ensures forall k :: 0 <= k < |r| ==> r[k] in found
  {
    if ids == [] then []
    else
      var rest := OrderedLookup(ids[1..], found);
      match FindItem(found, ids[0])
      case None => rest
      case Some(k) => [found[k]] + rest
  }

  /** Each item of `r` is the first item of `found` with its id. */
  predicate FirstMatches(r: seq<Item>, found: seq<Item>) {
    forall k :: 0 <= k < |r| ==> FindItem(found, r[k].itemId).Some? && r[k] == found[FindItem(found, r[k].itemId).value]
  }

  /** Each answered item is the first found item with its id. */
  lemma {:induction false} OrderedLookupFirstMatch(ids: seq<string>, found: seq<Item>)
    ensures FirstMatches(OrderedLookup(ids, found), found)
  {
    if ids != [] {
      OrderedLookupFirstMatch(ids[1..], found);
      var rest := OrderedLookup(ids[1..], found);
      match FindItem(found, ids[0])
      case None =>
      case Some(j) =>
        var r := [found[j]] + rest;
        forall k | 0 <= k < |r|
          ensures FindItem(found, r[k].itemId).Some? && r[k] == found[FindItem(found, r[k].itemId).value]
        {
          if k > 0 {
            assert r[k] == rest[k - 1];
          }
        }
    }
  }

  /** The ids, in order and with their repeats, that some item of `items` carries. */
  function FoundIds(ids: seq<string>, items: seq<Item>): (r: seq<string>)
    ensures forall id :: multiset(r)[id] == if FindItem(items, id).Some? then multiset(ids)[id] else 0
  {
    if ids == [] then []
    else
      assert ids == [ids[0]] + ids[1..];
      assert multiset(ids) == multiset{ids[0]} + multiset(ids[1..]);
      (if FindItem(items, ids[0]).Some? then [ids[0]] else []) + FoundIds(ids[1..], items)
  }

  /** Only whether an id is found matters to `FoundIds`. */
  lemma {:induction false} FoundIdsAgree(ids: seq<string>, a: seq<Item>, b: seq<Item>)
    requires forall id :: id in ids ==> (FindItem(a, id).Some? <==> FindItem(b, id).Some?)
    ensures FoundIds(ids, a) == FoundIds(ids, b)
  {
    if ids != [] {
      FoundIdsAgree(ids[1..], a, b);
    }
  }

  /** One answered item per occurrence of a found id, in the order of `ids`: the answered ids are exactly `FoundIds(ids, found)`. */
  lemma {:induction false} OrderedLookupFoundIds(ids: seq<string>, found: seq<Item>)
    ensures ItemIds(OrderedLookup(ids, found)) == FoundIds(ids, found)
  {
    if ids != [] {
      OrderedLookupFoundIds(ids[1..], found);
      var rest, f := OrderedLookup(ids[1..], found), FoundIds(ids[1..], found);
      match FindItem(found, ids[0])
      case None =>
        assert FoundIds(ids, found) == f;
      case Some(k) =>
        assert found[k].itemId == ids[0];
        assert FoundIds(ids, found) == [ids[0]] + f;
        ItemIdsCons(found[k], rest);
    }
  }

  /**
   * For each id that some found item carries, in the order of `ids`, an answered item:
   * the answered ids are a subsequence of `ids`, holding exactly the ids that are found.
   */
  lemma {:induction false} OrderedLookupIds(ids: seq<string>, found: seq<Item>)
    ensures IsSubseq(ItemIds(OrderedLookup(ids, found)), ids)
    ensures forall id :: id in ItemIds(OrderedLookup(ids, found)) <==> id in ids && FindItem(found, id).Some?
  {
    if ids != [] {
      assert ids == [ids[0]] + ids[1..];
      OrderedLookupIds(ids[1..], found);
      var rest := OrderedLookup(ids[1..], found);
      IsSubseqCons(ids[0], ItemIds(rest), ids[1..]);
      match FindItem(found, ids[0])
      case None =>
      case Some(k) =>
        assert ItemIds([found[k]] + rest) == [ids[0]] + ItemIds(rest);
    }
  }

  /** `addToWatchlist`: 400 without an id; otherwise the id is appended unless already present. */
  method AddToWatchlist(store: UserStore, uid: nat, itemId: Option<string>) returns (res: Response)
    requires uid < |store.users|
    modifies store
    ensures !Truthy(itemId) ==> res == Response(400, MessageBody("Invalid Item ID"), KeepCookie) && store.users == old(store.users)
    ensures Truthy(itemId) ==>
      && store.users == old(store.users)[uid := old(store.users)[uid].(watchlist := Watched(old(store.users)[uid].watchlist, itemId.value))]
      && res == Response(200, IdsBody(store.users[uid].watchlist), KeepCookie)
    ensures forall cfg :: Session.Consistent(cfg, old(store.users)) ==> Session.Consistent(cfg, store.users)
    ensures Session.UniqueEmails(old(store.users)) ==> Session.UniqueEmails(store.users)
  {
    if !Truthy(itemId) {
      return Response(400, MessageBody("Invalid Item ID"), KeepCookie);
    }
    var user := store.users[uid];
    var strId := itemId.value;
    var alreadyIn := strId in user.watchlist;
    if !alreadyIn {
      user := user.(watchlist := user.watchlist + [strId]);
      store.users := store.users[uid := user];
    }
    res := Response(200, IdsBody(user.watchlist), KeepCookie);
  }

  /** `removeFromWatchlist`: every element equal to the id is dropped, the rest keep their order. */
  method RemoveFromWatchlist(store: UserStore, uid: nat, itemId: Option<string>) returns (res: Response)
    requires uid < |store.users|
    modifies store
    ensures !Truthy(itemId) ==> res == Response(400, MessageBody("Invalid Item ID"), KeepCookie) && store.users == old(store.users)
    ensures Truthy(itemId) ==>
      && store.users == old(store.users)[uid := old(store.users)[uid].(watchlist := Without(old(store.users)[uid].watchlist, itemId.value))]
      && res == Response(200, IdsBody(store.users[uid].watchlist), KeepCookie)
    ensures forall cfg :: Session.Consistent(cfg, old(store.users)) ==> Session.Consistent(cfg, store.users)
    ensures Session.UniqueEmails(old(store.users)) ==> Session.UniqueEmails(store.users)
  {
    if !Truthy(itemId) {
      return Response(400, MessageBody("Invalid Item ID"), KeepCookie);
    }
    var user := store.users[uid];
    var newWatchlist := Without(user.watchlist, itemId.value);
    if |newWatchlist| != |user.watchlist| {
      user := user.(watchlist := newWatchlist);
      store.users := store.users[uid := user];
    }
    res := Response(200, IdsBody(user.watchlist), KeepCookie);
  }

  /** `addToRecent`: the id, as a string, moves to the front of the recently viewed list. */
  method AddToRecent(store: UserStore, uid: nat, itemId: Option<string>) returns (res: Response)
    requires uid < |store.users|
    modifies store
    ensures JsString(itemId) == "" ==> res == Response(400, MessageBody("Invalid Item ID"), KeepCookie) && store.users == old(store.users)
    ensures JsString(itemId) != "" ==>
      && store.users == old(store.users)[uid := old(store.users)[uid].(recentlyViewed := PushRecent(old(store.users)[uid].recentlyViewed, JsString(itemId)))]
      && res == Response(200, IdsBody(store.users[uid].recentlyViewed), KeepCookie)
    ensures forall cfg :: Session.Consistent(cfg, old(store.users)) ==> Session.Consistent(cfg, store.users)
    ensures Session.UniqueEmails(old(store.users)) ==> Session.UniqueEmails(store.users)
  {
    var iid := JsString(itemId);
    if iid == "" {
      return Response(400, MessageBody("Invalid Item ID"), KeepCookie);
    }
    var user := store.users[uid];
    user := user.(recentlyViewed := PushRecent(user.recentlyViewed, iid));
    store.users := store.users[uid := user];
    res := Response(200, IdsBody(user.recentlyViewed), KeepCookie);
  }

  /** `removeFromRecent`: every copy of the id leaves the recently viewed list. */
  method RemoveFromRecent(store: UserStore, uid: nat, itemId: Option<string>) returns (res: Response)
    requires uid < |store.users|
    modifies store
    ensures JsString(itemId) == "" ==> res == Response(400, MessageBody("Invalid Item ID"), KeepCookie) && store.users == old(store.users)
    ensures JsString(itemId) != "" ==>
      && store.users == old(store.users)[uid := old(store.users)[uid].(recentlyViewed := Without(old(store.users)[uid].recentlyViewed, JsString(itemId)))]
      && res == Response(200, IdsBody(store.users[uid].recentlyViewed), KeepCookie)
    ensures forall cfg :: Session.Consistent(cfg, old(store.users)) ==> Session.Consistent(cfg, store.users)
    ensures Session.UniqueEmails(old(store.users)) ==> Session.UniqueEmails(store.users)
  {
    var iid := JsString(itemId);
    if iid == "" {
      return Response(400, MessageBody("Invalid Item ID"), KeepCookie);
    }
    var user := store.users[uid];
    user := user.(recentlyViewed := Without(user.recentlyViewed, iid));
    store.users := store.users[uid := user];
    res := Response(200, IdsBody(user.recentlyViewed), KeepCookie);
  }

  /** `getWatchlist`: 404 for a missing user, else the catalog items on the watchlist. */
  function GetWatchlist(users: seq<User>, items: seq<Item>, uid: nat): (res: Response)
    ensures uid >= |users| ==> res.status == 404
    ensures uid < |users| ==> res.status == 200 && res.body.ItemsBody?
    ensures uid < |users| ==> res.body.ItemsBody? && forall it :: it in res.body.items <==> it in items && it.itemId in users[uid].watchlist
  {
    if uid >= |users| then Response(404, MessageBody("User not found"), KeepCookie)
    else Response(200, ItemsBody(ItemsIn(items, users[uid].watchlist)), KeepCookie)
  }

  /**
   * `getRecentlyViewed`: for each recently viewed id that some catalog item carries, in
   * list order, the first catalog item with that id.
   */
  function GetRecentlyViewed(users: seq<User>, items: seq<Item>, uid: nat): (res: Response)
    requires uid < |users|
    ensures res.status == 200 && res.body.ItemsBody?
    ensures IsSubseq(ItemIds(res.body.items), users[uid].recentlyViewed)
    ensures forall id :: id in ItemIds(res.body.items) <==>
      id in users[uid].recentlyViewed && FindItem(items, id).Some?
    ensures FirstMatches(res.body.items, items)
    ensures ItemIds(res.body.items) == FoundIds(users[uid].recentlyViewed, items)
  {
    var rv := users[uid].recentlyViewed;
    var found := ItemsIn(items, rv);
    var r := OrderedLookup(rv, found);
    OrderedLookupIds(rv, found);
    OrderedLookupFoundIds(rv, found);
    OrderedLookupFirstMatch(rv, found);
    assert forall id :: id in rv ==> (FindItem(found, id).Some? <==> FindItem(items, id).Some?) by {
      forall id | id in rv ensures FindItem(found, id).Some? <==> FindItem(items, id).Some? {
        FindItemInItemsIn(items, rv, id);
      }
    }
    FoundIdsAgree(rv, found, items);
    assert FirstMatches(r, items) by {
      forall k | 0 <= k < |r|
        ensures FindItem(items, r[k].itemId).Some? && r[k] == items[FindItem(items, r[k].itemId).value]
      {
        var id := r[k].itemId;
        assert ItemIds(r)[k] == id;
        FindItemInItemsIn(items, rv, id);
      }
    }
    Response(200, ItemsBody(r), KeepCookie)
  }

  /** `getRecentInterests`: the catalog items whose id is among the first 20 distinct interests. */
  function GetRecentInterests(users: seq<User>, items: seq<Item>, uid: nat): (res: Response)
    requires uid < |users|
    ensures res.status == 200 && res.body.ItemsBody?
    ensures forall it :: it in res.body.items <==> it in items && it.itemId in InterestIds(users[uid])
  {
    Response(200, ItemsBody(ItemsIn(items, InterestIds(users[uid]))), KeepCookie)
  }
}
