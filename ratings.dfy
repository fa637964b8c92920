/**
 * Rating an item: the item's rating list and average, and on the rating user's record an
 * upsert into the rated entries and a move to the front of the recently viewed list.
 */
module Ratings {

  import opened Wrappers
  import opened Seqs
  import opened Models
  import opened UserLists
  import Session

  /** `ratings.reduce((a, b) => a + b, 0)`. */
  function Sum(s: seq<real>): real {
    if s == [] then 0.0 else Sum(s[..|s| - 1]) + s[|s| - 1]
  }

  /** The average the item keeps, `sum / ratings.length`. */
  function Mean(s: seq<real>): real
    requires s != []
  {
    Sum(s) / (|s| as real)
  }

  lemma {:induction false} SumBounded(s: seq<real>, lo: real, hi: real)
    requires forall k :: 0 <= k < |s| ==> lo <= s[k] <= hi
    ensures lo * (|s| as real) <= Sum(s) <= hi * (|s| as real)
  {
    if s != [] {
      SumBounded(s[..|s| - 1], lo, hi);
    }
  }

  /** The average of ratings that all lie in a range lies in that range. */
  lemma MeanBounded(s: seq<real>, lo: real, hi: real)
    requires s != []
    requires forall k :: 0 <= k < |s| ==> lo <= s[k] <= hi
    ensures lo <= Mean(s) <= hi
  {
    SumBounded(s, lo, hi);
    var n := |s| as real;
    assert Mean(s) * n == Sum(s);
  }

  /** The item after a rating: a number is appended and the average and count follow; anything else changes nothing. */
  function Rated(item: Item, rating: Option<real>): (r: Item)
    ensures rating.None? ==> r == item
    ensures rating.Some? ==>
      && r.ratings == item.ratings + [rating.value]
      && r.ratingCount == |r.ratings|
      && r.rating == Mean(r.ratings)
      && r.itemId == item.itemId && r.title == item.title
  {
    if rating.None? then item
    else
      var ratings := item.ratings + [rating.value];
      item.(ratings := ratings, rating := Mean(ratings), ratingCount := |ratings|)
  }

  /** `ratedItems.findIndex(r => String(r.itemId) === iid)`. */
  function FindRated(rated: seq<RatedItem>, iid: string): Option<nat> {
    FirstWhere(rated, (e: RatedItem) => e.itemId == iid)
  }

  /**
   * The rated entries after rating `iid`: the first entry for `iid` gets the new rating,
   * or a new entry is appended when there is none.
   */
  function Upserted(rated: seq<RatedItem>, iid: string, rating: Option<real>): (r: seq<RatedItem>)
    ensures FindRated(r, iid).Some? && r[FindRated(r, iid).value] == RatedItem(iid, rating)
    ensures |r| == |rated| + (if FindRated(rated, iid).Some? then 0 else 1)
    ensures forall j :: 0 <= j < |rated| && j != FindRated(r, iid).value ==> r[j] == rated[j]
    ensures FindRated(rated, iid).Some? ==> FindRated(r, iid) == FindRated(rated, iid)
    ensures FindRated(rated, iid).None? ==> r == rated + [RatedItem(iid, rating)]
  {
    match FindRated(rated, iid)
    case Some(k) =>
      var r := rated[k := rated[k].(rating := rating)];
      assert forall j :: 0 <= j < k ==> r[j] == rated[j];
      assert FindRated(r, iid) == Some(k) by {
        assert r[k].itemId == iid;
        assert forall j :: 0 <= j < k ==> r[j].itemId != iid;
      }
      r
    case None =>
      var r := rated + [RatedItem(iid, rating)];
      assert forall j :: 0 <= j < |rated| ==> r[j] == rated[j];
      assert FindRated(r, iid) == Some(|rated|) by {
        assert r[|rated|].itemId == iid;
        assert forall j :: 0 <= j < |rated| ==> r[j].itemId != iid;
      }
      r
  }

  /** Rating the same item with the same value twice leaves what rating it once left. */
  lemma UpsertedIdempotent(rated: seq<RatedItem>, iid: string, rating: Option<real>)
    ensures Upserted(Upserted(rated, iid, rating), iid, rating) == Upserted(rated, iid, rating)
  {
    var once := Upserted(rated, iid, rating);
    var k := FindRated(once, iid).value;
    assert once[k := once[k].(rating := rating)] == once;
  }

  /** The ids of the rated entries never gain a duplicate through an upsert. */
  lemma {:induction false} UpsertedKeepsIdsDistinct(rated: seq<RatedItem>, iid: string, rating: Option<real>)
    requires NoDups(RatedIds(rated))
    ensures NoDups(RatedIds(Upserted(rated, iid, rating)))
  {
    var r := Upserted(rated, iid, rating);
    var ids, rids := RatedIds(rated), RatedIds(r);
    match FindRated(rated, iid)
    case Some(k) =>
      forall j | 0 <= j < |r| ensures rids[j] == ids[j] {
        if j != k {
          assert r[j] == rated[j];
        }
      }
      assert rids == ids;
    case None =>
      assert forall j :: 0 <= j < |rated| ==> rids[j] == ids[j];
      forall i, j | 0 <= i < j < |rids| ensures rids[i] != rids[j] {
        if j == |rated| {
          assert rated[i].itemId != iid;
        }
      }
  }

  /**
   * The recently viewed list after rating `iid`: every copy removed, `iid` put in front,
   * and the last element popped once when the list is then longer than 20.
   */
  function MovedToFront(recent: seq<string>, iid: string): (r: seq<string>)
    ensures |r| >= 1 && r[0] == iid
    ensures multiset(r)[iid] == 1
    ensures IsSubseq(r[1..], recent)
    ensures |recent| <= RecentLimit ==> |r| <= RecentLimit
    ensures r == [iid] + Prefix(Without(recent, iid), |r| - 1)
    ensures |r| == if 1 + |Without(recent, iid)| > RecentLimit then |Without(recent, iid)| else 1 + |Without(recent, iid)|
  {
    var m := [iid] + Without(recent, iid);
    var r := if |m| > RecentLimit then m[..|m| - 1] else m;
    assert r == [iid] + Prefix(Without(recent, iid), |r| - 1);
    assert multiset(r) == multiset([iid]) + multiset(r[1..]);
    assert iid !in r[1..];
    WithoutIsSubseq(recent, iid);
    PrefixIsSubseq(Without(recent, iid), |r| - 1);
    IsSubseqTrans(r[1..], Without(recent, iid), recent);
    r
  }

  /** On a list of at most 20 ids, rating an item moves it exactly as viewing it does. */
  lemma {:induction false} MovedToFrontIsPushRecent(recent: seq<string>, iid: string)
    requires |recent| <= RecentLimit
    ensures MovedToFront(recent, iid) == PushRecent(recent, iid)
  {
    var w := Without(recent, iid);
    assert |[iid] + w| <= RecentLimit + 1;
    if |[iid] + w| > RecentLimit {
      assert MovedToFront(recent, iid) == ([iid] + w)[..RecentLimit];
    }
  }

  /**
   * `rateItem`: 404 and nothing changed for an unknown item; otherwise the item records a
   * numeric rating, and when the request carries a user, that user's rated entries and
   * recently viewed list are updated and returned beside the item.
   */
  method RateItem(items: ItemStore, users: UserStore, id: string, rating: Option<real>, reqUser: Option<nat>)
    returns (res: Response)
    requires reqUser.Some? ==> reqUser.value < |users.users|
    modifies items, users
    ensures forall cfg :: Session.Consistent(cfg, old(users.users)) ==> Session.Consistent(cfg, users.users)
    ensures Session.UniqueEmails(old(users.users)) ==> Session.UniqueEmails(users.users)
    ensures FindItem(old(items.items), id).None? ==>
      && res == Response(404, MessageBody("Item not found"), KeepCookie)
      && items.items == old(items.items) && users.users == old(users.users)
    ensures FindItem(old(items.items), id).Some? ==>
      var k := FindItem(old(items.items), id).value;
      && items.items == old(items.items)[k := Rated(old(items.items)[k], rating)]
      && res.status == 200
      && (reqUser.None? ==> users.users == old(users.users) && res.body == RatedBody(items.items[k], None))
      && (reqUser.Some? ==>
           var u := reqUser.value;
           var before := old(users.users)[u];
           var after := before.(ratedItems := Upserted(before.ratedItems, id, rating),
                                recentlyViewed := MovedToFront(before.recentlyViewed, id));
           users.users == old(users.users)[u := after]
           && res.body == RatedBody(items.items[k], Some(after.ratedItems)))
  {
    var iid := id;
    var found := FindItem(items.items, iid);
    if found.None? {
      return Response(404, MessageBody("Item not found"), KeepCookie);
    }
    var k := found.value;
    var item := Rated(items.items[k], rating);
    items.items := items.items[k := item];
    if reqUser.Some? {
      var user := users.users[reqUser.value];
      user := user.(ratedItems := Upserted(user.ratedItems, iid, rating),
                    recentlyViewed := MovedToFront(user.recentlyViewed, iid));
      users.users := users.users[reqUser.value := user];
      res := Response(200, RatedBody(item, Some(user.ratedItems)), KeepCookie);
    } else {
      res := Response(200, RatedBody(item, None), KeepCookie);
    }
  }
}
