/**
 * The catalog page's derived lists: the items shown for a search query, a category and a
 * sort order, and the categories offered for filtering. Both are computed from the
 * loaded items without changing them.
 */
module Listing {

  import opened Wrappers
  import opened Seqs
  import opened Strings

  /** The fields of a loaded item the page reads; each may be absent. */
  datatype Listed = Listed(title: Option<string>, category: Option<string>, rating: Option<real>)

  /** The sort key `it.rating || 0`. */
  function Key(it: Listed): real {
    if it.rating.Some? then it.rating.value else 0.0
  }

  /** `matchesQuery && matchesCategory` for one item. */
  predicate Matches(it: Listed, query: string, category: string): (b: bool)
    ensures query == "" && category == "" ==> b
    ensures b && query != "" ==> Truthy(it.title) && |query| <= |it.title.value|
    ensures b && category != "" ==> it.category == Some(category)
  {
    && (query == "" || (Truthy(it.title) && Contains(ToLower(it.title.value), ToLower(query))))
    && (category == "" || it.category == Some(category))
  }

  /** The search ignores the letter case of the query. */
  lemma MatchesIgnoresQueryCase(it: Listed, query: string, category: string)
    ensures Matches(it, query, category) == Matches(it, ToLower(query), category)
  {
    ToLowerIdempotent(query);
    assert query == "" <==> ToLower(query) == "";
  }

  /** The search ignores the letter case of the title. */
  lemma MatchesIgnoresTitleCase(it: Listed, query: string, category: string)
    requires Truthy(it.title)
    ensures Matches(it, query, category) == Matches(it.(title := Some(ToLower(it.title.value))), query, category)
  {
    ToLowerIdempotent(it.title.value);
    assert it.title.value == "" <==> ToLower(it.title.value) == "";
  }

  /** Keys never increase along the sequence. */
  predicate NonIncreasing(s: seq<Listed>) {
    forall i, j :: 0 <= i < j < |s| ==> Key(s[i]) >= Key(s[j])
  }

  /** The elements with key `k`, in their order. */
  function WithKey(s: seq<Listed>, k: real): (r: seq<Listed>)
    ensures forall y :: y in r <==> y in s && Key(y) == k
  {
    if s == [] then []
    else
      assert s == [s[0]] + s[1..];
      (if Key(s[0]) == k then [s[0]] else []) + WithKey(s[1..], k)
  }

  lemma WithKeyCons(a: Listed, t: seq<Listed>, k: real)
    ensures WithKey([a] + t, k) == (if Key(a) == k then [a] else []) + WithKey(t, k)
  {
    assert ([a] + t)[1..] == t;
  }

  lemma {:induction false} WithKeySnoc(s: seq<Listed>, x: Listed, k: real)
    ensures WithKey(s + [x], k) == WithKey(s, k) + (if Key(x) == k then [x] else [])
  {
    if s == [] {
      assert s + [x] == [x];
    } else {
      assert (s + [x])[1..] == s[1..] + [x];
      WithKeySnoc(s[1..], x, k);
    }
  }

  lemma {:induction false} WithKeyNone(s: seq<Listed>, k: real)
    requires forall i :: 0 <= i < |s| ==> Key(s[i]) != k
    ensures WithKey(s, k) == []
  {
    if s != [] {
      WithKeyNone(s[1..], k);
    }
  }

  /** `x` placed into a non-increasing sequence after every element whose key is at least its own. */
  function Insert(x: Listed, s: seq<Listed>): (r: seq<Listed>)
    ensures |r| == |s| + 1
    ensures forall y :: y in r <==> y in s || y == x
    ensures multiset(r) == multiset(s) + multiset{x}
  {
    if s == [] then [x]
    else if Key(s[0]) >= Key(x) then
      assert s == [s[0]] + s[1..];
      [s[0]] + Insert(x, s[1..])
    else [x] + s
  }

  lemma {:induction false} InsertSorted(x: Listed, s: seq<Listed>)
    requires NonIncreasing(s)
    ensures NonIncreasing(Insert(x, s))
  {
    if s != [] && Key(s[0]) >= Key(x) {
      InsertSorted(x, s[1..]);
      var r := Insert(x, s);
      var t := Insert(x, s[1..]);
      assert r == [s[0]] + t;
      forall y | y in t ensures Key(s[0]) >= Key(y) {
        if y != x {
          var k :| 0 <= k < |s[1..]| && s[1..][k] == y;
          assert s[k + 1] == y;
        }
      }
      forall i, j | 0 <= i < j < |r| ensures Key(r[i]) >= Key(r[j]) {
        if i > 0 {
          assert r[i] == t[i - 1] && r[j] == t[j - 1];
        } else {
          assert r[j] in t;
        }
      }
    }
  }

  /** A non-increasing sequence stays so without its head, and its head has the largest key. */
  lemma NonIncreasingTail(s: seq<Listed>)
    requires s != [] && NonIncreasing(s)
    ensures NonIncreasing(s[1..])
    ensures forall i :: 0 <= i < |s| ==> Key(s[i]) <= Key(s[0])
  {
    var t := s[1..];
    forall i, j | 0 <= i < j < |t| ensures Key(t[i]) >= Key(t[j]) {
      assert t[i] == s[i + 1] && t[j] == s[j + 1];
    }
  }

  /** Inserting keeps the order among equal keys, the new element coming last among its equals. */
  lemma {:induction false} InsertStable(x: Listed, s: seq<Listed>, k: real)
    requires NonIncreasing(s)
    ensures WithKey(Insert(x, s), k) == WithKey(s, k) + (if Key(x) == k then [x] else [])
  {
    if s == [] {
    } else if Key(s[0]) >= Key(x) {
      var t := s[1..];
      assert s == [s[0]] + t;
      NonIncreasingTail(s);
      InsertStable(x, t, k);
      assert Insert(x, s) == [s[0]] + Insert(x, t);
      WithKeyCons(s[0], Insert(x, t), k);
      WithKeyCons(s[0], t, k);
    } else {
      assert Insert(x, s) == [x] + s;
      WithKeyCons(x, s, k);
      if Key(x) == k {
        NonIncreasingTail(s);
        WithKeyNone(s, k);
      }
    }
  }

  /**
   * `sort((a, b) => (b.rating || 0) - (a.rating || 0))`, which is stable: elements are
   * inserted in their order, each after every earlier one with a key at least its own.
   */
  function SortByRating(s: seq<Listed>): (r: seq<Listed>)
    ensures NonIncreasing(r)
    ensures multiset(r) == multiset(s)
    ensures |r| == |s|
  {
    if s == [] then []
    else
      var init := s[..|s| - 1];
      assert s == init + [s[|s| - 1]];
      InsertSorted(s[|s| - 1], SortByRating(init));
      Insert(s[|s| - 1], SortByRating(init))
  }

  /** Items of equal rating keep their relative order. */
  lemma {:induction false} SortByRatingStable(s: seq<Listed>, k: real)
    ensures WithKey(SortByRating(s), k) == WithKey(s, k)
  {
    if s != [] {
      var init, last := s[..|s| - 1], s[|s| - 1];
      assert s == init + [last];
      SortByRatingStable(init, k);
      InsertStable(last, SortByRating(init), k);
      WithKeySnoc(init, last, k);
    }
  }

  /** The `filtered` list for the page's query, category and sort choice. */
  function Filtered(items: seq<Listed>, query: string, category: string, sortBy: string): (r: seq<Listed>)
    ensures |r| <= |items|
    ensures forall k :: 0 <= k < |r| ==> Matches(r[k], query, category)
    ensures sortBy == "rating" ==> NonIncreasing(r)
  {
    var kept := Filter(items, (it: Listed) => Matches(it, query, category));
    assert forall k :: 0 <= k < |kept| ==> kept[k] in kept;
    if sortBy == "rating" then
      var r := SortByRating(kept);
      assert forall k :: 0 <= k < |r| ==> r[k] in multiset(r);
      r
    else kept
  }

  /**
   * An item is shown exactly when it is loaded and matches, as often as it is loaded; the
   * kept items are a subsequence of the loaded ones.
   */
  lemma FilteredKeepsMatches(items: seq<Listed>, query: string, category: string, sortBy: string)
    ensures forall it :: it in Filtered(items, query, category, sortBy) <==> it in items && Matches(it, query, category)
    ensures forall it ::
      multiset(Filtered(items, query, category, sortBy))[it] == if Matches(it, query, category) then multiset(items)[it] else 0
    ensures sortBy != "rating" ==> IsSubseq(Filtered(items, query, category, sortBy), items)
  {
    var kept := Filter(items, (it: Listed) => Matches(it, query, category));
    FilterIsSubseq(items, (it: Listed) => Matches(it, query, category));
    if sortBy == "rating" {
      forall it ensures it in SortByRating(kept) <==> it in kept {
        assert it in SortByRating(kept) <==> it in multiset(SortByRating(kept));
      }
    }
  }

  /** With a non-empty query, an item without a title is never shown. */
  lemma UntitledHiddenBySearch(items: seq<Listed>, query: string, category: string, sortBy: string, it: Listed)
    requires query != "" && !Truthy(it.title)
    ensures it !in Filtered(items, query, category, sortBy)
  {
    FilteredKeepsMatches(items, query, category, sortBy);
  }

  /**
   * Sorting by rating gives the matching items by non-increasing rating, each as often as it
   * is loaded, with equal ratings in loaded order; any other choice keeps the loaded order.
   */
  lemma FilteredOrder(items: seq<Listed>, query: string, category: string, sortBy: string)
    ensures var kept := Filter(items, (it: Listed) => Matches(it, query, category));
      && (sortBy == "rating" ==>
            var r := Filtered(items, query, category, sortBy);
            NonIncreasing(r) && multiset(r) == multiset(kept) && forall k :: WithKey(r, k) == WithKey(kept, k))
      && (sortBy != "rating" ==> Filtered(items, query, category, sortBy) == kept)
  {
    var kept := Filter(items, (it: Listed) => Matches(it, query, category));
    forall k ensures WithKey(SortByRating(kept), k) == WithKey(kept, k) {
      SortByRatingStable(kept, k);
    }
  }

  /** The item carries a truthy category. */
  predicate HasCategory(it: Listed) {
    Truthy(it.category)
  }

  /** The category an item shows, `""` when it has none. */
  function CategoryName(it: Listed): string {
    if it.category.Some? then it.category.value else ""
  }

  /** `items.map(i => i.category).filter(Boolean)`. */
  function TruthyCategories(items: seq<Listed>): (r: seq<string>)
    ensures forall c :: c in r <==> c != "" && exists it :: it in items && it.category == Some(c)
  {
    if items == [] then []
    else
      assert items == [items[0]] + items[1..];
      (if HasCategory(items[0]) then [items[0].category.value] else []) + TruthyCategories(items[1..])
  }

  /** The categories the items show, position by position. */
  function CategoryNames(s: seq<Listed>): (r: seq<string>)
    ensures |r| == |s| && forall k :: 0 <= k < |r| ==> r[k] == CategoryName(s[k])
  {
    if s == [] then [] else [CategoryName(s[0])] + CategoryNames(s[1..])
  }

  /** The truthy categories are those of the items that carry one, in item order. */
  lemma {:induction false} TruthyCategoriesInItemOrder(items: seq<Listed>)
    ensures TruthyCategories(items) == CategoryNames(Filter(items, HasCategory))
  {
    if items != [] {
      TruthyCategoriesInItemOrder(items[1..]);
      FilterStep(items);
      var f := Filter(items[1..], HasCategory);
      if HasCategory(items[0]) {
        assert ([items[0]] + f)[1..] == f;
      }
    }
  }

  /** One step of the filter on categories. */
  lemma FilterStep(items: seq<Listed>)
    requires items != []
    ensures Filter(items, HasCategory)
      == (if HasCategory(items[0]) then [items[0]] else []) + Filter(items[1..], HasCategory)
  {
    assert items == [items[0]] + items[1..];
  }

  /** `Array.from(new Set(...))` of the truthy categories. */
  function Categories(items: seq<Listed>): (r: seq<string>)
    ensures NoDups(r)
    ensures forall c :: c in r <==> c != "" && exists it :: it in items && it.category == Some(c)
  {
    Distinct(TruthyCategories(items))
  }

  /** The categories appear in the order in which the items first mention them. */
  lemma CategoriesFirstOccurrence(items: seq<Listed>)
    ensures var all, r := TruthyCategories(items), Categories(items);
      forall i, j :: 0 <= i < j < |r| ==> r[i] in all && r[j] in all && FirstIndex(all, r[i]) < FirstIndex(all, r[j])
  {
    DistinctFirstOccurrence(TruthyCategories(items));
  }
}
