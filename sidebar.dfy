/**
 * The sidebar's derived views: the conversation history (newest first, at most ten), the
 * open/closed state of the model categories, and the model search.
 */
module Sidebar {
  import opened Schema
  import opened Text
  import opened Models
  import opened Storage

  /** The history shows at most this many conversations. */
  const HISTORY_LIMIT: nat := 10

  // ---------------------------------------------------------------------------------------------
  // History

  /** Newest first: no conversation is more recently updated than one before it. */
  ghost predicate NewestFirst(s: seq<Conversation>) {
    forall i, j :: 0 <= i < j < |s| ==> s[i].updatedAt >= s[j].updatedAt
  }

  /** Put `c` before the first conversation that is not newer than it. */
  function InsertByRecency(c: Conversation, sorted: seq<Conversation>): seq<Conversation> {
    if |sorted| == 0 then [c]
    else if c.updatedAt >= sorted[0].updatedAt then [c] + sorted
    else [sorted[0]] + InsertByRecency(c, sorted[1..])
  }

  /** Inserting adds exactly `c`. */
  lemma {:induction false} InsertByRecencyAdds(c: Conversation, sorted: seq<Conversation>)
    ensures multiset(InsertByRecency(c, sorted)) == multiset(sorted) + multiset{c}
    ensures forall x :: x in InsertByRecency(c, sorted) ==> x == c || x in sorted
  {
    if |sorted| > 0 && c.updatedAt < sorted[0].updatedAt {
      InsertByRecencyAdds(c, sorted[1..]);
      assert sorted == [sorted[0]] + sorted[1..];
    }
  }

  /** In a newest-first list, the head is at least as recent as everything after it. */
  lemma HeadIsNewest(sorted: seq<Conversation>, x: Conversation)
    requires NewestFirst(sorted) && |sorted| > 0 && x in sorted
    ensures sorted[0].updatedAt >= x.updatedAt
  {
    var j :| 0 <= j < |sorted| && sorted[j] == x;
    if j > 0 {
      assert sorted[0].updatedAt >= sorted[j].updatedAt;
    }
  }

  /** Inserting into a newest-first list keeps it newest first. */
  lemma {:induction false} InsertByRecencySorted(c: Conversation, sorted: seq<Conversation>)
    requires NewestFirst(sorted)
    ensures NewestFirst(InsertByRecency(c, sorted))
  {
    if |sorted| > 0 && c.updatedAt < sorted[0].updatedAt {
      var tail := sorted[1..];
      assert NewestFirst(tail) by {
        forall i, j | 0 <= i < j < |tail| ensures tail[i].updatedAt >= tail[j].updatedAt {
          assert tail[i] == sorted[i + 1] && tail[j] == sorted[j + 1];
        }
      }
      var rest := InsertByRecency(c, tail);
      InsertByRecencySorted(c, tail);
      InsertByRecencyAdds(c, tail);
      var r := [sorted[0]] + rest;
      assert InsertByRecency(c, sorted) == r;
      forall i, j | 0 <= i < j < |r| ensures r[i].updatedAt >= r[j].updatedAt {
        if i == 0 {
          assert r[j] == rest[j - 1];
          assert r[j] in rest;
          if r[j] != c {
            assert r[j] in sorted;
            HeadIsNewest(sorted, r[j]);
          }
        } else {
          assert r[i] == rest[i - 1] && r[j] == rest[j - 1];
        }
      }
    } else if |sorted| > 0 {
      var r := [c] + sorted;
      assert InsertByRecency(c, sorted) == r;
      forall i, j | 0 <= i < j < |r| ensures r[i].updatedAt >= r[j].updatedAt {
        if i == 0 {
          assert r[j] == sorted[j - 1];
          assert r[j] in sorted;
          HeadIsNewest(sorted, r[j]);
        } else {
          assert r[i] == sorted[i - 1] && r[j] == sorted[j - 1];
        }
      }
    }
  }

  /**
   * `saved.sort((a, b) => b.updatedAt - a.updatedAt)`: the same conversations, newest first.
   * Conversations updated at the same time keep their stored order.
   */
  function SortByRecency(saved: seq<Conversation>): (r: seq<Conversation>)
    ensures NewestFirst(r)
    ensures multiset(r) == multiset(saved)
  {
    if |saved| == 0 then []
    else
      assert saved == [saved[0]] + saved[1..];
      var rest := SortByRecency(saved[1..]);
      InsertByRecencySorted(saved[0], rest);
      InsertByRecencyAdds(saved[0], rest);
      InsertByRecency(saved[0], rest)
  }

  /** `loadConversations`: the stored list sorted newest first, then `slice(0, 10)`. */
  function History(saved: seq<Conversation>): (h: seq<Conversation>)
    ensures |h| == if |saved| <= HISTORY_LIMIT then |saved| else HISTORY_LIMIT
    ensures NewestFirst(h)
  {
    var sorted := SortByRecency(saved);
    assert |sorted| == |multiset(sorted)| == |saved|;
    sorted[..if |sorted| <= HISTORY_LIMIT then |sorted| else HISTORY_LIMIT]
  }

  /**
   * The history shows only stored conversations, each at most as often as it is stored, and
   * nothing left out of it is newer than anything in it.
   */
  lemma HistoryIsNewest(saved: seq<Conversation>)
    ensures multiset(History(saved)) <= multiset(saved)
    ensures forall c :: c in History(saved) ==> c in saved
    ensures forall c, d :: c in saved && c !in History(saved) && d in History(saved) ==> d.updatedAt >= c.updatedAt
  {
    var sorted := SortByRecency(saved);
    var h := History(saved);
    var n := |h|;
    assert sorted == h + sorted[n..];
    assert multiset(sorted) == multiset(h) + multiset(sorted[n..]);
    forall c | c in History(saved) ensures c in saved {
      assert c in multiset(saved);
    }
    forall c, d | c in saved && c !in h && d in h ensures d.updatedAt >= c.updatedAt {
      assert c in multiset(sorted);
      assert c in sorted;
      var j :| 0 <= j < |sorted| && sorted[j] == c;
      var i :| 0 <= i < n && h[i] == d;
      assert j >= n;
    }
  }

  /** With at most ten stored, the history is all of them. */
  lemma ShortHistoryIsComplete(saved: seq<Conversation>)
    requires |saved| <= HISTORY_LIMIT
    ensures multiset(History(saved)) == multiset(saved)
  {
    var sorted := SortByRecency(saved);
    assert |sorted| == |multiset(sorted)| == |saved|;
    assert History(saved) == sorted[..|sorted|] == sorted;
  }

  /** `handleDeleteConversation`: delete, then reload the history. */
  method DeleteAndReload(store: Store, id: string, writeOk: bool) returns (shown: seq<Conversation>)
    modifies store`conversations
    ensures writeOk ==> store.conversations == Holds(RemoveId(old(ListIn(store.conversations)), id))
    ensures !writeOk ==> store.conversations == old(store.conversations)
    ensures shown == History(ListIn(store.conversations))
    ensures writeOk ==> forall c :: c in shown ==> c.id != id
  {
    store.DeleteConversation(id, writeOk);
    shown := History(ListIn(store.conversations));
    HistoryIsNewest(ListIn(store.conversations));
  }

  // ---------------------------------------------------------------------------------------------
  // Open categories

  /** `open.filter((c) => c !== category)`. */
  function Without(open: seq<string>, category: string): (r: seq<string>)
    ensures forall c :: c in r <==> c in open && c != category
  {
    if |open| == 0 then []
    else if open[0] == category then Without(open[1..], category)
    else [open[0]] + Without(open[1..], category)
  }

  /** `toggleCategory`: close the category when it is open, else open it at the end. */
  function Toggle(open: seq<string>, category: string): (r: seq<string>)
    ensures category in r <==> category !in open
    ensures forall c :: c != category ==> (c in r <==> c in open)
  {
    if category in open then Without(open, category) else open + [category]
  }

  /** Filtering out a category that is not there changes nothing. */
  lemma {:induction false} WithoutAbsent(open: seq<string>, category: string)
    requires category !in open
    ensures Without(open, category) == open
  {
    if |open| > 0 {
      WithoutAbsent(open[1..], category);
    }
  }

  /** Opening a closed category and closing it again restores the list exactly. */
  lemma {:induction false} ToggleTwiceClosed(open: seq<string>, category: string)
    requires category !in open
    ensures Toggle(Toggle(open, category), category) == open
  {
    WithoutAppend(open, [category], category);
    WithoutAbsent(open, category);
    assert Without([category], category) == [];
  }

  /** Filtering distributes over concatenation. */
  lemma {:induction false} WithoutAppend(a: seq<string>, b: seq<string>, category: string)
    ensures Without(a + b, category) == Without(a, category) + Without(b, category)
  {
    if |a| > 0 {
      assert (a + b)[1..] == a[1..] + b;
      WithoutAppend(a[1..], b, category);
    } else {
      assert a + b == b;
    }
  }

  /**
   * Closing an open category and opening it again moves it to the end: the set of open
   * categories is the same, the order need not be.
   */
  lemma ToggleTwiceOpen(open: seq<string>, category: string)
    requires category in open
    ensures Toggle(Toggle(open, category), category) == Without(open, category) + [category]
    ensures forall c :: c in Toggle(Toggle(open, category), category) <==> c in open
  {
  }

  // ---------------------------------------------------------------------------------------------
  // Model search

  /**
   * A model matches a query when the query is empty, or its lower-cased name or id contains
   * the lower-cased query.
   */
  predicate Matches(m: AIModel, query: string) {
    query == "" || Contains(Lower(m.name), Lower(query)) || Contains(Lower(m.id), Lower(query))
  }

  /** Lower-casing twice is lower-casing once. */
  lemma LowerIdempotent(s: string)
    ensures Lower(Lower(s)) == Lower(s)
  {
    assert forall i :: 0 <= i < |s| ==> Lower(Lower(s))[i] == Lower(s)[i];
  }

  /** The search ignores case: a query and its lower-cased form match the same models. */
  lemma MatchesIgnoresCase(m: AIModel, query: string)
    ensures Matches(m, query) <==> Matches(m, Lower(query))
  {
    LowerIdempotent(query);
  }

  /** The models of a list that match the query, in order. */
  function Matching(s: seq<AIModel>, query: string): (r: seq<AIModel>)
    ensures |r| <= |s|
    ensures forall m :: m in r <==> m in s && Matches(m, query)
    ensures query == "" ==> r == s
  {
    if |s| == 0 then []
    else if Matches(s[0], query) then [s[0]] + Matching(s[1..], query)
    else Matching(s[1..], query)
  }

  /** The models listed under a category for a query. */
  function VisibleModels(category: string, query: string): (r: seq<AIModel>)
    ensures forall m :: m in r <==> m in AI_MODELS && m.category == category && Matches(m, query)
    ensures query == "" ==> r == ModelsByCategory(category)
  {
    var listed := ModelsByCategory(category);
    var r := Matching(listed, query);
    assert forall m :: m in r <==> m in listed && Matches(m, query);
    r
  }

  /** `models.some(...)`: some model of the list matches. */
  function AnyMatches(s: seq<AIModel>, query: string): (r: bool)
    ensures r <==> exists m :: m in s && Matches(m, query)
  {
    if |s| == 0 then false
    else
      assert s[0] in s;
      Matches(s[0], query) || (assert forall m :: m in s[1..] ==> m in s; AnyMatches(s[1..], query))
  }

  /** The categories of a list kept for a query. */
  function KeptCategories(categories: seq<string>, query: string): (r: seq<string>)
    ensures forall c :: c in r <==> c in categories && (query == "" || AnyMatches(ModelsByCategory(c), query))
  {
    if |categories| == 0 then []
    else if query == "" || AnyMatches(ModelsByCategory(categories[0]), query)
    then [categories[0]] + KeptCategories(categories[1..], query)
    else KeptCategories(categories[1..], query)
  }

  /** `filteredCategories`: the catalog categories kept for the query. */
  function FilteredCategories(query: string): (r: seq<string>)
    ensures forall c :: c in r ==> c in MODEL_CATEGORIES
  {
    KeptCategories(MODEL_CATEGORIES, query)
  }

  /** Some model of a list matches exactly when the list's matching models are not none. */
  lemma AnyMatchesIffMatching(s: seq<AIModel>, query: string)
    ensures AnyMatches(s, query) <==> Matching(s, query) != []
  {
    var v := Matching(s, query);
    if AnyMatches(s, query) {
      var m :| m in s && Matches(m, query);
      assert m in v;
    }
  }

  /** A category is kept exactly when the query is empty or it would list a model. */
  lemma FilteredCategoriesKept(query: string, c: string)
    ensures c in FilteredCategories(query)
            <==> c in MODEL_CATEGORIES && (query == "" || VisibleModels(c, query) != [])
  {
    AnyMatchesIffMatching(ModelsByCategory(c), query);
  }

  /** With an empty query every category is kept, in catalog order. */
  lemma EmptyQueryKeepsAll()
    ensures FilteredCategories("") == MODEL_CATEGORIES
  {
    KeptAll(MODEL_CATEGORIES);
  }

  /** With an empty query no category is filtered out. */
  lemma {:induction false} KeptAll(categories: seq<string>)
    ensures KeptCategories(categories, "") == categories
  {
    if |categories| > 0 {
      KeptAll(categories[1..]);
    }
  }

  /** The categories drawn: those kept whose list for the query is not empty. */
  function RenderedCategories(query: string): (r: seq<string>)
    ensures forall c :: c in r <==> c in MODEL_CATEGORIES && VisibleModels(c, query) != []
  {
    var kept := FilteredCategories(query);
    assert forall c :: c in kept <==> c in MODEL_CATEGORIES && (query == "" || VisibleModels(c, query) != []) by {
      forall c ensures c in kept <==> c in MODEL_CATEGORIES && (query == "" || VisibleModels(c, query) != []) {
        FilteredCategoriesKept(query, c);
      }
    }
    NonEmptyGroups(kept, query)
  }

  /** The categories of a list whose list of models for the query is not empty. */
  function NonEmptyGroups(categories: seq<string>, query: string): (r: seq<string>)
    ensures forall c :: c in r <==> c in categories && VisibleModels(c, query) != []
  {
    if |categories| == 0 then []
    else if VisibleModels(categories[0], query) != [] then [categories[0]] + NonEmptyGroups(categories[1..], query)
    else NonEmptyGroups(categories[1..], query)
  }
}
