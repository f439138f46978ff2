/** The dashboard's world list: a fixed list of mock worlds, filtered by a
    case-insensitive search on name and owner, rendered as one card per world
    or as an empty state. */
module MainScreen {
  import opened Types
  import opened Text

  const MockWorlds: seq<World> := [
    World("1", "My World - v1.20.81.2", "1.20.81.2", "liteamaze", 4, 5, true),
    World("2", "Adventure World", "1.20.80.1", "gamemaster", 2, 8, true),
    World("3", "Creative Build", "1.20.79.5", "builder123", 0, 10, false)
  ]

  /** No two worlds share an id (the ids are the cards' render keys). */
  ghost predicate DistinctIds(worlds: seq<World>) {
    forall i, j :: 0 <= i < j < |worlds| ==> worlds[i].id != worlds[j].id
  }

  /** `a` is `b` with some elements left out, the rest in their original order. */
  ghost predicate Subsequence(a: seq<World>, b: seq<World>)
    decreases |b|
  {
    if b == [] then a == []
    else (a != [] && a[0] == b[0] && Subsequence(a[1..], b[1..])) || Subsequence(a, b[1..])
  }

  /** The filter's test: the lower-cased name or the lower-cased owner contains
      the lower-cased query. */
  predicate Matches(world: World, query: string) {
    Includes(ToLower(world.name), ToLower(query)) || Includes(ToLower(world.username), ToLower(query))
  }

  /** `worlds.filter(world => Matches(world, query))`: exactly the matching
      worlds, each as often as in `worlds`, in their original order. */
  function FilterMatching(worlds: seq<World>, query: string): (r: seq<World>)
    ensures forall w :: w in r <==> w in worlds && Matches(w, query)
    ensures forall w :: multiset(r)[w] == if Matches(w, query) then multiset(worlds)[w] else 0
    ensures Subsequence(r, worlds)
    decreases |worlds|
  {
    if worlds == [] then []
    else
      var rest := FilterMatching(worlds[1..], query);
      assert forall w :: w in worlds <==> w == worlds[0] || w in worlds[1..];
      assert worlds == [worlds[0]] + worlds[1..];
      assert multiset(worlds) == multiset{worlds[0]} + multiset(worlds[1..]);
      if Matches(worlds[0], query) then
        assert ([worlds[0]] + rest)[1..] == rest;
        [worlds[0]] + rest
      else rest
  }

  /** Every list is a subsequence of itself. */
  lemma {:induction false} SubsequenceReflexive(worlds: seq<World>)
    ensures Subsequence(worlds, worlds)
    decreases |worlds|
  {
    if worlds != [] {
      SubsequenceReflexive(worlds[1..]);
    }
  }

  /** The list the effect stores for a query: everything for a blank query,
      and otherwise the worlds the untrimmed query matches. */
  function SearchWorlds(worlds: seq<World>, query: string): (r: seq<World>)
    ensures IsBlank(query) ==> r == worlds
    ensures !IsBlank(query) ==> forall w :: w in r <==> w in worlds && Matches(w, query)
    ensures !IsBlank(query) ==> forall w :: multiset(r)[w] == if Matches(w, query) then multiset(worlds)[w] else 0
    ensures Subsequence(r, worlds)
  {
    if IsBlank(query) then
      SubsequenceReflexive(worlds);
      worlds
    else FilterMatching(worlds, query)
  }

  /** Unfolds the definition of `SearchWorlds` into its two branches for the
      verifier, where the effect takes them one at a time; it states no
      property of its own. */
  lemma SearchWorldsCases(worlds: seq<World>, query: string)
    ensures SearchWorlds(worlds, query) == if IsBlank(query) then worlds else FilterMatching(worlds, query)
  {
  }

  /** Two queries that differ only in letter case give the same list. */
  lemma SearchIgnoresCase(worlds: seq<World>, q1: string, q2: string)
    requires ToLower(q1) == ToLower(q2)
    ensures SearchWorlds(worlds, q1) == SearchWorlds(worlds, q2)
  {
    ToLowerKeepsBlank(q1);
    ToLowerKeepsBlank(q2);
    FilterSameQuery(worlds, q1, q2);
  }

  lemma {:induction false} FilterSameQuery(worlds: seq<World>, q1: string, q2: string)
    requires ToLower(q1) == ToLower(q2)
    ensures FilterMatching(worlds, q1) == FilterMatching(worlds, q2)
    decreases |worlds|
  {
    if worlds != [] {
      FilterSameQuery(worlds[1..], q1, q2);
    }
  }

  /** Leaving elements out keeps the ids distinct. */
  lemma {:induction false} SubsequenceKeepsDistinctIds(a: seq<World>, b: seq<World>)
    requires Subsequence(a, b) && DistinctIds(b)
    ensures DistinctIds(a)
    ensures forall w :: w in a ==> w in b
    decreases |b|
  {
    if b != [] {
      if a != [] && a[0] == b[0] && Subsequence(a[1..], b[1..]) {
        SubsequenceKeepsDistinctIds(a[1..], b[1..]);
        forall j | 0 < j < |a| ensures a[0].id != a[j].id {
          assert a[j] == a[1..][j - 1];
          assert a[j] in a[1..];
          assert a[j] in b[1..];
          var k :| 0 <= k < |b[1..]| && b[1..][k] == a[j];
          assert b[k + 1] == a[j];
        }
        forall w | w in a ensures w in b {
          if w != a[0] {
            assert w in a[1..];
          }
        }
      } else {
        SubsequenceKeepsDistinctIds(a, b[1..]);
      }
    }
  }

  lemma MockIdsDistinct()
    ensures DistinctIds(MockWorlds)
  {
  }

  /** What the list section shows: the empty state, or one card per world,
      keyed by its id. */
  datatype WorldsView = NoWorldsFound | WorldCards(keys: seq<string>)

  function Ids(worlds: seq<World>): (ids: seq<string>)
    ensures |ids| == |worlds|
    ensures forall i :: 0 <= i < |worlds| ==> ids[i] == worlds[i].id
  {
    if worlds == [] then [] else [worlds[0].id] + Ids(worlds[1..])
  }

  /** The empty state is shown exactly for an empty list; otherwise one card
      per world, in list order. */
  function RenderWorlds(filtered: seq<World>): (v: WorldsView)
    ensures v.NoWorldsFound? <==> |filtered| == 0
    ensures v.WorldCards? ==> |v.keys| == |filtered| && forall i :: 0 <= i < |filtered| ==> v.keys[i] == filtered[i].id
  {
    if |filtered| > 0 then WorldCards(Ids(filtered)) else NoWorldsFound
  }

  /** Whatever is typed into the search box, the cards shown have distinct keys. */
  lemma RenderedKeysDistinct(query: string)
    ensures var v := RenderWorlds(SearchWorlds(MockWorlds, query));
      v.WorldCards? ==> forall i, j :: 0 <= i < j < |v.keys| ==> v.keys[i] != v.keys[j]
  {
    MockIdsDistinct();
    SubsequenceKeepsDistinctIds(SearchWorlds(MockWorlds, query), MockWorlds);
  }

  /** The screen's state: the search text and the list derived from it. */
  class MainScreenState {
    var searchQuery: string
    var filteredWorlds: seq<World>

    /** The effect has run for the current query. */
    ghost predicate Valid()
      reads this
    {
      filteredWorlds == SearchWorlds(MockWorlds, searchQuery)
    }

    constructor ()
      ensures Valid() && searchQuery == "" && filteredWorlds == MockWorlds
    {
      searchQuery := "";
      filteredWorlds := MockWorlds;
    }

    /** `setSearchQuery(query)` followed by the effect that re-filters. */
    method SetSearchQuery(query: string)
      modifies this
      ensures Valid()
      ensures searchQuery == query
      ensures filteredWorlds == SearchWorlds(MockWorlds, query)
    {
      searchQuery := query;
      SearchWorldsCases(MockWorlds, query);
      if IsBlank(searchQuery) {
        filteredWorlds := MockWorlds;
      } else {
        filteredWorlds := FilterMatching(MockWorlds, searchQuery);
      }
    }

    /** The list section as rendered from the current state: while the effect
        has run for the current query, the cards shown have distinct keys. */
    function Rendered(): (v: WorldsView)
      requires Valid()
      reads this
      ensures v.NoWorldsFound? <==> |filteredWorlds| == 0
      ensures v.WorldCards? ==> forall i, j :: 0 <= i < j < |v.keys| ==> v.keys[i] != v.keys[j]
    {
      RenderedKeysDistinct(searchQuery);
      RenderWorlds(filteredWorlds)
    }
  }
}
