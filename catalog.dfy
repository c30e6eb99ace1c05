/** The game records of the library page and the pure rules applied to them:
    the filter predicate, the sort orders, the card labels and the detail
    view's text. */
module Catalog {
  import opened Wrappers
  import opened Text
  import Dates

  /** One catalog entry. Only `title` is always present; every other field
      may be missing from the feed. */
  datatype Game = Game(
    id: int,
    title: string,
    thumbnail: Option<string>,
    shortDescription: Option<string>,
    gameUrl: Option<string>,
    genre: Option<string>,
    platform: Option<string>,
    publisher: Option<string>,
    releaseDate: Option<string>)

  function Sample(id: int, title: string, thumbnail: string, description: string, url: string,
                  genre: string, publisher: string, date: string): Game
  {
    Game(id, title, Some(thumbnail), Some(description), Some(url), Some(genre),
         Some("PC (Windows)"), Some(publisher), Some(date))
  }

  /** The fixed catalog shown when the feed cannot be loaded. */
  const SampleGames: seq<Game> := [
    Sample(1, "Call Of Duty: Warzone", "https://www.freetogame.com/g/452/thumbnail.jpg",
           "A standalone free-to-play battle royale and target extraction modes accessible via Call of Duty: Modern Warfare.",
           "https://www.freetogame.com/open/call-of-duty-warzone", "Shooter", "Activision", "2020-03-10"),
    Sample(2, "PUBG: BATTLEGROUNDS", "https://www.freetogame.com/g/516/thumbnail.jpg",
           "Get into the action in one of the longest running battle royale games PUBG Battlegrounds.",
           "https://www.freetogame.com/open/pubg", "Shooter", "KRAFTON, Inc.", "2022-01-12"),
    Sample(3, "Apex Legends", "https://www.freetogame.com/g/2/thumbnail.jpg",
           "A free-to-play strategic battle royale game featuring 60-player matches and team-based play.",
           "https://www.freetogame.com/open/apex-legends", "Shooter", "Electronic Arts", "2019-02-04"),
    Sample(4, "Fortnite", "https://www.freetogame.com/g/33/thumbnail.jpg",
           "A free-to-play Battle Royale game and target rich sandbox with fun building mechanics.",
           "https://www.freetogame.com/open/fortnite", "Shooter", "Epic Games", "2017-07-25"),
    Sample(5, "League of Legends", "https://www.freetogame.com/g/2/thumbnail.jpg",
           "One of the most popular MOBAs with a massive player base.",
           "https://www.freetogame.com/open/league-of-legends", "MOBA", "Riot Games", "2009-10-27"),
    Sample(6, "Valorant", "https://www.freetogame.com/g/21/thumbnail.jpg",
           "A 5v5 character-based tactical FPS from Riot Games.",
           "https://www.freetogame.com/open/valorant", "Shooter", "Riot Games", "2020-06-02")
  ]

  // ---------------------------------------------------------------------------
  // Filtering

  /** The three filter controls, already lower-cased. */
  datatype Query = Query(search: string, category: string, platform: string)

  /** Reads the search box, category and platform selects as the page does:
      each value lower-cased. */
  function ReadQuery(searchValue: string, categoryValue: string, platformValue: string): (q: Query)
    ensures |q.search| == |searchValue| && |q.category| == |categoryValue| && |q.platform| == |platformValue|
    ensures forall i :: 0 <= i < |q.search| ==> !('A' <= q.search[i] <= 'Z')
    ensures forall i :: 0 <= i < |q.category| ==> !('A' <= q.category[i] <= 'Z')
    ensures forall i :: 0 <= i < |q.platform| ==> !('A' <= q.platform[i] <= 'Z')
  {
    Query(Lower(searchValue), Lower(categoryValue), Lower(platformValue))
  }

  /** The lower-cased title includes the search term: an empty term accepts
      every record, and a term longer than the title accepts none. */
  predicate MatchesSearch(q: Query, g: Game)
    ensures q.search == [] ==> MatchesSearch(q, g)
    ensures MatchesSearch(q, g) ==> |q.search| <= |g.title|
  {
    Contains(Lower(g.title), q.search)
  }

  /** An empty category accepts everything; otherwise the genre must be
      present and contain it, case-insensitively. */
  predicate MatchesCategory(q: Query, g: Game)
    ensures q.category == [] ==> MatchesCategory(q, g)
    ensures MatchesCategory(q, g) && q.category != [] ==> g.genre.Some? && |q.category| <= |g.genre.value|
  {
    q.category == [] || (g.genre.Some? && Contains(Lower(g.genre.value), q.category))
  }

  /** An empty platform accepts everything; "pc" asks for "windows" in the
      platform text and "browser" for "browser"; any other value accepts nothing. */
  predicate MatchesPlatform(q: Query, g: Game)
    ensures q.platform == [] ==> MatchesPlatform(q, g)
    ensures MatchesPlatform(q, g) && q.platform != [] ==> g.platform.Some? && (q.platform == "pc" || q.platform == "browser")
  {
    q.platform == [] ||
    (q.platform == "pc" && g.platform.Some? && Contains(Lower(g.platform.value), "windows")) ||
    (q.platform == "browser" && g.platform.Some? && Contains(Lower(g.platform.value), "browser"))
  }

  /** A record is shown when it passes all three controls. An empty query
      accepts every record; a non-empty category or platform needs the record
      to carry that field, and only "pc" and "browser" are platform values. */
  predicate Matches(q: Query, g: Game)
    ensures q == Query([], [], []) ==> Matches(q, g)
    ensures Matches(q, g) && q.category != [] ==> g.genre.Some?
    ensures Matches(q, g) && q.platform != [] ==> g.platform.Some? && (q.platform == "pc" || q.platform == "browser")
  {
    MatchesSearch(q, g) && MatchesCategory(q, g) && MatchesPlatform(q, g)
  }

  /** The records of `all` that match `q`, in their original order. */
  function Filter(all: seq<Game>, q: Query): (r: seq<Game>)
    ensures forall i :: 0 <= i < |r| ==> Matches(q, r[i]) && r[i] in all
    ensures |r| <= |all|
  {
    if all == [] then []
    else
      (if Matches(q, all[0]) then [all[0]] else []) + Filter(all[1..], q)
  }

  /** `a` is `b` with some elements dropped, the rest kept in order. */
  predicate Subsequence(a: seq<Game>, b: seq<Game>)
    decreases |b|
  {
    a == [] || (b != [] && ((a[0] == b[0] && Subsequence(a[1..], b[1..])) || Subsequence(a, b[1..])))
  }

  lemma {:induction false} SubsequenceLength(a: seq<Game>, b: seq<Game>)
    requires Subsequence(a, b)
    ensures |a| <= |b|
    decreases |b|
  {
    if a != [] {
      if a[0] == b[0] && Subsequence(a[1..], b[1..]) {
        SubsequenceLength(a[1..], b[1..]);
      } else {
        SubsequenceLength(a, b[1..]);
      }
    }
  }

  /** The filter keeps the relative order of the records it keeps. */
  lemma {:induction false} FilterIsSubsequence(all: seq<Game>, q: Query)
    ensures Subsequence(Filter(all, q), all)
  {
    if all != [] {
      FilterIsSubsequence(all[1..], q);
      var r := Filter(all, q);
      if Matches(q, all[0]) {
        assert r[0] == all[0] && r[1..] == Filter(all[1..], q);
      } else {
        assert r == Filter(all[1..], q);
      }
    }
  }

  /** Every matching record is kept, as many times as it occurs; no other record is. */
  lemma {:induction false} FilterCounts(all: seq<Game>, q: Query, g: Game)
    ensures multiset(Filter(all, q))[g] == if Matches(q, g) then multiset(all)[g] else 0
  {
    if all != [] {
      FilterCounts(all[1..], q, g);
      assert all == [all[0]] + all[1..];
    }
  }

  /** The filter only ever drops records. */
  lemma FilterSubMultiset(all: seq<Game>, q: Query)
    ensures multiset(Filter(all, q)) <= multiset(all)
  {
    forall g
      ensures multiset(Filter(all, q))[g] <= multiset(all)[g]
    {
      FilterCounts(all, q, g);
    }
  }

  /** A record is shown exactly when it is in the catalog and matches. */
  lemma FilterMembership(all: seq<Game>, q: Query, g: Game)
    ensures g in Filter(all, q) <==> g in all && Matches(q, g)
  {
    FilterCounts(all, q, g);
  }

  /** With the search box, category and platform all empty, every record is shown in order. */
  lemma {:induction false} FilterEmptyQuery(all: seq<Game>)
    ensures Filter(all, ReadQuery("", "", "")) == all
  {
    var q := ReadQuery("", "", "");
    if all != [] {
      assert OccursAt(Lower(all[0].title), q.search, 0);
      FilterEmptyQuery(all[1..]);
      assert all == [all[0]] + all[1..];
    }
  }

  /** A query that accepts every record another accepts keeps a supersequence of its result. */
  lemma {:induction false} FilterWeaker(all: seq<Game>, q1: Query, q2: Query)
    requires forall g :: Matches(q1, g) ==> Matches(q2, g)
    ensures Subsequence(Filter(all, q1), Filter(all, q2))
  {
    if all != [] {
      FilterWeaker(all[1..], q1, q2);
      var r1, r2 := Filter(all, q1), Filter(all, q2);
      var t1, t2 := Filter(all[1..], q1), Filter(all[1..], q2);
      if Matches(q1, all[0]) {
        assert r1 == [all[0]] + t1 && r2 == [all[0]] + t2;
        assert r1[0] == r2[0] && r1[1..] == t1 && r2[1..] == t2;
      } else if Matches(q2, all[0]) {
        assert r1 == t1 && r2 == [all[0]] + t2 && r2[1..] == t2;
        SubsequenceDropHead(t1, t2, all[0]);
      } else {
        assert r1 == t1 && r2 == t2;
      }
    }
  }

  lemma SubsequenceDropHead(a: seq<Game>, b: seq<Game>, x: Game)
    requires Subsequence(a, b)
    ensures Subsequence(a, [x] + b)
  {
    assert ([x] + b)[1..] == b;
  }

  /** Clearing any one of the three filters never shrinks the result. */
  lemma RelaxingGrows(all: seq<Game>, q: Query)
    ensures Subsequence(Filter(all, q), Filter(all, q.(search := [])))
    ensures Subsequence(Filter(all, q), Filter(all, q.(category := [])))
    ensures Subsequence(Filter(all, q), Filter(all, q.(platform := [])))
    ensures |Filter(all, q)| <= |Filter(all, q.(search := []))|
    ensures |Filter(all, q)| <= |Filter(all, q.(category := []))|
    ensures |Filter(all, q)| <= |Filter(all, q.(platform := []))|
  {
    forall g | Matches(q, g)
      ensures Matches(q.(search := []), g)
    {
      assert OccursAt(Lower(g.title), [], 0);
    }
    FilterWeaker(all, q, q.(search := []));
    FilterWeaker(all, q, q.(category := []));
    FilterWeaker(all, q, q.(platform := []));
    SubsequenceLength(Filter(all, q), Filter(all, q.(search := [])));
    SubsequenceLength(Filter(all, q), Filter(all, q.(category := [])));
    SubsequenceLength(Filter(all, q), Filter(all, q.(platform := [])));
  }

  /** A record without a genre fails any category filter, and one without a
      platform fails any platform filter. */
  lemma MissingFieldsFail(q: Query, g: Game)
    ensures g.genre.None? && q.category != [] ==> !Matches(q, g)
    ensures g.platform.None? && q.platform != [] ==> !Matches(q, g)
  {
  }

  /** A platform value other than "", "pc" and "browser" shows nothing. */
  lemma {:induction false} UnknownPlatformMatchesNothing(all: seq<Game>, q: Query)
    requires q.platform !in {"", "pc", "browser"}
    ensures Filter(all, q) == []
  {
    if all != [] {
      UnknownPlatformMatchesNothing(all[1..], q);
    }
  }

  /** "PC (Windows)" is a PC platform and not a browser one. */
  lemma WindowsIsPc(g: Game)
    requires g.platform == Some("PC (Windows)")
    ensures MatchesPlatform(Query([], [], "pc"), g)
    ensures !MatchesPlatform(Query([], [], "browser"), g)
  {
    var lowered := Lower("PC (Windows)");
    assert lowered == "pc (windows)";
    assert OccursAt(lowered, "windows", 4);
    MissingFirstChar(lowered, "browser");
  }

  // ---------------------------------------------------------------------------
  // Sorting

  /** The sort select: "alphabetical", "release-date", "popularity", or
      anything else, which is relevance. */
  datatype SortOrder = Relevance | Alphabetical | ReleaseDate | Popularity

  function ReadSort(value: string): (o: SortOrder)
    ensures o == Alphabetical <==> value == "alphabetical"
    ensures o == ReleaseDate <==> value == "release-date"
    ensures o == Popularity <==> value == "popularity"
  {
    if value == "alphabetical" then Alphabetical
    else if value == "release-date" then ReleaseDate
    else if value == "popularity" then Popularity
    else Relevance
  }

  /** Whether `a` may come before `b`: titles ascending, or release dates
      descending. The orders that keep the feed's order put no constraint. */
  predicate Precedes(order: SortOrder, a: Game, b: Game)
    ensures order == Alphabetical && a.title == b.title ==> Precedes(order, a, b)
    ensures order == Alphabetical && a.title != [] && b.title != [] && a.title[0] > b.title[0] ==>
              !Precedes(order, a, b)
    ensures order == ReleaseDate && a.releaseDate == b.releaseDate ==> Precedes(order, a, b)
    ensures order == ReleaseDate && Dates.Rank(a.releaseDate) < Dates.Rank(b.releaseDate) ==>
              !Precedes(order, a, b)
    ensures order == Relevance || order == Popularity ==> Precedes(order, a, b)
  {
    LexLeReflexive(a.title);
    match order
    case Alphabetical => LexLe(a.title, b.title)
    case ReleaseDate => Dates.Rank(b.releaseDate) <= Dates.Rank(a.releaseDate)
    case _ => true
  }

  lemma PrecedesTotal(order: SortOrder, a: Game, b: Game)
    ensures Precedes(order, a, b) || Precedes(order, b, a)
  {
    if order == Alphabetical {
      LexLeTotal(a.title, b.title);
    }
  }

  lemma PrecedesTransitive(order: SortOrder, a: Game, b: Game, c: Game)
    requires Precedes(order, a, b) && Precedes(order, b, c)
    ensures Precedes(order, a, c)
  {
    if order == Alphabetical {
      LexLeTransitive(a.title, b.title, c.title);
    }
  }

  predicate Sorted(order: SortOrder, s: seq<Game>)
  {
    forall i, j :: 0 <= i < j < |s| ==> Precedes(order, s[i], s[j])
  }

  /** Puts `x` in front of the first record it may precede. */
  function Insert(order: SortOrder, x: Game, s: seq<Game>): (r: seq<Game>)
    ensures |r| == |s| + 1
    ensures multiset(r) == multiset(s) + multiset{x}
  {
    if s == [] || Precedes(order, x, s[0]) then [x] + s
    else
      assert s == [s[0]] + s[1..];
      [s[0]] + Insert(order, x, s[1..])
  }

  /** The comparator sort the page applies: a stable insertion sort. */
  function SortBy(order: SortOrder, s: seq<Game>): (r: seq<Game>)
    ensures |r| == |s|
    ensures multiset(r) == multiset(s)
  {
    if s == [] then []
    else
      assert s == [s[0]] + s[1..];
      Insert(order, s[0], SortBy(order, s[1..]))
  }

  /** A sorted list stays sorted behind a record that may precede each of its records. */
  lemma SortedCons(order: SortOrder, y: Game, t: seq<Game>)
    requires Sorted(order, t)
    requires forall j :: 0 <= j < |t| ==> Precedes(order, y, t[j])
    ensures Sorted(order, [y] + t)
  {
    var r := [y] + t;
    forall i, j | 0 <= i < j < |r|
      ensures Precedes(order, r[i], r[j])
    {
      assert r[j] == t[j - 1];
      if i > 0 {
        assert r[i] == t[i - 1];
      }
    }
  }

  /** The tail of a sorted list is sorted, and its head may precede all of it. */
  lemma SortedTail(order: SortOrder, s: seq<Game>)
    requires s != [] && Sorted(order, s)
    ensures Sorted(order, s[1..])
    ensures forall j :: 0 <= j < |s[1..]| ==> Precedes(order, s[0], s[1..][j])
  {
    forall i, j | 0 <= i < j < |s[1..]|
      ensures Precedes(order, s[1..][i], s[1..][j])
    {
      assert s[1..][i] == s[i + 1] && s[1..][j] == s[j + 1];
    }
    forall j | 0 <= j < |s[1..]|
      ensures Precedes(order, s[0], s[1..][j])
    {
      assert s[1..][j] == s[j + 1];
    }
  }

  /** A record that may precede `x` and every record of `s` may precede every record of the insertion. */
  lemma InsertBounded(order: SortOrder, y: Game, x: Game, s: seq<Game>)
    requires Precedes(order, y, x)
    requires forall j :: 0 <= j < |s| ==> Precedes(order, y, s[j])
    ensures forall j :: 0 <= j < |Insert(order, x, s)| ==> Precedes(order, y, Insert(order, x, s)[j])
  {
    var t := Insert(order, x, s);
    forall j | 0 <= j < |t|
      ensures Precedes(order, y, t[j])
    {
      assert t[j] in multiset(t);
      if t[j] != x {
        assert t[j] in multiset(s);
        var k :| 0 <= k < |s| && s[k] == t[j];
      }
    }
  }

  lemma {:induction false} InsertSorted(order: SortOrder, x: Game, s: seq<Game>)
    requires Sorted(order, s)
    ensures Sorted(order, Insert(order, x, s))
  {
    if s == [] || Precedes(order, x, s[0]) {
      assert Insert(order, x, s) == [x] + s;
      forall j | 0 <= j < |s|
        ensures Precedes(order, x, s[j])
      {
        if j > 0 {
          PrecedesTransitive(order, x, s[0], s[j]);
        }
      }
      SortedCons(order, x, s);
    } else {
      PrecedesTotal(order, x, s[0]);
      SortedTail(order, s);
      InsertSorted(order, x, s[1..]);
      InsertBounded(order, s[0], x, s[1..]);
      SortedCons(order, s[0], Insert(order, x, s[1..]));
      assert Insert(order, x, s) == [s[0]] + Insert(order, x, s[1..]);
    }
  }

  lemma {:induction false} SortBySorted(order: SortOrder, s: seq<Game>)
    ensures Sorted(order, SortBy(order, s))
  {
    if s != [] {
      SortBySorted(order, s[1..]);
      InsertSorted(order, s[0], SortBy(order, s[1..]));
    }
  }

  /** Records the order cannot tell apart from `g`. */
  predicate Tied(order: SortOrder, a: Game, g: Game)
  {
    Precedes(order, a, g) && Precedes(order, g, a)
  }

  /** The records of `s` tied with `g`, in order. */
  function Ties(order: SortOrder, s: seq<Game>, g: Game): (r: seq<Game>)
    ensures forall i :: 0 <= i < |r| ==> Tied(order, r[i], g)
  {
    if s == [] then []
    else (if Tied(order, s[0], g) then [s[0]] else []) + Ties(order, s[1..], g)
  }

  /** The ties of a list that starts with `x`: `x` when it is tied, then the ties of the rest. */
  lemma TiesCons(order: SortOrder, x: Game, t: seq<Game>, g: Game)
    ensures Ties(order, [x] + t, g) == (if Tied(order, x, g) then [x] else []) + Ties(order, t, g)
  {
    assert ([x] + t)[0] == x && ([x] + t)[1..] == t;
  }

  /** Moving `x` past a record `y` keeps the ties when `x` and `y` do not both tie. */
  lemma SwapTies(whole: seq<Game>, rest: seq<Game>, original: seq<Game>, ty: seq<Game>, tx: seq<Game>, t: seq<Game>)
    requires whole == ty + rest && rest == tx + t && original == ty + t
    requires ty == [] || tx == []
    ensures whole == tx + original
  {
  }

  lemma {:induction false} InsertTies(order: SortOrder, x: Game, s: seq<Game>, g: Game)
    ensures Ties(order, Insert(order, x, s), g) == (if Tied(order, x, g) then [x] else []) + Ties(order, s, g)
  {
    if s == [] || Precedes(order, x, s[0]) {
      assert Insert(order, x, s) == [x] + s;
      TiesCons(order, x, s, g);
    } else {
      var rest := Insert(order, x, s[1..]);
      assert Insert(order, x, s) == [s[0]] + rest;
      TiesCons(order, s[0], rest, g);
      HeadTail(s);
      TiesCons(order, s[0], s[1..], g);
      InsertTies(order, x, s[1..], g);
      // `x` goes after `s[0]`, so the two cannot both tie with `g`.
      if Tied(order, x, g) && Tied(order, s[0], g) {
        PrecedesTransitive(order, x, g, s[0]);
      }
      SwapTies(Ties(order, Insert(order, x, s), g), Ties(order, rest, g), Ties(order, s, g),
               if Tied(order, s[0], g) then [s[0]] else [], if Tied(order, x, g) then [x] else [],
               Ties(order, s[1..], g));
    }
  }

  /** Stability: records the order cannot tell apart keep their input order. */
  lemma {:induction false} SortByStable(order: SortOrder, s: seq<Game>, g: Game)
    ensures Ties(order, SortBy(order, s), g) == Ties(order, s, g)
  {
    if s != [] {
      SortByStable(order, s[1..], g);
      InsertTies(order, s[0], SortBy(order, s[1..]), g);
    }
  }

  /** The order the page shows the filtered records in. */
  function Arrange(order: SortOrder, s: seq<Game>): (r: seq<Game>)
    ensures |r| == |s|
    ensures multiset(r) == multiset(s)
    ensures order in {Relevance, Popularity} ==> r == s
  {
    match order
    case Alphabetical => SortBy(order, s)
    case ReleaseDate => SortBy(order, s)
    case _ => s
  }

  /** Reordering keeps every record's match with the query. */
  lemma ArrangeMatches(order: SortOrder, s: seq<Game>, q: Query)
    requires forall i :: 0 <= i < |s| ==> Matches(q, s[i])
    ensures forall i :: 0 <= i < |Arrange(order, s)| ==> Matches(q, Arrange(order, s)[i]) && Arrange(order, s)[i] in s
  {
    var r := Arrange(order, s);
    forall i | 0 <= i < |r|
      ensures Matches(q, r[i]) && r[i] in s
    {
      assert r[i] in multiset(r);
      assert r[i] in multiset(s);
      var j :| 0 <= j < |s| && s[j] == r[i];
    }
  }

  /** Alphabetical order lists titles ascending; release-date order lists
      the latest date first, with missing or invalid dates last. */
  lemma ArrangeSorted(order: SortOrder, s: seq<Game>)
    ensures Sorted(order, Arrange(order, s))
    ensures order == Alphabetical ==>
      forall i, j :: 0 <= i < j < |s| ==> LexLe(Arrange(order, s)[i].title, Arrange(order, s)[j].title)
    ensures order == ReleaseDate ==>
      forall i, j :: 0 <= i < j < |s| ==>
        Dates.Rank(Arrange(order, s)[j].releaseDate) <= Dates.Rank(Arrange(order, s)[i].releaseDate)
  {
    if order in {Alphabetical, ReleaseDate} {
      SortBySorted(order, s);
    }
  }

  /** Sorting twice is sorting once. */
  lemma {:induction false} SortByIdempotent(order: SortOrder, s: seq<Game>)
    ensures SortBy(order, SortBy(order, s)) == SortBy(order, s)
  {
    SortBySorted(order, s);
    SortedFixed(order, SortBy(order, s));
  }

  /** A sorted sequence is left as it is. */
  lemma {:induction false} SortedFixed(order: SortOrder, s: seq<Game>)
    requires Sorted(order, s)
    ensures SortBy(order, s) == s
  {
    if s != [] {
      SortedFixed(order, s[1..]);
      assert SortBy(order, s[1..]) == s[1..];
    }
  }

  /** What the grid shows for the current controls. */
  function Visible(all: seq<Game>, searchValue: string, categoryValue: string, platformValue: string,
                   sortValue: string): (v: seq<Game>)
    ensures multiset(v) == multiset(Filter(all, ReadQuery(searchValue, categoryValue, platformValue)))
    ensures |v| <= |all|
  {
    Arrange(ReadSort(sortValue), Filter(all, ReadQuery(searchValue, categoryValue, platformValue)))
  }

  /** The shown records all match the controls and come from the catalog;
      they are the filter's records, reordered as the sort select asks. */
  lemma VisibleSpec(all: seq<Game>, searchValue: string, categoryValue: string, platformValue: string,
                    sortValue: string)
    ensures var v := Visible(all, searchValue, categoryValue, platformValue, sortValue);
            var q := ReadQuery(searchValue, categoryValue, platformValue);
            (forall i :: 0 <= i < |v| ==> Matches(q, v[i]) && v[i] in all) &&
            multiset(v) == multiset(Filter(all, q)) &&
            Sorted(ReadSort(sortValue), v)
  {
    var q := ReadQuery(searchValue, categoryValue, platformValue);
    var order := ReadSort(sortValue);
    var f := Filter(all, q);
    ArrangeSorted(order, f);
    ArrangeMatches(order, f, q);
    var v := Arrange(order, f);
    forall i | 0 <= i < |v|
      ensures v[i] in all
    {
      var j :| 0 <= j < |f| && f[j] == v[i];
    }
  }

  // ---------------------------------------------------------------------------
  // Cards and the detail view

  /** JavaScript's `value || fallback` on an optional string: a missing or
      empty value gives the fallback. */
  function OrElse(value: Option<string>, fallback: string): (r: string)
    ensures value.Some? && value.value != [] ==> r == value.value
    ensures value.None? || value.value == [] ==> r == fallback
  {
    if value.Some? && value.value != [] then value.value else fallback
  }

  /** The card's platform badge. */
  function PlatformBadge(platform: Option<string>): (r: string)
    ensures r == "Browser" <==> platform.Some? && Contains(platform.value, "Browser")
    ensures r == "PC" <==> !(platform.Some? && Contains(platform.value, "Browser"))
  {
    if platform.Some? && Contains(platform.value, "Browser") then "Browser" else "PC"
  }

  /** One card of the grid: the record it opens and the labels it shows. */
  datatype Card = Card(game: Game, badge: string, genreLabel: string)

  function CardOf(g: Game): (c: Card)
    ensures c.game == g && c.badge in {"Browser", "PC"} && c.genreLabel != []
  {
    Card(g, PlatformBadge(g.platform), OrElse(g.genre, "Game"))
  }

  /** The badge reads "Browser" exactly when the platform text contains
      "Browser" (case-sensitive), and "PC" otherwise, also when the platform is
      missing; the genre label is the genre, or "Game" when it is missing or empty. */
  lemma CardLabels(g: Game)
    ensures CardOf(g).badge == "Browser" <==> g.platform.Some? && Contains(g.platform.value, "Browser")
    ensures CardOf(g).badge == "PC" <==> !(g.platform.Some? && Contains(g.platform.value, "Browser"))
    ensures g.platform.None? ==> CardOf(g).badge == "PC"
    ensures g.genre.None? ==> CardOf(g).genreLabel == "Game"
    ensures g.genre.Some? && g.genre.value != [] ==> CardOf(g).genreLabel == g.genre.value
  {
  }

  /** The cards for `games`, one per record, in order. */
  function Cards(games: seq<Game>): (cs: seq<Card>)
    ensures |cs| == |games|
    ensures forall i :: 0 <= i < |games| ==> cs[i] == CardOf(games[i])
  {
    seq(|games|, i requires 0 <= i < |games| => CardOf(games[i]))
  }

  const NoDescription: string := "لا يوجد وصف متاح"
  const Unspecified: string := "غير محدد"
  const PurchasePage: string := "purchase.html"

  /** What the detail view shows for one record. */
  datatype Details = Details(
    image: Option<string>,
    title: string,
    description: string,
    genre: string,
    platform: string,
    publisher: string,
    release: string,
    link: string)

  function DetailsOf(g: Game): (d: Details)
    ensures d.image == g.thumbnail && d.title == g.title && d.link == PurchasePage
    ensures d.description != [] && d.genre != [] && d.platform != [] && d.publisher != [] && d.release != []
  {
    Details(g.thumbnail, g.title, OrElse(g.shortDescription, NoDescription), OrElse(g.genre, Unspecified),
            OrElse(g.platform, Unspecified), OrElse(g.publisher, Unspecified), OrElse(g.releaseDate, Unspecified),
            PurchasePage)
  }

  /** Each present, non-empty field of the detail view is shown as it is, and
      each missing or empty one gets its fixed default text. */
  lemma DetailsDefaults(g: Game)
    ensures g.shortDescription.Some? && g.shortDescription.value != [] ==>
              DetailsOf(g).description == g.shortDescription.value
    ensures g.genre.Some? && g.genre.value != [] ==> DetailsOf(g).genre == g.genre.value
    ensures g.platform.Some? && g.platform.value != [] ==> DetailsOf(g).platform == g.platform.value
    ensures g.publisher.Some? && g.publisher.value != [] ==> DetailsOf(g).publisher == g.publisher.value
    ensures g.releaseDate.Some? && g.releaseDate.value != [] ==> DetailsOf(g).release == g.releaseDate.value
    ensures g.shortDescription.None? || g.shortDescription.value == [] ==> DetailsOf(g).description == NoDescription
    ensures g.genre.None? || g.genre.value == [] ==> DetailsOf(g).genre == Unspecified
    ensures g.platform.None? || g.platform.value == [] ==> DetailsOf(g).platform == Unspecified
    ensures g.publisher.None? || g.publisher.value == [] ==> DetailsOf(g).publisher == Unspecified
    ensures g.releaseDate.None? || g.releaseDate.value == [] ==> DetailsOf(g).release == Unspecified
  {
  }

  // ---------------------------------------------------------------------------
  // Filtering pieces of a catalog

  /** Filtering `a + b` decides `a`'s first record, then filters the rest of `a` followed by `b`. */
  lemma FilterAppendStep(a: seq<Game>, b: seq<Game>, q: Query)
    requires a != []
    ensures Filter(a + b, q) == (if Matches(q, a[0]) then [a[0]] else []) + Filter(a[1..] + b, q)
  {
    assert (a + b)[0] == a[0] && (a + b)[1..] == a[1..] + b;
  }

  lemma HeadTail(s: seq<Game>)
    requires s != []
    ensures s == [s[0]] + s[1..]
  {
  }

  lemma AppendAssoc(x: seq<Game>, y: seq<Game>, z: seq<Game>)
    ensures x + (y + z) == (x + y) + z
  {
  }

  lemma {:induction false} FilterAppend(a: seq<Game>, b: seq<Game>, q: Query)
    ensures Filter(a + b, q) == Filter(a, q) + Filter(b, q)
  {
    if a == [] {
      assert a + b == b;
    } else {
      FilterAppend(a[1..], b, q);
      FilterAppendStep(a, b, q);
      AppendAssoc(if Matches(q, a[0]) then [a[0]] else [], Filter(a[1..], q), Filter(b, q));
    }
  }

  lemma {:induction false} FilterNoneMatch(all: seq<Game>, q: Query)
    requires forall i :: 0 <= i < |all| ==> !Matches(q, all[i])
    ensures Filter(all, q) == []
  {
    if all != [] {
      FilterNoneMatch(all[1..], q);
    }
  }
}
