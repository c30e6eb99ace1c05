/** Worked examples: the filter run on the fixed fallback catalog. */
module Scenarios {
  import opened Wrappers
  import opened Text
  import opened Catalog
  import Dates

  /** The fallback catalog: six records numbered 1 to 6, all on "PC (Windows)",
      every optional field present, and every release date well-formed, so the
      release-date order is fully determined on it. */
  lemma SampleCatalog()
    ensures |SampleGames| == 6
    ensures forall i :: 0 <= i < |SampleGames| ==>
              SampleGames[i].id == i + 1 && SampleGames[i].platform == Some("PC (Windows)") &&
              SampleGames[i].thumbnail.Some? && SampleGames[i].shortDescription.Some? &&
              SampleGames[i].gameUrl.Some? && SampleGames[i].genre.Some? && SampleGames[i].publisher.Some?
    ensures forall i :: 0 <= i < |SampleGames| ==> Dates.Rank(SampleGames[i].releaseDate) >= 0
  {
  }

  /** The search "valo" rejects the first five records of the fallback catalog and keeps Valorant. */
  lemma ValoRejects0()
    ensures !Matches(Query("valo", "", ""), SampleGames[0])
  {
    MissingFirstChar(Lower(SampleGames[0].title), "valo");
  }

  lemma ValoRejects1()
    ensures !Matches(Query("valo", "", ""), SampleGames[1])
  {
    MissingFirstChar(Lower(SampleGames[1].title), "valo");
  }

  lemma ValoRejects2()
    ensures !Matches(Query("valo", "", ""), SampleGames[2])
  {
    MissingFirstChar(Lower(SampleGames[2].title), "valo");
  }

  lemma ValoRejects3()
    ensures !Matches(Query("valo", "", ""), SampleGames[3])
  {
    MissingFirstChar(Lower(SampleGames[3].title), "valo");
  }

  lemma ValoRejects4()
    ensures !Matches(Query("valo", "", ""), SampleGames[4])
  {
    MissingFirstChar(Lower(SampleGames[4].title), "valo");
  }

  lemma ValoKeeps5()
    ensures Matches(Query("valo", "", ""), SampleGames[5])
  {
    assert OccursAt(Lower(SampleGames[5].title), "valo", 0);
    assert OccursAt(Lower(SampleGames[5].genre.value), "", 0);
  }

  /** Searching the fallback catalog for "valo" shows only Valorant. */
  lemma SampleSearchValo()
    ensures Visible(SampleGames, "valo", "", "", "relevance") == [SampleGames[5]]
    ensures SampleGames[5].title == "Valorant"
  {
    var q := Query("valo", "", "");
    assert ReadQuery("valo", "", "") == q;
    ValoKeeps5();
    var front := SampleGames[..5];
    forall i | 0 <= i < 5
      ensures !Matches(q, front[i])
    {
      if i == 0 { ValoRejects0(); }
      else if i == 1 { ValoRejects1(); }
      else if i == 2 { ValoRejects2(); }
      else if i == 3 { ValoRejects3(); }
      else { ValoRejects4(); }
    }
    FilterNoneMatch(front, q);
    assert Filter([SampleGames[5]], q) == [SampleGames[5]];
    assert SampleGames == front + [SampleGames[5]];
    FilterAppend(front, [SampleGames[5]], q);
  }

  /** The category "moba" keeps League of Legends and rejects every Shooter. */
  lemma MobaKeeps4()
    ensures Matches(Query("", "moba", ""), SampleGames[4])
  {
    assert OccursAt(Lower(SampleGames[4].title), "", 0);
    assert OccursAt(Lower(SampleGames[4].genre.value), "moba", 0);
  }

  lemma MobaRejectsShooters(i: nat)
    requires i < |SampleGames| && i != 4
    ensures !Matches(Query("", "moba", ""), SampleGames[i])
  {
    assert SampleGames[i].genre == Some("Shooter");
    MissingFirstChar(Lower("Shooter"), "moba");
  }

  /** Choosing the "moba" category on the fallback catalog shows only League of Legends. */
  lemma SampleCategoryMoba()
    ensures Visible(SampleGames, "", "moba", "", "relevance") == [SampleGames[4]]
    ensures SampleGames[4].title == "League of Legends"
  {
    var q := Query("", "moba", "");
    assert ReadQuery("", "moba", "") == q;
    MobaKeeps4();
    var front, back := SampleGames[..4], SampleGames[5..];
    forall i | 0 <= i < 4
      ensures !Matches(q, front[i])
    {
      MobaRejectsShooters(i);
    }
    MobaRejectsShooters(5);
    assert back == [SampleGames[5]];
    FilterNoneMatch(front, q);
    FilterNoneMatch(back, q);
    assert Filter([SampleGames[4]], q) == [SampleGames[4]];
    assert SampleGames == front + [SampleGames[4]] + back;
    FilterAppend(front + [SampleGames[4]], back, q);
    FilterAppend(front, [SampleGames[4]], q);
  }
}
