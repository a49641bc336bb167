/** The two computations of the episodes that a series in Emby lacks: the cheap count shown on a search
    card, and the list that a request for missing episodes is made of. */
module Episodes {
  import opened Domain
  import opened Totals

  /** A season of the catalogue; whether it has aired is decided by its air date and the clock. */
  datatype Season = Season(number: int, episodeCount: int, aired: bool)

  // ----- one season -----

  function Have(collected: map<int, set<int>>, season: int): set<int> {
    if season in collected then collected[season] else {}
  }

  predicate Underfilled(collected: map<int, set<int>>, season: Season) {
    season.aired && |Have(collected, season.number)| < season.episodeCount
  }

  function Shortfall(collected: map<int, set<int>>, season: Season): nat {
    if Underfilled(collected, season) then season.episodeCount - |Have(collected, season.number)| else 0
  }

  /** The expected episodes that Emby lacks, in the catalogue's order. */
  function Gap(expected: seq<int>, have: set<int>): seq<int> {
    if expected == [] then []
    else
      var earlier, last := Gap(expected[..|expected| - 1], have), expected[|expected| - 1];
      if last in have then earlier else earlier + [last]
  }

  lemma {:induction false} GapHolds(expected: seq<int>, have: set<int>, e: int)
    ensures e in Gap(expected, have) <==> e in expected && e !in have
  {
    if expected != [] {
      var front, last := expected[..|expected| - 1], expected[|expected| - 1];
      GapHolds(front, have, e);
      assert expected == front + [last];
    }
  }

  ghost predicate Distinct(expected: seq<int>) {
    forall i, j :: 0 <= i < j < |expected| ==> expected[i] != expected[j]
  }

  function Elements(expected: seq<int>): set<int> {
    set e | e in expected
  }

  lemma {:induction false} GapSize(expected: seq<int>, have: set<int>)
    requires Distinct(expected)
    ensures |Gap(expected, have)| + |Elements(expected) * have| == |expected|
  {
    if expected != [] {
      var front, last := expected[..|expected| - 1], expected[|expected| - 1];
      assert expected == front + [last];
      assert last !in front;
      GapSize(front, have);
      assert Elements(expected) == Elements(front) + {last};
      if last in have {
        assert Elements(expected) * have == (Elements(front) * have) + {last};
      } else {
        assert Elements(expected) * have == Elements(front) * have;
      }
    }
  }

  lemma ProperPart(part: set<int>, whole: set<int>)
    requires part <= whole
    ensures |part| <= |whole| && (|part| == |whole| <==> part == whole)
  {
    assert whole == part + (whole - part);
  }

  /** For one season the list is at least as long as the shortfall, and exactly as long when all that
      Emby has of the season is in the catalogue. */
  lemma GapCoversShortfall(expected: seq<int>, have: set<int>)
    requires Distinct(expected)
    ensures |Gap(expected, have)| >= |expected| - |have|
    ensures |Gap(expected, have)| == |expected| - |have| <==> have <= Elements(expected)
  {
    GapSize(expected, have);
    ProperPart(Elements(expected) * have, have);
  }

  // ----- a series -----

  function Count(collected: map<int, set<int>>, seasons: seq<Season>): nat {
    if seasons == [] then 0 else Count(collected, seasons[..|seasons| - 1]) + Shortfall(collected, seasons[|seasons| - 1])
  }

  method MissingEpisodeCount(collected: map<int, set<int>>, seasons: seq<Season>) returns (total: int)
    ensures total == Count(collected, seasons)
  {
    total := 0;
    for i := 0 to |seasons|
      invariant total == Count(collected, seasons[..i])
    {
      var season := seasons[i];
      assert seasons[..i + 1][..i] == seasons[..i];
      if !season.aired {
        continue;
      }
      var inEmby := |Have(collected, season.number)|;
      if inEmby < season.episodeCount {
        total := total + season.episodeCount - inEmby;
      }
    }
    assert seasons[..|seasons|] == seasons;
  }

  /** Only a season whose episode list the catalogue returns can be listed. */
  predicate Lists(collected: map<int, set<int>>, catalogue: map<int, seq<int>>, season: Season) {
    Underfilled(collected, season) && season.number in catalogue
  }

  function GapOf(collected: map<int, set<int>>, catalogue: map<int, seq<int>>, season: Season): seq<int>
    requires season.number in catalogue
  {
    Gap(catalogue[season.number], Have(collected, season.number))
  }

  function Listed(collected: map<int, set<int>>, catalogue: map<int, seq<int>>, seasons: seq<Season>): map<int, seq<int>> {
    if seasons == [] then map[]
    else
      var earlier, season := Listed(collected, catalogue, seasons[..|seasons| - 1]), seasons[|seasons| - 1];
      if Lists(collected, catalogue, season) && GapOf(collected, catalogue, season) != [] then
        earlier[season.number := GapOf(collected, catalogue, season)]
      else earlier
  }

  method GapIn(expected: seq<int>, have: set<int>) returns (gap: seq<int>)
    ensures gap == Gap(expected, have)
  {
    gap := [];
    for i := 0 to |expected|
      invariant gap == Gap(expected[..i], have)
    {
      assert expected[..i + 1][..i] == expected[..i];
      if expected[i] !in have {
        gap := gap + [expected[i]];
      }
    }
    assert expected[..|expected|] == expected;
  }

  method MissingEpisodeDetails(collected: map<int, set<int>>, catalogue: map<int, seq<int>>, seasons: seq<Season>)
    returns (missing: map<int, seq<int>>)
    ensures missing == Listed(collected, catalogue, seasons)
  {
    missing := map[];
    for i := 0 to |seasons|
      invariant missing == Listed(collected, catalogue, seasons[..i])
    {
      var season := seasons[i];
      assert seasons[..i + 1][..i] == seasons[..i];
      if !season.aired {
        continue;
      }
      if |Have(collected, season.number)| >= season.episodeCount {
        continue;
      }
      if season.number !in catalogue {
        continue;
      }
      var gap := GapIn(catalogue[season.number], Have(collected, season.number));
      if |gap| > 0 {
        missing := missing[season.number := gap];
      }
    }
    assert seasons[..|seasons|] == seasons;
  }

  ghost predicate DistinctSeasons(seasons: seq<Season>) {
    forall i, j :: 0 <= i < j < |seasons| ==> seasons[i].number != seasons[j].number
  }

  /** The list holds exactly the gaps of the under-filled seasons that can be enumerated, each of them
      whole. */
  lemma {:induction false} ListedExactly(collected: map<int, set<int>>, catalogue: map<int, seq<int>>, seasons: seq<Season>, i: nat)
    requires DistinctSeasons(seasons) && i < |seasons|
    ensures var season, missing := seasons[i], Listed(collected, catalogue, seasons);
      && (season.number in missing <==> Lists(collected, catalogue, season) && GapOf(collected, catalogue, season) != [])
      && (season.number in missing ==> missing[season.number] == GapOf(collected, catalogue, season))
  {
    var front, last := seasons[..|seasons| - 1], seasons[|seasons| - 1];
    if i < |front| {
      ListedExactly(collected, catalogue, front, i);
      assert seasons[i].number != last.number;
    } else {
      if last.number in Listed(collected, catalogue, front) {
        ListedNumbers(collected, catalogue, front, last.number);
      }
    }
  }

  lemma {:induction false} ListedNumbers(collected: map<int, set<int>>, catalogue: map<int, seq<int>>, seasons: seq<Season>, n: int)
    requires n in Listed(collected, catalogue, seasons)
    ensures exists i :: 0 <= i < |seasons| && seasons[i].number == n && Lists(collected, catalogue, seasons[i])
  {
    var front, last := seasons[..|seasons| - 1], seasons[|seasons| - 1];
    if n in Listed(collected, catalogue, front) {
      ListedNumbers(collected, catalogue, front, n);
      var i :| 0 <= i < |front| && front[i].number == n && Lists(collected, catalogue, front[i]);
      assert seasons[i] == front[i];
    } else {
      assert seasons[|front|] == last;
    }
  }

  // ----- the two agree -----

  /** The catalogue lists each season without repetition and in full. */
  ghost predicate Faithful(collected: map<int, set<int>>, catalogue: map<int, seq<int>>, seasons: seq<Season>) {
    forall i :: 0 <= i < |seasons| && Lists(collected, catalogue, seasons[i]) ==>
      Distinct(catalogue[seasons[i].number]) && |catalogue[seasons[i].number]| == seasons[i].episodeCount
  }

  ghost predicate AllEnumerable(collected: map<int, set<int>>, catalogue: map<int, seq<int>>, seasons: seq<Season>) {
    forall i :: 0 <= i < |seasons| && Underfilled(collected, seasons[i]) ==> seasons[i].number in catalogue
  }

  /** Whatever Emby has of the listed seasons is in the catalogue. */
  ghost predicate NothingUnknown(collected: map<int, set<int>>, catalogue: map<int, seq<int>>, seasons: seq<Season>) {
    forall i :: 0 <= i < |seasons| && Lists(collected, catalogue, seasons[i]) ==>
      Have(collected, seasons[i].number) <= Elements(catalogue[seasons[i].number])
  }

  // The part of the count that comes from seasons that can be enumerated.
  function CountListed(collected: map<int, set<int>>, catalogue: map<int, seq<int>>, seasons: seq<Season>): nat {
    if seasons == [] then 0
    else
      var season := seasons[|seasons| - 1];
      CountListed(collected, catalogue, seasons[..|seasons| - 1]) + if Lists(collected, catalogue, season) then Shortfall(collected, season) else 0
  }

  lemma {:induction false} CountSplits(collected: map<int, set<int>>, catalogue: map<int, seq<int>>, seasons: seq<Season>)
    ensures CountListed(collected, catalogue, seasons) <= Count(collected, seasons)
    ensures CountListed(collected, catalogue, seasons) == Count(collected, seasons) <==> AllEnumerable(collected, catalogue, seasons)
    ensures Count(collected, seasons) > 0 <==> exists i :: 0 <= i < |seasons| && Underfilled(collected, seasons[i])
  {
    if seasons != [] {
      var front, last := seasons[..|seasons| - 1], seasons[|seasons| - 1];
      CountSplits(collected, catalogue, front);
      assert forall i :: 0 <= i < |front| ==> seasons[i] == front[i];
      assert seasons[|front|] == last;
      assert AllEnumerable(collected, catalogue, seasons) <==>
        AllEnumerable(collected, catalogue, front) && (Underfilled(collected, last) ==> last.number in catalogue);
    }
  }

  function Length(): seq<int> -> int {
    (gap: seq<int>) => |gap|
  }

  lemma {:induction false} ListedSize(collected: map<int, set<int>>, catalogue: map<int, seq<int>>, seasons: seq<Season>)
    requires DistinctSeasons(seasons) && Faithful(collected, catalogue, seasons)
    ensures var size := Total(Listed(collected, catalogue, seasons), Length());
      && size >= CountListed(collected, catalogue, seasons)
      && (size == CountListed(collected, catalogue, seasons) <==> NothingUnknown(collected, catalogue, seasons))
  {
    if seasons != [] {
      var front, season := seasons[..|seasons| - 1], seasons[|seasons| - 1];
      assert forall i :: 0 <= i < |front| ==> seasons[i] == front[i];
      assert seasons[|front|] == season;
      ListedSize(collected, catalogue, front);
      assert NothingUnknown(collected, catalogue, seasons) <==>
        NothingUnknown(collected, catalogue, front) &&
        (Lists(collected, catalogue, season) ==> Have(collected, season.number) <= Elements(catalogue[season.number]));
      if Lists(collected, catalogue, season) {
        var gap := GapOf(collected, catalogue, season);
        GapCoversShortfall(catalogue[season.number], Have(collected, season.number));
        assert gap != [];
        var earlier := Listed(collected, catalogue, front);
        if season.number in earlier {
          ListedNumbers(collected, catalogue, front, season.number);
        }
        TotalInsert(earlier, Length(), season.number, gap);
      }
    }
  }

  /** The list names at least as many episodes as the card counts, and as many exactly when Emby has no
      episode of those seasons that the catalogue does not know. */
  lemma ListCoversCount(collected: map<int, set<int>>, catalogue: map<int, seq<int>>, seasons: seq<Season>)
    requires DistinctSeasons(seasons) && Faithful(collected, catalogue, seasons) && AllEnumerable(collected, catalogue, seasons)
    ensures var size := Total(Listed(collected, catalogue, seasons), Length());
      && size >= Count(collected, seasons)
      && (size == Count(collected, seasons) <==> NothingUnknown(collected, catalogue, seasons))
  {
    ListedSize(collected, catalogue, seasons);
    CountSplits(collected, catalogue, seasons);
  }

  // ----- what a request becomes -----

  datatype Outcome = FullRequest | MissingRequest(episodes: map<int, seq<int>>) | AlreadyInLibrary

  function Requested(inLibrary: bool, series: bool, missing: map<int, seq<int>>): Outcome {
    if !inLibrary then FullRequest
    else if series && missing != map[] then MissingRequest(missing)
    else AlreadyInLibrary
  }

  lemma ListedOne(collected: map<int, set<int>>, catalogue: map<int, seq<int>>, seasons: seq<Season>, i: nat)
    requires DistinctSeasons(seasons) && Faithful(collected, catalogue, seasons)
    requires i < |seasons| && Lists(collected, catalogue, seasons[i])
    ensures seasons[i].number in Listed(collected, catalogue, seasons)
  {
    GapCoversShortfall(catalogue[seasons[i].number], Have(collected, seasons[i].number));
    ListedExactly(collected, catalogue, seasons, i);
  }

  /** A card with a positive count leads to a request, not to a rejection, exactly when the catalogue
      can enumerate one of the seasons that the count comes from. */
  lemma CardIsHonored(collected: map<int, set<int>>, catalogue: map<int, seq<int>>, seasons: seq<Season>)
    requires DistinctSeasons(seasons) && Faithful(collected, catalogue, seasons)
    ensures Requested(true, true, Listed(collected, catalogue, seasons)) != AlreadyInLibrary <==>
      exists i :: 0 <= i < |seasons| && Lists(collected, catalogue, seasons[i])
    ensures Count(collected, seasons) > 0 && AllEnumerable(collected, catalogue, seasons) ==>
      Requested(true, true, Listed(collected, catalogue, seasons)) == MissingRequest(Listed(collected, catalogue, seasons))
  {
    CountSplits(collected, catalogue, seasons);
    var listed := Listed(collected, catalogue, seasons);
    if listed != map[] {
      var n := SomeKey(listed);
      ListedNumbers(collected, catalogue, seasons, n);
    }
    forall i | 0 <= i < |seasons| && Lists(collected, catalogue, seasons[i])
      ensures listed != map[]
    {
      ListedOne(collected, catalogue, seasons, i);
    }
  }

  /** A season that the count knows and the catalogue cannot enumerate makes the card promise too much. */
  lemma CardCanMislead() returns (collected: map<int, set<int>>, catalogue: map<int, seq<int>>, seasons: seq<Season>)
    ensures DistinctSeasons(seasons) && Faithful(collected, catalogue, seasons) && Count(collected, seasons) > 0
    ensures Requested(true, true, Listed(collected, catalogue, seasons)) == AlreadyInLibrary
  {
    collected, catalogue, seasons := map[1 := {1}], map[], [Season(1, 2, true)];
    assert seasons[..0] == [];
    assert Count(collected, seasons) == 1;
    assert Listed(collected, catalogue, seasons) == map[];
  }
}
