/** The Discover page's four directory tabs: athletes, coaches and scouts
    share one rule (search text plus sport), businesses have their own
    (search text only). The lists themselves are arbitrary. */
module Discover {
  import opened Text
  import opened Seqs

  /** An athlete, coach or scout card: the fields the filter reads. */
  datatype Person = Person(name: string, sport: string, location: string)

  /** A business card; `kind` is its displayed type, such as "Turf". */
  datatype Business = Business(name: string, kind: string, location: string)

  /** `matchesSearch && matchesSport` for a person. */
  predicate PersonMatches(p: Person, query: string, sport: string) {
    && (MatchesIgnoringCase(p.name, query) || MatchesIgnoringCase(p.sport, query) || MatchesIgnoringCase(p.location, query))
    && (sport == "all" || Lower(p.sport) == Lower(sport))
  }

  /** `filteredAthletes`, `filteredCoaches` and `filteredScouts`, which are
      written out three times with the same rule. */
  function FilterPeople(people: seq<Person>, query: string, sport: string): (r: seq<Person>)
    ensures |r| <= |people|
    ensures forall p | p in r :: p in people && PersonMatches(p, query, sport)
    ensures forall p | p in people && PersonMatches(p, query, sport) :: p in r
  {
    Filter(people, p => PersonMatches(p, query, sport))
  }

  predicate BusinessMatches(b: Business, query: string) {
    MatchesIgnoringCase(b.name, query) || MatchesIgnoringCase(b.kind, query) || MatchesIgnoringCase(b.location, query)
  }

  /** `filteredBusinesses`: no sport filter. */
  function FilterBusinesses(businesses: seq<Business>, query: string): (r: seq<Business>)
    ensures |r| <= |businesses|
    ensures forall b | b in r :: b in businesses && BusinessMatches(b, query)
    ensures forall b | b in businesses && BusinessMatches(b, query) :: b in r
  {
    Filter(businesses, b => BusinessMatches(b, query))
  }

  /** The page as first shown, empty search and sport "all", lists everyone. */
  lemma NoFilterListsEveryone(people: seq<Person>)
    ensures FilterPeople(people, "", "all") == people
  {
    forall p | p in people ensures PersonMatches(p, "", "all") {
      IncludesEmpty(Lower(p.name));
    }
    FilterAll(people, p => PersonMatches(p, "", "all"));
  }

  lemma NoFilterListsEveryBusiness(businesses: seq<Business>)
    ensures FilterBusinesses(businesses, "") == businesses
  {
    forall b | b in businesses ensures BusinessMatches(b, "") {
      IncludesEmpty(Lower(b.name));
    }
    FilterAll(businesses, b => BusinessMatches(b, ""));
  }

  /** The cards keep their order. */
  lemma FilterPeopleKeepsOrder(people: seq<Person>, query: string, sport: string)
    ensures IsSubsequence(FilterPeople(people, query, sport), people)
  {
    FilterIsSubsequence(people, p => PersonMatches(p, query, sport));
  }

  lemma FilterBusinessesKeepsOrder(businesses: seq<Business>, query: string)
    ensures IsSubsequence(FilterBusinesses(businesses, query), businesses)
  {
    FilterIsSubsequence(businesses, b => BusinessMatches(b, query));
  }

  /** The sport selection compares case-insensitively: a selection and its
      lower-case form pick the same people, as long as neither is the literal
      "all" (which alone switches the filter off). */
  lemma SportSelectionIgnoresCase(people: seq<Person>, query: string, sport: string)
    requires sport != "all" && Lower(sport) != "all"
    ensures FilterPeople(people, query, sport) == FilterPeople(people, query, Lower(sport))
  {
    LowerIdempotent(sport);
    assert forall p :: PersonMatches(p, query, sport) == PersonMatches(p, query, Lower(sport));
    FilterSameTest(people, p => PersonMatches(p, query, sport), p => PersonMatches(p, query, Lower(sport)));
  }

  /** With a sport selected, every listed person plays it. */
  lemma SelectedSportOnly(people: seq<Person>, query: string, sport: string)
    requires sport != "all"
    ensures forall i :: 0 <= i < |FilterPeople(people, query, sport)| ==>
      Lower(FilterPeople(people, query, sport)[i].sport) == Lower(sport)
  {
    var r := FilterPeople(people, query, sport);
    forall i | 0 <= i < |r| ensures Lower(r[i].sport) == Lower(sport) {
      assert r[i] in r;
    }
  }
}
