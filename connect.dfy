/** The Connect page: the coach list (search text only), the turf list
    (search text plus a selected city), and the city choices derived from
    the turfs' locations. */
module Connect {
  import opened Text
  import opened Seqs

  datatype Coach = Coach(name: string, sport: string, location: string)

  /** A turf card; `kind` is its displayed type, such as "Football Turf". */
  datatype Turf = Turf(name: string, kind: string, location: string)

  predicate CoachMatches(c: Coach, query: string) {
    MatchesIgnoringCase(c.name, query) || MatchesIgnoringCase(c.sport, query) || MatchesIgnoringCase(c.location, query)
  }

  /** `filteredCoaches`: the selected location plays no part. */
  function FilterCoaches(coaches: seq<Coach>, query: string): (r: seq<Coach>)
    ensures |r| <= |coaches|
    ensures forall c | c in r :: c in coaches && CoachMatches(c, query)
    ensures forall c | c in coaches && CoachMatches(c, query) :: c in r
  {
    Filter(coaches, c => CoachMatches(c, query))
  }

  predicate TurfMatches(t: Turf, query: string, location: string) {
    && (MatchesIgnoringCase(t.name, query) || MatchesIgnoringCase(t.kind, query) || MatchesIgnoringCase(t.location, query))
    && (location == "all" || MatchesIgnoringCase(t.location, location))
  }

  /** `filteredTurfs`. */
  function FilterTurfs(turfs: seq<Turf>, query: string, location: string): (r: seq<Turf>)
    ensures |r| <= |turfs|
    ensures forall t | t in r :: t in turfs && TurfMatches(t, query, location)
    ensures forall t | t in turfs && TurfMatches(t, query, location) :: t in r
  {
    Filter(turfs, t => TurfMatches(t, query, location))
  }

  lemma FilterTurfsKeepsOrder(turfs: seq<Turf>, query: string, location: string)
    ensures IsSubsequence(FilterTurfs(turfs, query, location), turfs)
  {
    FilterIsSubsequence(turfs, t => TurfMatches(t, query, location));
  }

  lemma FilterCoachesKeepsOrder(coaches: seq<Coach>, query: string)
    ensures IsSubsequence(FilterCoaches(coaches, query), coaches)
  {
    FilterIsSubsequence(coaches, c => CoachMatches(c, query));
  }

  // ---------------------------------------------------------------------------
  // Cities
  // ---------------------------------------------------------------------------

  /** `location.split(",")[0].trim()`. */
  function City(location: string): (city: string)
    ensures city == Trim(BeforeFirst(location, ','))
    ensures ',' !in city
    ensures city != [] ==> !IsJsSpace(city[0]) && !IsJsSpace(city[|city| - 1])
    ensures Includes(location, city)
  {
    var head := BeforeFirst(location, ',');
    var city := Trim(head);
    TrimIncluded(head);
    IncludedCharsOccur(head, city);
    assert Includes(location, head);
    IncludesTransitive(location, head, city);
    city
  }

  /** A city written without surrounding spaces before the first comma of a
      location is the city that location is listed under. */
  lemma CityOfListedLocation(city: string, rest: string)
    requires ',' !in city
    requires city != [] ==> !IsJsSpace(city[0]) && !IsJsSpace(city[|city| - 1])
    ensures City(city + [','] + rest) == city
  {
    var location := city + [','] + rest;
    var head := BeforeFirst(location, ',');
    assert location[|city|] == ',';
    assert head == city;
    TrimUnique(city, 0, |city|);
  }

  function TurfCity(t: Turf): string {
    City(t.location)
  }

  /** The elements of xs without repeats, each where it first appears:
      `Array.from(new Set(xs))`. */
  function Dedup<T(==)>(xs: seq<T>): (r: seq<T>)
    ensures forall i, j :: 0 <= i < j < |r| ==> r[i] != r[j]
    ensures forall x | x in r :: x in xs
    ensures forall x | x in xs :: x in r
  {
    if xs == [] then []
    else
      var d := Dedup(xs[..|xs| - 1]);
      var last := xs[|xs| - 1];
      assert forall x | x in xs :: x in xs[..|xs| - 1] || x == last;
      if last in d then d else d + [last]
  }

  /** The first position of x in xs. */
  function IndexOf<T(==)>(xs: seq<T>, x: T): (i: nat)
    requires x in xs
    ensures i < |xs| && xs[i] == x && x !in xs[..i]
  {
    if xs[0] == x then 0 else 1 + IndexOf(xs[1..], x)
  }

  lemma {:induction false} IndexOfExtended<T>(xs: seq<T>, z: T, x: T)
    requires x in xs
    ensures IndexOf(xs + [z], x) == IndexOf(xs, x)
  {
    if xs[0] != x {
      assert (xs + [z])[1..] == xs[1..] + [z];
      IndexOfExtended(xs[1..], z, x);
    }
  }

  /** The distinct elements come in the order of their first appearance. */
  lemma {:induction false} DedupFirstAppearanceOrder<T>(xs: seq<T>)
    ensures forall i, j :: 0 <= i < j < |Dedup(xs)| ==> IndexOf(xs, Dedup(xs)[i]) < IndexOf(xs, Dedup(xs)[j])
  {
    if xs != [] {
      var init, last := xs[..|xs| - 1], xs[|xs| - 1];
      assert xs == init + [last];
      var d := Dedup(init);
      DedupFirstAppearanceOrder(init);
      forall y | y in init ensures IndexOf(xs, y) == IndexOf(init, y) {
        IndexOfExtended(init, last, y);
      }
      var r := Dedup(xs);
      forall i | 0 <= i < |d| ensures IndexOf(xs, d[i]) == IndexOf(init, d[i]) {
        assert d[i] in d;
      }
      if last in d {
        assert r == d;
        forall i, j | 0 <= i < j < |r| ensures IndexOf(xs, r[i]) < IndexOf(xs, r[j]) {
          assert IndexOf(init, d[i]) < IndexOf(init, d[j]);
        }
      } else {
        assert r == d + [last];
        assert IndexOf(xs, last) == |init| by {
          assert last !in xs[..|init|];
        }
        forall i, j | 0 <= i < j < |r| ensures IndexOf(xs, r[i]) < IndexOf(xs, r[j]) {
          assert r[i] == d[i] && d[i] in init;
          if j < |d| {
            assert r[j] == d[j];
            assert IndexOf(init, d[i]) < IndexOf(init, d[j]);
          } else {
            assert r[j] == last;
            assert IndexOf(init, d[i]) < |init|;
          }
        }
      }
    }
  }

  /** `cities`: "all", then each turf's city once. */
  function Cities(turfs: seq<Turf>): (r: seq<string>)
    ensures |r| >= 1 && r[0] == "all"
    ensures forall t | t in turfs :: TurfCity(t) in r[1..]
    ensures forall c | c in r[1..] :: exists t :: t in turfs && TurfCity(t) == c
    ensures forall i, j :: 1 <= i < j < |r| ==> r[i] != r[j]
  {
    var all := Map(turfs, TurfCity);
    var d := Dedup(all);
    forall t | t in turfs ensures TurfCity(t) in all {
      MapImage(turfs, TurfCity, t);
    }
    forall c | c in all ensures exists t :: t in turfs && TurfCity(t) == c {
      MapOrigin(turfs, TurfCity, c);
    }
    var r := ["all"] + d;
    assert r[1..] == d;
    r
  }

  /** The city list follows the order in which the turfs first name each city. */
  lemma CitiesInFirstAppearanceOrder(turfs: seq<Turf>)
    ensures var all := Map(turfs, TurfCity);
      var r := Cities(turfs);
      forall i, j :: 1 <= i < j < |r| ==> IndexOf(all, r[i]) < IndexOf(all, r[j])
  {
    var all := Map(turfs, TurfCity);
    DedupFirstAppearanceOrder(all);
    assert Cities(turfs)[1..] == Dedup(all);
  }

  /** The location drop-down: every city of the list except "all". */
  function DropdownCities(turfs: seq<Turf>): (r: seq<string>)
    ensures forall c | c in r :: c in Cities(turfs) && c != "all"
    ensures forall c | c in Cities(turfs) && c != "all" :: c in r
  {
    Filter(Cities(turfs), c => c != "all")
  }

  /** Each turf's city is offered, unless that city is literally "all". */
  lemma DropdownOffersEachCity(turfs: seq<Turf>, t: Turf)
    requires t in turfs && TurfCity(t) != "all"
    ensures TurfCity(t) in DropdownCities(turfs)
  {
    assert TurfCity(t) in Cities(turfs)[1..];
  }

  /** Picking a turf's city in the drop-down keeps that turf: its location
      contains its city, whatever the letter case. */
  lemma SelectedCityKeepsItsTurfs(turfs: seq<Turf>, query: string, t: Turf)
    requires t in turfs
    requires MatchesIgnoringCase(t.name, query) || MatchesIgnoringCase(t.kind, query) || MatchesIgnoringCase(t.location, query)
    ensures t in FilterTurfs(turfs, query, TurfCity(t))
  {
    IncludesLower(t.location, TurfCity(t));
  }
}
