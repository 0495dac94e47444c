/** The Opportunities page: the list filter (search text, type tab, and
    scholarships shown only for locations in India) and the two
    classifications of an opportunity type, by badge colour and by icon. */
module Opportunities {
  import opened Text
  import opened Seqs
  import opened Backend

  /** The columns the page reads; `location` may be null. */
  datatype Opportunity = Opportunity(title: string, description: string, opportunityType: string, location: Option<string>)

  predicate SearchMatches(o: Opportunity, query: string) {
    MatchesIgnoringCase(o.title, query) || MatchesIgnoringCase(o.description, query)
  }

  predicate TypeMatches(o: Opportunity, selectedType: string) {
    selectedType == "all" || o.opportunityType == selectedType
  }

  /** `isValidScholarship`: anything but a scholarship, or a scholarship
      whose location is set and mentions India in any letter case. */
  predicate ValidScholarship(o: Opportunity) {
    o.opportunityType != "scholarship" || (o.location.Some? && Includes(Lower(o.location.value), "india"))
  }

  predicate Shown(o: Opportunity, query: string, selectedType: string) {
    SearchMatches(o, query) && TypeMatches(o, selectedType) && ValidScholarship(o)
  }

  /** `filteredOpportunities`. */
  function FilterOpportunities(opps: seq<Opportunity>, query: string, selectedType: string): (r: seq<Opportunity>)
    ensures |r| <= |opps|
    ensures forall o | o in r :: o in opps && Shown(o, query, selectedType)
    ensures forall o | o in opps && Shown(o, query, selectedType) :: o in r
  {
    Filter(opps, o => Shown(o, query, selectedType))
  }

  lemma FilterOpportunitiesKeepsOrder(opps: seq<Opportunity>, query: string, selectedType: string)
    ensures IsSubsequence(FilterOpportunities(opps, query, selectedType), opps)
  {
    FilterIsSubsequence(opps, o => Shown(o, query, selectedType));
  }

  /** Every scholarship listed, whatever the search and tab, is located in India. */
  lemma ListedScholarshipsAreIndian(opps: seq<Opportunity>, query: string, selectedType: string)
    ensures forall o | o in FilterOpportunities(opps, query, selectedType) && o.opportunityType == "scholarship" ::
      o.location.Some? && Includes(Lower(o.location.value), "india")
  {
  }

  /** With no search text and the "all" tab, the India rule is the only
      filter left: the page lists exactly the opportunities it lets through. */
  lemma UnfilteredDropsOnlyForeignScholarships(opps: seq<Opportunity>)
    ensures FilterOpportunities(opps, "", "all") == Filter(opps, ValidScholarship)
  {
    forall o | o in opps ensures Shown(o, "", "all") == ValidScholarship(o) {
      IncludesEmpty(Lower(o.title));
    }
    FilterSameTest(opps, o => Shown(o, "", "all"), ValidScholarship);
  }

  /** A tab other than "all" lists only opportunities of that type. */
  lemma TabListsItsType(opps: seq<Opportunity>, query: string, selectedType: string)
    requires selectedType != "all"
    ensures forall o | o in FilterOpportunities(opps, query, selectedType) :: o.opportunityType == selectedType
  {
  }

  // ---------------------------------------------------------------------------
  // Classifications of opportunity_type
  // ---------------------------------------------------------------------------

  const JobColor := "bg-blue-500/10 text-blue-500"
  const TrialColor := "bg-green-500/10 text-green-500"
  const ScholarshipColor := "bg-purple-500/10 text-purple-500"
  const TournamentColor := "bg-orange-500/10 text-orange-500"
  const DefaultColor := "bg-gray-500/10 text-gray-500"

  /** `getTypeColor`. */
  function TypeColor(t: string): (c: string)
    ensures t !in {"job", "trial", "scholarship", "tournament"} <==> c == DefaultColor
    ensures c in {JobColor, TrialColor, ScholarshipColor, TournamentColor, DefaultColor}
  {
    if t == "job" then JobColor
    else if t == "trial" then TrialColor
    else if t == "scholarship" then ScholarshipColor
    else if t == "tournament" then TournamentColor
    else DefaultColor
  }

  /** The four named types get four different colours. */
  lemma NamedTypesHaveDistinctColors(s: string, t: string)
    requires s in {"job", "trial", "scholarship", "tournament"}
    requires t in {"job", "trial", "scholarship", "tournament"}
    ensures TypeColor(s) == TypeColor(t) <==> s == t
  {
    assert JobColor[3] == 'b' && TrialColor[3] == 'g' && ScholarshipColor[3] == 'p' && TournamentColor[3] == 'o';
  }

  datatype Icon = Briefcase | Trophy | GraduationCap | Calendar

  /** `getOpportunityIcon`: only three types have their own icon. */
  function TypeIcon(t: string): (i: Icon)
    ensures i == Calendar <==> t !in {"job", "trial", "scholarship"}
    ensures t == "tournament" ==> i == Calendar
  {
    if t == "job" then Briefcase
    else if t == "trial" then Trophy
    else if t == "scholarship" then GraduationCap
    else Calendar
  }

  /** The icon tells job, trial and scholarship apart and merges every other
      type, tournaments included. */
  lemma IconsSeparateThreeTypes(s: string, t: string)
    ensures TypeIcon(s) == TypeIcon(t) <==>
      (s == t || (s !in {"job", "trial", "scholarship"} && t !in {"job", "trial", "scholarship"}))
  {
  }
}
