/** The home feed: the four lists loaded from the backend, the unified list
    the page shows for the selected tab and search text, and the like button,
    which asks the backend to store the item's like count plus one. */
module Feed {
  import opened Text
  import opened Seqs
  import opened Backend

  /** The columns of each loaded row the feed looks at; `author` is the
      joined `profiles.full_name`, absent when the join found no profile. */
  datatype Reel = Reel(id: string, title: Option<string>, description: Option<string>, likesCount: int, author: Option<string>)

  /** Blog posts carry a body (`content`), not a description. */
  datatype BlogPost = BlogPost(id: string, title: string, content: string, likesCount: int, author: Option<string>)

  datatype Achievement = Achievement(id: string, title: string, description: Option<string>, author: Option<string>)

  /** Opportunities are loaded without a profile join. */
  datatype Opportunity = Opportunity(id: string, title: string, description: string)

  datatype Kind = ReelKind | BlogKind | AchievementKind | OpportunityKind

  /** A row spread into a tagged object: the fields the search reads. */
  datatype FeedItem = FeedItem(kind: Kind, id: string, title: Option<string>, description: Option<string>, author: Option<string>)

  function TagReel(r: Reel): FeedItem {
    FeedItem(ReelKind, r.id, r.title, r.description, r.author)
  }

  function TagBlog(b: BlogPost): FeedItem {
    FeedItem(BlogKind, b.id, Some(b.title), None, b.author)
  }

  function TagAchievement(a: Achievement): FeedItem {
    FeedItem(AchievementKind, a.id, Some(a.title), a.description, a.author)
  }

  function TagOpportunity(o: Opportunity): FeedItem {
    FeedItem(OpportunityKind, o.id, Some(o.title), Some(o.description), None)
  }

  /** The tab whose name selects one kind; "all" and unknown names select none. */
  function TabKind(filter: string): Option<Kind> {
    if filter == "reels" then Some(ReelKind)
    else if filter == "blogs" then Some(BlogKind)
    else if filter == "achievements" then Some(AchievementKind)
    else if filter == "opportunities" then Some(OpportunityKind)
    else None
  }

  /** Whether a list of this kind is added for the selected tab. */
  predicate Shows(filter: string, k: Kind) {
    filter == "all" || TabKind(filter) == Some(k)
  }

  /** `allContent` after the four conditional appends. */
  function Collected(filter: string, reels: seq<Reel>, blogs: seq<BlogPost>,
                     achievements: seq<Achievement>, opportunities: seq<Opportunity>): seq<FeedItem>
  {
    (if Shows(filter, ReelKind) then Map(reels, TagReel) else [])
    + (if Shows(filter, BlogKind) then Map(blogs, TagBlog) else [])
    + (if Shows(filter, AchievementKind) then Map(achievements, TagAchievement) else [])
    + (if Shows(filter, OpportunityKind) then Map(opportunities, TagOpportunity) else [])
  }

  function OrEmpty(s: Option<string>): string {
    if s.Some? then s.value else ""
  }

  /** The search test: the query, case-folded, occurs in the title, the
      description or the author's name, a missing field counting as "". */
  predicate Matches(item: FeedItem, query: string) {
    || MatchesIgnoringCase(OrEmpty(item.title), query)
    || MatchesIgnoringCase(OrEmpty(item.description), query)
    || MatchesIgnoringCase(OrEmpty(item.author), query)
  }

  /** The search step of `filteredContent`: skipped for an empty query. */
  function Search(items: seq<FeedItem>, query: string): (r: seq<FeedItem>)
    ensures query == "" ==> r == items
    ensures |r| <= |items|
    ensures forall x | x in r :: x in items && Matches(x, query)
    ensures forall x | x in items && Matches(x, query) :: x in r
  {
    if query == "" then
      assert forall x | x in items :: Matches(x, query) by {
        forall x | x in items ensures Matches(x, query) {
          IncludesEmpty(Lower(OrEmpty(x.title)));
        }
      }
      items
    else Filter(items, x => Matches(x, query))
  }

  /** What the feed shows for a tab and a search text. */
  function Visible(filter: string, query: string, reels: seq<Reel>, blogs: seq<BlogPost>,
                   achievements: seq<Achievement>, opportunities: seq<Opportunity>): seq<FeedItem>
  {
    Search(Collected(filter, reels, blogs, achievements, opportunities), query)
  }

  /** Skipping the search for an empty query changes nothing: an empty query
      would have matched every item anyway. */
  lemma EmptyQueryMatchesAll(items: seq<FeedItem>)
    ensures Filter(items, x => Matches(x, "")) == items
  {
    forall x | x in items ensures Matches(x, "") {
      IncludesEmpty(Lower(OrEmpty(x.title)));
    }
    FilterAll(items, x => Matches(x, ""));
  }

  /** The search keeps the surviving items in their feed order. */
  lemma SearchKeepsOrder(items: seq<FeedItem>, query: string)
    ensures IsSubsequence(Search(items, query), items)
  {
    if query == "" {
      FilterAll(items, (x: FeedItem) => true);
      FilterIsSubsequence(items, (x: FeedItem) => true);
    } else {
      FilterIsSubsequence(items, x => Matches(x, query));
    }
  }

  function Rank(k: Kind): nat {
    match k
    case ReelKind => 0
    case BlogKind => 1
    case AchievementKind => 2
    case OpportunityKind => 3
  }

  /** The items of one kind, in order. */
  function OfKind(items: seq<FeedItem>, k: Kind): seq<FeedItem> {
    Filter(items, (x: FeedItem) => x.kind == k)
  }

  /** A list all of one kind: OfKind keeps all of it for that kind and none
      of it for any other. */
  lemma OfKindUniform(s: seq<FeedItem>, k: Kind, j: Kind)
    requires forall i :: 0 <= i < |s| ==> s[i].kind == k
    ensures OfKind(s, j) == if j == k then s else []
  {
    if j == k {
      FilterAll(s, (x: FeedItem) => x.kind == j);
    } else {
      FilterNone(s, (x: FeedItem) => x.kind == j);
    }
  }

  /** Four lists, one per kind in rank order: each kind's items are its list. */
  lemma OfKindOfFour(a: seq<FeedItem>, b: seq<FeedItem>, c: seq<FeedItem>, d: seq<FeedItem>, k: Kind)
    requires forall i :: 0 <= i < |a| ==> a[i].kind == ReelKind
    requires forall i :: 0 <= i < |b| ==> b[i].kind == BlogKind
    requires forall i :: 0 <= i < |c| ==> c[i].kind == AchievementKind
    requires forall i :: 0 <= i < |d| ==> d[i].kind == OpportunityKind
    ensures OfKind(a + b + c + d, k) ==
      match k
      case ReelKind => a
      case BlogKind => b
      case AchievementKind => c
      case OpportunityKind => d
  {
    OfKindAppend4(a, b, c, d, k);
    OfKindUniform(a, ReelKind, k);
    OfKindUniform(b, BlogKind, k);
    OfKindUniform(c, AchievementKind, k);
    OfKindUniform(d, OpportunityKind, k);
    var e: seq<FeedItem> := [];
    match k
    case ReelKind => assert a + e + e + e == a;
    case BlogKind => assert e + b + e + e == b;
    case AchievementKind => assert e + e + c + e == c;
    case OpportunityKind => assert e + e + e + d == d;
  }

  /** Each kind's items in a concatenation are those of the parts. */
  lemma OfKindAppend4(a: seq<FeedItem>, b: seq<FeedItem>, c: seq<FeedItem>, d: seq<FeedItem>, k: Kind)
    ensures OfKind(a + b + c + d, k) == OfKind(a, k) + OfKind(b, k) + OfKind(c, k) + OfKind(d, k)
  {
    FilterAppend(a + b + c, d, (x: FeedItem) => x.kind == k);
    FilterAppend(a + b, c, (x: FeedItem) => x.kind == k);
    FilterAppend(a, b, (x: FeedItem) => x.kind == k);
  }

  /** The "all" tab: reels, then blog posts, then achievements, then
      opportunities, so the kinds never go back in that order. */
  lemma CollectedAllRanked(reels: seq<Reel>, blogs: seq<BlogPost>,
                           achievements: seq<Achievement>, opportunities: seq<Opportunity>)
    ensures var r := Collected("all", reels, blogs, achievements, opportunities);
      && |r| == |reels| + |blogs| + |achievements| + |opportunities|
      && forall i, j :: 0 <= i < j < |r| ==> Rank(r[i].kind) <= Rank(r[j].kind)
  {
    var a, b, c, d := Map(reels, TagReel), Map(blogs, TagBlog), Map(achievements, TagAchievement), Map(opportunities, TagOpportunity);
    var r := Collected("all", reels, blogs, achievements, opportunities);
    assert r == a + b + c + d;
    var n1, n2, n3 := |a|, |a| + |b|, |a| + |b| + |c|;
    forall i | 0 <= i < |r|
      ensures Rank(r[i].kind) == if i < n1 then 0 else if i < n2 then 1 else if i < n3 then 2 else 3
    {
      if i < n1 { assert r[i] == a[i]; }
      else if i < n2 { assert r[i] == b[i - n1]; }
      else if i < n3 { assert r[i] == c[i - n2]; }
      else { assert r[i] == d[i - n3]; }
    }
  }

  /** The tagged list of one kind. */
  function ListOf(k: Kind, reels: seq<Reel>, blogs: seq<BlogPost>,
                  achievements: seq<Achievement>, opportunities: seq<Opportunity>): seq<FeedItem>
  {
    match k
    case ReelKind => Map(reels, TagReel)
    case BlogKind => Map(blogs, TagBlog)
    case AchievementKind => Map(achievements, TagAchievement)
    case OpportunityKind => Map(opportunities, TagOpportunity)
  }

  /** The "all" tab holds the list of kind k whole and in its loaded order. */
  lemma CollectedAllKind(k: Kind, reels: seq<Reel>, blogs: seq<BlogPost>,
                         achievements: seq<Achievement>, opportunities: seq<Opportunity>)
    ensures OfKind(Collected("all", reels, blogs, achievements, opportunities), k)
      == ListOf(k, reels, blogs, achievements, opportunities)
  {
    var a, b, c, d := Map(reels, TagReel), Map(blogs, TagBlog), Map(achievements, TagAchievement), Map(opportunities, TagOpportunity);
    assert Collected("all", reels, blogs, achievements, opportunities) == a + b + c + d;
    OfKindOfFour(a, b, c, d, k);
  }

  /** The "all" tab holds each list whole and in its loaded order. */
  lemma CollectedAllKinds(reels: seq<Reel>, blogs: seq<BlogPost>,
                          achievements: seq<Achievement>, opportunities: seq<Opportunity>)
    ensures var r := Collected("all", reels, blogs, achievements, opportunities);
      && OfKind(r, ReelKind) == Map(reels, TagReel)
      && OfKind(r, BlogKind) == Map(blogs, TagBlog)
      && OfKind(r, AchievementKind) == Map(achievements, TagAchievement)
      && OfKind(r, OpportunityKind) == Map(opportunities, TagOpportunity)
  {
    CollectedAllKind(ReelKind, reels, blogs, achievements, opportunities);
    CollectedAllKind(BlogKind, reels, blogs, achievements, opportunities);
    CollectedAllKind(AchievementKind, reels, blogs, achievements, opportunities);
    CollectedAllKind(OpportunityKind, reels, blogs, achievements, opportunities);
  }

  /** A named tab shows exactly its own list; an unknown tab shows nothing. */
  lemma CollectedSingleTab(filter: string, reels: seq<Reel>, blogs: seq<BlogPost>,
                           achievements: seq<Achievement>, opportunities: seq<Opportunity>)
    requires filter != "all"
    ensures var r := Collected(filter, reels, blogs, achievements, opportunities);
      && (TabKind(filter).Some? ==> forall i :: 0 <= i < |r| ==> r[i].kind == TabKind(filter).value)
      && (filter == "reels" ==> r == Map(reels, TagReel))
      && (filter == "blogs" ==> r == Map(blogs, TagBlog))
      && (filter == "achievements" ==> r == Map(achievements, TagAchievement))
      && (filter == "opportunities" ==> r == Map(opportunities, TagOpportunity))
      && (TabKind(filter).None? ==> r == [])
  {
    var e: seq<FeedItem> := [];
    var r := Collected(filter, reels, blogs, achievements, opportunities);
    if filter == "reels" {
      assert r == Map(reels, TagReel) + e + e + e;
    } else if filter == "blogs" {
      assert r == e + Map(blogs, TagBlog) + e + e;
    } else if filter == "achievements" {
      assert r == e + e + Map(achievements, TagAchievement) + e;
    } else if filter == "opportunities" {
      assert r == e + e + e + Map(opportunities, TagOpportunity);
    }
  }

  /** The page's state: the signed-in user, the loaded lists, the search box
      and the selected tab. */
  class FeedPage {
    var user: Option<UserId>
    var reels: seq<Reel>
    var blogPosts: seq<BlogPost>
    var achievements: seq<Achievement>
    var opportunities: seq<Opportunity>
    var searchQuery: string
    var activeFilter: string

    constructor ()
      ensures user == None && reels == [] && blogPosts == [] && achievements == [] && opportunities == []
      ensures searchQuery == "" && activeFilter == "all"
    {
      user := None;
      reels, blogPosts, achievements, opportunities := [], [], [], [];
      searchQuery, activeFilter := "", "all";
    }

    /** `filteredContent()`. */
    method FilteredContent() returns (items: seq<FeedItem>)
      ensures items == Visible(activeFilter, searchQuery, reels, blogPosts, achievements, opportunities)
    {
      var allContent: seq<FeedItem> := [];
      if activeFilter == "all" || activeFilter == "reels" {
        allContent := allContent + Map(reels, TagReel);
      }
      if activeFilter == "all" || activeFilter == "blogs" {
        allContent := allContent + Map(blogPosts, TagBlog);
      }
      if activeFilter == "all" || activeFilter == "achievements" {
        allContent := allContent + Map(achievements, TagAchievement);
      }
      if activeFilter == "all" || activeFilter == "opportunities" {
        allContent := allContent + Map(opportunities, TagOpportunity);
      }
      assert allContent == Collected(activeFilter, reels, blogPosts, achievements, opportunities);
      var query := searchQuery;
      if query != "" {
        items := Filter(allContent, x => Matches(x, query));
      } else {
        items := allContent;
      }
    }

    /** `handleLike(type, id)`: the update it sends, if any. The count sent
        is the one in the loaded list, plus one. */
    method HandleLike(table: LikeTable, id: string) returns (request: Option<Request>)
      ensures user.None? ==> request.None?
      ensures table == BlogPostsTable ==>
        && (request.Some? <==> user.Some? && exists i :: 0 <= i < |blogPosts| && blogPosts[i].id == id)
        && (request.Some? ==> exists i :: (FirstWithId(blogPosts, id, i, (b: BlogPost) => b.id)
              && request.value == SetLikes(BlogPostsTable, id, blogPosts[i].likesCount + 1)))
      ensures table == ReelsTable ==>
        && (request.Some? <==> user.Some? && exists i :: 0 <= i < |reels| && reels[i].id == id)
        && (request.Some? ==> exists i :: (FirstWithId(reels, id, i, (r: Reel) => r.id)
              && request.value == SetLikes(ReelsTable, id, reels[i].likesCount + 1)))
    {
      if user.None? {
        return None;
      }
      request := None;
      if table == BlogPostsTable {
        var found := Find(blogPosts, (b: BlogPost) => b.id == id);
        if found.Some? {
          var i := found.value;
          assert FirstWithId(blogPosts, id, i, (b: BlogPost) => b.id);
          request := Some(SetLikes(BlogPostsTable, id, blogPosts[i].likesCount + 1));
        }
      } else {
        var found := Find(reels, (r: Reel) => r.id == id);
        if found.Some? {
          var i := found.value;
          assert FirstWithId(reels, id, i, (r: Reel) => r.id);
          request := Some(SetLikes(ReelsTable, id, reels[i].likesCount + 1));
        }
      }
    }
  }

  /** `s.find(p)`, as the position of the first element passing p. */
  function Find<T>(s: seq<T>, p: T -> bool): (r: Option<nat>)
    ensures r.Some? ==> r.value < |s| && p(s[r.value]) && forall j :: 0 <= j < r.value ==> !p(s[j])
    ensures r.None? ==> forall j :: 0 <= j < |s| ==> !p(s[j])
  {
    if s == [] then None
    else if p(s[0]) then Some(0)
    else
      var rest := Find(s[1..], p);
      if rest.Some? then Some(rest.value + 1) else None
  }

  /** i is the position `find` stops at: the first row with this id. */
  predicate FirstWithId<T>(s: seq<T>, id: string, i: int, key: T -> string) {
    0 <= i < |s| && key(s[i]) == id && forall j :: 0 <= j < i ==> key(s[j]) != id
  }
}
