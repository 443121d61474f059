/** The news list of components/NewsPage.tsx: search and category filter,
    and the relative publication time. Dates are milliseconds since the epoch. */
module News {
  import opened Common
  import Text

  datatype Article = Article(
    id: string,
    title: string,
    description: string,
    url: string,
    publishedAt: int,
    source: string,
    category: string)

  /** Case-insensitive substring test on title or description. */
  predicate MatchesSearch(a: Article, query: string) {
    var q := Text.ToLower(query);
    Text.Contains(Text.ToLower(a.title), q) || Text.Contains(Text.ToLower(a.description), q)
  }

  predicate MatchesCategory(a: Article, category: string) {
    category == "all" || a.category == category
  }

  function Selected(query: string, category: string): Article -> bool {
    a => MatchesSearch(a, query) && MatchesCategory(a, category)
  }

  /** `filteredNews`. */
  function FilteredNews(news: seq<Article>, query: string, category: string): (r: seq<Article>)
    ensures forall a :: a in r ==> a in news && MatchesSearch(a, query)
    ensures forall a :: a in r && category != "all" ==> a.category == category
    ensures forall a :: a in news && MatchesSearch(a, query) && MatchesCategory(a, category) ==> a in r
    ensures IsSubsequence(r, news)
    // a selected article keeps all its copies
    ensures forall a :: MatchesSearch(a, query) && MatchesCategory(a, category) ==>
      multiset(r)[a] == multiset(news)[a]
  {
    var r := Filter(news, Selected(query, category));
    forall a | MatchesSearch(a, query) && MatchesCategory(a, category) ensures multiset(r)[a] == multiset(news)[a] {
      if a in news {
        var i :| 0 <= i < |news| && news[i] == a;
      }
    }
    forall a | a in news && MatchesSearch(a, query) && MatchesCategory(a, category) ensures a in r {
      var i :| 0 <= i < |news| && news[i] == a;
    }
    r
  }

  /** With an empty query and the `all` category every article is listed, in order. */
  lemma NoFilterKeepsAll(news: seq<Article>)
    ensures FilteredNews(news, "", "all") == news
  {
    forall a | a in news ensures Selected("", "all")(a) {
      Text.EmptyOccursEverywhere(Text.ToLower(a.title));
    }
    FilterKeepsAll(news, Selected("", "all"));
  }

  const MillisPerHour: int := 1000 * 60 * 60

  datatype DateLabel = JustNow | HoursAgo(hours: int) | OnDate(publishedAt: int)

  /** `formatDate`: whole hours elapsed, rounded down. */
  function FormatDate(publishedAt: int, now: int): (r: DateLabel)
    ensures r == JustNow <==> now - publishedAt < MillisPerHour
    ensures r.HoursAgo? <==> MillisPerHour <= now - publishedAt < 24 * MillisPerHour
    ensures r.HoursAgo? ==>
      1 <= r.hours < 24 && r.hours * MillisPerHour <= now - publishedAt < (r.hours + 1) * MillisPerHour
    ensures r.OnDate? <==> now - publishedAt >= 24 * MillisPerHour
    ensures r.OnDate? ==> r.publishedAt == publishedAt
  {
    var hours := (now - publishedAt) / MillisPerHour;
    if hours < 1 then JustNow
    else if hours < 24 then HoursAgo(hours)
    else OnDate(publishedAt)
  }

  /** A publication time in the future reads "Just now". */
  lemma FutureIsJustNow(publishedAt: int, now: int)
    requires publishedAt > now
    ensures FormatDate(publishedAt, now) == JustNow
  {
  }
}
