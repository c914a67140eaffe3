/** The root route's `load` (src/routes/+page.server.js): refresh the cached
    leagues at most once a day, then build the trending list by joining the
    analytics documents with the match documents they name. */
module HomePage {
  import opened Wrappers
  import opened JsValues
  import Sorting
  import opened LeaguePipeline
  import Analytics

  const OneDay := 24 * 60 * 60 * 1000

  /** `shouldUpdate`: true unless a stored envelope carries a truthy
      `updatedAt` less than a day old. */
  predicate NeedsRefresh(stored: Option<Envelope>, now: int) {
    !(stored.Some? && stored.value.updatedAt.Some? && stored.value.updatedAt.value != 0
      && now - stored.value.updatedAt.value < OneDay)
  }

  /** The cache is refreshed at most once a day: the envelope a refresh at a
      nonzero time `now` writes is served without refreshing for the next
      day, and a refresh happens again once a full day has passed. */
  lemma RefreshAtMostDaily(up: Upstream, now: int, later: int)
    requires Refreshed(Full, up, now).Ok? && now != 0 && now <= later
    ensures var env := Refreshed(Full, up, now).value;
      NeedsRefresh(Some(env), later) <==> later >= now + OneDay
  {
  }

  /** Nothing stored, or a stored envelope without a usable time stamp,
      always asks for a refresh. */
  lemma MissingStampRefreshes(stored: Option<Envelope>, now: int)
    requires stored.None? || stored.value.updatedAt.None? || stored.value.updatedAt == Some(0)
    ensures NeedsRefresh(stored, now)
  {
  }

  // ---------------------------------------------------------------------
  // Trending join

  /** A document of the `matches` collection; any field may be missing. */
  datatype MatchData = MatchData(
    leagueName: Option<string>,
    leagueLogo: Option<string>,
    homeTeam: Option<string>,
    awayTeam: Option<string>,
    homeTeamLogo: Option<string>,
    awayTeamLogo: Option<string>,
    status: Option<string>,
    scoreHome: Option<int>,
    scoreAway: Option<int>,
    time: Option<int>,
    venue: Option<string>,
    analysis: Option<string>)

  /** `getDoc(doc(firestore, 'matches', matchId))` and the card built from
      it, inside one `try`: the document, a missing document, or a throw,
      either from the read or from building the card out of the document (an
      invalid head-to-head date makes `toISOString` throw). */
  datatype MatchLookup = Exists(data: MatchData) | Absent | Throws

  /** `getDocs(collection(firestore, 'analytics'))`: the documents, or a read that throws. */
  datatype AnalyticsRead = Docs(docs: seq<Analytics.AnalyticsDoc>) | ReadFailed

  /** `_meta.analytics` of a card. */
  datatype CardAnalytics = CardAnalytics(interestRating: int, clicks: int, pageViews: int, timeSpent: int, shares: int)

  /** One trending card as the page receives it. */
  datatype Card = Card(
    id: string,
    leagueName: string,
    leagueLogo: string,
    homeTeam: string,
    awayTeam: string,
    homeTeamLogo: string,
    awayTeamLogo: string,
    status: string,
    scoreHome: Option<int>,
    scoreAway: Option<int>,
    timestamp: int,
    venue: string,
    analysis: string,
    analytics: CardAnalytics)

  const LeagueLogoPlaceholder := "https://via.placeholder.com/30"
  const TeamLogoPlaceholder := "https://via.placeholder.com/50"

  function Summary(d: Analytics.AnalyticsDoc): CardAnalytics {
    CardAnalytics(OrZero(d.interestRating), OrZero(d.clicks), OrZero(d.pageViews), OrZero(d.timeSpent), OrZero(d.shares))
  }

  /** Every display field of the card is non-empty. */
  predicate Displayable(c: Card) {
    c.leagueName != "" && c.leagueLogo != "" && c.homeTeam != "" && c.awayTeam != ""
    && c.homeTeamLogo != "" && c.awayTeamLogo != "" && c.status != "" && c.venue != ""
  }

  /** The card for one analytics document: none when its `matchId` is falsy
      or the match read or the card's construction throws; a placeholder when the match document is
      missing; otherwise the match's fields with their defaults. */
  function JoinDoc(d: Analytics.AnalyticsDoc, lookup: string -> MatchLookup): (r: Option<Card>)
    ensures r.Some? <==> Truthy(d.matchId) && !lookup(d.matchId.value).Throws?
    ensures r.Some? ==> r.value.id == d.matchId.value && r.value.analytics == Summary(d) && Displayable(r.value)
    ensures r.Some? && lookup(d.matchId.value).Absent? ==>
      && r.value.leagueName == "Missing match: " + d.matchId.value
      && r.value.status == "Not Found"
      && r.value.scoreHome.None? && r.value.scoreAway.None? && r.value.timestamp == 0
    ensures r.Some? && lookup(d.matchId.value).Exists? ==>
      var m := lookup(d.matchId.value).data;
      && (Truthy(m.leagueName) ==> r.value.leagueName == m.leagueName.value)
      && (!Truthy(m.leagueName) ==> r.value.leagueName == "Unknown League")
      && (Truthy(m.leagueLogo) ==> r.value.leagueLogo == m.leagueLogo.value)
      && (!Truthy(m.leagueLogo) ==> r.value.leagueLogo == LeagueLogoPlaceholder)
      && (Truthy(m.homeTeam) ==> r.value.homeTeam == m.homeTeam.value)
      && (!Truthy(m.homeTeam) ==> r.value.homeTeam == "Home Team")
      && (Truthy(m.awayTeam) ==> r.value.awayTeam == m.awayTeam.value)
      && (!Truthy(m.awayTeam) ==> r.value.awayTeam == "Away Team")
      && (Truthy(m.homeTeamLogo) ==> r.value.homeTeamLogo == m.homeTeamLogo.value)
      && (!Truthy(m.homeTeamLogo) ==> r.value.homeTeamLogo == TeamLogoPlaceholder)
      && (Truthy(m.awayTeamLogo) ==> r.value.awayTeamLogo == m.awayTeamLogo.value)
      && (!Truthy(m.awayTeamLogo) ==> r.value.awayTeamLogo == TeamLogoPlaceholder)
      && (Truthy(m.status) ==> r.value.status == m.status.value)
      && (!Truthy(m.status) ==> r.value.status == "Not Started")
      && (Truthy(m.venue) ==> r.value.venue == m.venue.value)
      && (!Truthy(m.venue) ==> r.value.venue == "TBD")
      && (Truthy(m.analysis) ==> r.value.analysis == m.analysis.value)
      && (!Truthy(m.analysis) ==> r.value.analysis == "")
      && r.value.scoreHome == m.scoreHome && r.value.scoreAway == m.scoreAway
      && r.value.timestamp == OrZero(m.time)
  {
    if !Truthy(d.matchId) then None
    else
      var matchId := d.matchId.value;
      match lookup(matchId)
      case Throws => None
      case Absent =>
        Some(Card(matchId, "Missing match: " + matchId, LeagueLogoPlaceholder, "Unknown", "Unknown",
                  TeamLogoPlaceholder, TeamLogoPlaceholder, "Not Found", None, None, 0, "N/A", "", Summary(d)))
      case Exists(m) =>
        Some(Card(matchId,
                  OrElse(m.leagueName, "Unknown League"),
                  OrElse(m.leagueLogo, LeagueLogoPlaceholder),
                  OrElse(m.homeTeam, "Home Team"),
                  OrElse(m.awayTeam, "Away Team"),
                  OrElse(m.homeTeamLogo, TeamLogoPlaceholder),
                  OrElse(m.awayTeamLogo, TeamLogoPlaceholder),
                  OrElse(m.status, "Not Started"),
                  m.scoreHome, m.scoreAway,
                  OrZero(m.time),
                  OrElse(m.venue, "TBD"),
                  OrElse(m.analysis, ""),
                  Summary(d)))
  }

  /** `matches.filter(match => match !== null)`: the cards, in document order. */
  function Joined(docs: seq<Analytics.AnalyticsDoc>, lookup: string -> MatchLookup): (r: seq<Card>)
    ensures |r| <= |docs|
    decreases |docs|
  {
    if docs == [] then []
    else
      match JoinDoc(docs[0], lookup)
      case Some(c) => [c] + Joined(docs[1..], lookup)
      case None => Joined(docs[1..], lookup)
  }

  function CardRating(c: Card): int {
    c.analytics.interestRating
  }

  /** `.sort((a, b) => rating(b) - rating(a))`, a stable sort. */
  function TrendingCards(docs: seq<Analytics.AnalyticsDoc>, lookup: string -> MatchLookup): seq<Card> {
    Sorting.SortDesc(Joined(docs, lookup), CardRating)
  }

  ghost predicate JoinedFrom(c: Card, docs: seq<Analytics.AnalyticsDoc>, lookup: string -> MatchLookup) {
    exists d :: d in docs && JoinDoc(d, lookup) == Some(c)
  }

  /** Each card comes from one of the documents, and every document with a
      truthy `matchId` whose match read did not throw gives its card. */
  lemma {:induction false} JoinedCards(docs: seq<Analytics.AnalyticsDoc>, lookup: string -> MatchLookup)
    ensures forall c :: c in Joined(docs, lookup) ==> JoinedFrom(c, docs, lookup)
    ensures forall d :: d in docs && JoinDoc(d, lookup).Some? ==> JoinDoc(d, lookup).value in Joined(docs, lookup)
    decreases |docs|
  {
    if docs != [] {
      JoinedCards(docs[1..], lookup);
      forall c | c in Joined(docs, lookup)
        ensures JoinedFrom(c, docs, lookup)
      {
        if c !in Joined(docs[1..], lookup) {
          assert JoinDoc(docs[0], lookup) == Some(c);
        } else {
          assert JoinedFrom(c, docs[1..], lookup);
          var d :| d in docs[1..] && JoinDoc(d, lookup) == Some(c);
          assert d in docs;
        }
      }
      forall d | d in docs && JoinDoc(d, lookup).Some?
        ensures JoinDoc(d, lookup).value in Joined(docs, lookup)
      {
        if d != docs[0] {
          assert d in docs[1..];
        }
      }
    }
  }

  /** The trending list holds exactly the joined cards, highest rating
      first, cards of equal rating in document order. */
  lemma TrendingCardsOrder(docs: seq<Analytics.AnalyticsDoc>, lookup: string -> MatchLookup, v: int)
    ensures var r := TrendingCards(docs, lookup);
      && Sorting.SortedDesc(r, CardRating)
      && multiset(r) == multiset(Joined(docs, lookup))
      && Sorting.WithKey(r, CardRating, v) == Sorting.WithKey(Joined(docs, lookup), CardRating, v)
  {
    Sorting.SortDescIsStable(Joined(docs, lookup), CardRating, v);
  }

  /** A card is trending exactly when some analytics document joins to it;
      every trending card is displayable. */
  lemma TrendingCardsMembers(docs: seq<Analytics.AnalyticsDoc>, lookup: string -> MatchLookup)
    ensures var r := TrendingCards(docs, lookup);
      && (forall c :: c in r ==> JoinedFrom(c, docs, lookup) && Displayable(c))
      && (forall d :: d in docs && JoinDoc(d, lookup).Some? ==> JoinDoc(d, lookup).value in r)
  {
    var j := Joined(docs, lookup);
    var r := TrendingCards(docs, lookup);
    JoinedCards(docs, lookup);
    assert multiset(r) == multiset(j);
    forall c | c in r
      ensures JoinedFrom(c, docs, lookup) && Displayable(c)
    {
      assert c in multiset(r);
      assert c in j;
      var d :| d in docs && JoinDoc(d, lookup) == Some(c);
    }
    forall d | d in docs && JoinDoc(d, lookup).Some?
      ensures JoinDoc(d, lookup).value in r
    {
      var c := JoinDoc(d, lookup).value;
      assert c in j;
      assert c in multiset(j);
      assert c in multiset(r);
    }
  }

  /** `trendingMatches`: empty when the analytics read throws or finds no document. */
  function Trending(read: AnalyticsRead, lookup: string -> MatchLookup): (r: seq<Card>)
    ensures read.ReadFailed? ==> r == []
    ensures read.Docs? ==> r == TrendingCards(read.docs, lookup)
  {
    match read
    case ReadFailed => []
    case Docs(docs) => if docs == [] then [] else TrendingCards(docs, lookup)
  }

  // ---------------------------------------------------------------------
  // The load function

  /** What `load` returns to the page. */
  datatype HomeData = HomeData(leagues: seq<League>, trendingMatches: seq<Card>, analyticsEnabled: bool)

  /** The page data, and the envelope written to `leagues` when a refresh ran. */
  datatype HomeOutcome = HomeOutcome(written: Option<Envelope>, data: HomeData)

  /** `load`: `stored` is what `get(ref(db, 'leagues'))` read; a failed
      refresh throws before anything is written. */
  method Load(stored: Option<Envelope>, now: int, up: Upstream, read: AnalyticsRead, lookup: string -> MatchLookup)
    returns (r: Result<HomeOutcome, string>)
    ensures !NeedsRefresh(stored, now) ==>
      r == Ok(HomeOutcome(None, HomeData(stored.value.leagues.GetOr([]), Trending(read, lookup), true)))
    ensures NeedsRefresh(stored, now) && Refreshed(Full, up, now).Err? ==> r == Err(Refreshed(Full, up, now).error)
    ensures NeedsRefresh(stored, now) && Refreshed(Full, up, now).Ok? ==>
      var env := Refreshed(Full, up, now).value;
      r == Ok(HomeOutcome(Some(env), HomeData(env.leagues.value, Trending(read, lookup), true)))
  {
    var leaguesData := stored;
    var written: Option<Envelope> := None;
    if NeedsRefresh(stored, now) {
      var refreshed := Refresh(Full, up, now);
      if refreshed.Err? {
        return Err(refreshed.error);
      }
      leaguesData := Some(refreshed.value);
      written := Some(refreshed.value);
    }
    var trendingMatches: seq<Card> := [];
    match read {
      case ReadFailed =>
      case Docs(docs) =>
        if docs != [] {
          trendingMatches := TrendingCards(docs, lookup);
        }
    }
    var leagues := if leaguesData.Some? then leaguesData.value.leagues.GetOr([]) else [];
    r := Ok(HomeOutcome(written, HomeData(leagues, trendingMatches, true)));
  }
}
