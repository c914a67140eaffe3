/** The leagues refresh that src/routes/+page.server.js,
    src/routes/leagues/+page.server.js and src/scripts/updateLeagues.js each
    spell out: fetch the competition list, keep the LEAGUE competitions,
    fetch and flatten their scheduled matches, group them by league name and
    wrap the result in an envelope stamped with the refresh time. */
module LeaguePipeline {
  import opened Wrappers
  import opened JsValues
  import opened Decimal

  /** The outcome of one `fetch` to the football-data API: a parsed body, a
      response whose `ok` flag is false, or a rejected promise (network
      failure or unreadable body) with its error message. */
  datatype Response<T> = Fetched(body: T) | NotOk(status: int) | Rejected(message: string)

  datatype Team = Team(id: Option<int>, name: Option<string>, crest: Option<string>)

  datatype Venue = Venue(name: Option<string>)

  /** A scheduled match as the competition's `/matches` endpoint returns it. */
  datatype UpstreamMatch = UpstreamMatch(
    id: int,
    homeTeam: Team,
    awayTeam: Team,
    utcDate: string,
    matchday: Option<int>,
    status: string,
    venue: Option<Venue>)

  /** `kind` is the competition's `type` field ("LEAGUE", "CUP", ...). */
  datatype Competition = Competition(code: string, name: string, kind: string, emblem: Option<string>)

  /** The upstream API as the refresh sees it: the competition list, and the
      match list for each competition code. */
  datatype Upstream = Upstream(
    competitions: Response<seq<Competition>>,
    matchesOf: string -> Response<seq<UpstreamMatch>>)

  /** The root route stores the fuller record; the leagues route and the
      maintenance script store the reduced one. */
  datatype Shape = Full | Reduced

  /** The fields only the root route adds to a match record. */
  datatype HomeExtras = HomeExtras(
    homeTeamId: Option<int>,
    awayTeamId: Option<int>,
    matchday: int,
    status: string,
    venue: Option<string>)

  /** A normalised match as stored under `leagues`. */
  datatype MatchRecord = MatchRecord(
    id: string,
    sportKey: string,
    sportTitle: string,
    sportEmblem: Option<string>,
    homeTeam: Option<string>,
    homeTeamLogo: Option<string>,
    awayTeam: Option<string>,
    awayTeamLogo: Option<string>,
    commenceTime: string,
    extras: Option<HomeExtras>)

  /** One `[leagueName, matches]` pair of `Object.entries(matchesByLeague)`. */
  type League = (string, seq<MatchRecord>)

  /** The value stored at the `leagues` node. A field may be missing from what
      is read back; every refresh writes all of its fields in one `set`. */
  datatype Envelope = Envelope(
    leagues: Option<seq<League>>,
    allMatches: Option<seq<MatchRecord>>,
    updatedAt: Option<int>)

  // ---------------------------------------------------------------------
  // Competition filter

  predicate IsLeague(c: Competition) {
    c.kind == "LEAGUE"
  }

  /** `competitions.filter(c => c.type === 'LEAGUE')`. */
  function LeagueCompetitions(cs: seq<Competition>): (r: seq<Competition>)
    ensures |r| <= |cs|
    ensures forall c :: c in r ==> c in cs && IsLeague(c)
    ensures forall c :: c in cs && IsLeague(c) ==> c in r
    decreases |cs|
  {
    if cs == [] then []
    else (if IsLeague(cs[0]) then [cs[0]] else []) + LeagueCompetitions(cs[1..])
  }

  // ---------------------------------------------------------------------
  // Match normalisation

  /** `m.venue?.name || null`. */
  function VenueName(v: Option<Venue>): (r: Option<string>)
    ensures r.Some? <==> v.Some? && Truthy(v.value.name)
    ensures r.Some? ==> r == v.value.name && r.value != ""
  {
    if v.Some? && Truthy(v.value.name) then v.value.name else None
  }

  /** `m.matchday || 1`. */
  function Matchday(md: Option<int>): (r: int)
    ensures r != 0
    ensures md.Some? && md.value != 0 ==> r == md.value
    ensures md.None? || md.value == 0 ==> r == 1
  {
    if md.Some? && md.value != 0 then md.value else 1
  }

  /** The object literal each upstream match is mapped to. */
  function Normalise(shape: Shape, c: Competition, m: UpstreamMatch): (r: MatchRecord)
    ensures ParseDecimal(r.id) == Some(m.id)
    ensures r.sportKey == c.code && r.sportTitle == c.name && r.sportEmblem == c.emblem
    ensures r.homeTeam == m.homeTeam.name && r.homeTeamLogo == m.homeTeam.crest
    ensures r.awayTeam == m.awayTeam.name && r.awayTeamLogo == m.awayTeam.crest
    ensures r.commenceTime == m.utcDate
    ensures r.extras.Some? <==> shape == Full
    ensures r.extras.Some? ==>
      && r.extras.value.homeTeamId == m.homeTeam.id
      && r.extras.value.awayTeamId == m.awayTeam.id
      && r.extras.value.matchday == Matchday(m.matchday)
      && r.extras.value.status == m.status
      && r.extras.value.venue == VenueName(m.venue)
  {
    DecimalRoundTrip(m.id);
    MatchRecord(
      IntToDecimal(m.id), c.code, c.name, c.emblem,
      m.homeTeam.name, m.homeTeam.crest, m.awayTeam.name, m.awayTeam.crest,
      m.utcDate,
      match shape
      case Full => Some(HomeExtras(m.homeTeam.id, m.awayTeam.id, Matchday(m.matchday), m.status, VenueName(m.venue)))
      case Reduced => None)
  }

  /** `matchesData.matches.map(...)`. */
  function NormaliseAll(shape: Shape, c: Competition, ms: seq<UpstreamMatch>): (r: seq<MatchRecord>)
    ensures |r| == |ms|
  {
    seq(|ms|, i requires 0 <= i < |ms| => Normalise(shape, c, ms[i]))
  }

  // ---------------------------------------------------------------------
  // Gathering the matches of every league

  /** One turn of the `for` loop over the competitions: a rejected fetch
      throws, a response that is not ok is skipped, otherwise the mapped
      matches are appended. */
  function Step(shape: Shape, acc: Result<seq<MatchRecord>, string>, c: Competition,
                matchesOf: string -> Response<seq<UpstreamMatch>>): Result<seq<MatchRecord>, string>
  {
    match acc
    case Err(e) => Err(e)
    case Ok(all) =>
      match matchesOf(c.code)
      case Rejected(msg) => Err(msg)
      case NotOk(_) => Ok(all)
      case Fetched(ms) => Ok(all + NormaliseAll(shape, c, ms))
  }

  /** What the loop leaves in `allMatches`, or the error it throws. */
  function Collected(shape: Shape, cs: seq<Competition>,
                     matchesOf: string -> Response<seq<UpstreamMatch>>): Result<seq<MatchRecord>, string>
    decreases |cs|
  {
    if cs == [] then Ok([])
    else Step(shape, Collected(shape, cs[..|cs| - 1], matchesOf), cs[|cs| - 1], matchesOf)
  }

  function Combine(a: Result<seq<MatchRecord>, string>, b: Result<seq<MatchRecord>, string>): Result<seq<MatchRecord>, string> {
    match a
    case Err(e) => Err(e)
    case Ok(x) =>
      match b
      case Err(e) => Err(e)
      case Ok(y) => Ok(x + y)
  }

  /** The loop over `footballCompetitions` that pushes into `allMatches`. */
  method GatherMatches(shape: Shape, cs: seq<Competition>, matchesOf: string -> Response<seq<UpstreamMatch>>)
    returns (r: Result<seq<MatchRecord>, string>)
    ensures r == Collected(shape, cs, matchesOf)
  {
    var allMatches: seq<MatchRecord> := [];
    for i := 0 to |cs|
      invariant Collected(shape, cs[..i], matchesOf) == Ok(allMatches)
    {
      assert cs[..i + 1][..i] == cs[..i];
      var competition := cs[i];
      match matchesOf(competition.code)
      case Rejected(msg) =>
        CollectedAppend(shape, cs[..i + 1], cs[i + 1..], matchesOf);
        assert cs[..i + 1] + cs[i + 1..] == cs;
        return Err(msg);
      case NotOk(_) =>
      case Fetched(ms) =>
        allMatches := allMatches + NormaliseAll(shape, competition, ms);
    }
    assert cs[..|cs|] == cs;
    r := Ok(allMatches);
  }

  lemma StepCombine(shape: Shape, x: Result<seq<MatchRecord>, string>, y: Result<seq<MatchRecord>, string>,
                    c: Competition, matchesOf: string -> Response<seq<UpstreamMatch>>)
    ensures Step(shape, Combine(x, y), c, matchesOf) == Combine(x, Step(shape, y, c, matchesOf))
  {
    match x
    case Err(_) =>
    case Ok(a) =>
      match y
      case Err(_) =>
      case Ok(b) =>
        match matchesOf(c.code)
        case Rejected(_) =>
        case NotOk(_) =>
        case Fetched(ms) =>
          var n := NormaliseAll(shape, c, ms);
          assert Step(shape, Ok(a + b), c, matchesOf) == Ok(a + b + n);
          assert Step(shape, Ok(b), c, matchesOf) == Ok(b + n);
          assert a + b + n == a + (b + n);
  }

  /** The loop over `a + b` ends as the loop over `a` followed by the loop over `b`. */
  lemma {:induction false} CollectedAppend(shape: Shape, a: seq<Competition>, b: seq<Competition>,
                                           matchesOf: string -> Response<seq<UpstreamMatch>>)
    ensures Collected(shape, a + b, matchesOf) == Combine(Collected(shape, a, matchesOf), Collected(shape, b, matchesOf))
    decreases |b|
  {
    if b == [] {
      assert a + b == a;
      var ca := Collected(shape, a, matchesOf);
      if ca.Ok? { assert ca.value + [] == ca.value; }
    } else {
      var b' := b[..|b| - 1];
      assert (a + b)[..|a + b| - 1] == a + b';
      assert (a + b)[|a + b| - 1] == b[|b| - 1];
      CollectedAppend(shape, a, b', matchesOf);
      StepCombine(shape, Collected(shape, a, matchesOf), Collected(shape, b', matchesOf), b[|b| - 1], matchesOf);
    }
  }

  /** The refresh throws exactly when some league's match fetch is rejected;
      a response that is merely not ok never stops it. */
  lemma {:induction false} CollectedOkIff(shape: Shape, cs: seq<Competition>,
                                          matchesOf: string -> Response<seq<UpstreamMatch>>)
    ensures Collected(shape, cs, matchesOf).Ok? <==> forall i :: 0 <= i < |cs| ==> !matchesOf(cs[i].code).Rejected?
    decreases |cs|
  {
    if cs != [] {
      var p := cs[..|cs| - 1];
      CollectedOkIff(shape, p, matchesOf);
      assert forall i :: 0 <= i < |p| ==> p[i] == cs[i];
    }
  }

  /** A competition whose match fetch is not ok contributes nothing: the
      result is that of the loop without it. */
  lemma SkippedCompetitionContributesNothing(shape: Shape, cs: seq<Competition>, i: nat,
                                             matchesOf: string -> Response<seq<UpstreamMatch>>)
    requires i < |cs| && matchesOf(cs[i].code).NotOk?
    ensures Collected(shape, cs, matchesOf) == Collected(shape, cs[..i] + cs[i + 1..], matchesOf)
  {
    var pre, mid, post := cs[..i], [cs[i]], cs[i + 1..];
    assert cs == (pre + mid) + post;
    CollectedAppend(shape, pre + mid, post, matchesOf);
    CollectedAppend(shape, pre, mid, matchesOf);
    CollectedAppend(shape, pre, post, matchesOf);
    assert mid[..0] == [];
    var cp := Collected(shape, pre, matchesOf);
    if cp.Ok? { assert cp.value + [] == cp.value; }
  }

  /** `r` carries the code and name of a competition of `cs` whose match
      fetch succeeded. */
  ghost predicate FromFetchedCompetition(r: MatchRecord, cs: seq<Competition>,
                                         matchesOf: string -> Response<seq<UpstreamMatch>>)
  {
    exists c :: c in cs && matchesOf(c.code).Fetched? && r.sportKey == c.code && r.sportTitle == c.name
  }

  /** Every gathered record comes from one of the given competitions whose
      match fetch succeeded, and carries that competition's code and name. */
  lemma {:induction false} CollectedRecordsFrom(shape: Shape, cs: seq<Competition>,
                                                matchesOf: string -> Response<seq<UpstreamMatch>>,
                                                all: seq<MatchRecord>)
    requires Collected(shape, cs, matchesOf) == Ok(all)
    ensures forall k :: 0 <= k < |all| ==> FromFetchedCompetition(all[k], cs, matchesOf)
    decreases |cs|
  {
    if cs != [] {
      var p := cs[..|cs| - 1];
      var c := cs[|cs| - 1];
      var before := Collected(shape, p, matchesOf);
      assert Step(shape, before, c, matchesOf) == Ok(all);
      var prev := before.value;
      CollectedRecordsFrom(shape, p, matchesOf, prev);
      assert forall d :: d in p ==> d in cs;
      FromFetchedWiden(prev, p, cs, matchesOf);
      RecordsFromStep(shape, cs, c, matchesOf, prev, all);
    }
  }

  /** One turn of the loop keeps every record tied to a fetched competition. */
  lemma RecordsFromStep(shape: Shape, cs: seq<Competition>, c: Competition,
                        matchesOf: string -> Response<seq<UpstreamMatch>>,
                        prev: seq<MatchRecord>, all: seq<MatchRecord>)
    requires c in cs && Step(shape, Ok(prev), c, matchesOf) == Ok(all)
    requires forall k :: 0 <= k < |prev| ==> FromFetchedCompetition(prev[k], cs, matchesOf)
    ensures forall k :: 0 <= k < |all| ==> FromFetchedCompetition(all[k], cs, matchesOf)
  {
    match matchesOf(c.code)
    case NotOk(_) =>
      assert all == prev;
    case Fetched(ms) =>
      var extra := NormaliseAll(shape, c, ms);
      assert all == prev + extra;
      forall k | 0 <= k < |all|
        ensures FromFetchedCompetition(all[k], cs, matchesOf)
      {
        if k < |prev| {
          assert all[k] == prev[k];
        } else {
          var r := Normalise(shape, c, ms[k - |prev|]);
          assert all[k] == r;
          assert r.sportKey == c.code && r.sportTitle == c.name;
        }
      }
  }

  lemma FromFetchedWiden(rs: seq<MatchRecord>, p: seq<Competition>, cs: seq<Competition>,
                         matchesOf: string -> Response<seq<UpstreamMatch>>)
    requires forall c :: c in p ==> c in cs
    requires forall k :: 0 <= k < |rs| ==> FromFetchedCompetition(rs[k], p, matchesOf)
    ensures forall k :: 0 <= k < |rs| ==> FromFetchedCompetition(rs[k], cs, matchesOf)
  {
    forall k | 0 <= k < |rs|
      ensures FromFetchedCompetition(rs[k], cs, matchesOf)
    {
      assert FromFetchedCompetition(rs[k], p, matchesOf);
      var c :| c in p && matchesOf(c.code).Fetched? && rs[k].sportKey == c.code && rs[k].sportTitle == c.name;
      assert c in cs;
    }
  }

  // ---------------------------------------------------------------------
  // Grouping by league name

  /** The `acc` object of the `reduce`: its keys in insertion order and the
      array stored under each key. */
  datatype Grouping = Grouping(order: seq<string>, byTitle: map<string, seq<MatchRecord>>)

  predicate Distinct(s: seq<string>) {
    forall i, j :: 0 <= i < j < |s| ==> s[i] != s[j]
  }

  ghost predicate WellFormed(g: Grouping) {
    && Distinct(g.order)
    && (forall t :: t in g.order <==> t in g.byTitle)
  }

  /** One call of the reducer callback. */
  function AddToGrouping(g: Grouping, m: MatchRecord): Grouping {
    var t := m.sportTitle;
    if t in g.byTitle then Grouping(g.order, g.byTitle[t := g.byTitle[t] + [m]])
    else Grouping(g.order + [t], g.byTitle[t := [m]])
  }

  /** `allMatches.reduce(..., {})`. */
  function GroupingOf(ms: seq<MatchRecord>): (g: Grouping)
    ensures WellFormed(g)
    decreases |ms|
  {
    if ms == [] then Grouping([], map[])
    else AddToGrouping(GroupingOf(ms[..|ms| - 1]), ms[|ms| - 1])
  }

  /** `Object.entries(acc)`: the key/array pairs in key insertion order. */
  function Entries(order: seq<string>, byTitle: map<string, seq<MatchRecord>>): seq<League>
    requires forall t :: t in order ==> t in byTitle
    decreases |order|
  {
    if order == [] then []
    else [(order[0], byTitle[order[0]])] + Entries(order[1..], byTitle)
  }

  function GroupedEntries(ms: seq<MatchRecord>): seq<League> {
    var g := GroupingOf(ms);
    Entries(g.order, g.byTitle)
  }

  /** The `reduce` that groups `allMatches` by `sport_title`, followed by
      `Object.entries`. */
  method GroupByLeague(allMatches: seq<MatchRecord>) returns (leagues: seq<League>)
    ensures leagues == GroupedEntries(allMatches)
  {
    var order: seq<string> := [];
    var acc: map<string, seq<MatchRecord>> := map[];
    for i := 0 to |allMatches|
      invariant Grouping(order, acc) == GroupingOf(allMatches[..i])
    {
      assert allMatches[..i + 1][..i] == allMatches[..i];
      var match_ := allMatches[i];
      var league := match_.sportTitle;
      ghost var before := Grouping(order, acc);
      if league !in acc {
        acc := acc[league := []];
        order := order + [league];
      }
      acc := acc[league := acc[league] + [match_]];
      assert allMatches[..i + 1][i] == match_;
      assert Grouping(order, acc) == AddToGrouping(before, match_) by {
        if league !in before.byTitle {
          var expected := before.byTitle[league := [match_]];
          assert [] + [match_] == [match_];
          assert acc.Keys == expected.Keys;
          assert forall k :: k in acc ==> acc[k] == expected[k];
        }
      }
    }
    assert allMatches[..|allMatches|] == allMatches;
    leagues := Entries(order, acc);
  }

  /** The matches of `ms` whose league name is `t`, in order. */
  function WithTitle(ms: seq<MatchRecord>, t: string): seq<MatchRecord>
    decreases |ms|
  {
    if ms == [] then []
    else WithTitle(ms[..|ms| - 1], t) + (if ms[|ms| - 1].sportTitle == t then [ms[|ms| - 1]] else [])
  }

  /** Each group of `g` is the non-empty list of the matches of `ms` that
      carry its name, and names without a group occur nowhere in `ms`. */
  ghost predicate TitleFiltered(ms: seq<MatchRecord>, g: Grouping) {
    && (forall t :: t in g.byTitle ==> g.byTitle[t] == WithTitle(ms, t) && g.byTitle[t] != [])
    && (forall t :: t !in g.byTitle ==> WithTitle(ms, t) == [])
  }

  lemma WithTitleAppend(p: seq<MatchRecord>, m: MatchRecord, t: string)
    ensures WithTitle(p + [m], t) == WithTitle(p, t) + (if m.sportTitle == t then [m] else [])
  {
    assert (p + [m])[..|p|] == p;
  }

  lemma TitleFilteredStep(p: seq<MatchRecord>, m: MatchRecord, gp: Grouping)
    requires TitleFiltered(p, gp)
    ensures TitleFiltered(p + [m], AddToGrouping(gp, m))
  {
    var t := m.sportTitle;
    var g := AddToGrouping(gp, m);
    forall u | u in g.byTitle
      ensures g.byTitle[u] == WithTitle(p + [m], u) && g.byTitle[u] != []
    {
      WithTitleAppend(p, m, u);
      if u != t {
        assert u in gp.byTitle;
      }
    }
    forall u | u !in g.byTitle
      ensures WithTitle(p + [m], u) == []
    {
      WithTitleAppend(p, m, u);
    }
  }

  /** Each group is exactly the order-preserving subsequence of the matches
      that carry its league name, and every match lands in the group of its
      own league name; names that occur nowhere get no group. */
  lemma {:induction false} GroupsAreTitleFilters(ms: seq<MatchRecord>)
    ensures var g := GroupingOf(ms);
      && (forall t :: t in g.byTitle ==> g.byTitle[t] == WithTitle(ms, t) && g.byTitle[t] != [])
      && (forall t :: t !in g.byTitle ==> WithTitle(ms, t) == [])
      && (forall k :: 0 <= k < |ms| ==> ms[k].sportTitle in g.byTitle)
    decreases |ms|
  {
    if ms != [] {
      var p := ms[..|ms| - 1];
      var m := ms[|ms| - 1];
      GroupsAreTitleFilters(p);
      var gp := GroupingOf(p);
      assert ms == p + [m];
      TitleFilteredStep(p, m, gp);
      var g := GroupingOf(ms);
      forall k | 0 <= k < |ms|
        ensures ms[k].sportTitle in g.byTitle
      {
        if k < |p| { assert ms[k] == p[k]; }
      }
    }
  }

  /** Position of the first match of league `t` (|ms| when there is none). */
  function FirstIndex(ms: seq<MatchRecord>, t: string): (r: nat)
    ensures r <= |ms|
    ensures r < |ms| ==> ms[r].sportTitle == t
    ensures forall k :: 0 <= k < r ==> ms[k].sportTitle != t
    decreases |ms|
  {
    if ms == [] then 0
    else if ms[0].sportTitle == t then 0
    else 1 + FirstIndex(ms[1..], t)
  }

  lemma FirstIndexExtends(p: seq<MatchRecord>, m: MatchRecord, t: string)
    requires FirstIndex(p, t) < |p|
    ensures FirstIndex(p + [m], t) == FirstIndex(p, t)
  {
    var ms := p + [m];
    assert forall k :: 0 <= k < |p| ==> ms[k] == p[k];
  }

  lemma FirstIndexOfNewTitle(p: seq<MatchRecord>, m: MatchRecord)
    requires forall k :: 0 <= k < |p| ==> p[k].sportTitle != m.sportTitle
    ensures FirstIndex(p + [m], m.sportTitle) == |p|
  {
    var ms := p + [m];
    assert forall k :: 0 <= k < |p| ==> ms[k] == p[k];
    assert ms[|p|] == m;
  }

  /** Every name in `order` occurs in `ms`, and the names are listed by
      the position of their first occurrence. */
  predicate FirstAppearanceOrder(ms: seq<MatchRecord>, order: seq<string>) {
    && (forall i :: 0 <= i < |order| ==> FirstIndex(ms, order[i]) < |ms|)
    && (forall i, j :: 0 <= i < j < |order| ==> FirstIndex(ms, order[i]) < FirstIndex(ms, order[j]))
  }

  /** Leagues appear in the order in which their first match appears. */
  lemma {:induction false} GroupOrderIsFirstAppearance(ms: seq<MatchRecord>)
    ensures FirstAppearanceOrder(ms, GroupingOf(ms).order)
    decreases |ms|
  {
    if ms != [] {
      var p := ms[..|ms| - 1];
      var m := ms[|ms| - 1];
      assert ms == p + [m];
      GroupOrderIsFirstAppearance(p);
      var gp := GroupingOf(p);
      var order := GroupingOf(ms).order;
      forall i | 0 <= i < |gp.order|
        ensures FirstIndex(ms, gp.order[i]) == FirstIndex(p, gp.order[i]) < |p|
      {
        FirstIndexExtends(p, m, gp.order[i]);
      }
      if m.sportTitle in gp.byTitle {
        assert order == gp.order;
      } else {
        assert order == gp.order + [m.sportTitle];
        GroupsAreTitleFilters(p);
        FirstIndexOfNewTitle(p, m);
        forall i | 0 <= i < |order|
          ensures FirstIndex(ms, order[i]) <= |p|
        {
          if i < |gp.order| { assert order[i] == gp.order[i]; }
        }
        forall i, j | 0 <= i < j < |order|
          ensures FirstIndex(ms, order[i]) < FirstIndex(ms, order[j])
        {
          assert order[i] == gp.order[i];
          if j < |gp.order| { assert order[j] == gp.order[j]; }
        }
      }
    }
  }

  /** Concatenation of the groups' match arrays. */
  function Flatten(leagues: seq<League>): seq<MatchRecord>
    decreases |leagues|
  {
    if leagues == [] then [] else leagues[0].1 + Flatten(leagues[1..])
  }

  lemma {:induction false} EntriesIgnoreOtherKeys(order: seq<string>, byTitle: map<string, seq<MatchRecord>>, t: string, v: seq<MatchRecord>)
    requires forall k :: k in order ==> k in byTitle
    requires t !in order
    ensures Entries(order, byTitle[t := v]) == Entries(order, byTitle)
    decreases |order|
  {
    if order != [] {
      EntriesIgnoreOtherKeys(order[1..], byTitle, t, v);
    }
  }

  lemma {:induction false} FlattenAppendNewKey(order: seq<string>, byTitle: map<string, seq<MatchRecord>>, t: string, m: MatchRecord)
    requires forall k :: k in order ==> k in byTitle
    requires t !in order
    ensures multiset(Flatten(Entries(order + [t], byTitle[t := [m]]))) == multiset(Flatten(Entries(order, byTitle))) + multiset{m}
    decreases |order|
  {
    var b := byTitle[t := [m]];
    if order == [] {
      assert order + [t] == [t];
      assert Entries([t], b) == [(t, [m])];
      assert Flatten(Entries([t], b)) == [m] + Flatten([]);
    } else {
      assert (order + [t])[1..] == order[1..] + [t];
      FlattenAppendNewKey(order[1..], byTitle, t, m);
    }
  }

  lemma {:induction false} FlattenExtendKey(order: seq<string>, byTitle: map<string, seq<MatchRecord>>, t: string, m: MatchRecord)
    requires forall k :: k in order ==> k in byTitle
    requires Distinct(order) && t in order
    ensures multiset(Flatten(Entries(order, byTitle[t := byTitle[t] + [m]]))) == multiset(Flatten(Entries(order, byTitle))) + multiset{m}
    decreases |order|
  {
    var b := byTitle[t := byTitle[t] + [m]];
    if order[0] == t {
      assert t !in order[1..] by {
        forall k | 0 <= k < |order[1..]| ensures order[1..][k] != t {
          assert order[1..][k] == order[k + 1];
        }
      }
      EntriesIgnoreOtherKeys(order[1..], byTitle, t, byTitle[t] + [m]);
    } else {
      assert Distinct(order[1..]);
      FlattenExtendKey(order[1..], byTitle, t, m);
    }
  }

  /** Flattening the groups gives back every match exactly once. */
  lemma {:induction false} GroupingIsPermutation(ms: seq<MatchRecord>)
    ensures multiset(Flatten(GroupedEntries(ms))) == multiset(ms)
    decreases |ms|
  {
    if ms != [] {
      var p := ms[..|ms| - 1];
      var m := ms[|ms| - 1];
      GroupingIsPermutation(p);
      var g := GroupingOf(p);
      var t := m.sportTitle;
      assert ms[..|ms| - 1] == p;
      assert GroupingOf(ms) == AddToGrouping(g, m);
      if t in g.byTitle {
        FlattenExtendKey(g.order, g.byTitle, t, m);
      } else {
        assert t !in g.order;
        FlattenAppendNewKey(g.order, g.byTitle, t, m);
      }
      assert multiset(Flatten(GroupedEntries(ms))) == multiset(Flatten(GroupedEntries(p))) + multiset{m};
      assert ms == p + [m];
    }
  }

  // ---------------------------------------------------------------------
  // The whole refresh

  /** The message of the error thrown when the competition list cannot be read. */
  function CompetitionsError(status: int): string {
    "Failed to fetch competitions: " + IntToDecimal(status)
  }

  /** The envelope a refresh writes, or the error it throws before writing. */
  function Refreshed(shape: Shape, up: Upstream, now: int): (r: Result<Envelope, string>)
    ensures r.Ok? ==> r.value.updatedAt == Some(now) && r.value.leagues.Some?
    ensures r.Ok? ==> (r.value.allMatches.Some? <==> shape == Full)
    ensures !up.competitions.Fetched? ==> r.Err?
  {
    match up.competitions
    case NotOk(status) => Err(CompetitionsError(status))
    case Rejected(msg) => Err(msg)
    case Fetched(cs) =>
      match Collected(shape, LeagueCompetitions(cs), up.matchesOf)
      case Err(e) => Err(e)
      case Ok(all) =>
        Ok(Envelope(Some(GroupedEntries(all)), if shape == Full then Some(all) else None, Some(now)))
  }

  /** What a successful refresh stores: its groups hold every gathered match
      exactly once, each gathered from a LEAGUE competition whose match fetch
      succeeded; `allMatches`, when stored, is that same list. */
  lemma RefreshedContents(shape: Shape, up: Upstream, now: int)
    requires Refreshed(shape, up, now).Ok?
    ensures var env := Refreshed(shape, up, now).value;
      && up.competitions.Fetched?
      && var all := Collected(shape, LeagueCompetitions(up.competitions.body), up.matchesOf).value;
      && multiset(Flatten(env.leagues.value)) == multiset(all)
      && (env.allMatches.Some? ==> env.allMatches.value == all)
      && forall k :: 0 <= k < |all| ==>
           exists c :: c in up.competitions.body && IsLeague(c) && up.matchesOf(c.code).Fetched?
                       && all[k].sportKey == c.code && all[k].sportTitle == c.name
  {
    var leagues := LeagueCompetitions(up.competitions.body);
    var all := Collected(shape, leagues, up.matchesOf).value;
    GroupingIsPermutation(all);
    CollectedRecordsFrom(shape, leagues, up.matchesOf, all);
    forall k | 0 <= k < |all|
      ensures exists c :: c in up.competitions.body && IsLeague(c) && up.matchesOf(c.code).Fetched?
                          && all[k].sportKey == c.code && all[k].sportTitle == c.name
    {
      assert FromFetchedCompetition(all[k], leagues, up.matchesOf);
      var c :| c in leagues && up.matchesOf(c.code).Fetched? && all[k].sportKey == c.code && all[k].sportTitle == c.name;
      assert c in up.competitions.body && IsLeague(c);
    }
  }

  /** The refresh as the three callers run it. */
  method Refresh(shape: Shape, up: Upstream, now: int) returns (r: Result<Envelope, string>)
    ensures r == Refreshed(shape, up, now)
  {
    var competitions: seq<Competition>;
    match up.competitions
    case NotOk(status) => return Err(CompetitionsError(status));
    case Rejected(msg) => return Err(msg);
    case Fetched(body) => competitions := body;
    var footballCompetitions := LeagueCompetitions(competitions);
    var gathered := GatherMatches(shape, footballCompetitions, up.matchesOf);
    if gathered.Err? {
      return Err(gathered.error);
    }
    var allMatches := gathered.value;
    var leagues := GroupByLeague(allMatches);
    r := Ok(Envelope(Some(leagues), if shape == Full then Some(allMatches) else None, Some(now)));
  }
}
