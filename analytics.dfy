/** src/lib/analytics.js: the interest rating, the create-or-update state
    machine behind `trackMatchInteraction`, and the trending, lookup and
    cleanup queries over the `analytics` collection. */
module Analytics {
  import opened Wrappers
  import opened JsValues
  import Sorting

  const DayMillis := 24 * 60 * 60 * 1000
  /** `oneWeekAgo`: seven days before now. */
  const TrendingWindow := 7 * DayMillis
  /** `thirtyDaysAgo`: thirty days before now. */
  const RetentionWindow := 30 * DayMillis
  /** The default of `getTrendingMatches(maxResults = 20)`. */
  const DefaultMaxResults := 20

  function Min(a: int, b: int): int {
    if a <= b then a else b
  }

  // ---------------------------------------------------------------------
  // Interest rating

  /** `calculateInterestRating(timeSpent, clicks, pageViews)` for whole
      seconds: the time score `min(0.1 * timeSpent, 50)` rounded half up is
      `(min(timeSpent, 500) + 5) / 10`; the other terms are integers. */
  function InterestRating(timeSpent: int, clicks: int, pageViews: int): int {
    (Min(timeSpent, 500) + 5) / 10 + 5 * clicks + 2 * pageViews + (if timeSpent > 30 then 10 else 0)
  }

  /** `Math.round`: the nearest integer, halves rounded up. */
  function RoundHalfUp(x: real): int {
    (x + 0.5).Floor
  }

  /** The source's formula before rounding, on exact reals. */
  function SourceScore(timeSpent: int, clicks: int, pageViews: int): real {
    var timeScore := if timeSpent as real * 0.1 <= 50.0 then timeSpent as real * 0.1 else 50.0;
    timeScore + (5 * clicks) as real + (2 * pageViews) as real + (if timeSpent > 30 then 10.0 else 0.0)
  }

  /** The integer rating is the source's rounded formula. */
  lemma RatingIsRoundedScore(timeSpent: int, clicks: int, pageViews: int)
    ensures InterestRating(timeSpent, clicks, pageViews) == RoundHalfUp(SourceScore(timeSpent, clicks, pageViews))
  {
    var m := Min(timeSpent, 500);
    var k := 5 * clicks + 2 * pageViews + (if timeSpent > 30 then 10 else 0);
    var q := (m + 5) / 10;
    assert 10 * q <= m + 5 < 10 * q + 10;
    var x := SourceScore(timeSpent, clicks, pageViews) + 0.5;
    assert x == (m + 5) as real / 10.0 + k as real;
    assert (q + k) as real <= x < (q + k + 1) as real;
  }

  /** More time, clicks or page views never lower the rating. */
  lemma RatingMonotone(t: int, c: int, p: int, t': int, c': int, p': int)
    requires t <= t' && c <= c' && p <= p'
    ensures InterestRating(t, c, p) <= InterestRating(t', c', p')
  {
    var m, m' := Min(t, 500), Min(t', 500);
    assert m <= m';
    assert (m + 5) / 10 <= (m' + 5) / 10 by {
      var q, q' := (m + 5) / 10, (m' + 5) / 10;
      assert 10 * q <= m + 5 && m' + 5 < 10 * q' + 10;
    }
  }

  // ---------------------------------------------------------------------
  // Documents and the tracking state machine

  /** An `analytics/{matchId}` document; a field may be missing. Times are
      milliseconds. */
  datatype AnalyticsDoc = AnalyticsDoc(
    id: string,
    matchId: Option<string>,
    clicks: Option<int>,
    timeSpent: Option<int>,
    pageViews: Option<int>,
    shares: Option<int>,
    interestRating: Option<int>,
    createdAt: Option<int>,
    lastUpdated: Option<int>,
    lastViewedAt: Option<int>)

  /** The rating recomputed from a document's counters, missing ones read as 0. */
  function RatingOf(d: AnalyticsDoc): int {
    InterestRating(OrZero(d.timeSpent), OrZero(d.clicks), OrZero(d.pageViews))
  }

  /** The stored rating is the one its counters give. */
  predicate RatingConsistent(d: AnalyticsDoc) {
    d.interestRating == Some(RatingOf(d))
  }

  /** The `initialData` written for a match's first interaction. */
  function Created(id: string, kind: string, payload: Option<int>, now: int): (d: AnalyticsDoc)
    ensures d.id == id && RatingConsistent(d)
    ensures d.clicks.Some? && d.timeSpent.Some? && d.pageViews.Some? && d.shares.Some?
  {
    var e := AnalyticsDoc(
      id, Some(id),
      Some(if kind == "click" then 1 else 0),
      Some(if kind == "timeSpent" then OrZero(payload) else 0),
      Some(if kind == "pageView" then 1 else 0),
      Some(if kind == "share" then 1 else 0),
      None,
      Some(now), Some(now),
      if kind == "pageView" then Some(now) else None);
    e.(interestRating := Some(RatingOf(e)))
  }

  /** A new document counts its first interaction: 1 for the counter the kind
      names, the payload (0 when falsy, not checked for sign) for time, 0 for
      every other counter; it is created, updated and, for a page view, viewed
      now. */
  lemma CreatedCounters(id: string, kind: string, payload: Option<int>, now: int)
    ensures var d := Created(id, kind, payload, now);
      && d.matchId == Some(id)
      && d.clicks == Some(if kind == "click" then 1 else 0)
      && d.timeSpent == Some(if kind == "timeSpent" then OrZero(payload) else 0)
      && d.pageViews == Some(if kind == "pageView" then 1 else 0)
      && d.shares == Some(if kind == "share" then 1 else 0)
      && d.createdAt == Some(now) && d.lastUpdated == Some(now)
      && d.lastViewedAt == (if kind == "pageView" then Some(now) else None)
  {
  }

  /** An existing document after one interaction: the counter the kind names
      grows (time only by a positive amount), the rating is recomputed. */
  function Updated(d: AnalyticsDoc, kind: string, payload: Option<int>, now: int): (r: AnalyticsDoc)
    ensures r.id == d.id && r.createdAt == d.createdAt && RatingConsistent(r)
    ensures OrZero(d.clicks) <= OrZero(r.clicks) && OrZero(d.timeSpent) <= OrZero(r.timeSpent)
    ensures OrZero(d.pageViews) <= OrZero(r.pageViews) && OrZero(d.shares) <= OrZero(r.shares)
  {
    var amount := OrZero(payload);
    var e := d.(
      matchId := Some(d.id),
      clicks := if kind == "click" then Some(OrZero(d.clicks) + 1) else d.clicks,
      timeSpent := if kind == "timeSpent" && amount > 0 then Some(OrZero(d.timeSpent) + amount) else d.timeSpent,
      pageViews := if kind == "pageView" then Some(OrZero(d.pageViews) + 1) else d.pageViews,
      shares := if kind == "share" then Some(OrZero(d.shares) + 1) else d.shares,
      lastUpdated := Some(now),
      lastViewedAt := if kind == "pageView" then Some(now) else d.lastViewedAt);
    e.(interestRating := Some(RatingOf(e)))
  }

  /** Position of the document with id `id` (|docs| when there is none). */
  function IndexOf(docs: seq<AnalyticsDoc>, id: string): (i: nat)
    ensures i <= |docs|
    ensures i < |docs| ==> docs[i].id == id
    ensures forall k :: 0 <= k < i ==> docs[k].id != id
    decreases |docs|
  {
    if docs == [] then 0
    else if docs[0].id == id then 0
    else 1 + IndexOf(docs[1..], id)
  }

  /** `getDoc(doc(firestore, 'analytics', id))`. */
  function Find(docs: seq<AnalyticsDoc>, id: string): (r: Option<AnalyticsDoc>)
    ensures r.Some? ==> r.value in docs && r.value.id == id
    ensures r.None? ==> forall k :: 0 <= k < |docs| ==> docs[k].id != id
  {
    var i := IndexOf(docs, id);
    if i < |docs| then Some(docs[i]) else None
  }

  ghost predicate UniqueIds(docs: seq<AnalyticsDoc>) {
    forall i, j :: 0 <= i < j < |docs| ==> docs[i].id != docs[j].id
  }

  /** The collection after `trackMatchInteraction(matchId, kind, {timeSpent: payload})`. */
  function Tracked(docs: seq<AnalyticsDoc>, matchId: Option<string>, kind: string, payload: Option<int>, now: int): (r: seq<AnalyticsDoc>)
    ensures !Truthy(matchId) ==> r == docs
    ensures Truthy(matchId) ==>
      && Find(r, matchId.value) == Some(match Find(docs, matchId.value)
                                        case Some(d) => Updated(d, kind, payload, now)
                                        case None => Created(matchId.value, kind, payload, now))
      && (forall other :: other != matchId.value ==> Find(r, other) == Find(docs, other))
      && (UniqueIds(docs) ==> UniqueIds(r))
  {
    if !Truthy(matchId) then docs
    else
      var id := matchId.value;
      var i := IndexOf(docs, id);
      if i < |docs| then
        var r := docs[i := Updated(docs[i], kind, payload, now)];
        FindAfterUpdate(docs, i, Updated(docs[i], kind, payload, now));
        r
      else
        var r := docs + [Created(id, kind, payload, now)];
        FindAfterAppend(docs, Created(id, kind, payload, now));
        r
  }

  /** `IndexOf` is the first position carrying `id`. */
  lemma {:induction false} IndexOfIsFirst(docs: seq<AnalyticsDoc>, id: string, i: nat)
    requires i <= |docs| && (i < |docs| ==> docs[i].id == id)
    requires forall k :: 0 <= k < i ==> docs[k].id != id
    ensures IndexOf(docs, id) == i
    decreases |docs|
  {
    if docs != [] && docs[0].id != id {
      IndexOfIsFirst(docs[1..], id, i - 1);
    }
  }

  lemma FindAfterUpdate(docs: seq<AnalyticsDoc>, i: nat, d: AnalyticsDoc)
    requires i == IndexOf(docs, d.id) && i < |docs|
    ensures var r := docs[i := d];
      && Find(r, d.id) == Some(d)
      && (forall other :: other != d.id ==> Find(r, other) == Find(docs, other))
      && (UniqueIds(docs) ==> UniqueIds(r))
  {
    var r := docs[i := d];
    IndexOfIsFirst(r, d.id, i);
    forall other | other != d.id
      ensures Find(r, other) == Find(docs, other)
    {
      var b := IndexOf(docs, other);
      IndexOfIsFirst(r, other, b);
    }
  }

  lemma FindAfterAppend(docs: seq<AnalyticsDoc>, d: AnalyticsDoc)
    requires IndexOf(docs, d.id) == |docs|
    ensures var r := docs + [d];
      && Find(r, d.id) == Some(d)
      && (forall other :: other != d.id ==> Find(r, other) == Find(docs, other))
      && (UniqueIds(docs) ==> UniqueIds(r))
  {
    var r := docs + [d];
    IndexOfIsFirst(r, d.id, |docs|);
    forall other | other != d.id
      ensures Find(r, other) == Find(docs, other)
    {
      FindAppendOther(docs, d, other);
    }
    if UniqueIds(docs) {
      AppendKeepsUnique(docs, d);
    }
  }

  lemma FindAppendOther(docs: seq<AnalyticsDoc>, d: AnalyticsDoc, other: string)
    requires other != d.id
    ensures Find(docs + [d], other) == Find(docs, other)
  {
    var r := docs + [d];
    var b := IndexOf(docs, other);
    assert forall k :: 0 <= k < b ==> r[k] == docs[k];
    if b < |docs| {
      assert r[b] == docs[b];
      IndexOfIsFirst(r, other, b);
    } else {
      IndexOfIsFirst(r, other, |r|);
    }
  }

  lemma AppendKeepsUnique(docs: seq<AnalyticsDoc>, d: AnalyticsDoc)
    requires UniqueIds(docs) && IndexOf(docs, d.id) == |docs|
    ensures UniqueIds(docs + [d])
  {
    var r := docs + [d];
    forall i, j | 0 <= i < j < |r|
      ensures r[i].id != r[j].id
    {
      assert r[i] == docs[i];
      if j < |docs| {
        assert r[j] == docs[j];
      }
    }
  }


  /** The exact effect of one interaction on an existing document: `click`,
      `pageView` and `share` add one to their own counter, `timeSpent` adds
      its amount only when positive, any other kind changes no counter. */
  lemma UpdatedCounters(d: AnalyticsDoc, kind: string, payload: Option<int>, now: int)
    ensures var r := Updated(d, kind, payload, now);
      && OrZero(r.clicks) == OrZero(d.clicks) + (if kind == "click" then 1 else 0)
      && OrZero(r.pageViews) == OrZero(d.pageViews) + (if kind == "pageView" then 1 else 0)
      && OrZero(r.shares) == OrZero(d.shares) + (if kind == "share" then 1 else 0)
      && OrZero(r.timeSpent) == OrZero(d.timeSpent) + (if kind == "timeSpent" && OrZero(payload) > 0 then OrZero(payload) else 0)
      && r.lastUpdated == Some(now)
  {
  }

  /** Counters never shrink; a consistent rating stays consistent and never drops. */
  ghost predicate NoDecrease(a: AnalyticsDoc, b: AnalyticsDoc) {
    && OrZero(a.clicks) <= OrZero(b.clicks)
    && OrZero(a.timeSpent) <= OrZero(b.timeSpent)
    && OrZero(a.pageViews) <= OrZero(b.pageViews)
    && OrZero(a.shares) <= OrZero(b.shares)
    && (RatingConsistent(a) ==> RatingConsistent(b) && a.interestRating.value <= b.interestRating.value)
  }

  lemma UpdatedNoDecrease(d: AnalyticsDoc, kind: string, payload: Option<int>, now: int)
    ensures NoDecrease(d, Updated(d, kind, payload, now))
  {
    var r := Updated(d, kind, payload, now);
    RatingMonotone(OrZero(d.timeSpent), OrZero(d.clicks), OrZero(d.pageViews),
                   OrZero(r.timeSpent), OrZero(r.clicks), OrZero(r.pageViews));
  }

  /** One interaction event as the front end sends it. */
  datatype Event = Event(matchId: Option<string>, kind: string, payload: Option<int>, now: int)

  /** The collection after the events, applied one after the other. */
  function Replay(docs: seq<AnalyticsDoc>, events: seq<Event>): seq<AnalyticsDoc>
    decreases |events|
  {
    if events == [] then docs
    else
      var e := events[0];
      Replay(Tracked(docs, e.matchId, e.kind, e.payload, e.now), events[1..])
  }

  /** Whatever events follow, in whatever order, a stored document's counters
      never decrease, and once its rating is consistent it never decreases. */
  lemma {:induction false} ReplayNeverDecreases(docs: seq<AnalyticsDoc>, events: seq<Event>, id: string)
    requires Find(docs, id).Some?
    ensures Find(Replay(docs, events), id).Some?
    ensures NoDecrease(Find(docs, id).value, Find(Replay(docs, events), id).value)
    decreases |events|
  {
    if events != [] {
      var e := events[0];
      var next := Tracked(docs, e.matchId, e.kind, e.payload, e.now);
      var d := Find(docs, id).value;
      if Truthy(e.matchId) && e.matchId.value == id {
        UpdatedNoDecrease(d, e.kind, e.payload, e.now);
      }
      var d' := Find(next, id).value;
      ReplayNeverDecreases(next, events[1..], id);
      var d'' := Find(Replay(docs, events), id).value;
      assert NoDecrease(d, d') && NoDecrease(d', d'');
      if RatingConsistent(d) {
        assert RatingConsistent(d');
      }
    }
  }

  /** Two clicks on a match with no document yet give two clicks and rating 10. */
  lemma TwoClicksOnNewMatch(t0: int, t1: int)
    ensures var docs := Replay([], [Event(Some("42"), "click", None, t0), Event(Some("42"), "click", None, t1)]);
      && Find(docs, "42").Some?
      && Find(docs, "42").value.clicks == Some(2)
      && Find(docs, "42").value.interestRating == Some(10)
  {
    var e0 := Event(Some("42"), "click", None, t0);
    var e1 := Event(Some("42"), "click", None, t1);
    var d0 := Tracked([], e0.matchId, "click", None, t0);
    assert Find([], "42") == None;
    var c := Created("42", "click", None, t0);
    assert Find(d0, "42") == Some(c);
    var d1 := Tracked(d0, e1.matchId, "click", None, t1);
    assert Find(d1, "42") == Some(Updated(c, "click", None, t1));
    assert Replay([], [e0, e1]) == Replay(d0, [e1]) == Replay(d1, []);
  }

  // ---------------------------------------------------------------------
  // Trending query

  /** Passes `where('lastUpdated', '>=', cutoff)` and has the field that
      `orderBy('interestRating', 'desc')` sorts on. */
  predicate Eligible(d: AnalyticsDoc, cutoff: int) {
    d.lastUpdated.Some? && d.lastUpdated.value >= cutoff && d.interestRating.Some?
  }

  function EligibleDocs(docs: seq<AnalyticsDoc>, cutoff: int): (r: seq<AnalyticsDoc>)
    ensures forall k :: 0 <= k < |r| ==> Eligible(r[k], cutoff)
    ensures forall d :: d in docs && Eligible(d, cutoff) ==> d in r
    ensures multiset(r) <= multiset(docs)
    decreases |docs|
  {
    if docs == [] then []
    else
      assert docs == [docs[0]] + docs[1..];
      (if Eligible(docs[0], cutoff) then [docs[0]] else []) + EligibleDocs(docs[1..], cutoff)
  }

  function DocRating(d: AnalyticsDoc): int {
    OrZero(d.interestRating)
  }

  /** `query(analytics, where(lastUpdated >= cutoff), orderBy(interestRating, desc), limit(maxResults))`;
      ties keep collection order. A limit that is not positive makes the
      query throw. */
  function TrendingQuery(docs: seq<AnalyticsDoc>, cutoff: int, maxResults: int): seq<AnalyticsDoc> {
    if maxResults <= 0 then []
    else
      var s := Sorting.SortDesc(EligibleDocs(docs, cutoff), DocRating);
      s[..Min(maxResults, |s|)]
  }

  /** The trending list is empty for a limit that is not positive, otherwise
      as long as the limit allows; it holds only recent rated documents, in
      descending rating order. */
  lemma TrendingQueryShape(docs: seq<AnalyticsDoc>, cutoff: int, maxResults: int)
    ensures var r := TrendingQuery(docs, cutoff, maxResults);
      && (maxResults <= 0 ==> r == [])
      && (maxResults > 0 ==> |r| == Min(maxResults, |EligibleDocs(docs, cutoff)|))
      && (forall k :: 0 <= k < |r| ==> Eligible(r[k], cutoff))
      && Sorting.SortedDesc(r, DocRating)
  {
    if maxResults > 0 {
      var e := EligibleDocs(docs, cutoff);
      var s := Sorting.SortDesc(e, DocRating);
      var r := s[..Min(maxResults, |s|)];
      assert TrendingQuery(docs, cutoff, maxResults) == r;
      assert |s| == |e| by {
        assert |multiset(s)| == |multiset(e)|;
      }
      forall k | 0 <= k < |r|
        ensures Eligible(r[k], cutoff)
      {
        assert r[k] == s[k] && s[k] in multiset(e);
      }
      forall i, j | 0 <= i < j < |r|
        ensures DocRating(r[i]) >= DocRating(r[j])
      {
        assert r[i] == s[i] && r[j] == s[j];
      }
    }
  }

  /** The trending list holds the highest-rated recent documents: whatever
      recent document it leaves out is rated no higher than any it keeps. */
  lemma TrendingIsTopRated(docs: seq<AnalyticsDoc>, cutoff: int, maxResults: int)
    requires maxResults > 0
    ensures var r := TrendingQuery(docs, cutoff, maxResults);
      var e := EligibleDocs(docs, cutoff);
      && multiset(r) <= multiset(e)
      && forall x, y :: x in multiset(e) - multiset(r) && y in multiset(r) ==> DocRating(x) <= DocRating(y)
  {
    var e := EligibleDocs(docs, cutoff);
    var s := Sorting.SortDesc(e, DocRating);
    Sorting.PrefixHoldsLargest(s, DocRating, Min(maxResults, |s|));
  }

  /** Three recent documents A, B and C rated 10, 40 and 25: the top two
      are B then C. */
  lemma TrendingExample(a: AnalyticsDoc, b: AnalyticsDoc, c: AnalyticsDoc, cutoff: int)
    requires Eligible(a, cutoff) && Eligible(b, cutoff) && Eligible(c, cutoff)
    requires a.interestRating == Some(10) && b.interestRating == Some(40) && c.interestRating == Some(25)
    ensures TrendingQuery([a, b, c], cutoff, 2) == [b, c]
  {
    ExampleAllEligible(a, b, c, cutoff);
    ExampleSorted(a, b, c);
    ExampleTopTwo(a, b, c, cutoff);
  }

  lemma ExampleTopTwo(a: AnalyticsDoc, b: AnalyticsDoc, c: AnalyticsDoc, cutoff: int)
    requires Sorting.SortDesc(EligibleDocs([a, b, c], cutoff), DocRating) == [b, c, a]
    ensures TrendingQuery([a, b, c], cutoff, 2) == [b, c]
  {
    TopOfSorted([a, b, c], cutoff, 2, [b, c, a]);
    TakeTwo(a, b, c);
  }

  lemma TakeTwo(a: AnalyticsDoc, b: AnalyticsDoc, c: AnalyticsDoc)
    ensures [b, c, a][..2] == [b, c]
  {
  }

  lemma TopOfSorted(docs: seq<AnalyticsDoc>, cutoff: int, maxResults: int, sorted: seq<AnalyticsDoc>)
    requires 0 < maxResults <= |sorted| && Sorting.SortDesc(EligibleDocs(docs, cutoff), DocRating) == sorted
    ensures TrendingQuery(docs, cutoff, maxResults) == sorted[..maxResults]
  {
  }

  lemma ExampleAllEligible(a: AnalyticsDoc, b: AnalyticsDoc, c: AnalyticsDoc, cutoff: int)
    requires Eligible(a, cutoff) && Eligible(b, cutoff) && Eligible(c, cutoff)
    ensures EligibleDocs([a, b, c], cutoff) == [a, b, c]
  {
    assert [a, b, c][1..] == [b, c] && [b, c][1..] == [c] && [c][1..] == [];
    assert EligibleDocs([c], cutoff) == [c];
    assert EligibleDocs([b, c], cutoff) == [b, c];
  }

  lemma ExampleSorted(a: AnalyticsDoc, b: AnalyticsDoc, c: AnalyticsDoc)
    requires a.interestRating == Some(10) && b.interestRating == Some(40) && c.interestRating == Some(25)
    ensures Sorting.SortDesc([a, b, c], DocRating) == [b, c, a]
  {
    assert [a, b, c][1..] == [b, c] && [b, c][1..] == [c] && [c][1..] == [];
    assert Sorting.SortDesc([c], DocRating) == [c];
    assert Sorting.Insert(b, [c], DocRating) == [b, c];
    assert Sorting.Insert(a, [], DocRating) == [a];
    assert Sorting.Insert(a, [c], DocRating) == [c, a];
    assert Sorting.Insert(a, [b, c], DocRating) == [b, c, a];
  }

  /** One entry of `trendingData`. */
  datatype TrendingRow = TrendingRow(
    matchId: Option<string>,
    interestRating: int,
    clicks: int,
    timeSpent: int,
    pageViews: int,
    shares: int,
    lastUpdated: Option<int>)

  function RowOf(d: AnalyticsDoc): TrendingRow {
    TrendingRow(d.matchId, OrZero(d.interestRating), OrZero(d.clicks), OrZero(d.timeSpent),
                OrZero(d.pageViews), OrZero(d.shares), d.lastUpdated)
  }

  /** `trendingData`: one row per document, in query order. */
  function Rows(ds: seq<AnalyticsDoc>): (r: seq<TrendingRow>)
    ensures |r| == |ds|
    ensures forall k :: 0 <= k < |ds| ==> r[k] == RowOf(ds[k])
    decreases |ds|
  {
    if ds == [] then []
    else Rows(ds[..|ds| - 1]) + [RowOf(ds[|ds| - 1])]
  }

  /** `querySnapshot.forEach(doc => trendingData.push(...))`. */
  method CollectRows(querySnapshot: seq<AnalyticsDoc>) returns (trendingData: seq<TrendingRow>)
    ensures trendingData == Rows(querySnapshot)
  {
    trendingData := [];
    for i := 0 to |querySnapshot|
      invariant trendingData == Rows(querySnapshot[..i])
    {
      assert querySnapshot[..i + 1][..i] == querySnapshot[..i];
      trendingData := trendingData + [RowOf(querySnapshot[i])];
    }
    assert querySnapshot[..|querySnapshot|] == querySnapshot;
  }

  // ---------------------------------------------------------------------
  // Cleanup

  /** Matched by `where('lastUpdated', '<', cutoff)`. */
  predicate Stale(d: AnalyticsDoc, cutoff: int) {
    d.lastUpdated.Some? && d.lastUpdated.value < cutoff
  }

  function StaleDocs(docs: seq<AnalyticsDoc>, cutoff: int): (r: seq<AnalyticsDoc>)
    ensures forall k :: 0 <= k < |r| ==> Stale(r[k], cutoff) && r[k] in docs
    ensures forall d :: d in docs && Stale(d, cutoff) ==> d in r
    decreases |docs|
  {
    if docs == [] then []
    else
      var p := docs[..|docs| - 1];
      var last := docs[|docs| - 1];
      assert docs == p + [last];
      StaleDocs(p, cutoff) + (if Stale(last, cutoff) then [last] else [])
  }

  function NotStaleDocs(docs: seq<AnalyticsDoc>, cutoff: int): (r: seq<AnalyticsDoc>)
    ensures forall k :: 0 <= k < |r| ==> !Stale(r[k], cutoff) && r[k] in docs
    ensures forall d :: d in docs && !Stale(d, cutoff) ==> d in r
    ensures |r| + |StaleDocs(docs, cutoff)| == |docs|
    decreases |docs|
  {
    if docs == [] then []
    else
      var p := docs[..|docs| - 1];
      var last := docs[|docs| - 1];
      assert docs == p + [last];
      NotStaleDocs(p, cutoff) + (if Stale(last, cutoff) then [] else [last])
  }

  /** What a cleanup leaves in the collection and the count it returns. */
  datatype CleanupOutcome = CleanupOutcome(remaining: seq<AnalyticsDoc>, removed: int)

  /** `cleanupOldAnalytics` as written: `deleteDoc` is not imported, so the
      first turn of the loop that queues deletions throws a ReferenceError,
      the catch returns 0, and nothing is deleted. */
  function CleanupAsWritten(docs: seq<AnalyticsDoc>, cutoff: int, queryFails: bool): CleanupOutcome {
    // A failed query, an empty snapshot and the thrown ReferenceError all
    // end with the collection as it was and a count of 0.
    CleanupOutcome(docs, 0)
  }

  /** The cleanup the function evidently intends: every document last
      updated before the cutoff is deleted, the others are kept in order, and
      the count deleted is returned; a failed query deletes nothing and
      returns 0. */
  function Cleanup(docs: seq<AnalyticsDoc>, cutoff: int, queryFails: bool): (r: CleanupOutcome)
    ensures queryFails ==> r == CleanupOutcome(docs, 0)
    ensures !queryFails ==>
      && (forall d :: d in r.remaining <==> d in docs && !Stale(d, cutoff))
      && r.removed == |StaleDocs(docs, cutoff)|
      && r.removed == |docs| - |r.remaining|
  {
    if queryFails then CleanupOutcome(docs, 0)
    else CleanupOutcome(NotStaleDocs(docs, cutoff), |StaleDocs(docs, cutoff)|)
  }

  /** The discrepancy: one document older than thirty days stays in the
      collection and the call reports 0, where one deletion was meant. */
  lemma CleanupAsWrittenDeletesNothing(d: AnalyticsDoc, cutoff: int)
    requires Stale(d, cutoff)
    ensures CleanupAsWritten([d], cutoff, false) == CleanupOutcome([d], 0)
    ensures Cleanup([d], cutoff, false).remaining == [] && Cleanup([d], cutoff, false).removed == 1
  {
    assert [d][..0] == [];
    assert StaleDocs([d], cutoff) == [d];
    assert NotStaleDocs([d], cutoff) == [];
  }

  /** Leaves out the documents whose id is in `ids`. */
  function WithoutIds(docs: seq<AnalyticsDoc>, ids: set<string>): seq<AnalyticsDoc>
    decreases |docs|
  {
    if docs == [] then []
    else
      var p := docs[..|docs| - 1];
      var last := docs[|docs| - 1];
      WithoutIds(p, ids) + (if last.id in ids then [] else [last])
  }

  function Ids(docs: seq<AnalyticsDoc>): set<string> {
    set k | 0 <= k < |docs| :: docs[k].id
  }

  /** With unique ids, a document's id is among the stale documents' ids
      exactly when the document itself is stale. */
  lemma StaleIdsAreStaleDocs(docs: seq<AnalyticsDoc>, cutoff: int)
    requires UniqueIds(docs)
    ensures forall k :: 0 <= k < |docs| ==> (docs[k].id in Ids(StaleDocs(docs, cutoff)) <==> Stale(docs[k], cutoff))
  {
    var s := StaleDocs(docs, cutoff);
    forall k | 0 <= k < |docs|
      ensures docs[k].id in Ids(s) <==> Stale(docs[k], cutoff)
    {
      if Stale(docs[k], cutoff) {
        var j :| 0 <= j < |s| && s[j] == docs[k];
        assert docs[k].id == s[j].id;
      }
      if docs[k].id in Ids(s) {
        var j :| 0 <= j < |s| && s[j].id == docs[k].id;
        var m :| 0 <= m < |docs| && docs[m] == s[j];
        assert m == k;
      }
    }
  }

  /** Deleting by an id set that picks out exactly the stale documents
      leaves the documents that are not stale. */
  lemma {:induction false} WithoutStaleIds(docs: seq<AnalyticsDoc>, ids: set<string>, cutoff: int)
    requires forall k :: 0 <= k < |docs| ==> (docs[k].id in ids <==> Stale(docs[k], cutoff))
    ensures WithoutIds(docs, ids) == NotStaleDocs(docs, cutoff)
    decreases |docs|
  {
    if docs != [] {
      var p := docs[..|docs| - 1];
      assert forall k :: 0 <= k < |p| ==> p[k] == docs[k];
      WithoutStaleIds(p, ids, cutoff);
    }
  }

  lemma DeletingStaleIdsKeepsTheRest(docs: seq<AnalyticsDoc>, cutoff: int)
    requires UniqueIds(docs)
    ensures WithoutIds(docs, Ids(StaleDocs(docs, cutoff))) == NotStaleDocs(docs, cutoff)
  {
    StaleIdsAreStaleDocs(docs, cutoff);
    WithoutStaleIds(docs, Ids(StaleDocs(docs, cutoff)), cutoff);
  }

  // ---------------------------------------------------------------------
  // The collection

  /** The `analytics` collection, listed in collection order. */
  class AnalyticsCollection {
    var docs: seq<AnalyticsDoc>

    ghost predicate Valid()
      reads this
    {
      UniqueIds(docs)
    }

    constructor (docs: seq<AnalyticsDoc>)
      requires UniqueIds(docs)
      ensures Valid() && this.docs == docs
    {
      this.docs := docs;
    }

    /** `trackMatchInteraction(matchId, kind, { timeSpent: payload })`: the
        update is built field by field, merged into the stored document, and
        the rating is recomputed from what is read back. */
    method TrackMatchInteraction(matchId: Option<string>, kind: string, payload: Option<int>, now: int)
      requires Valid()
      modifies this
      ensures Valid()
      ensures docs == Tracked(old(docs), matchId, kind, payload, now)
    {
      if !Truthy(matchId) {
        return;
      }
      var id := matchId.value;
      var i := IndexOf(docs, id);
      ghost var expected := Tracked(docs, matchId, kind, payload, now);
      assert UniqueIds(expected);
      if i < |docs| {
        var current := docs[i];
        var update := current.(matchId := Some(id), lastUpdated := Some(now));
        if kind == "click" {
          update := update.(clicks := Some(OrZero(current.clicks) + 1));
        } else if kind == "timeSpent" {
          var additionalTime := OrZero(payload);
          if additionalTime > 0 {
            update := update.(timeSpent := Some(OrZero(current.timeSpent) + additionalTime));
          }
        } else if kind == "pageView" {
          update := update.(pageViews := Some(OrZero(current.pageViews) + 1), lastViewedAt := Some(now));
        } else if kind == "share" {
          update := update.(shares := Some(OrZero(current.shares) + 1));
        }
        docs := docs[i := update];
        var updatedData := docs[i];
        var newRating := InterestRating(OrZero(updatedData.timeSpent), OrZero(updatedData.clicks), OrZero(updatedData.pageViews));
        assert updatedData.(interestRating := Some(newRating)) == Updated(current, kind, payload, now);
        docs := docs[i := updatedData.(interestRating := Some(newRating))];
        assert docs == expected;
      } else {
        var initialData := AnalyticsDoc(
          id, Some(id),
          Some(if kind == "click" then 1 else 0),
          Some(if kind == "timeSpent" then OrZero(payload) else 0),
          Some(if kind == "pageView" then 1 else 0),
          Some(if kind == "share" then 1 else 0),
          None,
          Some(now), Some(now),
          if kind == "pageView" then Some(now) else None);
        initialData := initialData.(interestRating := Some(InterestRating(
          initialData.timeSpent.value, initialData.clicks.value, initialData.pageViews.value)));
        assert initialData == Created(id, kind, payload, now);
        docs := docs + [initialData];
        assert docs == expected;
      }
    }

    /** `getTrendingMatches(maxResults)`: the query's documents, each with
        its missing counters read as 0; `[]` when the query fails. */
    method GetTrendingMatches(now: int, maxResults: Option<int>, queryFails: bool) returns (trendingData: seq<TrendingRow>)
      ensures queryFails ==> trendingData == []
      ensures !queryFails ==> trendingData == Rows(TrendingQuery(docs, now - TrendingWindow, maxResults.GetOr(DefaultMaxResults)))
    {
      if queryFails {
        return [];
      }
      var querySnapshot := TrendingQuery(docs, now - TrendingWindow, maxResults.GetOr(DefaultMaxResults));
      trendingData := CollectRows(querySnapshot);
    }

    /** `getMatchAnalytics(matchId)`: the stored document, or null for a
        falsy id, a missing document or a failed read. */
    method GetMatchAnalytics(matchId: Option<string>, readFails: bool) returns (r: Option<AnalyticsDoc>)
      ensures !Truthy(matchId) || readFails ==> r.None?
      ensures Truthy(matchId) && !readFails ==> r == Find(docs, matchId.value)
    {
      if !Truthy(matchId) || readFails {
        return None;
      }
      r := Find(docs, matchId.value);
    }

    /** `cleanupOldAnalytics()` with the deletion it evidently intends: one
        deletion is queued per document the query returns, then all are
        applied and counted. */
    method CleanupOldAnalytics(now: int, queryFails: bool) returns (removed: int)
      requires Valid()
      modifies this
      ensures Valid()
      ensures var outcome := Cleanup(old(docs), now - RetentionWindow, queryFails);
        docs == outcome.remaining && removed == outcome.removed
    {
      var cutoff := now - RetentionWindow;
      if queryFails {
        return 0;
      }
      CleanupKeepsIdsUnique(docs, cutoff);
      var querySnapshot := StaleDocs(docs, cutoff);
      if querySnapshot == [] {
        DeletingStaleIdsKeepsTheRest(docs, cutoff);
        assert Ids(querySnapshot) == {};
        WithoutNoIds(docs);
        return 0;
      }
      var deletions: set<string> := {};
      for i := 0 to |querySnapshot|
        invariant deletions == Ids(querySnapshot[..i])
      {
        assert querySnapshot[..i + 1] == querySnapshot[..i] + [querySnapshot[i]];
        deletions := deletions + {querySnapshot[i].id};
      }
      assert querySnapshot[..|querySnapshot|] == querySnapshot;
      DeletingStaleIdsKeepsTheRest(docs, cutoff);
      docs := WithoutIds(docs, deletions);
      removed := |querySnapshot|;
    }
  }

  /** Deleting no id changes nothing. */
  lemma {:induction false} WithoutNoIds(docs: seq<AnalyticsDoc>)
    ensures WithoutIds(docs, {}) == docs
    decreases |docs|
  {
    if docs != [] {
      var p := docs[..|docs| - 1];
      WithoutNoIds(p);
      assert docs == p + [docs[|docs| - 1]];
    }
  }

  /** Deleting documents keeps the remaining ids distinct. */
  lemma {:induction false} CleanupKeepsIdsUnique(docs: seq<AnalyticsDoc>, cutoff: int)
    requires UniqueIds(docs)
    ensures UniqueIds(NotStaleDocs(docs, cutoff))
    decreases |docs|
  {
    if docs != [] {
      var p := docs[..|docs| - 1];
      var last := docs[|docs| - 1];
      assert UniqueIds(p);
      CleanupKeepsIdsUnique(p, cutoff);
      var q := NotStaleDocs(p, cutoff);
      forall k | 0 <= k < |q|
        ensures q[k].id != last.id
      {
        var j :| 0 <= j < |p| && p[j] == q[k];
      }
    }
  }


}
