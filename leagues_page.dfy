/** The leagues route's `load` (src/routes/leagues/+page.server.js): serve
    whatever is stored under `leagues`; only when nothing is stored, run the
    reduced refresh and store its envelope, turning any failure into an
    empty page that carries the error message. */
module LeaguesPage {
  import opened Wrappers
  import opened LeaguePipeline
  import Decimal

  /** What `load` returns: the stored or freshly built envelope, or
      `{ leagues: [], error }`. */
  datatype LeaguesData = Served(envelope: Envelope) | Failed(leagues: seq<League>, error: string)

  /** A snapshot, once stored, is served unchanged however old it is: the
      route never refreshes an existing cache. */
  method Load(stored: Option<Envelope>, now: int, up: Upstream) returns (data: LeaguesData, written: Option<Envelope>)
    ensures stored.Some? ==> data == Served(stored.value) && written == None
    ensures stored.None? ==> match Refreshed(Reduced, up, now)
                             case Ok(env) => data == Served(env) && written == Some(env)
                             case Err(e) => data == Failed([], e) && written == None
  {
    if stored.Some? {
      return Served(stored.value), None;
    }
    var leaguesData := Refresh(Reduced, up, now);
    match leaguesData {
      case Err(message) =>
        data, written := Failed([], message), None;
      case Ok(env) =>
        data, written := Served(env), Some(env);
    }
  }

  /** An envelope this route builds itself carries no `allMatches` and is
      stamped with the time of the load. */
  lemma FreshEnvelopeIsReduced(up: Upstream, now: int)
    requires Refreshed(Reduced, up, now).Ok?
    ensures Refreshed(Reduced, up, now).value.allMatches.None?
    ensures Refreshed(Reduced, up, now).value.updatedAt == Some(now)
  {
  }

  /** When the competition list cannot be fetched, the page is empty and its
      error names the HTTP status. */
  lemma CompetitionsFailureMessage(up: Upstream, now: int, status: int)
    requires up.competitions == NotOk(status)
    ensures Refreshed(Reduced, up, now) == Err("Failed to fetch competitions: " + Decimal.IntToDecimal(status))
  {
  }
}
