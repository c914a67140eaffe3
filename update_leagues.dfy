/** The maintenance script src/scripts/updateLeagues.js: one unconditional
    reduced refresh written to `leagues`, followed by a success message; a
    failure is handed to `console.error` by the final `.catch`, so nothing is
    written and the rejection goes no further. */
module UpdateLeaguesScript {
  import opened Wrappers
  import opened LeaguePipeline

  /** A line of console output: `console.log` or `console.error`. */
  datatype LogLine = Info(text: string) | Error(text: string)

  const SuccessMessage := "Leagues updated in Firebase!"

  /** The script's run: the envelope written and the console output. */
  datatype Run = Run(written: Option<Envelope>, log: seq<LogLine>)

  method UpdateLeagues(up: Upstream, now: int) returns (run: Run)
    ensures match Refreshed(Reduced, up, now)
            case Ok(env) => run.written == Some(env) && run.log == [Info(SuccessMessage)]
            case Err(e) => run.written.None? && run.log == [Error(e)]
  {
    var result := Refresh(Reduced, up, now);
    match result {
      case Ok(env) =>
        run := Run(Some(env), [Info(SuccessMessage)]);
      case Err(message) =>
        run := Run(None, [Error(message)]);
    }
  }

  /** Whatever the script stores holds every gathered match exactly once,
      grouped by league, and is stamped with the run's time. */
  lemma ScriptEnvelope(up: Upstream, now: int)
    requires Refreshed(Reduced, up, now).Ok?
    ensures var env := Refreshed(Reduced, up, now).value;
      && env.updatedAt == Some(now) && env.allMatches.None?
      && multiset(Flatten(env.leagues.value))
         == multiset(Collected(Reduced, LeagueCompetitions(up.competitions.body), up.matchesOf).value)
  {
    RefreshedContents(Reduced, up, now);
  }
}
