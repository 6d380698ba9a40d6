/** The parts of the esports schedule feed the tracker reads. Every JSON key
    the code reads with `.get` may be absent, so every field is optional;
    the accessors below apply the defaults the code supplies. */
module Feed {
  import opened Wrappers

  /** A team's `result` object: `outcome` ("win", "loss", ...) and `gameWins`. */
  datatype TeamResult = TeamResult(outcome: Option<string>, gameWins: Option<nat>)

  datatype Team = Team(
    id: Option<string>,
    code: Option<string>,
    name: Option<string>,
    image: Option<string>,
    result: Option<TeamResult>)

  /** The match format object (`{"type": "bestOf", "count": 3}`), passed through. */
  datatype Strategy = Strategy(kind: Option<string>, count: Option<nat>)

  /** A `match` object; an absent or empty one is `None` in `Event.fixture`. */
  datatype Match = Match(id: Option<string>, teams: seq<Team>, strategy: Option<Strategy>)

  /** A schedule event; `leagueName` is `event["league"]["name"]`, absent when
      either level is. */
  datatype Event = Event(
    id: Option<string>,
    state: Option<string>,
    startTime: Option<string>,
    leagueName: Option<string>,
    blockName: Option<string>,
    fixture: Option<Match>)

  /** `event.get("state", "")` */
  function StateOf(e: Event): string {
    e.state.GetOr("")
  }

  /** `event.get("match", {}).get("teams", [])` */
  function TeamsOf(e: Event): seq<Team> {
    if e.fixture.Some? then e.fixture.value.teams else []
  }

  /** `event.get("match", {}).get("id", "")` */
  function MatchIdOf(e: Event): string {
    if e.fixture.Some? then e.fixture.value.id.GetOr("") else ""
  }

  /** `match.get("strategy", {})`, the empty object when absent. */
  function StrategyOf(e: Event): Strategy {
    if e.fixture.Some? && e.fixture.value.strategy.Some? then e.fixture.value.strategy.value
    else Strategy(None, None)
  }

  /** `team.get("result", {}).get("outcome")` */
  function OutcomeOf(t: Team): Option<string> {
    if t.result.Some? then t.result.value.outcome else None
  }

  /** `team.get("result", {}).get("outcome") == "win"` */
  predicate Won(t: Team) {
    OutcomeOf(t) == Some("win")
  }

  /** `team.get("result", {}).get("gameWins", 0)` */
  function GameWins(t: Team): nat {
    if t.result.Some? then t.result.value.gameWins.GetOr(0) else 0
  }
}
