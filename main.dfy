/** The conversation controller: the handlers in their registration order,
    the first one whose filter accepts a message runs, and the two selections
    `CURRENT_LEAGUE` and `CURRENT_TEAM` with the team catalog they load. */
module Bot {
  import opened PyText
  import opened FootballApi

  /** The message handlers, named after the functions they model. */
  datatype Handler =
    | SendWelcome
    | HandleLeagueChoice
    | HandleLeagueTable
    | HandleTeamInput
    | HandleLeagueMatches
    | HandleMatchComparisonInput
    | HandleMatchComparison
    | HandleTeamChoice
    | HandleTeamPlayers
    | HandleTeamLastMatches
    | HandleChoice

  /** The order in which the handlers are registered, and so tried. */
  const Registered: seq<Handler> := [
    SendWelcome, HandleLeagueChoice, HandleLeagueTable, HandleTeamInput, HandleLeagueMatches,
    HandleMatchComparisonInput, HandleMatchComparison, HandleTeamChoice, HandleTeamPlayers,
    HandleTeamLastMatches, HandleChoice]

  /** The `/start` command, alone or followed by arguments. */
  predicate IsStartCommand(text: string) {
    text == "/start" || (|text| > 7 && text[..7] == "/start ")
  }

  /** `str.isnumeric`, for ASCII text. */
  predicate IsNumeric(text: string) {
    |text| > 0 && AllDigits(text)
  }

  /** What a handler's filter answers for a message: `Some(accepts)`, or
      `None` when evaluating it raises (`text in None` once a catalog could
      not be loaded). */
  function Filter(h: Handler, text: string, leagues: Option<map<string, int>>,
                  teams: Option<map<string, int>>): (r: Option<bool>)
    ensures r.None? <==> (h == HandleLeagueChoice && leagues.None?) || (h == HandleTeamChoice && teams.None?)
    ensures h == HandleChoice ==> r == Some(true)
  {
    match h
    case SendWelcome => Some(IsStartCommand(text))
    case HandleLeagueChoice => if leagues.None? then None else Some(text in leagues.value)
    case HandleLeagueTable => Some(text == "Table")
    case HandleTeamInput => Some(text == "Team")
    case HandleLeagueMatches => Some(text == "Matches on-air")
    case HandleMatchComparisonInput => Some(text == "Match comparison")
    case HandleMatchComparison => Some(IsNumeric(text))
    case HandleTeamChoice => if teams.None? then None else Some(text in teams.value)
    case HandleTeamPlayers => Some(text == "Players")
    case HandleTeamLastMatches => Some(text == "Last 10 matches")
    case HandleChoice => Some(true)
  }

  /** The position of the first handler of `hs` whose filter does not
      reject the message, or `|hs|` when all reject it. */
  function FirstUndeclined(hs: seq<Handler>, text: string, leagues: Option<map<string, int>>,
                           teams: Option<map<string, int>>): (k: nat)
    ensures k <= |hs|
    ensures forall j :: 0 <= j < k ==> Filter(hs[j], text, leagues, teams) == Some(false)
    ensures k < |hs| ==> Filter(hs[k], text, leagues, teams) != Some(false)
  {
    if hs == [] then 0
    else if Filter(hs[0], text, leagues, teams) == Some(false) then
      1 + FirstUndeclined(hs[1..], text, leagues, teams)
    else 0
  }

  /** The handler that runs, or the handler whose filter raised. */
  datatype Dispatched = Fired(handler: Handler) | Raised(inFilterOf: Handler)

  /** The dispatcher: the first registered handler that accepts the message
      runs; a filter that raises ends the search with no handler run. */
  function Dispatch(text: string, leagues: Option<map<string, int>>,
                    teams: Option<map<string, int>>): (d: Dispatched)
    ensures d.Fired? ==> d.handler in Registered && Filter(d.handler, text, leagues, teams) == Some(true)
    ensures d.Raised? ==>
              Filter(d.inFilterOf, text, leagues, teams) == None &&
              (d.inFilterOf == HandleLeagueChoice || d.inFilterOf == HandleTeamChoice)
  {
    var k := FirstUndeclined(Registered, text, leagues, teams);
    assert Filter(Registered[|Registered| - 1], text, leagues, teams) == Some(true);
    var h := Registered[k];
    if Filter(h, text, leagues, teams) == Some(true) then Fired(h) else Raised(h)
  }

  /** Each handler is registered once. */
  lemma RegisteredDistinct()
    ensures forall i, j :: 0 <= i < j < |Registered| ==> Registered[i] != Registered[j]
  {
  }

  /** First match in registration order: handler `i` runs iff its filter
      accepts the message and every earlier filter rejects it. */
  lemma DispatchFirstMatch(text: string, leagues: Option<map<string, int>>,
                           teams: Option<map<string, int>>, i: nat)
    requires i < |Registered|
    ensures Dispatch(text, leagues, teams) == Fired(Registered[i]) <==>
              Filter(Registered[i], text, leagues, teams) == Some(true) &&
              forall j :: 0 <= j < i ==> Filter(Registered[j], text, leagues, teams) == Some(false)
  {
    var k := FirstUndeclined(Registered, text, leagues, teams);
    assert Filter(Registered[|Registered| - 1], text, leagues, teams) == Some(true);
    RegisteredDistinct();
    if Dispatch(text, leagues, teams) == Fired(Registered[i]) {
      assert Registered[k] == Registered[i];
    }
  }

  /** A filter that raises ends the search: handler `i`'s filter raises and
      the message goes unanswered iff every earlier filter rejects it. */
  lemma DispatchFirstRaise(text: string, leagues: Option<map<string, int>>,
                           teams: Option<map<string, int>>, i: nat)
    requires i < |Registered|
    ensures Dispatch(text, leagues, teams) == Raised(Registered[i]) <==>
              Filter(Registered[i], text, leagues, teams) == None &&
              forall j :: 0 <= j < i ==> Filter(Registered[j], text, leagues, teams) == Some(false)
  {
    var k := FirstUndeclined(Registered, text, leagues, teams);
    assert Filter(Registered[|Registered| - 1], text, leagues, teams) == Some(true);
    RegisteredDistinct();
    if Dispatch(text, leagues, teams) == Raised(Registered[i]) {
      assert Registered[k] == Registered[i];
    }
  }

  /** The words of the two menus. */
  predicate IsMenuWord(text: string) {
    text == "Table" || text == "Team" || text == "Matches on-air" ||
    text == "Match comparison" || text == "Players" || text == "Last 10 matches"
  }

  /** The first ten handlers all reject the text, one by one. */
  predicate EarlierReject(text: string, leagues: Option<map<string, int>>, teams: Option<map<string, int>>) {
    Filter(SendWelcome, text, leagues, teams) == Some(false) &&
    Filter(HandleLeagueChoice, text, leagues, teams) == Some(false) &&
    Filter(HandleLeagueTable, text, leagues, teams) == Some(false) &&
    Filter(HandleTeamInput, text, leagues, teams) == Some(false) &&
    Filter(HandleLeagueMatches, text, leagues, teams) == Some(false) &&
    Filter(HandleMatchComparisonInput, text, leagues, teams) == Some(false) &&
    Filter(HandleMatchComparison, text, leagues, teams) == Some(false) &&
    Filter(HandleTeamChoice, text, leagues, teams) == Some(false) &&
    Filter(HandleTeamPlayers, text, leagues, teams) == Some(false) &&
    Filter(HandleTeamLastMatches, text, leagues, teams) == Some(false)
  }

  lemma EarlierRejectAll(text: string, leagues: Option<map<string, int>>, teams: Option<map<string, int>>)
    ensures EarlierReject(text, leagues, teams) <==>
              forall j :: 0 <= j < 10 ==> Filter(Registered[j], text, leagues, teams) == Some(false)
  {
    var R := Registered;
    assert R[0] == SendWelcome && R[1] == HandleLeagueChoice && R[2] == HandleLeagueTable;
    assert R[3] == HandleTeamInput && R[4] == HandleLeagueMatches && R[5] == HandleMatchComparisonInput;
    assert R[6] == HandleMatchComparison && R[7] == HandleTeamChoice && R[8] == HandleTeamPlayers;
    assert R[9] == HandleTeamLastMatches;
    if EarlierReject(text, leagues, teams) {
      forall j | 0 <= j < 10 ensures Filter(R[j], text, leagues, teams) == Some(false) {
        if j < 5 {
          assert j == 0 || j == 1 || j == 2 || j == 3 || j == 4;
        } else {
          assert j == 5 || j == 6 || j == 7 || j == 8 || j == 9;
        }
      }
    }
  }

  /** The fallback runs exactly for text that is no command, league, menu
      word, number or team, once both catalogs are loaded. */
  lemma DispatchFallback(text: string, leagues: Option<map<string, int>>, teams: Option<map<string, int>>)
    ensures Dispatch(text, leagues, teams) == Fired(HandleChoice) <==>
              leagues.Some? && teams.Some? && !IsStartCommand(text) && text !in leagues.value &&
              !IsMenuWord(text) && !IsNumeric(text) && text !in teams.value
  {
    DispatchFirstMatch(text, leagues, teams, 10);
    EarlierRejectAll(text, leagues, teams);
    assert Registered[10] == HandleChoice;
  }

  /** Numeric text asks for a prediction whatever the selections and the
      team catalog, unless it names a league. */
  lemma NumericAsksPrediction(text: string, leagues: map<string, int>, teams: Option<map<string, int>>)
    requires IsNumeric(text) && text !in leagues
    ensures Dispatch(text, Some(leagues), teams) == Fired(HandleMatchComparison)
  {
    DispatchFirstMatch(text, Some(leagues), teams, 6);
    var c := text[0];
    assert IsDigit(c);
    assert text != "/start" by { assert "/start"[0] == '/'; }
    if |text| > 7 {
      assert text[..7][0] == c;
      assert "/start "[0] == '/';
    }
    assert text != "Table" && text != "Team" && text != "Matches on-air" && text != "Match comparison";
  }

  /** A league name is a league choice, whatever the menus and teams say. */
  lemma LeagueNameWins(text: string, leagues: map<string, int>, teams: Option<map<string, int>>)
    requires text in leagues && !IsStartCommand(text)
    ensures Dispatch(text, Some(leagues), teams) == Fired(HandleLeagueChoice)
  {
    DispatchFirstMatch(text, Some(leagues), teams, 1);
  }

  /** A missing catalog makes the message go unanswered. */
  lemma MissingLeaguesRaise(text: string, teams: Option<map<string, int>>)
    requires !IsStartCommand(text)
    ensures Dispatch(text, None, teams) == Raised(HandleLeagueChoice)
  {
    var k := FirstUndeclined(Registered, text, None, teams);
    assert Filter(Registered[1], text, None, teams) == None;
    assert k == 1;
  }

  // ---------------------------------------------------------------------
  // Replies

  datatype Keyboard = LeagueKeyboard | TeamKeyboard | RemoveKeyboard | SameKeyboard

  /** What the bot sends: a text with a keyboard, or an artifact that a
      fetch and a render produce for the named league, fixture or team. */
  datatype Outbound =
    | Say(text: string, keyboard: Keyboard)
    | StandingsImage(league: string)
    | LiveMatchesText(league: string)
    | PredictionImage(fixture: string)
    | PredictionLegend(fixture: string)
    | SquadImage(team: string)
    | FormImage(team: string)

  const Welcome := "Welcome to the Analytics Football Bot! Please specify league that you want to discover:"
  const LeagueQuestion := "What do you want to know?"
  const TeamQuestion := "What do you want to know about team?"
  const FixtureQuestion := "Please, enter match id:"
  const Apology := "You have entered smth wrong :("

  function TeamNameQuestion(league: string): string {
    "What team of the league " + league + " do you want to discover?"
  }

  /** The messages a handler sends, in order, given the selections before it runs. */
  function Replies(h: Handler, text: string, league: string, team: string): (out: seq<Outbound>)
    ensures |out| > 0 && out[|out| - 1].Say?
    ensures h in {HandleLeagueChoice, HandleLeagueTable, HandleLeagueMatches, HandleMatchComparison} ==>
              out[|out| - 1] == Say(LeagueQuestion, LeagueKeyboard)
    ensures h in {HandleTeamChoice, HandleTeamPlayers, HandleTeamLastMatches} ==>
              out[|out| - 1] == Say(TeamQuestion, TeamKeyboard)
    ensures h !in {HandleLeagueChoice, HandleLeagueTable, HandleLeagueMatches, HandleMatchComparison,
                   HandleTeamChoice, HandleTeamPlayers, HandleTeamLastMatches} ==>
              out[|out| - 1].keyboard == RemoveKeyboard
  {
    match h
    case SendWelcome => [Say(Welcome, RemoveKeyboard)]
    case HandleLeagueChoice => [Say(LeagueQuestion, LeagueKeyboard)]
    case HandleLeagueTable => [StandingsImage(league), Say(LeagueQuestion, LeagueKeyboard)]
    case HandleTeamInput => [Say(TeamNameQuestion(league), RemoveKeyboard)]
    case HandleLeagueMatches => [LiveMatchesText(league), Say(LeagueQuestion, LeagueKeyboard)]
    case HandleMatchComparisonInput => [Say(FixtureQuestion, RemoveKeyboard)]
    case HandleMatchComparison =>
      [PredictionImage(text), PredictionLegend(text), Say(LeagueQuestion, LeagueKeyboard)]
    case HandleTeamChoice => [Say(TeamQuestion, TeamKeyboard)]
    case HandleTeamPlayers => [SquadImage(team), Say(TeamQuestion, TeamKeyboard)]
    case HandleTeamLastMatches => [FormImage(team), Say(TeamQuestion, TeamKeyboard)]
    case HandleChoice => [Say(Apology, SameKeyboard), Say(Welcome, RemoveKeyboard)]
  }

  // ---------------------------------------------------------------------
  // The controller

  class Controller {
    /** `LEAGUES_DICT`, loaded once at start; `None` when loading failed. */
    const leagues: Option<map<string, int>>
    /** `CURRENT_LEAGUE` */
    var currentLeague: string
    /** `CURRENT_TEAM` */
    var currentTeam: string
    /** `TEAMS_DICT`; `None` after a failed reload. */
    var teams: Option<map<string, int>>
    /** How many times the team catalog has been fetched. */
    ghost var reloads: nat

    /** The state at start: nothing selected, no teams. */
    constructor (leagues: Option<map<string, int>>)
      ensures this.leagues == leagues
      ensures currentLeague == "" && currentTeam == "" && teams == Some(map[]) && reloads == 0
    {
      this.leagues := leagues;
      currentLeague := "";
      currentTeam := "";
      teams := Some(map[]);
      reloads := 0;
    }

    /** `handle_league_choice`: a league other than the current one becomes
      current and its team catalog is fetched; the same league changes nothing. */
    method LeagueChoice(text: string, teamsReply: Reply<NamedId>) returns (out: seq<Outbound>)
      modifies this
      ensures currentTeam == old(currentTeam)
      ensures old(currentLeague) != text ==>
                currentLeague == text && CatalogFetched(teams, teamsReply) && reloads == old(reloads) + 1
      ensures old(currentLeague) == text ==>
                currentLeague == old(currentLeague) && teams == old(teams) && reloads == old(reloads)
      ensures out == Replies(HandleLeagueChoice, text, old(currentLeague), old(currentTeam))
    {
      if currentLeague != text {
        currentLeague := text;
        teams := GetTeamsDict(teamsReply);
        reloads := reloads + 1;
      }
      out := [Say(LeagueQuestion, LeagueKeyboard)];
    }

    /** `handle_team_choice`: the text becomes the current team. */
    method TeamChoice(text: string) returns (out: seq<Outbound>)
      modifies this`currentTeam
      ensures currentTeam == text
      ensures out == Replies(HandleTeamChoice, text, currentLeague, old(currentTeam))
    {
      currentTeam := text;
      out := [Say(TeamQuestion, TeamKeyboard)];
    }

    /** One inbound text message. The league and team choices are the only
        handlers that select anything; the actions that go back to a menu
        re-enter it with the current selection, which changes nothing. */
    method Step(text: string, teamsReply: Reply<NamedId>) returns (d: Dispatched, out: seq<Outbound>)
      modifies this
      ensures d == Dispatch(text, leagues, old(teams))
      ensures d == Fired(HandleLeagueChoice) ==>
                currentTeam == old(currentTeam) &&
                (old(currentLeague) != text ==>
                   currentLeague == text && CatalogFetched(teams, teamsReply) && reloads == old(reloads) + 1) &&
                (old(currentLeague) == text ==>
                   currentLeague == old(currentLeague) && teams == old(teams) && reloads == old(reloads))
      ensures d == Fired(HandleTeamChoice) ==>
                currentTeam == text && currentLeague == old(currentLeague) &&
                teams == old(teams) && reloads == old(reloads)
      ensures d != Fired(HandleLeagueChoice) && d != Fired(HandleTeamChoice) ==>
                currentLeague == old(currentLeague) && currentTeam == old(currentTeam) &&
                teams == old(teams) && reloads == old(reloads)
      ensures d.Fired? ==> out == Replies(d.handler, text, old(currentLeague), old(currentTeam))
      ensures d.Raised? ==> out == []
    {
      d := Dispatch(text, leagues, teams);
      if d.Raised? {
        return d, [];
      }
      var more: seq<Outbound>;
      match d.handler
      case SendWelcome =>
        out := [Say(Welcome, RemoveKeyboard)];
      case HandleLeagueChoice =>
        out := LeagueChoice(text, teamsReply);
      case HandleLeagueTable =>
        more := LeagueChoice(currentLeague, teamsReply);
        out := [StandingsImage(currentLeague)] + more;
      case HandleTeamInput =>
        out := [Say(TeamNameQuestion(currentLeague), RemoveKeyboard)];
      case HandleLeagueMatches =>
        more := LeagueChoice(currentLeague, teamsReply);
        out := [LiveMatchesText(currentLeague)] + more;
      case HandleMatchComparisonInput =>
        out := [Say(FixtureQuestion, RemoveKeyboard)];
      case HandleMatchComparison =>
        more := LeagueChoice(currentLeague, teamsReply);
        out := [PredictionImage(text), PredictionLegend(text)] + more;
      case HandleTeamChoice =>
        out := TeamChoice(text);
      case HandleTeamPlayers =>
        more := TeamChoice(currentTeam);
        out := [SquadImage(currentTeam)] + more;
      case HandleTeamLastMatches =>
        more := TeamChoice(currentTeam);
        out := [FormImage(currentTeam)] + more;
      case HandleChoice =>
        out := [Say(Apology, SameKeyboard), Say(Welcome, RemoveKeyboard)];
    }
  }

  /** Choosing the same league twice in a row fetches its teams once. */
  method ChooseLeagueTwice(leagues: map<string, int>, name: string, teamsReply: Reply<NamedId>)
    returns (c: Controller)
    requires name in leagues && name != "" && !IsStartCommand(name)
    ensures c.currentLeague == name && c.currentTeam == "" && c.reloads == 1
    ensures CatalogFetched(c.teams, teamsReply)
  {
    c := new Controller(Some(leagues));
    LeagueNameWins(name, leagues, c.teams);
    var d, out := c.Step(name, teamsReply);
    LeagueNameWins(name, leagues, c.teams);
    d, out := c.Step(name, teamsReply);
  }
}
