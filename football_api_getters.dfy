/** The data-shaping half of the fetchers: each one receives the HTTP status
    and the already parsed `response` array of one API call and turns it into
    rows. A table (a DataFrame in the bot) is a sequence of row records; every
    path on which a fetcher gives back `None` is a `Failed` with its cause. */
module FootballApi {
  import opened PyText

  const OK := 200

  /** Why a fetcher gives no table. */
  datatype Failure =
    | BadStatus(code: int)  // the status was not 200
    | NoStandings           // the standings reply holds no league
    | IndexError            // `[0]` of an empty list
    | KeyError              // a column that the empty DataFrame does not have
    | ValueError            // `int()`/`float()` of a non-number, or `list.remove` of an absent item

  datatype Fetch<T> = Ok(value: T) | Failed(why: Failure)

  /** One parsed API reply: its HTTP status and its `response` array. */
  datatype Reply<T> = Reply(status: int, response: seq<T>)

  // ---------------------------------------------------------------------
  // Catalogs: league name -> id and team name -> id

  /** `{'name': .., 'id': ..}` under `league` (leagues) or `team` (teams). */
  datatype NamedId = NamedId(name: string, id: int)

  /** The position of the last entry called `name`, or -1 when there is none. */
  function LastIndexOf(entries: seq<NamedId>, name: string): (i: int)
    ensures -1 <= i < |entries|
    ensures 0 <= i ==> entries[i].name == name
    ensures forall j :: i < j < |entries| ==> entries[j].name != name
    decreases |entries|
  {
    if |entries| == 0 then -1
    else if entries[|entries| - 1].name == name then |entries| - 1
    else LastIndexOf(entries[..|entries| - 1], name)
  }

  /** `d` is what inserting every entry in order yields: exactly the names
      that occur, each mapped to the id of its last occurrence. */
  ghost predicate IsCatalogOf(d: map<string, int>, entries: seq<NamedId>) {
    (forall name :: name in d <==> LastIndexOf(entries, name) >= 0) &&
    (forall name :: name in d ==> d[name] == entries[LastIndexOf(entries, name)].id)
  }

  /** The loop `for e in response: d[e.name] = e.id`. */
  method BuildCatalog(entries: seq<NamedId>) returns (d: map<string, int>)
    ensures IsCatalogOf(d, entries)
  {
    d := map[];
    var i := 0;
    while i < |entries|
      invariant 0 <= i <= |entries|
      invariant IsCatalogOf(d, entries[..i])
    {
      assert entries[..i + 1][..i] == entries[..i];
      d := d[entries[i].name := entries[i].id];
      i := i + 1;
    }
    assert entries[..i] == entries;
  }

  /** The key set of a catalog is the set of names in the reply. */
  lemma CatalogKeys(d: map<string, int>, entries: seq<NamedId>)
    requires IsCatalogOf(d, entries)
    ensures d.Keys == set e | e in entries :: e.name
  {
  }

  /** Two catalogs of the same reply are the same map. */
  lemma CatalogUnique(d1: map<string, int>, d2: map<string, int>, entries: seq<NamedId>)
    requires IsCatalogOf(d1, entries) && IsCatalogOf(d2, entries)
    ensures d1 == d2
  {
  }

  /** What a catalog fetch yields for a reply: a catalog iff the status is 200. */
  ghost predicate CatalogFetched(r: Option<map<string, int>>, reply: Reply<NamedId>) {
    (r.Some? <==> reply.status == OK) &&
    (r.Some? ==> IsCatalogOf(r.value, reply.response))
  }

  /** `get_league_dict`: the stored mapping when the cache file exists,
      otherwise the catalog of the "list leagues" reply. */
  method GetLeagueDict(cached: Option<map<string, int>>, reply: Reply<NamedId>)
    returns (r: Option<map<string, int>>)
    ensures cached.Some? ==> r == cached
    ensures cached.None? ==> CatalogFetched(r, reply)
  {
    if cached.Some? {
      return cached;
    }
    if reply.status == OK {
      var d := BuildCatalog(reply.response);
      return Some(d);
    }
    return None;
  }

  /** `get_teams_dict`: the catalog of the "list teams" reply. */
  method GetTeamsDict(reply: Reply<NamedId>) returns (r: Option<map<string, int>>)
    ensures CatalogFetched(r, reply)
  {
    if reply.status == OK {
      var d := BuildCatalog(reply.response);
      return Some(d);
    }
    return None;
  }

  // ---------------------------------------------------------------------
  // Standings

  /** The `all` block of a standings entry. */
  datatype Record = Record(played: int, win: int, draw: int, lose: int)

  datatype StandingEntry = StandingEntry(rank: int, teamName: string, all: Record, points: int)

  /** One element of `response`: its `league.standings`, a list of groups. */
  datatype LeagueStandings = LeagueStandings(standings: seq<seq<StandingEntry>>)

  datatype StandingsRow = StandingsRow(
    position: int, team: string, matches: int, won: int, draw: int, lost: int, points: int)

  /** The fields a standings row copies from its entry. */
  ghost predicate CopiesEntry(row: StandingsRow, e: StandingEntry) {
    row.position == e.rank && row.team == e.teamName &&
    row.matches == e.all.played && row.won == e.all.win && row.draw == e.all.draw &&
    row.lost == e.all.lose && row.points == e.points
  }

  method FlattenStandings(standings: seq<StandingEntry>) returns (rows: seq<StandingsRow>)
    ensures |rows| == |standings|
    ensures forall i :: 0 <= i < |standings| ==> CopiesEntry(rows[i], standings[i])
  {
    rows := [];
    for i := 0 to |standings|
      invariant |rows| == i
      invariant forall k :: 0 <= k < i ==> CopiesEntry(rows[k], standings[k])
    {
      var team := standings[i];
      rows := rows + [StandingsRow(team.rank, team.teamName, team.all.played, team.all.win,
                                   team.all.draw, team.all.lose, team.points)];
    }
  }

  /** `get_league_table`: the first group of the first league, one row per
      entry in the API's rank order. */
  method GetLeagueTable(reply: Reply<LeagueStandings>) returns (r: Fetch<seq<StandingsRow>>)
    ensures reply.status != OK ==> r == Failed(BadStatus(reply.status))
    ensures reply.status == OK && reply.response == [] ==> r == Failed(NoStandings)
    ensures reply.status == OK && reply.response != [] && reply.response[0].standings == [] ==>
              r == Failed(IndexError)
    ensures r.Ok? <==> reply.status == OK && reply.response != [] && reply.response[0].standings != []
    ensures r.Ok? ==>
              var group := reply.response[0].standings[0];
              |r.value| == |group| &&
              forall i :: 0 <= i < |group| ==> CopiesEntry(r.value[i], group[i])
  {
    if reply.status != OK {
      return Failed(BadStatus(reply.status));
    }
    if reply.response == [] {
      return Failed(NoStandings);
    }
    if reply.response[0].standings == [] {
      return Failed(IndexError);
    }
    var rows := FlattenStandings(reply.response[0].standings[0]);
    return Ok(rows);
  }

  // ---------------------------------------------------------------------
  // Win / draw / loss and the last ten matches

  datatype Outcome = W | D | L

  /** `determine_result`: split on ':', read both sides with `int()` and
      compare the first with the second; `None` where Python raises. */
  function DetermineResult(scoreline: string): (r: Option<Outcome>)
    ensures var parts := Split(scoreline, ':');
            r.Some? <==> |parts| == 2 && ParseInt(parts[0]).Some? && ParseInt(parts[1]).Some?
    ensures r.Some? ==>
              var parts := Split(scoreline, ':');
              var first, second := ParseInt(parts[0]).value, ParseInt(parts[1]).value;
              (r.value == W <==> first > second) && (r.value == D <==> first == second) &&
              (r.value == L <==> first < second)
  {
    var parts := Split(scoreline, ':');
    if |parts| != 2 then None
    else
      match (ParseInt(parts[0]), ParseInt(parts[1]))
      case (Some(first), Some(second)) =>
        Some(if first > second then W else if first == second then D else L)
      case _ => None
  }

  /** For a scoreline written from two numbers, the outcome compares the
      first number with the second. */
  lemma DetermineResultCompares(a: int, b: int)
    ensures DetermineResult(Show(a) + ":" + Show(b)) == Some(W) <==> a > b
    ensures DetermineResult(Show(a) + ":" + Show(b)) == Some(D) <==> a == b
    ensures DetermineResult(Show(a) + ":" + Show(b)) == Some(L) <==> a < b
  {
    SplitScoreline(a, b);
    ParseShow(a);
    ParseShow(b);
  }

  /** A side that is not a number makes `determine_result` raise. */
  lemma DetermineResultRejects(x: string, y: string)
    requires ':' !in x && ':' !in y
    requires ParseInt(x).None? || ParseInt(y).None?
    ensures DetermineResult(x + ":" + y) == None
  {
    SplitAfter(x, ':', y);
    SplitWithout(y, ':');
  }

  datatype Goals = Goals(home: Option<nat>, away: Option<nat>)

  datatype Fixture = Fixture(homeName: string, awayName: string, goals: Goals)

  /** A row of `form_data`, before the W/D/L column is added. */
  datatype FormEntry = FormEntry(result: string, opponent: string)

  datatype FormRow = FormRow(result: string, opponent: string, outcome: Outcome)

  /** The scoreline and opponent of one fixture as the loop body writes them. */
  function FormEntryOf(teamName: string, f: Fixture): (e: FormEntry)
    ensures teamName == f.homeName ==>
              e.opponent == f.awayName &&
              Split(e.result, ':') == [ShowOpt(f.goals.home), ShowOpt(f.goals.away)]
    ensures teamName != f.homeName && teamName == f.awayName ==>
              e.opponent == f.homeName &&
              Split(e.result, ':') == [ShowOpt(f.goals.away), ShowOpt(f.goals.home)]
    ensures teamName != f.homeName && teamName != f.awayName ==> e == FormEntry("", "")
  {
    if teamName == f.homeName then
      SplitAfter(ShowOpt(f.goals.home), ':', ShowOpt(f.goals.away));
      SplitWithout(ShowOpt(f.goals.away), ':');
      FormEntry(ShowOpt(f.goals.home) + ":" + ShowOpt(f.goals.away), f.awayName)
    else if teamName == f.awayName then
      SplitAfter(ShowOpt(f.goals.away), ':', ShowOpt(f.goals.home));
      SplitWithout(ShowOpt(f.goals.home), ':');
      FormEntry(ShowOpt(f.goals.away) + ":" + ShowOpt(f.goals.home), f.homeName)
    else FormEntry("", "")
  }

  /** The queried team played in the fixture and both goal counts are known. */
  predicate Decided(teamName: string, f: Fixture) {
    (teamName == f.homeName || teamName == f.awayName) &&
    f.goals.home.Some? && f.goals.away.Some?
  }

  /** `row` describes fixture `f` from the side of `teamName`: its own goals
      first, the other side as opponent, and W/D/L by own against opponent. */
  ghost predicate FromOwnSide(teamName: string, f: Fixture, row: FormRow) {
    Decided(teamName, f) &&
    var isHome := teamName == f.homeName;
    var own := if isHome then f.goals.home.value else f.goals.away.value;
    var opp := if isHome then f.goals.away.value else f.goals.home.value;
    row.opponent == (if isHome then f.awayName else f.homeName) &&
    row.result == Show(own) + ":" + Show(opp) &&
    (row.outcome == W <==> own > opp) &&
    (row.outcome == D <==> own == opp) &&
    (row.outcome == L <==> own < opp)
  }

  /** The perspective flip: the scoreline of a fixture yields an outcome
      exactly when the fixture is decided, and then it is the queried team's. */
  lemma FormEntryOutcome(teamName: string, f: Fixture)
    ensures DetermineResult(FormEntryOf(teamName, f).result).Some? <==> Decided(teamName, f)
    ensures Decided(teamName, f) ==>
              var e := FormEntryOf(teamName, f);
              FromOwnSide(teamName, f, FormRow(e.result, e.opponent, DetermineResult(e.result).value))
  {
    var e := FormEntryOf(teamName, f);
    if teamName == f.homeName || teamName == f.awayName {
      var isHome := teamName == f.homeName;
      var own := if isHome then f.goals.home else f.goals.away;
      var opp := if isHome then f.goals.away else f.goals.home;
      assert e.result == ShowOpt(own) + ":" + ShowOpt(opp);
      if own.Some? && opp.Some? {
        DetermineResultCompares(own.value, opp.value);
      } else {
        assert ParseInt("None") == None;
        DetermineResultRejects(ShowOpt(own), ShowOpt(opp));
      }
    } else {
      assert e.result == "";
      assert Split("", ':') == [""];
    }
  }

  /** The loop over `fixtures` that appends one `form_data` row each. */
  method CollectForm(teamName: string, fixtures: seq<Fixture>) returns (entries: seq<FormEntry>)
    ensures |entries| == |fixtures|
    ensures forall i :: 0 <= i < |fixtures| ==> entries[i] == FormEntryOf(teamName, fixtures[i])
  {
    entries := [];
    for i := 0 to |fixtures|
      invariant |entries| == i
      invariant forall k :: 0 <= k < i ==> entries[k] == FormEntryOf(teamName, fixtures[k])
    {
      var fixture := fixtures[i];
      var result := "";
      var opponent := "";
      if teamName == fixture.homeName {
        opponent := fixture.awayName;
        result := ShowOpt(fixture.goals.home) + ":" + ShowOpt(fixture.goals.away);
      } else if teamName == fixture.awayName {
        opponent := fixture.homeName;
        result := ShowOpt(fixture.goals.away) + ":" + ShowOpt(fixture.goals.home);
      }
      entries := entries + [FormEntry(result, opponent)];
    }
  }

  /** `df['result'].apply(determine_result)`: the W/D/L column, or `None`
      when some scoreline makes `determine_result` raise. */
  function Outcomes(entries: seq<FormEntry>): (r: Option<seq<Outcome>>)
    ensures r.Some? <==> forall i :: 0 <= i < |entries| ==> DetermineResult(entries[i].result).Some?
    ensures r.Some? ==>
              |r.value| == |entries| &&
              forall i :: 0 <= i < |entries| ==> Some(r.value[i]) == DetermineResult(entries[i].result)
  {
    if entries == [] then Some([])
    else
      match (DetermineResult(entries[0].result), Outcomes(entries[1..]))
      case (Some(o), Some(rest)) => Some([o] + rest)
      case _ => None
  }

  /** `get_team_form`: one row per fixture in the reply's order, each from
      the queried team's side. No fixtures leaves the DataFrame without a
      `result` column; an undecided fixture makes `int()` raise. */
  method GetTeamForm(teamName: string, reply: Reply<Fixture>) returns (r: Fetch<seq<FormRow>>)
    ensures reply.status != OK ==> r == Failed(BadStatus(reply.status))
    ensures reply.status == OK && reply.response == [] ==> r == Failed(KeyError)
    ensures r.Ok? <==>
              reply.status == OK && reply.response != [] &&
              forall i :: 0 <= i < |reply.response| ==> Decided(teamName, reply.response[i])
    ensures reply.status == OK && reply.response != [] &&
            !(forall i :: 0 <= i < |reply.response| ==> Decided(teamName, reply.response[i])) ==>
              r == Failed(ValueError)
    ensures r.Ok? ==>
              |r.value| == |reply.response| &&
              forall i :: 0 <= i < |r.value| ==> FromOwnSide(teamName, reply.response[i], r.value[i])
  {
    if reply.status != OK {
      return Failed(BadStatus(reply.status));
    }
    var entries := CollectForm(teamName, reply.response);
    if entries == [] {
      return Failed(KeyError);
    }
    var outcomes := Outcomes(entries);
    forall i | 0 <= i < |entries|
      ensures DetermineResult(entries[i].result).Some? <==> Decided(teamName, reply.response[i])
    {
      FormEntryOutcome(teamName, reply.response[i]);
    }
    if outcomes.None? {
      return Failed(ValueError);
    }
    var column := outcomes.value;
    var rows := seq(|entries|, i requires 0 <= i < |entries| =>
                      FormRow(entries[i].result, entries[i].opponent, column[i]));
    forall i | 0 <= i < |rows|
      ensures FromOwnSide(teamName, reply.response[i], rows[i])
    {
      FormEntryOutcome(teamName, reply.response[i]);
    }
    return Ok(rows);
  }

  // ---------------------------------------------------------------------
  // Squads

  /** A JSON scalar as a player dictionary holds it. */
  datatype Json = JNull | JInt(i: int) | JStr(s: string)

  type Player = map<string, Json>

  /** `player.get(key, '')` */
  function Get(player: Player, key: string): (v: Json)
    ensures key in player ==> v == player[key]
    ensures key !in player ==> v == JStr("")
  {
    if key in player then player[key] else JStr("")
  }

  datatype PlayerRow = PlayerRow(number: Json, position: Json, name: Json, age: Json)

  /** One element of the squads `response`. */
  datatype Squad = Squad(players: seq<Player>)

  /** `row` holds the player's four fields, `''` for each one that is missing. */
  ghost predicate KeepsFields(row: PlayerRow, player: Player) {
    row.number == Get(player, "number") && row.position == Get(player, "position") &&
    row.name == Get(player, "name") && row.age == Get(player, "age")
  }

  method CollectPlayers(players: seq<Player>) returns (rows: seq<PlayerRow>)
    ensures |rows| == |players|
    ensures forall i :: 0 <= i < |players| ==> KeepsFields(rows[i], players[i])
  {
    rows := [];
    for i := 0 to |players|
      invariant |rows| == i
      invariant forall k :: 0 <= k < i ==> KeepsFields(rows[k], players[k])
    {
      var player := players[i];
      rows := rows + [PlayerRow(Get(player, "number"), Get(player, "position"),
                                Get(player, "name"), Get(player, "age"))];
    }
  }

  /** `get_team_players`: the players of the first squad, no row dropped. */
  method GetTeamPlayers(reply: Reply<Squad>) returns (r: Fetch<seq<PlayerRow>>)
    ensures reply.status != OK ==> r == Failed(BadStatus(reply.status))
    ensures reply.status == OK && reply.response == [] ==> r == Failed(IndexError)
    ensures r.Ok? <==> reply.status == OK && reply.response != []
    ensures r.Ok? ==>
              var players := reply.response[0].players;
              |r.value| == |players| &&
              forall i :: 0 <= i < |players| ==> KeepsFields(r.value[i], players[i])
  {
    if reply.status != OK {
      return Failed(BadStatus(reply.status));
    }
    if reply.response == [] {
      return Failed(IndexError);
    }
    var rows := CollectPlayers(reply.response[0].players);
    return Ok(rows);
  }

  // ---------------------------------------------------------------------
  // Live matches

  datatype LiveFixture = LiveFixture(
    id: nat, homeName: string, awayName: string, goals: Goals, short: string, elapsed: Option<nat>)

  datatype MatchRow = MatchRow(id: nat, teams: string, currentResult: string, half: string, time: Option<nat>)

  /** A goal count, with `None` read as 0. */
  function OrZero(g: Option<nat>): (n: nat)
    ensures g == Some(n) || (g == None && n == 0)
  {
    if g.Some? then g.value else 0
  }

  lemma ShowNatUnsigned(n: nat)
    ensures '-' !in Show(n) && ':' !in Show(n)
  {
  }

  /** The `"H:A"` score of a live fixture; it reads back as the two goal
      counts, a missing one as 0. */
  function LiveScore(g: Goals): (s: string)
    ensures var parts := Split(s, ':');
            |parts| == 2 && ParseInt(parts[0]) == Some(OrZero(g.home)) &&
            ParseInt(parts[1]) == Some(OrZero(g.away))
  {
    var home := OrZero(g.home);
    var away := OrZero(g.away);
    SplitScoreline(home, away);
    ParseShow(home);
    ParseShow(away);
    Show(home) + ":" + Show(away)
  }

  /** The `live` request parameter `"id-id"`: both halves name the league. */
  function LiveParam(leagueId: nat): (s: string)
    ensures var parts := Split(s, '-');
            |parts| == 2 && ParseInt(parts[0]) == Some(leagueId) && ParseInt(parts[1]) == Some(leagueId)
  {
    ShowNatUnsigned(leagueId);
    SplitAfter(Show(leagueId), '-', Show(leagueId));
    SplitWithout(Show(leagueId), '-');
    ParseShow(leagueId);
    Show(leagueId) + "-" + Show(leagueId)
  }

  /** The row of `matches_info` for one live fixture. */
  ghost predicate DescribesLive(row: MatchRow, f: LiveFixture) {
    row.id == f.id && row.teams == f.homeName + " vs " + f.awayName &&
    row.currentResult == LiveScore(f.goals) && row.half == f.short && row.time == f.elapsed
  }

  method CollectMatches(fixtures: seq<LiveFixture>) returns (rows: seq<MatchRow>)
    ensures |rows| == |fixtures|
    ensures forall i :: 0 <= i < |fixtures| ==> DescribesLive(rows[i], fixtures[i])
  {
    rows := [];
    for i := 0 to |fixtures|
      invariant |rows| == i
      invariant forall k :: 0 <= k < i ==> DescribesLive(rows[k], fixtures[k])
    {
      var live := fixtures[i];
      var teams := live.homeName + " vs " + live.awayName;
      var home := if live.goals.home.Some? then live.goals.home.value else 0;
      var away := if live.goals.away.Some? then live.goals.away.value else 0;
      rows := rows + [MatchRow(live.id, teams, Show(home) + ":" + Show(away), live.short, live.elapsed)];
    }
  }

  /** `get_current_matches_by_league`: one row per live fixture, in order. */
  method GetCurrentMatches(reply: Reply<LiveFixture>) returns (r: Fetch<seq<MatchRow>>)
    ensures reply.status != OK ==> r == Failed(BadStatus(reply.status))
    ensures r.Ok? <==> reply.status == OK
    ensures r.Ok? ==>
              |r.value| == |reply.response| &&
              forall i :: 0 <= i < |reply.response| ==> DescribesLive(r.value[i], reply.response[i])
  {
    if reply.status != OK {
      return Failed(BadStatus(reply.status));
    }
    var rows := CollectMatches(reply.response);
    return Ok(rows);
  }

  // ---------------------------------------------------------------------
  // Predictions

  /** The `home` and `away` strings of one comparison metric, as `"NN%"`. */
  datatype Percentages = Percentages(home: string, away: string)

  /** The `comparison` object: its keys in order and the value of each. */
  datatype Comparison = Comparison(keys: seq<string>, metrics: map<string, Percentages>)

  /** A Python dict: distinct keys, each with a value. */
  ghost predicate IsDict(c: Comparison) {
    (forall i, j :: 0 <= i < j < |c.keys| ==> c.keys[i] != c.keys[j]) &&
    (forall k :: k in c.metrics <==> k in c.keys)
  }

  datatype Prediction = Prediction(homeName: string, awayName: string, comparison: Comparison)

  /** The prediction DataFrame: one column per team, one line per metric. */
  datatype PredictionTable = PredictionTable(
    homeTeam: string, awayTeam: string, fields: seq<string>, home: seq<int>, away: seq<int>)

  const PoissonDistribution := "poisson_distribution"

  /** The position of the first `x` in `s`. */
  function FirstIndex(s: seq<string>, x: string): (i: nat)
    requires x in s
    ensures i < |s| && s[i] == x && x !in s[..i]
  {
    if s[0] == x then 0
    else
      var k := FirstIndex(s[1..], x);
      assert s[..k + 1] == [s[0]] + s[1..][..k];
      k + 1
  }

  /** `list.remove(x)`: the list without its first `x`, every other element
      kept in order; `None` (a `ValueError`) when there is none. */
  function RemoveFirst(s: seq<string>, x: string): (r: Option<seq<string>>)
    ensures r.None? <==> x !in s
    ensures r.Some? ==> r.value == s[..FirstIndex(s, x)] + s[FirstIndex(s, x) + 1..]
    ensures r.Some? ==> |r.value| == |s| - 1 && multiset(r.value) == multiset(s) - multiset{x}
  {
    var r := RemoveFrom(s, x);
    if r.Some? then DropOne(s, FirstIndex(s, x)); r else r
  }

  /** The search for the first `x`, one element at a time. */
  function RemoveFrom(s: seq<string>, x: string): (r: Option<seq<string>>)
    ensures r.None? <==> x !in s
    ensures r.Some? ==> r.value == s[..FirstIndex(s, x)] + s[FirstIndex(s, x) + 1..]
  {
    if s == [] then None
    else if s[0] == x then
      assert FirstIndex(s, x) == 0 && s[..0] + s[1..] == s[1..];
      Some(s[1..])
    else
      match RemoveFrom(s[1..], x)
      case None =>
        assert x !in s[1..] && s == [s[0]] + s[1..];
        None
      case Some(rest) =>
        var k := FirstIndex(s[1..], x);
        assert FirstIndex(s, x) == k + 1;
        assert rest == s[1..][..k] + s[1..][k + 1..];
        assert s[..k + 1] == [s[0]] + s[1..][..k];
        assert s[k + 2..] == s[1..][k + 1..];
        assert [s[0]] + rest == s[..k + 1] + s[k + 2..];
        Some([s[0]] + rest)
  }

  /** Dropping the element at `i` takes one copy of it out of the multiset. */
  lemma DropOne(s: seq<string>, i: nat)
    requires i < |s|
    ensures |s[..i] + s[i + 1..]| == |s| - 1
    ensures multiset(s[..i] + s[i + 1..]) == multiset(s) - multiset{s[i]}
  {
    assert s == s[..i] + [s[i]] + s[i + 1..];
  }

  /** Every element of `s` except `x`, in their order. */
  function Without(s: seq<string>, x: string): (r: seq<string>)
    ensures forall y :: y in r <==> y in s && y != x
  {
    if s == [] then []
    else if s[0] == x then Without(s[1..], x)
    else [s[0]] + Without(s[1..], x)
  }

  /** On a list of distinct keys, removing the first `x` removes every `x`:
      the metrics are all keys but `poisson_distribution`, in their order. */
  lemma {:induction false} RemoveFirstDistinct(s: seq<string>, x: string)
    requires forall i, j :: 0 <= i < j < |s| ==> s[i] != s[j]
    requires x in s
    ensures RemoveFirst(s, x) == Some(Without(s, x))
  {
    if s[0] == x {
      WithoutAbsent(s[1..], x);
    } else {
      RemoveFirstDistinct(s[1..], x);
    }
  }

  lemma {:induction false} WithoutAbsent(s: seq<string>, x: string)
    requires x !in s
    ensures Without(s, x) == s
  {
    if s != [] {
      WithoutAbsent(s[1..], x);
      assert [s[0]] + s[1..] == s;
    }
  }

  /** `float(s.rstrip('%'))`, kept as a whole percentage. */
  function ParsePercent(s: string): Option<int> {
    ParseInt(RStrip(s, '%'))
  }

  /** A string that already reads as a number reads the same: `rstrip`
      removes nothing from it. */
  lemma ParsePercentPlain(s: string)
    requires ParseInt(s).Some?
    ensures ParsePercent(s) == ParseInt(s)
  {
  }

  /** A percentage written `"NN%"` reads back as NN. */
  lemma ParsePercentShow(n: int)
    ensures ParsePercent(Show(n) + "%") == Some(n)
  {
    var s := Show(n);
    assert (s + "%")[..|s|] == s;
    assert s[|s| - 1] in s;
    assert RStrip(s, '%') == s;
    ParseShow(n);
  }

  /** `home` and `away` hold the percentages of `fields`, in their order. */
  ghost predicate ReadsPercentages(fields: seq<string>, metrics: map<string, Percentages>,
                                   home: seq<int>, away: seq<int>)
    requires forall f :: f in fields ==> f in metrics
  {
    |home| == |fields| && |away| == |fields| &&
    forall i :: 0 <= i < |fields| ==>
      Some(home[i]) == ParsePercent(metrics[fields[i]].home) &&
      Some(away[i]) == ParsePercent(metrics[fields[i]].away)
  }

  /** Every metric of `fields` has two readable percentages. */
  ghost predicate AllReadable(fields: seq<string>, metrics: map<string, Percentages>)
    requires forall f :: f in fields ==> f in metrics
  {
    forall i :: 0 <= i < |fields| ==>
      ParsePercent(metrics[fields[i]].home).Some? && ParsePercent(metrics[fields[i]].away).Some?
  }

  /** The loop that appends to `home_predictions` and `away_predictions`;
      `None` when some value is not a number. */
  method ReadPredictions(fields: seq<string>, metrics: map<string, Percentages>)
    returns (r: Option<(seq<int>, seq<int>)>)
    requires forall f :: f in fields ==> f in metrics
    ensures r.Some? <==> AllReadable(fields, metrics)
    ensures r.Some? ==> ReadsPercentages(fields, metrics, r.value.0, r.value.1)
  {
    var home: seq<int> := [];
    var away: seq<int> := [];
    for i := 0 to |fields|
      invariant AllReadable(fields[..i], metrics)
      invariant ReadsPercentages(fields[..i], metrics, home, away)
    {
      assert fields[..i + 1][..i] == fields[..i];
      var pair := metrics[fields[i]];
      var h := ParsePercent(pair.home);
      var a := ParsePercent(pair.away);
      if h.None? || a.None? {
        assert !AllReadable(fields, metrics) by {
          assert !(ParsePercent(metrics[fields[i]].home).Some? && ParsePercent(metrics[fields[i]].away).Some?);
        }
        return None;
      }
      home := home + [h.value];
      away := away + [a.value];
    }
    assert fields[..|fields|] == fields;
    return Some((home, away));
  }

  /** `get_prediction_by_fixture_id`: the first prediction's two team names
      and, for every comparison metric but `poisson_distribution`, its home
      and away percentages. */
  method GetPrediction(reply: Reply<Prediction>) returns (r: Fetch<PredictionTable>)
    requires reply.response != [] ==> IsDict(reply.response[0].comparison)
    ensures reply.status != OK ==> r == Failed(BadStatus(reply.status))
    ensures reply.status == OK && reply.response == [] ==> r == Failed(IndexError)
    ensures (reply.status == OK && reply.response != [] &&
             PoissonDistribution !in reply.response[0].comparison.keys) ==> r == Failed(ValueError)
    ensures r.Ok? <==>
              reply.status == OK && reply.response != [] &&
              var c := reply.response[0].comparison;
              PoissonDistribution in c.keys && AllReadable(Without(c.keys, PoissonDistribution), c.metrics)
    ensures r.Ok? ==>
              var p := reply.response[0];
              r.value.homeTeam == p.homeName && r.value.awayTeam == p.awayName &&
              r.value.fields == Without(p.comparison.keys, PoissonDistribution) &&
              ReadsPercentages(r.value.fields, p.comparison.metrics, r.value.home, r.value.away)
  {
    if reply.status != OK {
      return Failed(BadStatus(reply.status));
    }
    if reply.response == [] {
      return Failed(IndexError);
    }
    var prediction := reply.response[0];
    var comparison := prediction.comparison;
    var fields := RemoveFirst(comparison.keys, PoissonDistribution);
    if fields.None? {
      return Failed(ValueError);
    }
    RemoveFirstDistinct(comparison.keys, PoissonDistribution);
    var columns := ReadPredictions(fields.value, comparison.metrics);
    if columns.None? {
      return Failed(ValueError);
    }
    return Ok(PredictionTable(prediction.homeName, prediction.awayName, fields.value,
                              columns.value.0, columns.value.1));
  }
}
