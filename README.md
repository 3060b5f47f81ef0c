# Football analytics chat bot: verified model of its controller and data shaping

This project models the logic of a chat bot that lets a user browse football
data from a statistics API: league standings, live matches, a team's last ten
results, its squad, and match predictions. Three parts are modelled:

- **The fetchers' row building** (`football_api_getters.py`, module `FootballApi`).
  Each fetcher gets one parsed API reply and turns it into a table, modelled as a
  sequence of row records. The HTTP status and the parsed `response` array are
  inputs. Every path on which the source returns `None` (bad status, empty
  `response`, an exception inside the `try`) becomes `Failed(why)`, where `why`
  names the cause. The fetchers are methods whose loops mirror the source's
  `append` and dictionary-insert loops. They are proved against per-row predicates.
  - Catalogs: a later duplicate name overwrites an earlier one (`IsCatalogOf`).
  - Team form: the scoreline is written from the queried team's side.
  - Squads: a missing player field becomes `''`.
  - Live matches: a missing goal count becomes 0.
  - Predictions: `poisson_distribution` is dropped from the comparison fields.
- **The conversation controller** (`main.py`, module `Bot`):
  - The handlers are tried in registration order, and the first filter that
    accepts the text runs (`Dispatch`).
  - A `Controller` class holds `CURRENT_LEAGUE`, `CURRENT_TEAM`, `TEAMS_DICT`
    and a ghost count of team-catalog reloads.
  - `Step` processes one message. It states the new state and the messages sent
    for every branch.
  - The action handlers re-enter a menu with the current selection. For them,
    the proof shows that nothing changes and no reload happens.
- **The live-match text** (`string_transformers.py`, module `StringTransformers`).
  A loop appends one fixed-format line per row. It is proved equal to a
  specification (`MatchesText`). Lemmas give the exact output, concatenation
  over `a + b`, and one newline per row.

Module `PyText` models the Python built-ins the code relies on:
- `str()` of an integer;
- `int()` of a string;
- `str.split`;
- `str.rstrip`.

It also defines `Count`, the number of times a character occurs. The bot itself
never counts characters; `Count` serves only to state that the live-match text
holds one line break per match. It also proves the round trips the other modules need. For example,
`int(str(n)) == n`, and `"a:b".split(":")` gives back the two numbers.

Behaviour of the code worth noting:
- An empty standings `response` and a bad status both return `None` in the
  source. The model keeps them apart (`NoStandings` vs `BadStatus`), but both
  stand for that `None`.
- Team form with no fixtures returns `None`. The reason: `pd.DataFrame([])` has
  no `result` column, so `df['result']` raises `KeyError`.
- A fixture in which the queried team plays on neither side gives the scoreline
  `""`. A missing goal count gives `"None:2"`. Either one makes
  `determine_result` raise, so the whole form is `None`.
- After a failed team reload, `TEAMS_DICT` is `None`. Any later message that
  reaches the team filter then raises there (`text in None`), and no handler
  runs. A missing league catalog does the same at the league filter. The model
  records this as `Raised(handler)`.

## Model

| member | source | states |
|---|---|---|
| `FootballApi.LastIndexOf` | football_api_getters.py:36-42 | the index of the last entry with a given name (-1 if none): it carries that name and no later entry does |
| `FootballApi.BuildCatalog` | football_api_getters.py:80-89 | the insert loop yields exactly the names of the reply, each mapped to the id of its last occurrence |
| `FootballApi.CatalogKeys` | football_api_getters.py:83-89 | the catalog's key set is the set of names in the reply |
| `FootballApi.CatalogUnique` | football_api_getters.py:36-42 | the catalog of a reply is unique, so the league and team loops are deterministic |
| `FootballApi.GetLeagueDict` | football_api_getters.py:13-55 | a cached mapping is returned as is; otherwise status 200 yields the reply's catalog and any other status `None` |
| `FootballApi.GetTeamsDict` | football_api_getters.py:61-99 | status 200 yields the catalog of the team reply, any other status `None` |
| `FootballApi.FlattenStandings` | football_api_getters.py:138-149 | one row per standings entry, in API order, with rank, name, played, win, draw, lose and points copied unchanged |
| `FootballApi.GetLeagueTable` | football_api_getters.py:114-162 | bad status, empty `response` and empty `standings` are three distinct failures; otherwise the rows of the first group of the first league, in order |
| `FootballApi.DetermineResult` | football_api_getters.py:165-172 | `determine_result` raises iff the scoreline does not split on `:` into exactly two integers; otherwise W, D or L iff the first is greater than, equal to or less than the second |
| `FootballApi.DetermineResultCompares` | football_api_getters.py:165-172 | for the scoreline `"a:b"`: W iff a > b, D iff a == b, L iff a < b; the first number is compared with the second |
| `FootballApi.DetermineResultRejects` | football_api_getters.py:165-166 | a side that does not parse as an integer makes `determine_result` raise |
| `FootballApi.FormEntryOf` | football_api_getters.py:201-211 | as the home side, the opponent is the away team and the scoreline splits into home goals then away goals; as the away side, the reverse; a team on neither side gives `""` for both |
| `FootballApi.FormEntryOutcome` | football_api_getters.py:204-209 | a fixture's scoreline yields an outcome iff the team played and both goals are known; then the opponent is the other side, the scoreline is own:opponent, and W/D/L compares own goals with opponent goals |
| `FootballApi.CollectForm` | football_api_getters.py:193-211 | exactly one form entry per fixture, in the reply's order, each the perspective flip of its fixture |
| `FootballApi.Outcomes` | football_api_getters.py:217 | the W/D/L column exists iff every scoreline parses; it then has one outcome per row, each `determine_result` of that row |
| `FootballApi.GetTeamForm` | football_api_getters.py:175-227 | bad status fails; no fixtures fails (no `result` column); an undecided fixture fails with the `ValueError` of `int()`; otherwise a table exists iff every fixture is decided for the team, with one row per fixture in order, each from the team's side |
| `FootballApi.Get` | football_api_getters.py:251-254 | `player.get(key, '')`: the stored value when the key is present, `''` when it is missing |
| `FootballApi.CollectPlayers` | football_api_getters.py:247-256 | one row per player, in API order; each of number, position, name and age is copied, or `''` when missing |
| `FootballApi.GetTeamPlayers` | football_api_getters.py:230-269 | bad status and an empty `response` fail; otherwise the rows of the first squad's players |
| `FootballApi.OrZero` | football_api_getters.py:294-295 | a known goal count is kept; `None` becomes 0 |
| `FootballApi.LiveScore` | football_api_getters.py:294-302 | the `"H:A"` score splits into two numbers that read back as the home and away goals, a missing one as 0 |
| `FootballApi.LiveParam` | football_api_getters.py:276 | the `live` parameter splits on `-` into two halves that both read back as the league id |
| `FootballApi.CollectMatches` | football_api_getters.py:289-305 | one row per live fixture, in order: id, `"Home vs Away"`, the zero-defaulted score, status and elapsed time |
| `FootballApi.GetCurrentMatches` | football_api_getters.py:272-318 | bad status fails; otherwise exactly the rows of `CollectMatches` |
| `FootballApi.RemoveFirst` | football_api_getters.py:346 | `list.remove` fails iff the item is absent; otherwise the result is the list with its first copy of the item cut out, every other element in its order: one shorter, one copy fewer |
| `FootballApi.FirstIndex` | football_api_getters.py:346 | the position `list.remove` cuts at: it holds the item and no earlier position does |
| `FootballApi.RemoveFrom` | football_api_getters.py:346 | the element-by-element search of `list.remove` fails iff the item is absent, and otherwise cuts out the first copy |
| `FootballApi.Without` | football_api_getters.py:345-346 | the reference list of metrics: an element is kept iff it is not the removed key |
| `FootballApi.RemoveFirstDistinct` | football_api_getters.py:345-346 | on a dict's distinct keys, `remove('poisson_distribution')` leaves every other key, in its original order |
| `FootballApi.ParsePercentPlain` | football_api_getters.py:353-354 | `ParsePercent` (`rstrip('%')` and then the number read) gives a string that already reads as a number the same value |
| `FootballApi.ParsePercentShow` | football_api_getters.py:353-354 | a `"NN%"` string reads back as NN once the `%` is stripped |
| `FootballApi.ReadPredictions` | football_api_getters.py:348-356 | the home and away columns exist iff every value parses; each holds one value per field, in field order |
| `FootballApi.GetPrediction` | football_api_getters.py:321-372 | bad status fails; an empty `response` fails; a missing `poisson_distribution` fails; otherwise the table has both team names, every other metric in order, and its parsed home and away percentages |
| `PyText.ParseInt` | football_api_getters.py:166 | `int()` succeeds only on non-empty text that ends in a digit; text starting with anything but a sign or digit raises |
| `PyText.Show` | football_api_getters.py:302 | `str()` of an integer is non-empty and made of digits and the minus sign only |
| `PyText.ShowOpt` | football_api_getters.py:206 | f"{x}" of a goal count holds no `:` and no line break, and is `"None"` exactly for a missing count |
| `PyText.ParseShow` | football_api_getters.py:166 | `int(str(n)) == n` for every integer |
| `PyText.Split` | football_api_getters.py:166 | `str.split` always yields at least one piece |
| `PyText.SplitJoin` | football_api_getters.py:166 | joining the pieces of a split with the separator gives back the string, and no piece holds the separator |
| `PyText.SplitScoreline` | football_api_getters.py:166 | splitting `"a:b"`, built from two formatted integers, on `:` yields exactly the two texts |
| `PyText.RStrip` | football_api_getters.py:353 | `rstrip('%')` keeps a prefix that does not end in `%` and removes only `%` characters |
| `StringTransformers.CreateCurrentMatchesString` | string_transformers.py:1-19 | the loop yields `MatchesText(rows)`: each row's line and a newline, in row order |
| `StringTransformers.MatchLine` | string_transformers.py:16 | a row whose fields hold no line break gives a line without one |
| `StringTransformers.MatchesText` | string_transformers.py:1-19 | the text is empty exactly when there are no rows |
| `StringTransformers.MatchesTextSingle` | string_transformers.py:16-17 | one row gives its line followed by `"\n"` |
| `StringTransformers.MatchesTextExample` | string_transformers.py:16-17 | the row (1, "A vs B", "2:0", "2H", 67) gives exactly `"1 - A vs B 2:0 (2H - 67m)\n"` |
| `StringTransformers.MatchesTextAppend` | string_transformers.py:7-17 | the text of `a + b` is the text of `a` followed by the text of `b` |
| `StringTransformers.MatchesTextNewlines` | string_transformers.py:17 | with newline-free fields, the text holds exactly one `"\n"` per row |
| `Bot.Filter` | main.py:30-122 | a filter raises exactly when it is the league filter without a league catalog or the team filter without a team catalog; the fallback accepts everything |
| `Bot.Dispatch` | main.py:30-125 | a handler that runs is registered and its filter accepts the text; a filter that raises is the league or team filter |
| `Bot.RegisteredDistinct` | main.py:30-122 | each handler is registered once, so the handler that runs names its position |
| `Bot.Replies` | main.py:30-125 | every handler ends with a text message; the league handlers end by re-entering the league menu, the team handlers the team menu, and the others remove the keyboard |
| `Bot.FirstUndeclined` | main.py:30-125 | the position of the first handler whose filter does not reject the text: every earlier one rejects it, and this one does not |
| `Bot.DispatchFirstMatch` | main.py:30-125 | handler `i` runs iff its filter accepts the text and every handler registered before it rejects it |
| `Bot.DispatchFirstRaise` | main.py:30-125 | the filter of handler `i` raises and no handler runs iff it raises and every handler registered before it rejects the text |
| `Bot.DispatchFallback` | main.py:122-125 | the fallback runs iff both catalogs are loaded and the text is no `/start`, league, menu word, number or team |
| `Bot.NumericAsksPrediction` | main.py:77-78 | numeric text that is not a league name fires the prediction handler, whatever the team catalog |
| `Bot.LeagueNameWins` | main.py:35 | a league name, other than a `/start` command, always fires the league choice |
| `Bot.MissingLeaguesRaise` | main.py:35 | without a league catalog, every text except `/start` raises in the league filter |
| `Bot.Controller.constructor` | main.py:21-22 | initially both selections are `''`, the team catalog is empty (`TEAMS_DICT = {}` at football_api_getters.py:102) and nothing has been reloaded |
| `Bot.Controller.LeagueChoice` | main.py:35-42 | a different league becomes current and its teams are fetched once; the same league changes nothing; the team stays; the league menu is sent |
| `Bot.Controller.TeamChoice` | main.py:90-95 | the text becomes the current team unconditionally; the team menu is sent |
| `Bot.Controller.Step` | main.py:30-125 | dispatch is first-match; only the league and team choices select anything; the action handlers re-enter a menu and change no selection, catalog or reload count; each branch sends its replies in order (the fallback: apology, then welcome) |
| `Bot.ChooseLeagueTwice` | main.py:39-41 | choosing the same league twice from the start reloads the team catalog exactly once |

## Left out

- HTTP requests, request headers, `response.json()` and the season taken from
  `datetime.now()`. These are network and clock dependencies. Each fetcher takes
  the status and the parsed reply as inputs.
- Reading and writing `memory/leagues.json` and the `tmp.txt` dump. These are
  file I/O. The cached mapping is an input of `GetLeagueDict`.
- `GetLeagueDict` and `GetLeagueTable`: both writes happen inside the `try`
  (football_api_getters.py:44-46 and :128-130). A failed write turns a status-200
  reply into `None`. The model assumes every write succeeds.
- The name→id lookups `LEAGUES_DICT[name]` and `TEAMS_DICT[name]`. They are
  evaluated before each `try` and only feed request parameters. The `KeyError`
  they raise outside the `try` is not modelled.
- JSON keys the code reads unconditionally. They are assumed present; a missing
  one would raise `KeyError` and give `None`.
- Goal counts are modelled as non-negative integers or `None`.
- `ParseInt`: Python's `int()` also accepts surrounding whitespace and
  underscores between digits. The model accepts only an optional sign and ASCII
  digits.
- `ParsePercent`: this stands for `float(s.rstrip('%')) / 100`, and the
  prediction values are whole percentages. Floating point, decimal fractions and
  the division by 100 are not modelled.
- `GetPrediction`: if both teams have the same name, the DataFrame would keep a
  single column. The model keeps two lists.
- `image_makers.py` (chart rendering) and `config.py` (environment variables).
- pandas mechanics: DataFrames are sequences of records. A column with a missing
  elapsed time would become floating point in pandas, printed as `nan`/`67.0`.
  The model prints `None` and whole numbers.
- `Bot.Controller.Step`: the replies of the fetch branches assume the fetch and
  render succeed. In the bot, a failed fetch makes the handler raise before the
  menu re-entry, and only the replies sent so far go out. The state is the same
  either way. The same happens when no match is live: the matches text is then
  `""` (`MatchesText`), Telegram refuses an empty message, and the handler raises
  before it re-enters the league menu. The model still lists both replies.
- `Bot.IsStartCommand`: aiogram's command filter looks at the first
  whitespace-separated word of the text. It therefore also accepts leading
  whitespace, `/start ` with trailing whitespace only, and a tab or line break
  before the arguments. It also ignores case and accepts `/start@botname`. The
  model accepts `/start` alone, or followed by a space and at least one more
  character.
- `Bot.IsNumeric`: `str.isnumeric` is also true for non-ASCII numerals. The
  model accepts non-empty ASCII digit strings only.
- The aiogram bot, keyboards, async/await, photo upload and polling loop. These
  are transport and concurrency. One message is one synchronous `Step`.
