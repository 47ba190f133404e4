# Probable Futures Bot, modelled in Dafny

The Probable Futures Telegram bot runs a short per-chat conversation:

1. `/probable_future` asks for a place.
2. The user shares a location or types an address.
3. The bot offers six warming scenarios as inline buttons, in two rows of three.
4. It then offers the maps of its dataset catalog, one button per row.
5. The map button triggers the terminal step, which:
   - builds the request fields for the statistics service;
   - sends the operator a copy of an eight-column log row and appends that row to the query log;
   - calls the service and replies with the statistics, with "Invalid address/location!", or with the raw answer, re-raising in the last case.

At start-up, the bot downloads the dataset documentation through a retrying HTTP helper. It then parses the catalog table out of that text. An error handler sends the operator a truncated, HTML-wrapped traceback.

The model is made of these modules:

- `Wrappers` (`wrappers.dfy`): `Option` and `Result`.
- `Text` (`text.dfy`): the Python string operations the bot relies on:
  - `str.strip()` and `sub in s`;
  - `str.split(sep)` and `sep.join`;
  - `int(s)` and `str(n)`.
  Each is modelled with the properties the bot needs: `strip` cuts only whitespace, and `split` then `join` is a round trip.
- `Keyboard` (`keyboard.dfy`): cutting a list of buttons into rows of a fixed size, and the scenario picker.
- `Catalog` (`catalog.dfy`): the start-up loop that fills the insertion-ordered `maps` dictionary, and the map picker.
- `Gateway` (`gateway.dfy`): the retry loop of `run_request`. The network is a sequence of attempt outcomes (raise, or return a status and a body).
- `Terminal` (`terminal.dfy`): the pure parts of the terminal `map` step:
  - the request fields and the log row;
  - the classification of the service's answer;
  - the reply text and the operator alert.
- `Dialogue` (`dialogue.dfy`): the `ConversationHandler` routing table, and a class `Bot`. `Bot` has:
  - the three per-chat dictionaries (`location_info`, `address`, `selected_warming_scenario`);
  - the conversation state per chat;
  - the query log;
  - the input fields of every request made;
  - the messages sent.
  The handlers are methods that update these fields in place. `HandleUpdate` is one update going through the dispatcher:
  - it routes the event;
  - it runs the handler;
  - it stores the returned state or, when the handler raises, keeps the state and runs the error handler.
  Its invariant (`Bot.Valid`): a chat waiting for a scenario or a map has exactly one of a location and an address stored, and a chat waiting for a map has a scenario.
  What each handler does to the log, the requests and the messages is given by the function `HandlerEffect`. The methods are proved against it.

The source's behaviour is followed where it differs from a plain reading of the bot's description:

- `/cancel` only replies. It does not clear the three dictionaries, so `HandleUpdate` proves they are untouched.
- A `map` step that raises leaves the chat in MAP, because the dispatcher does not update the state when a handler raises.
- The log row is appended and sent to the operator before the service is called. Requests whose answer is an invalid location, or whose service call fails, are therefore still logged.
- A chat that gave an address instead of a location never reaches the service. The log row reads the two coordinates of the stored location, which is `None`, so the step raises at `__main__.py:170` before any row is written (`Terminal.AddressSessionFails`, and the last `ensures` of `Dialogue.Bot.HandleUpdate`).

## Model

| member | source | states |
|---|---|---|
| Text.StripStart | probablefuturesbot/__main__.py:92 | `lstrip` is no longer than its input and does not start with whitespace |
| Text.StripStartCuts | probablefuturesbot/__main__.py:92 | what `lstrip` keeps is a suffix of the input, and everything it cut is whitespace |
| Text.StripEnd | probablefuturesbot/__main__.py:92 | `rstrip` is no longer than its input and does not end with whitespace |
| Text.StripEndCuts | probablefuturesbot/__main__.py:92 | what `rstrip` keeps is a prefix of the input, and everything it cut is whitespace |
| Text.Strip | probablefuturesbot/__main__.py:92 | `strip()` neither starts nor ends with whitespace and is no longer than its input |
| Text.StripIsInfix | probablefuturesbot/__main__.py:92 | `strip()` is a contiguous part of the input with only whitespace before and after it |
| Text.CutBothEnds | probablefuturesbot/__main__.py:92 | cutting leading whitespace, then trailing whitespace, leaves an infix surrounded only by whitespace |
| Text.StripIdempotent | probablefuturesbot/__main__.py:51 | stripping twice is stripping once |
| Text.StripNothing | probablefuturesbot/__main__.py:51 | a string with no whitespace at either end is its own `strip()` |
| Text.FindFrom | probablefuturesbot/__main__.py:206 | the result is the lowest index at or after `from` where the separator occurs; `None` means it occurs nowhere from there |
| Text.ContainsIff | probablefuturesbot/__main__.py:206 | `sub in s` holds exactly when `sub` occurs at some index of `s` |
| Text.Split | probablefuturesbot/__main__.py:50-51 | `split` always yields at least one piece; where it cuts is stated by `Text.SplitLeftmost`, and that nothing is lost by `Text.JoinSplit` |
| Text.SplitLeftmost | probablefuturesbot/__main__.py:50-51 | every cut is at the leftmost remaining occurrence of the separator: each piece but the last, followed by the separator, first contains it at its end. With the self-overlapping separators `"\| . \|"` and `" \| "`, this is what decides the pieces |
| Text.JoinSplit | probablefuturesbot/__main__.py:50-51 | joining the pieces of a split with the separator gives back the string |
| Text.SplitPiecesFree | probablefuturesbot/__main__.py:50-51 | no piece of a split contains the separator |
| Text.NatToString | probablefuturesbot/__main__.py:118 | `str(n)` of a non-negative integer is a non-empty run of decimal digits |
| Text.DigitsOfNat | probablefuturesbot/__main__.py:118 | the digits `str(n)` writes have the value `n` |
| Text.ParseIntRoundTrip | probablefuturesbot/__main__.py:118-139 | `int(str(n)) == n` for every integer, so a catalog id sent as callback data comes back as the same id |
| Text.NaturalRoundTrip | probablefuturesbot/__main__.py:139 | `int(str(n)) == n` for `n >= 0` |
| Text.NegativeRoundTrip | probablefuturesbot/__main__.py:139 | `int(str(n)) == n` for `n < 0` |
| Text.NegativeDigits | probablefuturesbot/__main__.py:139 | `int` of a minus sign followed by digits is the negated value of the digits |
| Keyboard.Chunks | probablefuturesbot/__main__.py:96-97 | every row is non-empty and at most the chunk size, every row but the last has exactly the chunk size, and there are no rows exactly when there are no buttons |
| Keyboard.FlattenChunks | probablefuturesbot/__main__.py:94-121 | laying the rows end to end gives back the button list: nothing is lost, duplicated or reordered |
| Keyboard.ChunksOfOne | probablefuturesbot/__main__.py:120-121 | with chunk size 1, row `i` is exactly `[xs[i]]` |
| Keyboard.ScenarioKeyboardShape | probablefuturesbot/__main__.py:94-97 | the six scenarios `0.5`–`3.0` become exactly two rows of three, each button sending its own label |
| Catalog.Assign | probablefuturesbot/__main__.py:51 | `maps[k] = v` keeps the dictionary well formed and maps `k` to `v` |
| Catalog.Build | probablefuturesbot/__main__.py:49-51 | the dictionary produced by the assignments is well formed: ids listed once each, and exactly the mapped ones |
| Catalog.BuildCatalog | probablefuturesbot/__main__.py:48-51 | the start-up loop produces exactly the parse of the text: the dictionary built from every row's pair, or the error of the first row that fails |
| Catalog.RowStep | probablefuturesbot/__main__.py:50-51 | one turn of the loop: a failing row decides the outcome, and a parsed row extends the entries by one assignment |
| Catalog.CollectStep | probablefuturesbot/__main__.py:50-51 | one more row extends a successful run by its pair, or ends it with its error |
| Catalog.BuildStep | probablefuturesbot/__main__.py:51 | one more entry is one more assignment |
| Catalog.CollectStopsAtError | probablefuturesbot/__main__.py:50-51 | once a row raises, later rows do not matter |
| Catalog.CollectPerItem | probablefuturesbot/__main__.py:50-51 | a successful run has one pair per row, at the row's position |
| Catalog.EntriesPerRow | probablefuturesbot/__main__.py:50-51 | every piece after the first `"\| . \|"` contributes, at its position, the stripped first cell read as an integer and the stripped second cell |
| Catalog.BuildKeys | probablefuturesbot/__main__.py:51 | the catalog's ids are exactly the ids some row assigns |
| Catalog.BuildLastWins | probablefuturesbot/__main__.py:51 | a later row with the same id overwrites the earlier name: each id ends with the name of its last row |
| Catalog.FirstIndex | probablefuturesbot/__main__.py:51 | the result is the position of the first occurrence of the id |
| Catalog.FirstIndexPrefix | probablefuturesbot/__main__.py:51 | a first occurrence is not moved by later assignments |
| Catalog.BuildOrder | probablefuturesbot/__main__.py:49-51 | the catalog lists its ids in the order each was first assigned (Python dict insertion order) |
| Catalog.OrderAt | probablefuturesbot/__main__.py:51 | two listed ids are in the order of their first assignments |
| Catalog.OrderKeptByLaterKey | probablefuturesbot/__main__.py:51 | reassigning an id does not move any id |
| Catalog.OrderExtendedByNewKey | probablefuturesbot/__main__.py:51 | a new id goes after every id already listed |
| Catalog.MapKeyboard | probablefuturesbot/__main__.py:118-121 | the map picker has one row per catalog id, in insertion order, labelled with the name and carrying the id as data |
| Gateway.GetHeaders | probablefuturesbot/tools.py:59-61 | a GET uses the caller's headers when given, else exactly `Content-Type: application/json` and `Authorization: bearer` |
| Gateway.FirstReturn | probablefuturesbot/tools.py:54-77 | the index of the first attempt that returns: every earlier attempt raised |
| Gateway.RunRequest | probablefuturesbot/tools.py:38-87 | the retry loop's result and attempt count are those of the first attempt within the budget that returns: the checked status, or "failed N times". One request per attempt is issued, none for an unsupported type |
| Gateway.AttemptBounds | probablefuturesbot/tools.py:52-82 | with `num_of_tries >= 1`, between 1 and `num_of_tries` attempts are made; with `num_of_tries <= 0`, none, and the helper raises "failed N times" |
| Gateway.StopsAtFirstReturn | probablefuturesbot/tools.py:54-87 | the loop stops at the first attempt that returns; its status alone decides the result, and a non-200 status is not retried |
| Gateway.AllRaise | probablefuturesbot/tools.py:78-82 | when every attempt raises, the whole budget is spent and the helper raises with the message `The request failed N times.` |
| Gateway.UnsupportedTypeFails | probablefuturesbot/tools.py:75-82 | an unknown request type ends in the generic "failed N times" error after the whole budget |
| Gateway.ThirdTimeLucky | probablefuturesbot/tools.py:54-87 | three tries, the first two raising: the third body is returned after exactly three attempts |
| Terminal.InputFields | probablefuturesbot/__main__.py:144-149 | the coordinate branch has exactly `lon`, `lat`, `warmingScenario` and `datasetId`, with `lon`/`lat` rendered from the stored tuple |
| Terminal.AddressFields | probablefuturesbot/__main__.py:151-155 | the address branch has exactly `address`, `warmingScenario` and `datasetId` |
| Terminal.RequestFields | probablefuturesbot/__main__.py:143-155 | the coordinate branch when a location is stored, else the address branch, never both `address` and `lat`/`lon`; a missing dictionary entry raises, and exactly then |
| Terminal.Prepare | probablefuturesbot/__main__.py:139-176 | the step gets past the log row exactly when the callback data parses as an integer, the id is in the catalog, a location tuple is stored, and the chat has an address entry and a scenario. Otherwise it raises: bad callback data, then unknown map, then the coordinates of an address session, else a missing entry. When it gets past, the fields are the coordinate branch and the row is the eight columns in log order |
| Terminal.AddressSessionFails | probablefuturesbot/__main__.py:143-176 | a chat that stored an address raises at the coordinates of the log row |
| Terminal.Classify | probablefuturesbot/__main__.py:185-212 | statistics exactly when low/mid/high/unit are present and a place can be named (coordinates if both are echoed, else the stored address); otherwise an invalid location exactly when the rendered answer contains "Invalid lon param.", else the raw answer |
| Terminal.StatisticsLines | probablefuturesbot/__main__.py:194-203 | the statistics reply has four parts |
| Terminal.StatisticsLinesContent | probablefuturesbot/__main__.py:194-203 | the first part names the echoed coordinates, or else the stored address (`None` when it is missing); then come the 5th percentile, the average and the 95th percentile, each with its value and the unit |
| Terminal.OperatorAlert | probablefuturesbot/__main__.py:232-234 | the alert is the prefix and the escaped traceback cut to 1000 characters, then `</pre>`: length min(len, 1000) + 6 ≤ 1006 |
| Dialogue.RouteEventKinds | probablefuturesbot/__main__.py:244-253 | each handler is reached only by the kind of update it reads |
| Dialogue.TransitionTable | probablefuturesbot/__main__.py:244-253 | the transition table: the entry commands lead to START and LOCATION; START takes `/probable_future` and any non-command message; LOCATION takes messages to WARMING_SCENARIO, then a button to MAP, then a button back to START |
| Dialogue.CancelEverywhere | probablefuturesbot/__main__.py:217-252 | `/cancel` reaches `cancel` from every state and returns START; outside a conversation it is ignored |
| Dialogue.Accepted | probablefuturesbot/__main__.py:244-253 | exactly which updates each state handles |
| Dialogue.MapEffect | probablefuturesbot/__main__.py:166-214 | the terminal step does nothing when it raises before the log row. Otherwise it logs exactly that row, sends it to the operator first and makes the request. The reply is the one for the verdict, and the step returns START unless the request fails or the answer is unexpected |
| Dialogue.LoggedWhateverTheAnswer | probablefuturesbot/__main__.py:166-182 | the log row, the operator copy and the request do not depend on the service's answer, because they happen before the call |
| Dialogue.HandlerEffect | probablefuturesbot/__main__.py:54-222 | each handler's effect: only `location` and `map` can raise; a handler that returns gives its own state constant; only `map` logs, at most one row |
| Dialogue.AddressSessionLogsNothing | probablefuturesbot/__main__.py:143-176 | in the terminal step, a chat that stored an address raises at the coordinates and logs, requests and sends nothing |
| Dialogue.Conclude | probablefuturesbot/__main__.py:205-214 | the terminal step returns START unless the answer is unexpected, in which case it re-raises |
| Dialogue.StaysReady | probablefuturesbot/__main__.py:82-114 | the readiness invariant (a chat waiting for a scenario or a map has exactly one of a location and an address, and one waiting for a map has a scenario) survives any change confined to one chat's entries and state, as long as that chat is ready for its new state |
| Dialogue.UpdateOthers | probablefuturesbot/__main__.py:82-114 | writing one chat's entry leaves the other chats' entries unchanged |
| Dialogue.AgreeElsewhere | probablefuturesbot/__main__.py:82-114 | dictionaries that agree away from one chat agree at every other chat |
| Dialogue.Bot.constructor | probablefuturesbot/__main__.py:30-49 | the bot starts with empty dictionaries, no conversations, the catalog, and the log read back |
| Dialogue.Bot.StartCommand | probablefuturesbot/__main__.py:54-65 | `start` sends the introduction and returns START |
| Dialogue.Bot.ProbableFutureCommand | probablefuturesbot/__main__.py:68-79 | `probable_future` sends the location prompt and returns LOCATION |
| Dialogue.Bot.ReceiveLocation | probablefuturesbot/__main__.py:82-103 | `location` sets the chat's location to the shared one, or `None`, and its address to the stripped text when no location was shared, else `None`; it offers the scenario keyboard and returns WARMING_SCENARIO; with neither a location nor text it raises after clearing both |
| Dialogue.Bot.ChooseScenario | probablefuturesbot/__main__.py:106-127 | `warming_scenario` stores the button data verbatim for the chat only, offers the map keyboard and returns MAP |
| Dialogue.Bot.ChooseMap | probablefuturesbot/__main__.py:130-214 | `map` ends, logs, requests and sends exactly as `MapEffect` says for what `Prepare` gives on the chat's entries, the service's answer and the chat's address |
| Dialogue.Bot.CancelCommand | probablefuturesbot/__main__.py:217-222 | `cancel` replies and returns START, touching no dictionary |
| Dialogue.Bot.ReportError | probablefuturesbot/__main__.py:225-236 | `error_handler` sends the operator the bounded alert |
| Dialogue.Bot.RunHandler | probablefuturesbot/__main__.py:54-222 | the handler's outcome, log rows, request fields and messages are those of `HandlerEffect` on the chat's entries before it ran. `location` stores the shared location (or `None`) and the stripped text (or `None`); `warming_scenario` stores the button data verbatim. No other handler, and no other chat's entry, changes a dictionary |
| Dialogue.Bot.Dispatch | probablefuturesbot/__main__.py:225-257 | the handler's effect, then the returned state stored for the chat, or, when it raises, the state kept and the operator's alert sent; the dictionary writes are those of `RunHandler` |
| Dialogue.Bot.HandleUpdate | probablefuturesbot/__main__.py:244-257 | one update: the handler is the routed one, and its outcome, log rows, request fields and messages are its `HandlerEffect`, followed by the operator alert if it raises. Its returned state becomes the chat's state; if it raises, the state is kept. Only `location` writes the location and address, and only `warming_scenario` the scenario, each for this chat alone. A chat waiting for a scenario or a map always has what the next handlers read, and an address session in MAP raises at the log row and logs nothing |

## Left out

- Telegram transport:
  - Sending is an append to `Bot.outbox`.
  - The keyboard markup objects, `query.answer`, `edit_message_text` and `send_chat_action` are not modelled. Their failures are not modelled either, so `map`'s reads of `maps[...]` at `__main__.py:141` are covered only through the catalog check in `Terminal.Prepare`.
  - The text of the introduction and of the location prompt is abstracted to `Welcome` and `LocationRequest`.
- Dialogue.Bot.Valid: the model covers chats with a single user, such as private chats, where the chat id is the user's id.
  - `ConversationHandler` keys conversations by chat and user, while the three dictionaries are keyed by chat alone. The model keys both by chat.
  - In a group chat, one user's `location` step overwrites the entries that another user's WARMING_SCENARIO or MAP conversation reads. Even a message with no text does this, because the entries are cleared at `__main__.py:84-85` before the step raises.
  - So the source does not keep the invariant `Bot.Valid` states for group chats. The same goes for the last `ensures` of `Dialogue.Bot.HandleUpdate`, which relies on it.
- The dispatcher's concurrency between chats and its polling loop are not modelled. Updates are handled one at a time.
- The ProbableFutures client: the service's answer is a parameter. `None` stands for a request or JSON decoding that raises. The statistics request, its connection and its output fields are otherwise not modelled.
- Gateway.RunRequest:
  - The network is the sequence of outcomes of successive attempts, and it must be at least as long as the budget.
  - `json.loads` and UTF-8 decoding of the body are not modelled: the result is the body text.
  - The catalog parser takes the `"content"` string of the decoded JSON directly.
- pandas: the CSV log file is an in-memory sequence of rows, read back at start-up as a constructor argument. `write_csv` and its failures are not modelled.
- `datetime.now()` is the opaque `Env.now`. `hash(chat_id)` is an opaque function fixed at construction. Nothing is claimed about it.
- `is_group` is the opaque `Env.group`. The library's `Update` structure that it inspects is not part of this model.
- Catalog.MapKeyboard: the source passes the integer id as a button's callback data (`__main__.py:118`). The model assumes Telegram hands it back as the text `str(id)`, which `int()` reads back (`Text.ParseIntRoundTrip`).
- Floats: coordinates are opaque values carried with their `str()` rendering.
- Text.ParseInt: Python's `int()` also accepts underscores between digits and non-ASCII decimal digits. The model accepts only ASCII digits with an optional sign and surrounding whitespace.
- Text.IsSpace: models `str.isspace()` by explicit code-point ranges.
- `html.escape`, traceback formatting, `logging` and `print` are not modelled. `Terminal.OperatorAlert` takes the escaped traceback as a string.
- Terminal.StatisticsLines: the reply is a tuple of four strings handed to `send_message`. It is kept as the four parts, not as the library's rendering of a tuple.
- The `Failure` values name the exception kinds the handlers raise. The exception objects and messages are not modelled.
