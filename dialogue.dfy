/**
 * The conversation: which handler an inbound event reaches in each state, the
 * state each handler returns, and the bot's per-chat dictionaries, query log and
 * outgoing messages, which the handlers update in place.
 */
module Dialogue {
  import opened Wrappers
  import opened Text
  import opened Keyboard
  import Catalog
  import opened Terminal

  type ChatId = int

  /** The conversation states `START, LOCATION, WARMING_SCENARIO, MAP`. */
  datatype State = Start | Location | WarmingScenario | Map

  /** An inbound update. */
  datatype Event =
    | Command(name: string)                                  // a message that is a bot command, e.g. "/cancel"
    | Message(text: Option<string>, location: Option<Coord>) // any other message
    | Callback(data: string)                                 // a press on an inline button

  /** The six handlers of the conversation. */
  datatype Handler = OnStart | OnProbableFuture | OnLocation | OnWarmingScenario | OnMap | OnCancel

  /** The entry points, tried when the chat has no conversation yet. */
  function EntryPoint(e: Event): Option<Handler> {
    if e == Command("start") then Some(OnStart)
    else if e == Command("probable_future") then Some(OnProbableFuture)
    else None
  }

  /** The handlers registered for each state. */
  function StateHandler(s: State, e: Event): Option<Handler> {
    match s
    case Start =>
      if e == Command("probable_future") then Some(OnProbableFuture)
      else if e.Message? then Some(OnLocation)
      else None
    case Location => if e.Message? then Some(OnLocation) else None
    case WarmingScenario => if e.Callback? then Some(OnWarmingScenario) else None
    case Map => if e.Callback? then Some(OnMap) else None
  }

  /** The fallbacks, tried in every state when no handler of the state matches. */
  function Fallback(e: Event): Option<Handler> {
    if e == Command("cancel") then Some(OnCancel) else None
  }

  /** The handler an event reaches, given the chat's current state (`None`: no conversation). */
  function Route(current: Option<State>, e: Event): Option<Handler> {
    match current
    case None => EntryPoint(e)
    case Some(s) => if StateHandler(s, e).Some? then StateHandler(s, e) else Fallback(e)
  }

  /** The state constant each handler returns when it does not raise. */
  function Returns(h: Handler): State {
    match h
    case OnStart => Start
    case OnProbableFuture => Location
    case OnLocation => WarmingScenario
    case OnWarmingScenario => Map
    case OnMap => Start
    case OnCancel => Start
  }

  /** Each handler is reached only by the kind of event it reads. */
  lemma RouteEventKinds(current: Option<State>, e: Event)
    ensures Route(current, e) == Some(OnLocation) ==> e.Message?
    ensures Route(current, e) == Some(OnWarmingScenario) || Route(current, e) == Some(OnMap) ==> e.Callback?
    ensures Route(current, e) in {Some(OnStart), Some(OnProbableFuture), Some(OnCancel)} ==> e.Command?
  {
  }

  /**
   * The transition table: the two entry commands start a conversation; in START
   * `/probable_future` leads to LOCATION and any other message goes straight
   * through the location step; LOCATION takes any message; the two button steps
   * take callbacks.
   */
  lemma TransitionTable(text: Option<string>, location: Option<Coord>, data: string)
    ensures Route(None, Command("start")) == Some(OnStart) && Returns(OnStart) == Start
    ensures Route(None, Command("probable_future")) == Some(OnProbableFuture) && Returns(OnProbableFuture) == Location
    ensures Route(Some(Start), Command("probable_future")) == Some(OnProbableFuture)
    ensures Route(Some(Start), Message(text, location)) == Some(OnLocation)
    ensures Route(Some(Location), Message(text, location)) == Some(OnLocation)
    ensures Returns(OnLocation) == WarmingScenario
    ensures Route(Some(WarmingScenario), Callback(data)) == Some(OnWarmingScenario) && Returns(OnWarmingScenario) == Map
    ensures Route(Some(Map), Callback(data)) == Some(OnMap) && Returns(OnMap) == Start
  {
  }

  /** `/cancel` reaches the cancel handler in every state, and nothing outside a conversation. */
  lemma CancelEverywhere(s: State)
    ensures Route(Some(s), Command("cancel")) == Some(OnCancel) && Returns(OnCancel) == Start
    ensures Route(None, Command("cancel")) == None
  {
  }

  /**
   * What each state accepts: a conversation that is waiting for a button ignores
   * messages, and one waiting for a message ignores buttons; only `/cancel` and,
   * in START, `/probable_future` are commands that are handled.
   */
  lemma Accepted(s: State, e: Event)
    ensures Route(Some(s), e).Some? <==>
      || e == Command("cancel")
      || (s == Start && (e == Command("probable_future") || e.Message?))
      || (s == Location && e.Message?)
      || ((s == WarmingScenario || s == Map) && e.Callback?)
  {
  }

  /** A message the bot sends. */
  datatype Reply =
    | Welcome                                             // the introduction sent by `/start`
    | LocationRequest                                     // the prompt with the share-location button
    | Choice(prompt: string, rows: seq<seq<Button>>)      // a prompt with inline buttons
    | Notice(text: string)                                // plain text
    | StatisticsReply(lines: seq<string>)                 // the statistics, in four parts
    | LogNotice(row: LogRow)                              // a copy of a log row, to the operator
    | Alert(text: string)                                 // an exception report, to the operator

  datatype Sent = Sent(chat: ChatId, reply: Reply)

  /** How a handler ends: with the state it returns, or raising. */
  datatype Outcome = Next(state: State) | Raised(failure: Failure)

  /**
   * What the terminal step and the error handler take from outside: the clock, the
   * chat's group flag, the service's answer (`None`: the request raised) and the
   * escaped traceback of an exception.
   */
  datatype Env = Env(now: Timestamp, group: bool, service: Option<Answer>, trace: string)

  const ScenarioPrompt := "Select a warming scenario."
  const MapPrompt := "Select a map."
  const CancelledNotice := "Current operation cancelled."

  /** The message the terminal step sends the user for a verdict. */
  function Respond(chat: ChatId, v: Verdict): Sent {
    match v
    case Statistics(place, low, mid, high, unit) => Sent(chat, StatisticsReply(StatisticsLines(place, low, mid, high, unit)))
    case InvalidLocation => Sent(chat, Notice(InvalidLocationReply))
    case Unexpected(raw) => Sent(chat, Notice(raw))
  }

  /** How the terminal step ends for a verdict: back to START, or re-raising on an unexpected payload. */
  function Conclude(v: Verdict): (o: Outcome)
    ensures o.Next? <==> !v.Unexpected?
    ensures o.Next? ==> o.state == Start
  {
    if v.Unexpected? then Raised(UnexpectedPayload) else Next(Start)
  }

  /**
   * What a handler does besides writing the three dictionaries: how it ends, the
   * log rows and request fields it adds, and the messages it sends, in order.
   */
  datatype Effect = Effect(outcome: Outcome, rows: seq<LogRow>, fields: seq<Fields>, replies: seq<Sent>)

  /**
   * The terminal step, given what it prepared, the service's answer and the
   * chat's stored address: nothing happens when it raises before the log row;
   * otherwise the row goes to the operator and the log, and the request is made,
   * before the answer is looked at.
   */
  function MapEffect(p: Result<Prepared, Failure>, service: Option<Answer>, address: Option<Option<string>>,
                     chat: ChatId, operator: ChatId): (r: Effect)
    ensures p.Err? ==> r.outcome == Raised(p.error) && r.rows == [] && r.fields == [] && r.replies == []
    ensures p.Ok? ==> r.rows == [p.value.row] && r.fields == [p.value.fields]
    ensures p.Ok? ==> |r.replies| >= 1 && r.replies[0] == Sent(operator, LogNotice(p.value.row))
    ensures p.Ok? && service.Some? ==> r.replies == [r.replies[0], Respond(chat, Classify(service.value, address))]
    ensures r.outcome.Next? <==> p.Ok? && service.Some? && !Classify(service.value, address).Unexpected?
    ensures r.outcome.Next? ==> r.outcome.state == Start
    ensures p.Ok? && service.None? ==> r.outcome == Raised(ServiceFailure)
  {
    match p
    case Err(f) => Effect(Raised(f), [], [], [])
    case Ok(prepared) =>
      var notice := Sent(operator, LogNotice(prepared.row));
      match service
      case None => Effect(Raised(ServiceFailure), [prepared.row], [prepared.fields], [notice])
      case Some(answer) =>
        var v := Classify(answer, address);
        Effect(Conclude(v), [prepared.row], [prepared.fields], [notice, Respond(chat, v)])
  }

  /** The log row is written and sent the same way whatever the service answers. */
  lemma LoggedWhateverTheAnswer(p: Result<Prepared, Failure>, one: Option<Answer>, other: Option<Answer>,
                                address: Option<Option<string>>, chat: ChatId, operator: ChatId)
    ensures MapEffect(p, one, address, chat, operator).rows == MapEffect(p, other, address, chat, operator).rows
    ensures MapEffect(p, one, address, chat, operator).fields == MapEffect(p, other, address, chat, operator).fields
    ensures p.Ok? ==> MapEffect(p, one, address, chat, operator).replies[0] ==
                      MapEffect(p, other, address, chat, operator).replies[0]
  {
  }

  /**
   * The effect of handler `h` on an update from `chat`, whose entries in the
   * three dictionaries are `session` before the handler runs.
   */
  function HandlerEffect(h: Handler, chat: ChatId, e: Event, env: Env, maps: Catalog.Catalog, operator: ChatId,
                         session: Session, hashed: int): (r: Effect)
    requires Catalog.Valid(maps)
    requires h == OnLocation ==> e.Message?
    requires h == OnWarmingScenario || h == OnMap ==> e.Callback?
    ensures r.outcome.Next? ==> r.outcome.state == Returns(h)
    ensures r.outcome.Raised? ==> h == OnLocation || h == OnMap
    ensures h != OnMap ==> r.rows == [] && r.fields == []
    ensures |r.rows| <= 1
  {
    match h
    case OnStart => Effect(Next(Start), [], [], [Sent(chat, Welcome)])
    case OnProbableFuture => Effect(Next(Location), [], [], [Sent(chat, LocationRequest)])
    case OnLocation =>
      if e.location.None? && e.text.None? then Effect(Raised(NoText), [], [], [])
      else Effect(Next(WarmingScenario), [], [], [Sent(chat, Choice(ScenarioPrompt, ScenarioKeyboard()))])
    case OnWarmingScenario => Effect(Next(Map), [], [], [Sent(chat, Choice(MapPrompt, Catalog.MapKeyboard(maps)))])
    case OnMap => MapEffect(Prepare(e.data, maps, session, env.group, env.now, hashed), env.service, session.address, chat, operator)
    case OnCancel => Effect(Next(Start), [], [], [Sent(chat, Notice(CancelledNotice))])
  }

  /**
   * In the terminal step, a chat that stored an address raises at the log row:
   * it logs nothing, requests nothing and sends nothing.
   */
  lemma AddressSessionLogsNothing(chat: ChatId, data: string, env: Env, maps: Catalog.Catalog, operator: ChatId,
                                  session: Session, hashed: int)
    requires Catalog.Valid(maps)
    requires session.location == Some(None) && session.address.Some? && session.scenario.Some?
    requires ParseInt(data).Some? && ParseInt(data).value in maps.names
    ensures HandlerEffect(OnMap, chat, Callback(data), env, maps, operator, session, hashed) ==
      Effect(Raised(NoCoordinates), [], [], [])
  {
    AddressSessionFails(data, maps, session, env.group, env.now, hashed);
  }

  /** What a chat in state `s` has stored: the entries the next handlers of the conversation read. */
  ghost predicate ReadyFor(s: State, loc: map<ChatId, Option<Coord>>, addr: map<ChatId, Option<string>>,
                           sel: map<ChatId, string>, c: ChatId) {
    && (s == WarmingScenario || s == Map ==> c in loc && c in addr && loc[c].Some? != addr[c].Some?)
    && (s == Map ==> c in sel)
  }

  ghost predicate AllReady(conv: map<ChatId, State>, loc: map<ChatId, Option<Coord>>, addr: map<ChatId, Option<string>>,
                           sel: map<ChatId, string>) {
    forall c | c in conv :: ReadyFor(conv[c], loc, addr, sel, c)
  }

  /**
   * Every chat stays ready when only `chat`'s entries change and `chat` is ready
   * for the state it is left in.
   */
  lemma StaysReady(conv: map<ChatId, State>, loc: map<ChatId, Option<Coord>>, addr: map<ChatId, Option<string>>,
                   sel: map<ChatId, string>, conv': map<ChatId, State>, loc': map<ChatId, Option<Coord>>,
                   addr': map<ChatId, Option<string>>, sel': map<ChatId, string>, chat: ChatId)
    requires AllReady(conv, loc, addr, sel)
    requires conv' - {chat} == conv - {chat}
    requires loc' - {chat} == loc - {chat} && addr' - {chat} == addr - {chat} && sel' - {chat} == sel - {chat}
    requires chat in conv' ==> ReadyFor(conv'[chat], loc', addr', sel', chat)
    ensures AllReady(conv', loc', addr', sel')
  {
    forall c | c in conv' ensures ReadyFor(conv'[c], loc', addr', sel', c) {
      if c != chat {
        AgreeElsewhere(conv, conv', chat, c);
        AgreeElsewhere(loc, loc', chat, c);
        AgreeElsewhere(addr, addr', chat, c);
        AgreeElsewhere(sel, sel', chat, c);
      }
    }
  }

  /** Setting one key leaves every other key as it was. */
  lemma UpdateOthers<K, V>(m: map<K, V>, k: K, v: V)
    ensures m[k := v] - {k} == m - {k}
  {
  }

  /** Two maps equal away from `k` agree at every other key. */
  lemma AgreeElsewhere<K, V>(m: map<K, V>, n: map<K, V>, k: K, c: K)
    requires m - {k} == n - {k} && c != k
    ensures c in m <==> c in n
    ensures c in m ==> m[c] == n[c]
  {
    assert c in m <==> c in m - {k};
    assert c in n <==> c in n - {k};
    if c in m {
      assert m[c] == (m - {k})[c];
      assert n[c] == (n - {k})[c];
    }
  }

  class Bot {
    /** `location_info`: the shared location per chat, `None` when the chat sent an address. */
    var locationInfo: map<ChatId, Option<Coord>>
    /** `address`: the stripped address per chat, `None` when the chat shared a location. */
    var address: map<ChatId, Option<string>>
    /** `selected_warming_scenario`: the callback data of the scenario button per chat. */
    var selectedWarmingScenario: map<ChatId, string>
    /** The conversation state per chat; a chat without an entry has no conversation. */
    var conversations: map<ChatId, State>
    /** The query log. */
    var log: seq<LogRow>
    /** The input fields of every statistics request made. */
    var requests: seq<Fields>
    /** Every message sent, in order. */
    var outbox: seq<Sent>
    /** The dataset catalog, fixed at start-up. */
    const maps: Catalog.Catalog
    const developerChatId: ChatId
    /** The anonymised identity written to the log for a chat. */
    const hashOf: ChatId -> int

    /**
     * A chat waiting for a scenario or a map has stored exactly one of a location
     * and an address, and a chat waiting for a map has a scenario. Conversations
     * are keyed by chat, as in a private chat, where the chat is its one user; in
     * a group chat each user has a conversation of their own over the chat's
     * shared entries, and this does not hold.
     */
    ghost predicate Valid()
      reads this`conversations, this`locationInfo, this`address, this`selectedWarmingScenario
    {
      Catalog.Valid(maps) && AllReady(conversations, locationInfo, address, selectedWarmingScenario)
    }

    /** The chat's entries in the three dictionaries. */
    function SessionOf(c: ChatId): Session
      reads this`locationInfo, this`address, this`selectedWarmingScenario
    {
      Session(
        if c in locationInfo then Some(locationInfo[c]) else None,
        if c in address then Some(address[c]) else None,
        if c in selectedWarmingScenario then Some(selectedWarmingScenario[c]) else None)
    }

    function StateOf(c: ChatId): Option<State>
      reads this`conversations
    {
      if c in conversations then Some(conversations[c]) else None
    }

    /** The bot at start-up, with the catalog built and the log read back. */
    constructor (maps: Catalog.Catalog, developerChatId: ChatId, hashOf: ChatId -> int, log: seq<LogRow>)
      requires Catalog.Valid(maps)
      ensures Valid()
      ensures this.maps == maps && this.developerChatId == developerChatId && this.hashOf == hashOf
      ensures this.log == log && requests == [] && outbox == []
      ensures locationInfo == map[] && address == map[] && selectedWarmingScenario == map[]
      ensures conversations == map[]
    {
      this.maps := maps;
      this.developerChatId := developerChatId;
      this.hashOf := hashOf;
      this.log := log;
      requests := [];
      outbox := [];
      locationInfo := map[];
      address := map[];
      selectedWarmingScenario := map[];
      conversations := map[];
    }

    /** `start`: the introduction; returns START. */
    method StartCommand(chat: ChatId) returns (o: Outcome)
      modifies this`outbox
      ensures o == Next(Start)
      ensures outbox == old(outbox) + [Sent(chat, Welcome)]
    {
      outbox := outbox + [Sent(chat, Welcome)];
      o := Next(Start);
    }

    /** `probable_future`: asks for a location or an address; returns LOCATION. */
    method ProbableFutureCommand(chat: ChatId) returns (o: Outcome)
      modifies this`outbox
      ensures o == Next(Location)
      ensures outbox == old(outbox) + [Sent(chat, LocationRequest)]
    {
      outbox := outbox + [Sent(chat, LocationRequest)];
      o := Next(Location);
    }

    /**
     * `location`: clears both of the chat's entries, then stores the shared
     * location if there is one, else the stripped text; offers the scenarios and
     * returns WARMING_SCENARIO. A message with neither raises after the clearing.
     */
    method ReceiveLocation(chat: ChatId, text: Option<string>, location: Option<Coord>) returns (o: Outcome)
      modifies this`locationInfo, this`address, this`outbox
      ensures locationInfo == old(locationInfo)[chat := location]
      ensures address == old(address)[chat := if location.None? && text.Some? then Some(Strip(text.value)) else None]
      ensures o == if location.None? && text.None? then Raised(NoText) else Next(WarmingScenario)
      ensures outbox == old(outbox) +
        if o.Raised? then [] else [Sent(chat, Choice(ScenarioPrompt, ScenarioKeyboard()))]
    {
      locationInfo := locationInfo[chat := None];
      address := address[chat := None];
      if location.Some? {
        locationInfo := locationInfo[chat := Some(location.value)];
      } else {
        if text.None? {
          return Raised(NoText);
        }
        address := address[chat := Some(Strip(text.value))];
      }
      outbox := outbox + [Sent(chat, Choice(ScenarioPrompt, ScenarioKeyboard()))];
      o := Next(WarmingScenario);
    }

    /**
     * `warming_scenario`: stores the button's data as the chat's scenario,
     * unchecked; offers the catalog and returns MAP.
     */
    method ChooseScenario(chat: ChatId, data: string) returns (o: Outcome)
      requires Catalog.Valid(maps)
      modifies this`selectedWarmingScenario, this`outbox
      ensures selectedWarmingScenario == old(selectedWarmingScenario)[chat := data]
      ensures o == Next(Map)
      ensures outbox == old(outbox) + [Sent(chat, Choice(MapPrompt, Catalog.MapKeyboard(maps)))]
    {
      selectedWarmingScenario := selectedWarmingScenario[chat := data];
      outbox := outbox + [Sent(chat, Choice(MapPrompt, Catalog.MapKeyboard(maps)))];
      o := Next(Map);
    }

    /**
     * `map`: prepares the request and the log row; sends the row to the operator
     * and appends it to the log before calling the service, whatever the service
     * then answers; replies according to the answer and returns START, or raises.
     */
    method ChooseMap(chat: ChatId, data: string, env: Env) returns (o: Outcome)
      modifies this`log, this`requests, this`outbox
      ensures var eff := MapEffect(Prepare(data, maps, SessionOf(chat), env.group, env.now, hashOf(chat)),
                                   env.service, SessionOf(chat).address, chat, developerChatId);
        && o == eff.outcome
        && log == old(log) + eff.rows && requests == old(requests) + eff.fields && outbox == old(outbox) + eff.replies
      ensures o.Next? ==> o.state == Start
      ensures |old(log)| <= |log| <= |old(log)| + 1 && log[..|old(log)|] == old(log)
      // a chat that stored an address fails at the log row and writes none
      ensures SessionOf(chat).location == Some(None) && SessionOf(chat).address.Some? && SessionOf(chat).scenario.Some? &&
              ParseInt(data).Some? && ParseInt(data).value in maps.names ==>
        o == Raised(NoCoordinates) && log == old(log)
    {
      if SessionOf(chat).location == Some(None) && SessionOf(chat).address.Some? && SessionOf(chat).scenario.Some? &&
         ParseInt(data).Some? && ParseInt(data).value in maps.names {
        AddressSessionFails(data, maps, SessionOf(chat), env.group, env.now, hashOf(chat));
      }
      var prepared := Prepare(data, maps, SessionOf(chat), env.group, env.now, hashOf(chat));
      if prepared.Err? {
        return Raised(prepared.error);
      }
      var row := prepared.value.row;
      outbox := outbox + [Sent(developerChatId, LogNotice(row))];
      log := log + [row];
      requests := requests + [prepared.value.fields];
      if env.service.None? {
        return Raised(ServiceFailure);
      }
      var verdict := Classify(env.service.value, SessionOf(chat).address);
      outbox := outbox + [Respond(chat, verdict)];
      o := Conclude(verdict);
    }

    /** `cancel`: says so and returns START; the stored entries are left as they are. */
    method CancelCommand(chat: ChatId) returns (o: Outcome)
      modifies this`outbox
      ensures o == Next(Start)
      ensures outbox == old(outbox) + [Sent(chat, Notice(CancelledNotice))]
    {
      outbox := outbox + [Sent(chat, Notice(CancelledNotice))];
      o := Next(Start);
    }

    /** `error_handler`: sends the operator the bounded alert for an exception. */
    method ReportError(trace: string)
      modifies this`outbox
      ensures outbox == old(outbox) + [Sent(developerChatId, Alert(OperatorAlert(trace)))]
    {
      outbox := outbox + [Sent(developerChatId, Alert(OperatorAlert(trace)))];
    }

    /** Runs handler `h` on the event; the conversation state is left to the caller. */
    method RunHandler(chat: ChatId, h: Handler, e: Event, env: Env) returns (out: Outcome)
      requires Catalog.Valid(maps)
      requires h == OnLocation ==> e.Message?
      requires h == OnWarmingScenario || h == OnMap ==> e.Callback?
      modifies this`locationInfo, this`address, this`selectedWarmingScenario, this`log, this`requests, this`outbox
      ensures var eff := HandlerEffect(h, chat, e, env, maps, developerChatId, old(SessionOf(chat)), hashOf(chat));
        && out == eff.outcome
        && log == old(log) + eff.rows && requests == old(requests) + eff.fields && outbox == old(outbox) + eff.replies
      ensures h == OnLocation ==>
        && locationInfo == old(locationInfo)[chat := e.location]
        && address == old(address)[chat := if e.location.None? && e.text.Some? then Some(Strip(e.text.value)) else None]
      ensures h == OnWarmingScenario ==> selectedWarmingScenario == old(selectedWarmingScenario)[chat := e.data]
      ensures h != OnLocation ==> locationInfo == old(locationInfo) && address == old(address)
      ensures h != OnWarmingScenario ==> selectedWarmingScenario == old(selectedWarmingScenario)
      ensures locationInfo - {chat} == old(locationInfo) - {chat}
      ensures address - {chat} == old(address) - {chat}
      ensures selectedWarmingScenario - {chat} == old(selectedWarmingScenario) - {chat}
    {
      match h {
        case OnStart => out := StartCommand(chat);
        case OnProbableFuture => out := ProbableFutureCommand(chat);
        case OnLocation =>
          out := ReceiveLocation(chat, e.text, e.location);
          UpdateOthers(old(locationInfo), chat, e.location);
          UpdateOthers(old(address), chat, if e.location.None? && e.text.Some? then Some(Strip(e.text.value)) else None);
        case OnWarmingScenario =>
          out := ChooseScenario(chat, e.data);
          UpdateOthers(old(selectedWarmingScenario), chat, e.data);
        case OnMap => out := ChooseMap(chat, e.data, env);
        case OnCancel => out := CancelCommand(chat);
      }
    }

    /**
     * Runs the routed handler `h`: the state it returns becomes the chat's state;
     * if it raises, the state is kept and the error handler alerts the operator.
     */
    method Dispatch(chat: ChatId, h: Handler, e: Event, env: Env) returns (out: Outcome)
      requires Catalog.Valid(maps)
      requires h == OnLocation ==> e.Message?
      requires h == OnWarmingScenario || h == OnMap ==> e.Callback?
      modifies this`conversations, this`locationInfo, this`address, this`selectedWarmingScenario,
               this`log, this`requests, this`outbox
      ensures var eff := HandlerEffect(h, chat, e, env, maps, developerChatId, old(SessionOf(chat)), hashOf(chat));
        && out == eff.outcome
        && log == old(log) + eff.rows && requests == old(requests) + eff.fields
        && outbox == old(outbox) + eff.replies +
             if out.Raised? then [Sent(developerChatId, Alert(OperatorAlert(env.trace)))] else []
      ensures conversations == if out.Next? then old(conversations)[chat := out.state] else old(conversations)
      ensures h == OnLocation ==>
        && locationInfo == old(locationInfo)[chat := e.location]
        && address == old(address)[chat := if e.location.None? && e.text.Some? then Some(Strip(e.text.value)) else None]
      ensures h != OnLocation ==> locationInfo == old(locationInfo) && address == old(address)
      ensures h == OnWarmingScenario ==> selectedWarmingScenario == old(selectedWarmingScenario)[chat := e.data]
      ensures h != OnWarmingScenario ==> selectedWarmingScenario == old(selectedWarmingScenario)
      ensures locationInfo - {chat} == old(locationInfo) - {chat}
      ensures address - {chat} == old(address) - {chat}
      ensures selectedWarmingScenario - {chat} == old(selectedWarmingScenario) - {chat}
      ensures conversations - {chat} == old(conversations) - {chat}
    {
      out := RunHandler(chat, h, e, env);
      if out.Next? {
        conversations := conversations[chat := out.state];
        UpdateOthers(old(conversations), chat, out.state);
      } else {
        ReportError(env.trace);
      }
    }

    /**
     * The conversation handler and dispatcher for one update from `chat`: the
     * routed handler runs; the state it returns becomes the chat's state, and if
     * it raises, the state is kept and the error handler alerts the operator.
     */
    method HandleUpdate(chat: ChatId, e: Event, env: Env) returns (handler: Option<Handler>, o: Option<Outcome>)
      requires Valid()
      modifies this
      ensures Valid()
      ensures handler == Route(old(StateOf(chat)), e)
      ensures handler.None? ==> o.None? && unchanged(this)
      ensures conversations ==
        if o.Some? && o.value.Next? then old(conversations)[chat := o.value.state] else old(conversations)
      // the routed handler's effect, then the operator alert when it raises
      ensures handler.Some? ==>
        var eff := HandlerEffect(handler.value, chat, e, env, maps, developerChatId, old(SessionOf(chat)), hashOf(chat));
        && o == Some(eff.outcome)
        && log == old(log) + eff.rows && requests == old(requests) + eff.fields
        && outbox == old(outbox) + eff.replies +
             if eff.outcome.Raised? then [Sent(developerChatId, Alert(OperatorAlert(env.trace)))] else []
      // only `location` writes the location and address, only `warming_scenario` the scenario
      ensures handler == Some(OnLocation) ==>
        && locationInfo == old(locationInfo)[chat := e.location]
        && address == old(address)[chat := if e.location.None? && e.text.Some? then Some(Strip(e.text.value)) else None]
      ensures handler != Some(OnLocation) ==> locationInfo == old(locationInfo) && address == old(address)
      ensures handler == Some(OnWarmingScenario) ==>
        selectedWarmingScenario == old(selectedWarmingScenario)[chat := e.data]
      ensures handler != Some(OnWarmingScenario) ==> selectedWarmingScenario == old(selectedWarmingScenario)
      // a chat that stored an address fails at the log row and writes none
      ensures old(StateOf(chat)) == Some(Map) && e.Callback? && old(SessionOf(chat)).location == Some(None) &&
              ParseInt(e.data).Some? && ParseInt(e.data).value in maps.names ==>
        o == Some(Raised(NoCoordinates)) && log == old(log)
    {
      handler := Route(StateOf(chat), e);
      if handler.None? {
        return handler, None;
      }
      RouteEventKinds(StateOf(chat), e);
      if StateOf(chat) == Some(Map) && e.Callback? && SessionOf(chat).location == Some(None) &&
         ParseInt(e.data).Some? && ParseInt(e.data).value in maps.names {
        assert ReadyFor(Map, locationInfo, address, selectedWarmingScenario, chat);
        AddressSessionLogsNothing(chat, e.data, env, maps, developerChatId, SessionOf(chat), hashOf(chat));
      }
      var out := Dispatch(chat, handler.value, e, env);
      o := Some(out);
      if chat in conversations {
        assert chat in old(conversations) ==> ReadyFor(old(conversations)[chat], old(locationInfo), old(address), old(selectedWarmingScenario), chat);
      }
      StaysReady(old(conversations), old(locationInfo), old(address), old(selectedWarmingScenario),
                 conversations, locationInfo, address, selectedWarmingScenario, chat);
    }
  }
}
