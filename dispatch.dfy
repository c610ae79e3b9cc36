/**
 * The update dispatcher as a function of the bot's state: for one inbound update
 * it gives the new per-chat city map and subscription set, the messages sent and
 * the city names looked up at the weather gateway, in order.
 */
module Dispatch {
  import opened Strings
  import opened Messages

  datatype Option<T> = None | Some(value: T)

  /** The weather gateway, `WeatherService.GetWeather`: a city name to a report text. */
  type Gateway = string -> string

  /** One inbound update. A callback whose originating message is missing has
      `origin == None`; a callback without data has `data == None`. */
  datatype Update =
    | TextMessage(chat: ChatId, text: string)
    | OtherMessage(chat: ChatId)
    | CallbackQuery(origin: Option<ChatId>, data: Option<string>)
    | OtherUpdate

  /** `userCities` and `subscribedUsers`. */
  datatype BotState = BotState(userCities: map<ChatId, string>, subscribedUsers: set<ChatId>)

  /** What handling one update does: the state afterwards, the messages sent and
      the gateway lookups made. */
  datatype Effect = Effect(state: BotState, sent: seq<Outbound>, lookups: seq<string>)

  /** The chat an update is answered in, if any. */
  function Sender(u: Update): Option<ChatId> {
    match u
    case TextMessage(chat, _) => Some(chat)
    case OtherMessage(chat) => Some(chat)
    case CallbackQuery(origin, _) => origin
    case OtherUpdate => None
  }

  predicate IsCommand(text: string) {
    StartsWith(text, "/start") || StartsWith(text, "/change_city")
  }

  /** A text message never changes the subscriptions and makes at most one lookup. */
  function OnText(s: BotState, chat: ChatId, text: string, weatherOf: Gateway): (e: Effect)
    ensures e.state.subscribedUsers == s.subscribedUsers && |e.lookups| <= 1
  {
    if StartsWith(text, "/start") then
      Effect(s, [Outbound(chat, CityPrompt)], [])
    else if StartsWith(text, "/change_city") then
      Effect(s, [Outbound(chat, CityPrompt), Outbound(chat, NewCityHint)], [])
    else if !IsNullOrWhiteSpace(text) then
      var city := Trim(text);
      var weather := weatherOf(city);
      if weather != "" then
        Effect(s.(userCities := s.userCities[chat := city]),
               [Outbound(chat, CityChosen(city)), Outbound(chat, WeatherOptions)], [city])
      else
        Effect(s, [Outbound(chat, NoSuchCity)], [city])
    else
      Effect(s, [], [])
  }

  /** A button press never changes the city map, sends at most one message and
      makes at most one lookup. */
  function OnCallback(s: BotState, chat: ChatId, data: Option<string>, weatherOf: Gateway): (e: Effect)
    ensures e.state.userCities == s.userCities && |e.sent| <= 1 && |e.lookups| <= 1
  {
    if data == Some("weather_now") then
      if chat in s.userCities then
        var city := s.userCities[chat];
        var weather := weatherOf(city);
        if weather != "" then Effect(s, [Outbound(chat, Report(weather))], [city])
        else Effect(s, [Outbound(chat, FetchFailed)], [city])
      else
        Effect(s, [Outbound(chat, ChooseCityFirst)], [])
    else if data == Some("subscribe") then
      var s' := s.(subscribedUsers := s.subscribedUsers + {chat});
      if chat in s.userCities then Effect(s', [Outbound(chat, Subscribed(s.userCities[chat]))], [])
      else Effect(s', [], [])
    else if data == Some("unsubscribe") then
      Effect(s.(subscribedUsers := s.subscribedUsers - {chat}), [Outbound(chat, Unsubscribed)], [])
    else
      Effect(s, [], [])
  }

  /** `HandleUpdateAsync`. A callback without its originating message raises
      when its chat is read, as every branch does first; the exception is
      swallowed, so nothing happens. */
  function Handle(s: BotState, u: Update, weatherOf: Gateway): (e: Effect)
    ensures Sender(u) == None ==> e == Effect(s, [], [])
    ensures |e.lookups| <= 1
  {
    match u
    case TextMessage(chat, text) => OnText(s, chat, text, weatherOf)
    case OtherMessage(_) => Effect(s, [], [])
    case CallbackQuery(origin, data) =>
      if origin.Some? then OnCallback(s, origin.value, data, weatherOf) else Effect(s, [], [])
    case OtherUpdate => Effect(s, [], [])
  }

  // ---------------------------------------------------------------------------
  // Text messages

  /** `/start` shows the city prompt; `/change_city` shows it and then the
      instruction. Neither touches the state nor the gateway. */
  lemma CommandsKeepState(s: BotState, chat: ChatId, text: string, weatherOf: Gateway)
    requires IsCommand(text)
    ensures var e := Handle(s, TextMessage(chat, text), weatherOf);
      e.state == s && e.lookups == []
      && e.sent == if StartsWith(text, "/start") then [Outbound(chat, CityPrompt)]
                   else [Outbound(chat, CityPrompt), Outbound(chat, NewCityHint)]
  {
  }

  /** A city name the gateway knows becomes the chat's city (trimmed, replacing
      any earlier one); nothing else in the state changes, the gateway is asked
      once, and the confirmation and the action menu are sent. */
  lemma CityAccepted(s: BotState, chat: ChatId, text: string, weatherOf: Gateway)
    requires !IsCommand(text) && !IsNullOrWhiteSpace(text) && weatherOf(Trim(text)) != ""
    ensures var e := Handle(s, TextMessage(chat, text), weatherOf);
      chat in e.state.userCities && e.state.userCities[chat] == Trim(text) && Trim(text) != ""
      && (forall c :: c != chat ==> (c in e.state.userCities <==> c in s.userCities))
      && (forall c :: c != chat && c in s.userCities ==> e.state.userCities[c] == s.userCities[c])
      && e.state.subscribedUsers == s.subscribedUsers
      && e.lookups == [Trim(text)]
      && e.sent == [Outbound(chat, CityChosen(Trim(text))), Outbound(chat, WeatherOptions)]
  {
    TrimSpec(text);
  }

  /** A name the gateway answers with an empty text changes nothing and gets
      exactly one error message. */
  lemma CityRejected(s: BotState, chat: ChatId, text: string, weatherOf: Gateway)
    requires !IsCommand(text) && !IsNullOrWhiteSpace(text) && weatherOf(Trim(text)) == ""
    ensures Handle(s, TextMessage(chat, text), weatherOf)
            == Effect(s, [Outbound(chat, NoSuchCity)], [Trim(text)])
  {
  }

  /** Blank text that is not a command is ignored entirely. */
  lemma BlankTextIgnored(s: BotState, chat: ChatId, text: string, weatherOf: Gateway)
    requires !IsCommand(text) && IsNullOrWhiteSpace(text)
    ensures Handle(s, TextMessage(chat, text), weatherOf) == Effect(s, [], [])
  {
  }

  // ---------------------------------------------------------------------------
  // Callbacks

  /** `weather_now` without a city: the prompt to choose one, no lookup, no change. */
  lemma WeatherNowWithoutCity(s: BotState, chat: ChatId, weatherOf: Gateway)
    requires chat !in s.userCities
    ensures Handle(s, CallbackQuery(Some(chat), Some("weather_now")), weatherOf)
            == Effect(s, [Outbound(chat, ChooseCityFirst)], [])
  {
  }

  /** `weather_now` with a city: one lookup of that city and one message, the
      report with its advice or the failure text; no change. */
  lemma WeatherNowWithCity(s: BotState, chat: ChatId, weatherOf: Gateway)
    requires chat in s.userCities
    ensures var city := s.userCities[chat];
            var weather := weatherOf(city);
            var e := Handle(s, CallbackQuery(Some(chat), Some("weather_now")), weatherOf);
      e.state == s && e.lookups == [city]
      && e.sent == [Outbound(chat, if weather != "" then Report(weather) else FetchFailed)]
  {
  }

  /** `subscribe` puts the chat in the set and nothing else there; the city map
      is untouched; a confirmation naming the city goes out only if it has one. */
  lemma SubscribeAdds(s: BotState, chat: ChatId, weatherOf: Gateway)
    ensures var e := Handle(s, CallbackQuery(Some(chat), Some("subscribe")), weatherOf);
      chat in e.state.subscribedUsers
      && (forall c :: c != chat ==> (c in e.state.subscribedUsers <==> c in s.subscribedUsers))
      && e.state.userCities == s.userCities && e.lookups == []
      && e.sent == if chat in s.userCities then [Outbound(chat, Subscribed(s.userCities[chat]))] else []
  {
  }

  /** Subscribing twice leaves the same state as subscribing once. */
  lemma SubscribeIdempotent(s: BotState, chat: ChatId, weatherOf: Gateway)
    ensures var u := CallbackQuery(Some(chat), Some("subscribe"));
      Handle(Handle(s, u, weatherOf).state, u, weatherOf).state == Handle(s, u, weatherOf).state
  {
    var s' := Handle(s, CallbackQuery(Some(chat), Some("subscribe")), weatherOf).state;
    assert s'.subscribedUsers + {chat} == s'.subscribedUsers;
  }

  /** `unsubscribe` takes the chat out of the set and nothing else; the city map
      is untouched; the confirmation is always sent. */
  lemma UnsubscribeRemoves(s: BotState, chat: ChatId, weatherOf: Gateway)
    ensures var e := Handle(s, CallbackQuery(Some(chat), Some("unsubscribe")), weatherOf);
      chat !in e.state.subscribedUsers
      && (forall c :: c != chat ==> (c in e.state.subscribedUsers <==> c in s.subscribedUsers))
      && e.state.userCities == s.userCities && e.lookups == []
      && e.sent == [Outbound(chat, Unsubscribed)]
  {
  }

  /** Unsubscribing a chat that is not subscribed changes no state. */
  lemma UnsubscribeAbsentKeepsState(s: BotState, chat: ChatId, weatherOf: Gateway)
    requires chat !in s.subscribedUsers
    ensures Handle(s, CallbackQuery(Some(chat), Some("unsubscribe")), weatherOf).state == s
  {
    assert s.subscribedUsers - {chat} == s.subscribedUsers;
  }

  /** Callback data other than the three actions, or a callback without its
      message, does nothing at all. */
  lemma OtherCallbacksIgnored(s: BotState, origin: Option<ChatId>, data: Option<string>, weatherOf: Gateway)
    requires origin == None || data !in {Some("weather_now"), Some("subscribe"), Some("unsubscribe")}
    ensures Handle(s, CallbackQuery(origin, data), weatherOf) == Effect(s, [], [])
  {
  }

  // ---------------------------------------------------------------------------
  // Every update

  /** `e` answers only `chat`, changes no other chat's entries and makes at
      most one lookup. */
  ghost predicate ConfinedTo(s: BotState, e: Effect, chat: ChatId) {
    |e.lookups| <= 1
    && (forall i :: 0 <= i < |e.sent| ==> e.sent[i].chat == chat)
    && (forall c :: c != chat ==>
          (c in e.state.userCities <==> c in s.userCities)
          && (c in s.userCities ==> e.state.userCities[c] == s.userCities[c])
          && (c in e.state.subscribedUsers <==> c in s.subscribedUsers))
  }

  lemma OnTextConfined(s: BotState, chat: ChatId, text: string, weatherOf: Gateway)
    ensures ConfinedTo(s, OnText(s, chat, text, weatherOf), chat)
  {
    var e := OnText(s, chat, text, weatherOf);
    if !IsCommand(text) && !IsNullOrWhiteSpace(text) && weatherOf(Trim(text)) != "" {
      assert e.state == s.(userCities := s.userCities[chat := Trim(text)]);
    } else {
      assert e.state == s;
    }
  }

  lemma OnCallbackConfined(s: BotState, chat: ChatId, data: Option<string>, weatherOf: Gateway)
    ensures ConfinedTo(s, OnCallback(s, chat, data, weatherOf), chat)
  {
  }

  /** Whatever the update, only its own chat is answered, only its own chat's
      entries can change, and the gateway is asked at most once; an update
      without a chat does nothing. */
  lemma OnlySenderAffected(s: BotState, u: Update, weatherOf: Gateway)
    ensures Sender(u).None? ==> Handle(s, u, weatherOf) == Effect(s, [], [])
    ensures Sender(u).Some? ==> ConfinedTo(s, Handle(s, u, weatherOf), Sender(u).value)
  {
    match u
    case TextMessage(chat, text) => OnTextConfined(s, chat, text, weatherOf);
    case OtherMessage(_) =>
    case CallbackQuery(origin, data) =>
      if origin.Some? { OnCallbackConfined(s, origin.value, data, weatherOf); }
    case OtherUpdate =>
  }

  /** The only change an update can make to the city map is storing the trimmed
      text of a non-blank message under its chat. */
  lemma CityMapChange(s: BotState, u: Update, weatherOf: Gateway)
    ensures var m := Handle(s, u, weatherOf).state.userCities;
      m == s.userCities
      || (u.TextMessage? && !IsNullOrWhiteSpace(u.text) && m == s.userCities[u.chat := Trim(u.text)])
  {
  }

  /** Chats never lose their city: the map only grows or is overwritten. */
  lemma CitiesNeverForgotten(s: BotState, u: Update, weatherOf: Gateway)
    ensures s.userCities.Keys <= Handle(s, u, weatherOf).state.userCities.Keys
  {
    CityMapChange(s, u, weatherOf);
  }

  /** Every stored city is a trimmed, non-empty name, and handling keeps it so. */
  lemma CitiesStayTrimmed(s: BotState, u: Update, weatherOf: Gateway)
    requires forall c :: c in s.userCities ==> s.userCities[c] != "" && Trim(s.userCities[c]) == s.userCities[c]
    ensures var m := Handle(s, u, weatherOf).state.userCities;
      forall c :: c in m ==> m[c] != "" && Trim(m[c]) == m[c]
  {
    CityMapChange(s, u, weatherOf);
    if u.TextMessage? {
      TrimSpec(u.text);
      TrimIdempotent(u.text);
    }
  }
}
