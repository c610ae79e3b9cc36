# Weather bot: chat sessions, subscriptions and the daily broadcast

This project models the core of a Telegram weather bot in Dafny (`TelegramBot.cs`).
Users pick a city by typing its name. They can then ask for the current weather,
or subscribe to a daily broadcast. The bot keeps two pieces of per-process
state: `userCities`, a dictionary from chat id to the chosen city, and
`subscribedUsers`, a set of chat ids.

The project has these parts:

- `strings.dfy` (module `Strings`): the .NET string operations the dispatcher
  uses. `Char.IsWhiteSpace` is modelled over the full Unicode white-space set.
  `String.IsNullOrWhiteSpace` and `String.Trim` are built on it. `StartsWith` and
  `Contains` are ordinal. `Contains` is proved equal to an independent "occurs
  at some position" predicate.
- `advice.dfy` (module `Advice`): `GetWeatherRecommendation`. It is a
  case-sensitive, first-match keyword classifier, tried in the order "rain",
  "clear", "clouds", "snow", with a fallback.
- `messages.dfy` (module `Messages`): every message the bot sends, as a tag
  (`Reply`). `Text` renders the exact wording, `Keyboard` gives the markup
  attached to it and `Mode` gives its parse mode.
- `dispatch.dfy` (module `Dispatch`): `HandleUpdateAsync` as a pure function
  `Handle`. It takes the state and one update and returns an `Effect`: the new
  state, the messages sent and the city names looked up at the weather gateway.
  The lemmas state each routing rule and the properties that hold for every
  update.
- `broadcast.dfy` (module `Broadcast`): one round of the daily fan-out. The
  source iterates over a hash set, so the order is unspecified. A round is
  therefore characterised by `IsRound`: each chat receives at most one message,
  the recipients are exactly the subscribed chats that have a city, and each gets
  its daily message.
- `schedule.dfy` (module `Schedule`): the next-run computation at 21:00:00.
  Time is a count of `DateTime` ticks (100 ns).
- `bot.dfy` (module `Bot`): class `TelegramBot`. Its fields are the map and the
  set, plus two logs: `outbox` records every send and `lookups` records every
  gateway call. Its methods update the fields in place, as the source does.
  `HandleUpdate` is proved to match `Handle`. `BroadcastRound` is proved to send
  an `IsRound` batch.

The weather gateway (`WeatherService.GetWeather`) is a function parameter of
type `string -> string`. It is passed per update and per broadcast round, and it
is left unconstrained. The branches on an empty gateway result are kept exactly
as the code has them (TelegramBot.cs:76, :97, :187). Those checks suggest an
empty string was meant to signal failure, but the service never returns one: on
every failure it returns an error text (WeatherService.cs:33, :38, :43, :48). So
in the deployed program any non-blank text that is not a command is accepted,
and its trimmed form is stored as the chat's city (`Dispatch.CityAccepted`). The model
follows the code: it proves what each branch does and does not assume the
gateway ever returns "".

The subscription confirmation tells the user that messages arrive daily at 6:00
(TelegramBot.cs:117). The scheduler actually fires at 21:00:00
(TelegramBot.cs:176). The model reproduces both values as written.
`Bot.AnnouncedTimeIsNotFireTime` states the mismatch.

A callback query whose originating message is missing dereferences
`callbackQuery.Message` in every matching branch. The exception is swallowed at
TelegramBot.cs:127-130, so nothing happens. The model writes this as
`CallbackQuery(None, _)`, which has no effect.

## Model

| member | source | states |
|---|---|---|
| `Strings.IsNullOrWhiteSpace` | TelegramBot.cs:72 | `String.IsNullOrWhiteSpace` for the non-null text of a message; its definition is that every character is white space (so the empty text is blank), and the contract that ties it to `Trim` is `TrimEmptyIffBlank` |
| `Strings.StartsWith` | TelegramBot.cs:63-67 | the ordinal prefix test of the two command checks: when it holds, the text begins with the prefix |
| `Strings.Trim` | TelegramBot.cs:74 | `String.Trim`: never longer than its input; specified by `TrimSpec` and `TrimIdempotent` |
| `Strings.Contains` | TelegramBot.cs:203 | `String.Contains`: a contained pattern is no longer than the text; specified by `ContainsIffOccurs` |
| `Strings.IsWhiteSpace` | TelegramBot.cs:72-74 | the `Char.IsWhiteSpace` set behind `IsNullOrWhiteSpace` and `Trim`: U+0009..U+000D, U+0020, U+0085, U+00A0, U+1680, U+2000..U+200A, U+2028, U+2029, U+202F, U+205F and U+3000; every one lies at or below U+3000, inside the Basic Multilingual Plane |
| `Strings.LeadingWhiteSpace` | TelegramBot.cs:74 | the number of leading characters `Trim` drops: all of them are white space, and the next character, if there is one, is not |
| `Strings.TrailingWhiteSpace` | TelegramBot.cs:74 | the same for the trailing characters |
| `Strings.TrimKeepsMiddle` | TelegramBot.cs:74 | `Trim(s)` is a contiguous part of `s`, and everything it drops is white space |
| `Strings.TrimEnds` | TelegramBot.cs:74 | a non-empty trimmed text neither starts nor ends with white space |
| `Strings.TrimEmptyIffBlank` | TelegramBot.cs:72-74 | `Trim(s)` is empty exactly when `IsNullOrWhiteSpace(s)`, so a non-blank message always yields a non-empty city name |
| `Strings.TrimSpec` | TelegramBot.cs:74 | the three facts above together |
| `Strings.TrimIdempotent` | TelegramBot.cs:74 | trimming twice gives the same result as trimming once |
| `Strings.ContainsIffOccurs` | TelegramBot.cs:203 | `Contains(s, sub)` holds exactly when `sub` occurs in `s` at some position |
| `Strings.MissingCharNotContained` | TelegramBot.cs:203 | a pattern with a character the text lacks is not contained in it |
| `Advice.Recommendation` | TelegramBot.cs:201-223 | `GetWeatherRecommendation`: the result is one of the five advices; which one is specified by `RecommendationSpec` |
| `Messages.Text` | TelegramBot.cs:70-194 | the wording of every message the bot sends (lines 70, 79, 84, 100, 104, 109, 117, 123, 157, 168, 190, 194; the fixed texts through the helper `NoticeText`); no message text is empty |
| `Messages.Keyboard` | TelegramBot.cs:148-168 | the reply keyboard (lines 148-157) goes exactly with the city prompt, and the inline keyboard (lines 162-168) exactly with the options prompt; no other message carries markup |
| `Messages.Mode` | TelegramBot.cs:117-123 | exactly the subscribe and unsubscribe confirmations are sent with `ParseMode.Markdown` |
| `Messages.ConfirmationEmbedsCityAsMarkdown` | TelegramBot.cs:117 | the subscribe confirmation is Markdown-parsed, has no keyboard and contains the user-chosen city name verbatim |
| `Advice.RecommendationSpec` | TelegramBot.cs:201-223 | the advice is the one for the first keyword, in the order rain, clear, clouds, snow, that occurs in the text; the fallback is given exactly when no keyword occurs |
| `Advice.RainWins` | TelegramBot.cs:203-205 | a text containing "rain" gets the umbrella advice, whatever else it contains (for example "snow") |
| `Advice.NoKeywordFallback` | TelegramBot.cs:219-222 | a text containing none of the four keywords gets the generic advice |
| `Advice.SampleRain` | TelegramBot.cs:203-205 | "light rain" gets the umbrella advice |
| `Advice.SampleClear` | TelegramBot.cs:207-209 | "clear sky" gets the sunny-day advice |
| `Advice.SamplesWithoutKeyword` | TelegramBot.cs:203-222 | "foggy" gets the generic advice, and so does "Rain", because matching is case-sensitive |
| `Dispatch.Handle` | TelegramBot.cs:54-131 | `HandleUpdateAsync`: an update without a chat does nothing, and at most one lookup is made; specified by `OnlySenderAffected` and the routing lemmas below |
| `Dispatch.OnText` | TelegramBot.cs:58-88 | a text message never changes the subscription set and makes at most one lookup; specified by `CommandsKeepState`, `CityAccepted`, `CityRejected`, `BlankTextIgnored` and `OnTextConfined` |
| `Dispatch.OnCallback` | TelegramBot.cs:89-125 | a button press never changes the city map, sends at most one message and makes at most one lookup; specified by the `weather_now`, `subscribe` and `unsubscribe` lemmas and `OnCallbackConfined` |
| `Dispatch.CommandsKeepState` | TelegramBot.cs:63-71 | text starting with `/start` sends the city prompt; text starting with `/change_city` sends the prompt and then the instruction; neither changes any state or calls the gateway |
| `Dispatch.CityAccepted` | TelegramBot.cs:72-81 | a non-blank, non-command text whose trimmed form the gateway answers with a non-empty text becomes that chat's city, replacing any earlier one; other chats' cities and the subscription set are unchanged; exactly one lookup is made; the confirmation and then the options menu are sent |
| `Dispatch.CityRejected` | TelegramBot.cs:82-85 | when the gateway answers with an empty text, the state is unchanged and exactly one error message goes to that chat |
| `Dispatch.BlankTextIgnored` | TelegramBot.cs:72 | blank text that is not a command changes nothing, sends nothing and makes no lookup |
| `Dispatch.WeatherNowWithoutCity` | TelegramBot.cs:107-110 | `weather_now` from a chat with no city sends "choose a city first", makes no gateway call and changes nothing |
| `Dispatch.WeatherNowWithCity` | TelegramBot.cs:92-106 | `weather_now` from a chat with a city looks up that city once and sends exactly one message: the report followed by a newline and its advice, or the failure text; the state is unchanged |
| `Dispatch.SubscribeAdds` | TelegramBot.cs:112-119 | `subscribe` adds the chat to the set and changes no other membership; the city map is unchanged; a confirmation naming the city is sent only if the chat has one |
| `Dispatch.SubscribeIdempotent` | TelegramBot.cs:114 | subscribing twice leaves the same state as subscribing once |
| `Dispatch.UnsubscribeRemoves` | TelegramBot.cs:120-124 | `unsubscribe` removes the chat from the set and changes no other membership; the city map is unchanged; the confirmation is always sent |
| `Dispatch.UnsubscribeAbsentKeepsState` | TelegramBot.cs:122 | unsubscribing a chat that is not subscribed changes no state |
| `Dispatch.OtherCallbacksIgnored` | TelegramBot.cs:89-125 | callback data other than the three actions, or a callback without its message, does nothing at all |
| `Dispatch.OnTextConfined` | TelegramBot.cs:58-88 | a text message answers only its own chat, changes only its own chat's entries and makes at most one lookup |
| `Dispatch.OnCallbackConfined` | TelegramBot.cs:89-125 | the same for a callback |
| `Dispatch.OnlySenderAffected` | TelegramBot.cs:54-131 | for every update, only the sender is answered and only the sender's entries can change; an update without a chat does nothing |
| `Dispatch.CityMapChange` | TelegramBot.cs:72-78 | the only change any update makes to the city map is storing the trimmed text of a non-blank message under its chat |
| `Dispatch.CitiesNeverForgotten` | TelegramBot.cs:78 | no update removes a chat's city |
| `Dispatch.CitiesStayTrimmed` | TelegramBot.cs:74-78 | if every stored city is non-empty and trimmed, it stays so after any update |
| `Schedule.StartOfDay` | TelegramBot.cs:176 | `now.Date`: a whole number of days, at or before now and less than a day before it |
| `Schedule.TodayAtFireTime` | TelegramBot.cs:176 | 21:00:00 on the day of now |
| `Schedule.NextRunTime` | TelegramBot.cs:176-178 | the next run time is not before now and less than a day after it; specified by `FiresTodayIffNotPast`, `NextRunTimeIsFireInstant` and `NextRunTimeIsEarliest` |
| `Schedule.Delay` | TelegramBot.cs:179 | the sleep is never negative; specified by `DelayWithinOneDay` |
| `Schedule.ConstantsInHours` | TelegramBot.cs:176 | the tick constants stand for 24 hours and for 21:00:00, and the fire time falls within the day |
| `Schedule.TimeOfDay` | TelegramBot.cs:176 | the start of today is a whole day, at or before now, and less than a day before now |
| `Schedule.DelayWithinOneDay` | TelegramBot.cs:175-179 | the computed delay `nextRunTime - now` always lies in [0, 24 h) |
| `Schedule.FiresTodayIffNotPast` | TelegramBot.cs:176-178 | the next run is today's 21:00:00 exactly when now is at or before it (the comparison is strict `>`); past it, the next run is 24 h after today's fire time |
| `Schedule.NextRunTimeIsFireInstant` | TelegramBot.cs:176-178 | the next run time is not before now and falls at 21:00:00 |
| `Schedule.NextRunTimeIsEarliest` | TelegramBot.cs:175-179 | no 21:00:00 instant between now and the next run time is skipped |
| `Broadcast.DailyMessage` | TelegramBot.cs:186-195 | the daily message goes to the subscriber, and it is the failure text exactly when the gateway's answer is empty |
| `Broadcast.IsRound` | TelegramBot.cs:182-197 | what one round sends: every message goes to a chat that is subscribed and has a city; specified by `RoundReachesEligibleOnce` and `BroadcastRound` |
| `Broadcast.DistinctCount` | TelegramBot.cs:182 | in a batch with distinct recipients, each chat receives one message if it is a recipient and none otherwise |
| `Broadcast.RoundStep` | TelegramBot.cs:184-196 | visiting one more subscriber adds its daily message and its one lookup if it has a city, and nothing if it has none |
| `Broadcast.ProgressStart` | TelegramBot.cs:182 | before any subscriber is visited, nothing has been sent or looked up |
| `Broadcast.ProgressStep` | TelegramBot.cs:182-197 | one iteration of the loop over the subscriber set keeps the round's invariant |
| `Broadcast.ProgressEnd` | TelegramBot.cs:182-197 | once every subscriber is visited, the messages sent form a round |
| `Broadcast.RoundReachesEligibleOnce` | TelegramBot.cs:182-197 | a round sends exactly one message to each chat that is subscribed and has a city, and none to any other chat; that message is the daily report with its advice or the failure text |
| `Broadcast.CitylessSubscriberSkipped` | TelegramBot.cs:182-184 | a subscriber without a city receives nothing |
| `Broadcast.ChoosingCityJoinsNextRound` | TelegramBot.cs:182-190 | a subscriber that then picks a city the gateway accepts receives exactly one message in the next round, for that city |
| `Bot.TelegramBot.constructor` | TelegramBot.cs:19-20 | the bot starts with an empty city map, an empty subscription set and no sends or lookups |
| `Bot.TelegramBot.SendTextMessage` | TelegramBot.cs:70 | a send appends exactly one message to the outbox |
| `Bot.TelegramBot.SendCitySelectionMessage` | TelegramBot.cs:146-158 | appends the city prompt, and the message appended carries the city keyboard |
| `Bot.TelegramBot.ShowWeatherOptions` | TelegramBot.cs:160-169 | appends the options prompt, and the message appended carries the action keyboard |
| `Bot.TelegramBot.GetWeather` | TelegramBot.cs:75 | returns the gateway's answer for the city and logs exactly that one lookup |
| `Bot.TelegramBot.HandleUpdate` | TelegramBot.cs:54-131 | after an in-place update, the map and the set are the state `Handle` gives; the outbox and the lookup log are extended by exactly the sends and lookups `Handle` gives |
| `Bot.TelegramBot.BroadcastRound` | TelegramBot.cs:182-197 | the loop over the subscriber set keeps the earlier outbox, appends a batch that is a round for the current state, and logs the recipients' cities in the same order |
| `Bot.TelegramBot.SendDailyReport` | TelegramBot.cs:184-195 | for one subscriber with a city: one lookup, then the daily message for the gateway's answer |
| `Bot.TelegramBot.RunDailyIteration` | TelegramBot.cs:173-197 | one pass of the scheduler loop: the returned delay is that of the next-run computation and lies within a day; then a broadcast round |
| `Bot.AnnouncedTimeIsNotFireTime` | TelegramBot.cs:117 | the subscription confirmation announces 6:00, while no next run time computed at TelegramBot.cs:176-178 falls at 6:00 |

## Left out

- The Telegram client is not modelled: `TelegramBotClient`, `StartReceiving`, `HandleErrorAsync` and console logging. A send is an entry appended to `outbox`. A keyboard is a tag (`Markup`); its button labels and options are named in a comment only.
- `WeatherService.GetWeather` is not modelled. It does HTTP and JSON deserialisation through libraries outside the model. It is an unconstrained function argument. Within one update or one round the gateway is a single fixed function, so two subscribers with the same city get the same answer in a round. The real service sends independent requests.
- The floating-point temperature formatting (WeatherService.cs:28-30) is left out.
- `WeatherResponse.cs` and the response DTO classes are left out. They are data holders only.
- Asynchrony is left out: `Task.Delay`, the `while (!IsCancellationRequested)` loop and cancellation. This includes `Stop`, which cancels a fresh token that nothing listens to (TelegramBot.cs:48-52). `RunDailyIteration` models one pass of the loop, with the sleep reduced to returning its length.
- Concurrency between the dispatcher and the scheduler is left out. This includes the `InvalidOperationException` that the `foreach` over `subscribedUsers` raises if the set changes during a round.
- Failing sends are left out; every send is assumed to succeed. In the source, a send that throws abandons the rest of that update's handling, while a city already stored stays stored. In the scheduler, such an exception is not caught and ends the broadcast task. One such failure depends on the input: the subscription confirmation (TelegramBot.cs:117) is sent with Markdown parsing and contains the city (`Messages.ConfirmationEmbedsCityAsMarkdown`), so a city name with an unmatched `_`, `*`, `` ` `` or `[` makes Telegram reject it. The chat is then subscribed (TelegramBot.cs:114) without a confirmation, while the model always sends one.
- .NET strings are UTF-16 code-unit sequences, while a Dafny `string` holds Unicode scalar values, so text with unpaired surrogates is not represented. For well-formed text, `Trim`, `Contains` and the ordinal `StartsWith` give the same answers on either representation, because every white-space character lies in the Basic Multilingual Plane (`Strings.IsWhiteSpace` states it).
- `DateTime.Now` is not modelled. The current time is the parameter `now`, a tick count. Time zones, daylight-saving changes and the calendar's upper limit are not modelled. At the upper limit, `AddDays(1)` on 31 December 9999 would throw.
- `Strings.StartsWith`: models the source's culture-sensitive `String.StartsWith` (TelegramBot.cs:63, :67) as an ordinal prefix test; culture rules are not reproduced, and the two tests can differ in either direction.
- Update kinds other than messages and callback queries, and messages that are not text, are folded into `OtherUpdate` and `OtherMessage`. The source ignores them.
