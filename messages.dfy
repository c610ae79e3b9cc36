/**
 * The messages the bot sends. Each kind of reply is a tag; `Text` gives its
 * exact wording, `Keyboard` the markup attached to it and `Mode` its parse mode.
 */
module Messages {
  import opened Strings
  import opened Advice

  /** Telegram chat identifiers are 64-bit signed integers (`long`). */
  newtype ChatId = x: int | -0x8000_0000_0000_0000 <= x < 0x8000_0000_0000_0000

  datatype Reply =
    | CityPrompt                            // `SendCitySelectionMessage`
    | NewCityHint                           // the extra line after `/change_city`
    | CityChosen(city: string)
    | WeatherOptions                        // `ShowWeatherOptions`
    | NoSuchCity
    | Report(weather: string)               // the on-demand report with its advice
    | FetchFailed
    | ChooseCityFirst
    | Subscribed(city: string)
    | Unsubscribed
    | DailyReport(city: string, weather: string)
    | DailyFailed

  /** The keyboard attached to an outbound message. */
  datatype Markup = NoMarkup | CityKeyboard | OptionsKeyboard

  datatype ParseMode = Plain | Markdown

  /** One call of `SendTextMessageAsync`. */
  datatype Outbound = Outbound(chat: ChatId, reply: Reply)

  /** The replies whose wording is fixed. */
  predicate IsNotice(r: Reply) {
    !(r.CityChosen? || r.Report? || r.Subscribed? || r.DailyReport?)
  }

  /** The wording of a fixed reply. */
  function NoticeText(r: Reply): (t: string)
    requires IsNotice(r)
    ensures |t| > 0
  {
    match r
    case CityPrompt => "Оберіть запропоноване місто або введіть інше:"
    case NewCityHint => "Введіть нову назву міста або оберіть нижче."
    case WeatherOptions => "Оберіть опцію:"
    case NoSuchCity =>
      "Такого міста немає в моїй базі або ви припустили помилку при введенні. Спробуйте знову."
    case FetchFailed => "Сталася помилка при отриманні погоди. Спробуйте ще раз."
    case ChooseCityFirst => "Спочатку оберіть місто!"
    case Unsubscribed => "Ви відписались від розсилки"
    case DailyFailed => "Сталася помилка при отриманні погоди для розсилки. Спробуйте ще раз."
  }

  /** The text of a reply; none is empty. */
  function Text(r: Reply): (t: string)
    ensures |t| > 0
  {
    match r
    case CityChosen(city) => "Ви обрали місто: " + city + ". Для зміни міста використовуйте /change_city."
    case Report(weather) => weather + "\n" + Recommendation(weather)
    // announces 6:00, although the scheduler fires at 21:00
    case Subscribed(city) =>
      "Ви _підписались_ на розсилку прогнозу погоди міста " + city + ". Ви отримуватимете повідомлення щодня о 6:00"
    case DailyReport(city, weather) =>
      "Щоденний прогноз погоди міста " + city + ": " + weather + "\n" + Recommendation(weather)
    case _ => NoticeText(r)
  }

  /** The city prompt carries the one-time, resizing reply keyboard with the
      buttons Київ, Львів / Одеса, Харків; the options prompt carries the inline
      keyboard whose buttons send `weather_now`, `subscribe` and `unsubscribe`. */
  function Keyboard(r: Reply): (m: Markup)
    ensures m == CityKeyboard <==> r == CityPrompt
    ensures m == OptionsKeyboard <==> r == WeatherOptions
  {
    match r
    case CityPrompt => CityKeyboard
    case WeatherOptions => OptionsKeyboard
    case _ => NoMarkup
  }

  /** Only the two subscription confirmations are sent with Markdown parsing. */
  function Mode(r: Reply): (p: ParseMode)
    ensures p == Markdown <==> r.Subscribed? || r.Unsubscribed?
  {
    if r.Subscribed? || r.Unsubscribed? then Markdown else Plain
  }

  /** The subscription confirmation is Markdown-parsed, carries no keyboard and
      embeds the user-chosen city name verbatim, so Markdown control characters
      in the city reach Telegram's parser. */
  lemma ConfirmationEmbedsCityAsMarkdown(city: string)
    ensures Mode(Subscribed(city)) == Markdown && Keyboard(Subscribed(city)) == NoMarkup
    ensures Occurs(Text(Subscribed(city)), city)
  {
    var prefix := "Ви _підписались_ на розсилку прогнозу погоди міста ";
    var t := Text(Subscribed(city));
    assert t[|prefix|..][..|city|] == city;
  }
}
