/**
 * The bot object: the per-chat city dictionary and the subscriber set it
 * updates in place, with the messages it hands to the Telegram client and the
 * gateway lookups it makes recorded as logs.
 */
module Bot {
  import opened Strings
  import opened Messages
  import opened Schedule
  import opened Dispatch
  import opened Broadcast

  class TelegramBot {
    var userCities: map<ChatId, string>
    var subscribedUsers: set<ChatId>
    /** Every message sent so far, in order. */
    var outbox: seq<Outbound>
    /** Every city name passed to the weather gateway so far, in order. */
    var lookups: seq<string>

    constructor ()
      ensures userCities == map[] && subscribedUsers == {}
      ensures outbox == [] && lookups == []
    {
      userCities, subscribedUsers := map[], {};
      outbox, lookups := [], [];
    }

    function State(): BotState
      reads this`userCities, this`subscribedUsers
    {
      BotState(userCities, subscribedUsers)
    }

    /** `SendTextMessageAsync(chat, Text(reply), …)`. The outbox records the reply
        tag; its keyboard and parse mode are functions of that tag, given by
        `Keyboard` and `Mode`. */
    method SendTextMessage(chat: ChatId, reply: Reply)
      modifies this`outbox
      ensures outbox == old(outbox) + [Outbound(chat, reply)]
    {
      outbox := outbox + [Outbound(chat, reply)];
    }

    method SendCitySelectionMessage(chat: ChatId)
      modifies this`outbox
      ensures outbox == old(outbox) + [Outbound(chat, CityPrompt)]
      ensures Keyboard(outbox[|outbox| - 1].reply) == CityKeyboard
    {
      SendTextMessage(chat, CityPrompt);
    }

    method ShowWeatherOptions(chat: ChatId)
      modifies this`outbox
      ensures outbox == old(outbox) + [Outbound(chat, WeatherOptions)]
      ensures Keyboard(outbox[|outbox| - 1].reply) == OptionsKeyboard
    {
      SendTextMessage(chat, WeatherOptions);
    }

    /** `weatherService.GetWeather(city)`. */
    method GetWeather(city: string, weatherOf: Gateway) returns (weather: string)
      modifies this`lookups
      ensures weather == weatherOf(city) && lookups == old(lookups) + [city]
    {
      lookups := lookups + [city];
      weather := weatherOf(city);
    }

    /** `HandleUpdateAsync`: the new state, the messages sent and the lookups made
        are those `Handle` gives for the old state. */
    method HandleUpdate(u: Update, weatherOf: Gateway)
      modifies this
      ensures var e := Handle(old(State()), u, weatherOf);
        State() == e.state && outbox == old(outbox) + e.sent && lookups == old(lookups) + e.lookups
    {
      match u
      case TextMessage(chat, text) =>
        if StartsWith(text, "/start") {
          SendCitySelectionMessage(chat);
        } else if StartsWith(text, "/change_city") {
          SendCitySelectionMessage(chat);
          SendTextMessage(chat, NewCityHint);
        } else if !IsNullOrWhiteSpace(text) {
          var city := Trim(text);
          var weather := GetWeather(city, weatherOf);
          if weather != "" {
            userCities := userCities[chat := city];
            SendTextMessage(chat, CityChosen(city));
            ShowWeatherOptions(chat);
          } else {
            SendTextMessage(chat, NoSuchCity);
          }
        }
      case OtherMessage(_) =>
      case CallbackQuery(origin, data) =>
        if origin.Some? {
          var chat := origin.value;
          if data == Some("weather_now") {
            if chat in userCities {
              var city := userCities[chat];
              var weather := GetWeather(city, weatherOf);
              if weather != "" {
                SendTextMessage(chat, Report(weather));
              } else {
                SendTextMessage(chat, FetchFailed);
              }
            } else {
              SendTextMessage(chat, ChooseCityFirst);
            }
          } else if data == Some("subscribe") {
            subscribedUsers := subscribedUsers + {chat};
            if chat in userCities {
              SendTextMessage(chat, Subscribed(userCities[chat]));
            }
          } else if data == Some("unsubscribe") {
            subscribedUsers := subscribedUsers - {chat};
            SendTextMessage(chat, Unsubscribed);
          }
        }
      case OtherUpdate =>
    }

    /** The `foreach` over the subscribers in `ScheduleDailyWeatherReports`: the
        messages appended form a round for the current state, and the lookups
        appended are the recipients' cities in the same order. */
    method BroadcastRound(weatherOf: Gateway)
      modifies this`outbox, this`lookups
      ensures |old(outbox)| <= |outbox| && outbox[..|old(outbox)|] == old(outbox)
      ensures IsRound(outbox[|old(outbox)|..], State(), weatherOf)
      ensures lookups == old(lookups) + RoundLookups(outbox[|old(outbox)|..], userCities)
    {
      var pending := subscribedUsers;
      ghost var batch: seq<Outbound>, done: seq<string> := [], [];
      ProgressStart(State(), weatherOf);
      while pending != {}
        invariant outbox == old(outbox) + batch
        invariant lookups == old(lookups) + done
        invariant Progress(State(), weatherOf, pending, batch, done)
        decreases pending
      {
        var userId :| userId in pending;
        ProgressStep(State(), weatherOf, pending, batch, done, userId);
        pending := pending - {userId};
        if userId in userCities {
          var city := userCities[userId];
          SendDailyReport(userId, city, weatherOf);
          batch, done := batch + [DailyMessage(userId, city, weatherOf(city))], done + [city];
        }
      }
      ProgressEnd(State(), weatherOf, batch, done);
      assert outbox[|old(outbox)|..] == batch;
    }

    /** The body of the broadcast loop for one subscriber with a city: one
        lookup, then the report or the failure text. */
    method SendDailyReport(userId: ChatId, city: string, weatherOf: Gateway)
      modifies this`outbox, this`lookups
      ensures outbox == old(outbox) + [DailyMessage(userId, city, weatherOf(city))]
      ensures lookups == old(lookups) + [city]
    {
      var weather := GetWeather(city, weatherOf);
      if weather != "" {
        SendTextMessage(userId, DailyReport(city, weather));
      } else {
        SendTextMessage(userId, DailyFailed);
      }
    }

    /** One pass of the `ScheduleDailyWeatherReports` loop at local time `now`:
        the sleep until the next 21:00:00, then a broadcast round. */
    method RunDailyIteration(now: nat, weatherOf: Gateway) returns (delay: int)
      modifies this`outbox, this`lookups
      ensures delay == Delay(now) && 0 <= delay < TicksPerDay
      ensures |old(outbox)| <= |outbox| && outbox[..|old(outbox)|] == old(outbox)
      ensures IsRound(outbox[|old(outbox)|..], State(), weatherOf)
      ensures lookups == old(lookups) + RoundLookups(outbox[|old(outbox)|..], userCities)
    {
      var nextRunTime := TodayAtFireTime(now);
      if now > nextRunTime {
        nextRunTime := nextRunTime + TicksPerDay;
      }
      delay := nextRunTime - now;
      DelayWithinOneDay(now);
      BroadcastRound(weatherOf);
    }
  }

  /** The subscription confirmation announces delivery at 6:00, while the
      scheduler fires at 21:00:00; the two disagree for every city. */
  lemma AnnouncedTimeIsNotFireTime(city: string)
    ensures Occurs(Text(Subscribed(city)), "о 6:00")
    ensures forall now: nat :: NextRunTime(now) % TicksPerDay != 6 * 3600 * TicksPerSecond
  {
    var t := Text(Subscribed(city));
    assert "о 6:00" <= t[|t| - 6..];
    forall now: nat ensures NextRunTime(now) % TicksPerDay != 6 * 3600 * TicksPerSecond {
      NextRunTimeIsFireInstant(now);
    }
  }
}
