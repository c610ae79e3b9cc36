/**
 * One round of the daily broadcast: which chats receive a message and what it
 * says. The source iterates over the subscription set in an unspecified order,
 * so a round is characterised by a predicate on the messages it sends rather
 * than by one sequence.
 */
module Broadcast {
  import opened Strings
  import opened Messages
  import opened Dispatch

  /** The message a subscriber with `city` gets when the gateway answers `weather`. */
  function DailyMessage(chat: ChatId, city: string, weather: string): (r: Outbound)
    ensures r.chat == chat && (r.reply.DailyFailed? <==> weather == "")
  {
    Outbound(chat, if weather != "" then DailyReport(city, weather) else DailyFailed)
  }

  /** The chats a round is meant for: subscribed and with a city. */
  function Eligible(s: BotState): set<ChatId> {
    s.subscribedUsers * s.userCities.Keys
  }

  ghost function Recipients(batch: seq<Outbound>): set<ChatId> {
    set i | 0 <= i < |batch| :: batch[i].chat
  }

  predicate DistinctRecipients(batch: seq<Outbound>) {
    forall i, j :: 0 <= i < j < |batch| ==> batch[i].chat != batch[j].chat
  }

  /** Number of messages in `batch` addressed to `c`. */
  function MessagesTo(batch: seq<Outbound>, c: ChatId): nat {
    if batch == [] then 0
    else (if batch[0].chat == c then 1 else 0) + MessagesTo(batch[1..], c)
  }

  /** Every message of the batch is the daily message for a chat with a city. */
  ghost predicate DailyMessages(batch: seq<Outbound>, s: BotState, weatherOf: Gateway) {
    forall i :: 0 <= i < |batch| ==>
      batch[i].chat in s.userCities
      && batch[i] == DailyMessage(batch[i].chat, s.userCities[batch[i].chat],
                                  weatherOf(s.userCities[batch[i].chat]))
  }

  /** `batch` is what one round sends from state `s`, in some order. */
  ghost predicate IsRound(batch: seq<Outbound>, s: BotState, weatherOf: Gateway)
    ensures IsRound(batch, s, weatherOf) ==> forall i :: 0 <= i < |batch| ==> batch[i].chat in Eligible(s)
  {
    DistinctRecipients(batch) && Recipients(batch) == Eligible(s) && DailyMessages(batch, s, weatherOf)
  }

  /** `batch` is what a round has sent after visiting the subscribers in `visited`. */
  ghost predicate RoundSoFar(batch: seq<Outbound>, s: BotState, weatherOf: Gateway, visited: set<ChatId>) {
    DistinctRecipients(batch) && Recipients(batch) == visited * s.userCities.Keys
    && DailyMessages(batch, s, weatherOf)
  }

  /** The cities a round looks up, in the order of its messages. */
  function RoundLookups(batch: seq<Outbound>, cities: map<ChatId, string>): seq<string>
    requires forall i :: 0 <= i < |batch| ==> batch[i].chat in cities
  {
    if batch == [] then []
    else RoundLookups(batch[..|batch| - 1], cities) + [cities[batch[|batch| - 1].chat]]
  }

  /** Visiting one more subscriber: a chat with a city gets its daily message
      and one lookup of its city; a chat without one is skipped. */
  lemma RoundStep(batch: seq<Outbound>, s: BotState, weatherOf: Gateway, visited: set<ChatId>, c: ChatId)
    requires RoundSoFar(batch, s, weatherOf, visited) && c !in visited
    ensures c !in s.userCities ==> RoundSoFar(batch, s, weatherOf, visited + {c})
    ensures c in s.userCities ==>
      var m := DailyMessage(c, s.userCities[c], weatherOf(s.userCities[c]));
      RoundSoFar(batch + [m], s, weatherOf, visited + {c})
      && RoundLookups(batch + [m], s.userCities) == RoundLookups(batch, s.userCities) + [s.userCities[c]]
  {
    if c in s.userCities {
      var m := DailyMessage(c, s.userCities[c], weatherOf(s.userCities[c]));
      var b := batch + [m];
      assert b[..|b| - 1] == batch;
      forall x | x in Recipients(b) ensures x in Recipients(batch) + {c} {
        var i :| 0 <= i < |b| && b[i].chat == x;
        if i < |batch| { assert b[i] == batch[i]; }
      }
      forall x | x in Recipients(batch) ensures x in Recipients(b) {
        var i :| 0 <= i < |batch| && batch[i].chat == x;
        assert b[i] == batch[i];
      }
      assert b[|batch|] == m;
      assert Recipients(b) == Recipients(batch) + {c};
      forall i, j | 0 <= i < j < |b| ensures b[i].chat != b[j].chat {
        if j == |batch| { assert b[i] == batch[i]; assert batch[i].chat in Recipients(batch); }
      }
    }
  }

  /** A round that still has `pending` subscribers to visit has sent `batch` and
      looked up `done`. */
  ghost predicate Progress(s: BotState, weatherOf: Gateway, pending: set<ChatId>,
                           batch: seq<Outbound>, done: seq<string>) {
    pending <= s.subscribedUsers
    && RoundSoFar(batch, s, weatherOf, s.subscribedUsers - pending)
    && done == RoundLookups(batch, s.userCities)
  }

  lemma ProgressStart(s: BotState, weatherOf: Gateway)
    ensures Progress(s, weatherOf, s.subscribedUsers, [], [])
  {
    assert Recipients([]) == {};
  }

  lemma ProgressStep(s: BotState, weatherOf: Gateway, pending: set<ChatId>,
                     batch: seq<Outbound>, done: seq<string>, c: ChatId)
    requires Progress(s, weatherOf, pending, batch, done) && c in pending
    ensures c !in s.userCities ==> Progress(s, weatherOf, pending - {c}, batch, done)
    ensures c in s.userCities ==>
      var city := s.userCities[c];
      Progress(s, weatherOf, pending - {c}, batch + [DailyMessage(c, city, weatherOf(city))], done + [city])
  {
    RoundStep(batch, s, weatherOf, s.subscribedUsers - pending, c);
    assert s.subscribedUsers - (pending - {c}) == (s.subscribedUsers - pending) + {c};
  }

  lemma ProgressEnd(s: BotState, weatherOf: Gateway, batch: seq<Outbound>, done: seq<string>)
    requires Progress(s, weatherOf, {}, batch, done)
    ensures IsRound(batch, s, weatherOf) && done == RoundLookups(batch, s.userCities)
  {
    assert s.subscribedUsers - {} == s.subscribedUsers;
  }

  lemma {:induction false} DistinctCount(batch: seq<Outbound>, c: ChatId)
    requires DistinctRecipients(batch)
    ensures MessagesTo(batch, c) == if c in Recipients(batch) then 1 else 0
  {
    if batch != [] {
      var rest := batch[1..];
      assert DistinctRecipients(rest) by {
        forall i, j | 0 <= i < j < |rest| ensures rest[i].chat != rest[j].chat {
          assert rest[i] == batch[i + 1] && rest[j] == batch[j + 1];
        }
      }
      DistinctCount(rest, c);
      assert Recipients(batch) == {batch[0].chat} + Recipients(rest) by {
        forall x | x in Recipients(batch) ensures x in {batch[0].chat} + Recipients(rest) {
          var i :| 0 <= i < |batch| && batch[i].chat == x;
          if i > 0 { assert rest[i - 1] == batch[i]; }
        }
        forall x | x in Recipients(rest) ensures x in Recipients(batch) {
          var i :| 0 <= i < |rest| && rest[i].chat == x;
          assert batch[i + 1] == rest[i];
        }
      }
      forall i | 0 <= i < |rest| ensures rest[i].chat != batch[0].chat {
        assert rest[i] == batch[i + 1];
      }
    }
  }

  /** A round sends exactly one message to each subscribed chat with a city,
      none to any other chat, and that message is the chat's daily message. */
  lemma RoundReachesEligibleOnce(batch: seq<Outbound>, s: BotState, weatherOf: Gateway, c: ChatId)
    requires IsRound(batch, s, weatherOf)
    ensures MessagesTo(batch, c) == if c in s.subscribedUsers && c in s.userCities then 1 else 0
    ensures forall i :: 0 <= i < |batch| && batch[i].chat == c ==>
              c in s.userCities && batch[i] == DailyMessage(c, s.userCities[c], weatherOf(s.userCities[c]))
  {
    DistinctCount(batch, c);
  }

  /** A subscriber without a city gets nothing in a round. */
  lemma CitylessSubscriberSkipped(batch: seq<Outbound>, s: BotState, weatherOf: Gateway, c: ChatId)
    requires IsRound(batch, s, weatherOf) && c in s.subscribedUsers && c !in s.userCities
    ensures MessagesTo(batch, c) == 0
  {
    RoundReachesEligibleOnce(batch, s, weatherOf, c);
  }

  /** A subscriber that then picks a city the gateway knows gets exactly one
      message in the next round, naming that city. */
  lemma ChoosingCityJoinsNextRound(s: BotState, chat: ChatId, text: string, weatherOf: Gateway,
                                   batch: seq<Outbound>, later: Gateway)
    requires chat in s.subscribedUsers
    requires !IsCommand(text) && !IsNullOrWhiteSpace(text) && weatherOf(Trim(text)) != ""
    requires IsRound(batch, Handle(s, TextMessage(chat, text), weatherOf).state, later)
    ensures MessagesTo(batch, chat) == 1
    ensures forall i :: 0 <= i < |batch| && batch[i].chat == chat ==>
              batch[i] == DailyMessage(chat, Trim(text), later(Trim(text)))
  {
    CityAccepted(s, chat, text, weatherOf);
    RoundReachesEligibleOnce(batch, Handle(s, TextMessage(chat, text), weatherOf).state, later, chat);
  }
}
