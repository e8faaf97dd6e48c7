/** A client of the bot's contracts: one user's day, followed only through
    what the handlers promise. */
module Scenario {
  import opened Wrappers
  import opened Calendar
  import opened Zodiac
  import opened UserStore
  import opened Quota
  import opened Conversation
  import opened Payload
  import opened AstroBot

  /** The record `/start` leaves for `id`. */
  function Started(users: Users, id: int): UserRecord {
    if id in users then users[id] else UserRecord(id, Some(0), None)
  }

  /** `/start` and a sign picked from the keyboard. */
  method Begin(bot: Bot, id: int)
    requires bot.Valid()
    modifies bot
    ensures bot.Valid()
    ensures bot.users == old(bot.users)[id := Started(old(bot.users), id)]
    ensures bot.SessionOf(id).state == Some(ChoosingDate)
  {
    var _ := bot.CmdStart(id);
    LabelsDistinct(Aries, Aries);
    var _ := bot.ProcessChosenSign(id, Label(Aries));
  }

  /** Period and category, once a sign is stored. */
  method Finish(bot: Bot, id: int, today: Date, dateData: string, typeData: string) returns (reply: Reply)
    requires bot.Valid() && bot.SessionOf(id).state == Some(ChoosingDate)
    requires StartsWith(dateData, "date_") && StartsWith(typeData, "type_")
    modifies bot
    ensures bot.Valid()
    ensures id in old(bot.users)
    ensures var d := Check(old(bot.users)[id], today);
      && bot.users == old(bot.users)[id := d.record]
      && (d.outcome == LimitReached ==> reply == PaymentOptions && bot.SessionOf(id).state == Some(WaitingForPayment))
      && (d.outcome == Delivered ==> reply.HoroscopeMessage? && bot.SessionOf(id) == Cleared)
  {
    var _ := bot.ProcessChosenDate(id, dateData);
    reply := bot.ProcessChosenType(id, typeData, today);
  }

  /** Start, sign, period and category, as the dispatcher would call them. */
  method OneRound(bot: Bot, id: int, today: Date, dateData: string, typeData: string) returns (reply: Reply)
    requires bot.Valid()
    requires StartsWith(dateData, "date_") && StartsWith(typeData, "type_")
    modifies bot
    ensures bot.Valid()
    ensures var d := Check(Started(old(bot.users), id), today);
      && bot.users == old(bot.users)[id := d.record]
      && (d.outcome == LimitReached ==> reply == PaymentOptions && bot.SessionOf(id).state == Some(WaitingForPayment))
      && (d.outcome == Delivered ==> reply.HoroscopeMessage? && bot.SessionOf(id) == Cleared)
  {
    Begin(bot, id);
    ghost var u1 := bot.users;
    reply := Finish(bot, id, today, dateData, typeData);
    assert u1[id] == Started(old(bot.users), id);
    ghost var d := Check(u1[id], today);
    assert bot.users == u1[id := d.record] == old(bot.users)[id := d.record];
  }

  /** A new user's day: two free horoscopes, a third request that asks for
      payment without using one, and a confirmed payment that sets the counter
      back to 0 and keeps today's date. */
  method QuotaDay(today: Date) returns (first: Reply, second: Reply, third: Reply, payment: Reply, record: UserRecord)
    ensures first.HoroscopeMessage? && second.HoroscopeMessage?
    ensures third == PaymentOptions && payment == PaymentConfirmed
    ensures record == UserRecord(7, Some(0), Some(today))
  {
    var bot := new Bot("astro_bot", map[]);
    var id := 7;
    var day, kind := "date_today", "type_love";
    assert StartsWith(day, "date_") && StartsWith(kind, "type_");
    first := OneRound(bot, id, today, day, kind);
    assert bot.users[id] == UserRecord(id, Some(1), Some(today));
    second := OneRound(bot, id, today, day, kind);
    assert bot.users[id] == UserRecord(id, Some(2), Some(today));
    third := OneRound(bot, id, today, day, kind);
    assert third == PaymentOptions && bot.SessionOf(id).state == Some(WaitingForPayment);
    assert bot.users[id] == UserRecord(id, Some(2), Some(today));
    payment := bot.CheckPayment(id, true);
    record := bot.users[id];
    assert record == UserRecord(id, Some(0), Some(today));
    assert bot.SessionOf(id).state == Some(ChoosingSign);
  }
}
