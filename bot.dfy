/** The bot: per-user sessions and the users collection, changed in place by
    one handler per kind of event. The current date and the payment gateway's
    answer are passed in. */
module AstroBot {
  import opened Wrappers
  import opened Calendar
  import opened Zodiac
  import opened BirthDate
  import opened Payload
  import opened Horoscope
  import opened UserStore
  import opened Quota
  import opened Conversation

  class Bot {
    /** The bot's Telegram user name, which a `/start@name` mention must match. */
    const botName: string
    /** Session storage, keyed by user id; a missing key is an idle, empty session. */
    var sessions: map<int, Session>
    /** The users collection, keyed by `user_id`. */
    var users: Users

    ghost predicate Valid()
      reads this
    {
      Consistent(sessions, users)
    }

    /** A bot process starting up: the in-memory session storage is empty,
        while the users collection keeps whatever earlier runs stored. */
    constructor (name: string, stored: Users)
      requires forall id :: id in stored ==> RecordOk(id, stored[id])
      ensures Valid()
      ensures botName == name && sessions == map[] && users == stored
    {
      botName := name;
      sessions := map[];
      users := stored;
    }

    /** The session of `id`, idle and empty when none was stored. */
    function SessionOf(id: int): (s: Session)
      reads this
      ensures id !in sessions ==> s == Cleared
    {
      if id in sessions then sessions[id] else Cleared
    }

    /** `update_user_data`: merge-upsert of the user's document. */
    method UpdateUserData(id: int, p: Patch)
      modifies this
      ensures users == Upsert(old(users), id, p)
      ensures sessions == old(sessions)
    {
      var doc := if id in users then Merge(users[id], p) else Inserted(id, p);
      users := users[id := doc];
    }

    /** `cmd_start`: creates `{user_id, daily_horoscopes_given: 0}` only for an
        unknown user, never touches an existing record, and always moves to
        choosing a sign, keeping the session data. */
    method CmdStart(id: int) returns (reply: Reply)
      requires Valid()
      modifies this
      ensures Valid()
      ensures users == if id in old(users) then old(users)
                       else old(users)[id := UserRecord(id, Some(0), None)]
      ensures sessions == old(sessions)[id := old(SessionOf(id)).(state := Some(ChoosingSign))]
      ensures reply == SignKeyboard
    {
      var found := Get(users, id);
      if found.None? {
        UpdateUserData(id, Patch(Some(id), Some(0), None));
        RecordUpdateConsistent(old(sessions), old(users), id, users[id]);
      }
      reply := SignKeyboard;
      var s := SessionOf(id);
      SessionUpdateConsistent(sessions, users, id, s.(state := Some(ChoosingSign)));
      sessions := sessions[id := s.(state := Some(ChoosingSign))];
    }

    /** `process_chosen_sign`: a listed sign is stored and the period comes
        next; the birth-date button asks for a date without storing a sign;
        any other text is refused and nothing changes. */
    method ProcessChosenSign(id: int, text: string) returns (reply: Reply)
      requires Valid() && SessionOf(id).state == Some(ChoosingSign)
      modifies this
      ensures Valid()
      ensures users == old(users)
      ensures text == ChooseOwnSign ==>
        sessions == old(sessions)[id := old(SessionOf(id)).(state := Some(WaitingForBirthDate))]
        && reply == BirthDatePrompt
      ensures text != ChooseOwnSign && text in SignLabels ==>
        sessions == old(sessions)[id := old(SessionOf(id)).(chosenSign := Some(text), state := Some(ChoosingDate))]
        && reply == PeriodKeyboard(text)
      ensures text != ChooseOwnSign && text !in SignLabels ==>
        sessions == old(sessions) && reply == PickFromKeyboard
    {
      var s := SessionOf(id);
      if text == ChooseOwnSign {
        reply := BirthDatePrompt;
        SessionUpdateConsistent(sessions, users, id, s.(state := Some(WaitingForBirthDate)));
        sessions := sessions[id := s.(state := Some(WaitingForBirthDate))];
        return;
      }
      if text !in SignLabels {
        reply := PickFromKeyboard;
        return;
      }
      reply := StoreSign(id, text);
    }

    /** The common tail of both ways of choosing a sign: the label is stored,
        the period keyboard is sent and the period comes next. */
    method StoreSign(id: int, sign: string) returns (reply: Reply)
      requires Valid() && id in users && sign in SignLabels
      modifies this
      ensures Valid()
      ensures users == old(users)
      ensures sessions == old(sessions)[id := old(SessionOf(id)).(chosenSign := Some(sign), state := Some(ChoosingDate))]
      ensures reply == PeriodKeyboard(sign)
    {
      var s := SessionOf(id);
      ghost var next := s.(chosenSign := Some(sign), state := Some(ChoosingDate));
      SessionUpdateConsistent(sessions, users, id, next);
      sessions := sessions[id := s.(chosenSign := Some(sign))];
      reply := PeriodKeyboard(sign);
      sessions := sessions[id := sessions[id].(state := Some(ChoosingDate))];
      assert sessions == old(sessions)[id := next];
    }

    /** `process_birth_date`: a malformed text or an impossible date gets its
        own hint and changes nothing; a real date stores the sign of its day
        and month, always one of the twelve, and the period comes next. */
    method ProcessBirthDate(id: int, text: string) returns (reply: Reply)
      requires Valid() && SessionOf(id).state == Some(WaitingForBirthDate)
      modifies this
      ensures Valid()
      ensures users == old(users)
      ensures ParseBirthDate(text) == Failure(InvalidFormat) ==>
        sessions == old(sessions) && reply == FormatHint
      ensures ParseBirthDate(text) == Failure(InvalidCalendarDate) ==>
        sessions == old(sessions) && reply == BadDate
      ensures ParseBirthDate(text).Success? ==>
        var d := ParseBirthDate(text).value;
        var sign := ZodiacSign(d.day, d.month);
        && sign in SignLabels
        && sessions == old(sessions)[id := old(SessionOf(id)).(chosenSign := Some(sign), state := Some(ChoosingDate))]
        && reply == PeriodKeyboard(sign)
    {
      var parsed := ParseBirthDate(text);
      match parsed
      case Failure(InvalidFormat) =>
        reply := FormatHint;
      case Failure(InvalidCalendarDate) =>
        reply := BadDate;
      case Success(d) =>
        var sign := ZodiacSign(d.day, d.month);
        ZodiacSignTotal(d.day, d.month);
        reply := StoreSign(id, sign);
    }

    /** `process_chosen_date`: stores the second `_`-separated field of the
        payload, unchecked, and the category comes next. */
    method ProcessChosenDate(id: int, data: string) returns (reply: Reply)
      requires Valid() && SessionOf(id).state == Some(ChoosingDate) && StartsWith(data, "date_")
      modifies this
      ensures Valid()
      ensures users == old(users)
      ensures '_' in data
      ensures sessions == old(sessions)[id := old(SessionOf(id)).(chosenDate := Some(SecondField(data)), state := Some(ChoosingType))]
      ensures reply == CategoryKeyboard(SecondField(data))
    {
      assert data[4] == "date_"[4];
      var period := SecondField(data);
      var s := SessionOf(id);
      ghost var next := s.(chosenDate := Some(period), state := Some(ChoosingType));
      SessionUpdateConsistent(sessions, users, id, next);
      sessions := sessions[id := s.(chosenDate := Some(period))];
      reply := CategoryKeyboard(period);
      sessions := sessions[id := sessions[id].(state := Some(ChoosingType))];
      assert sessions == old(sessions)[id := next];
    }

    /** `process_chosen_type`: reads the record, resets the counter on a new
        day (persisting the reset), then either sends the payment options
        without using a horoscope, or gives the horoscope, counts it, stamps
        today's date and clears the session. The final record is exactly the
        one `Check` describes. */
    method ProcessChosenType(id: int, data: string, today: Date) returns (reply: Reply)
      requires Valid() && SessionOf(id).state == Some(ChoosingType) && StartsWith(data, "type_")
      modifies this
      ensures Valid()
      ensures id in old(users) && '_' in data
      ensures var d := Check(old(users)[id], today);
        && users == old(users)[id := d.record]
        && (d.outcome == LimitReached ==>
              sessions == old(sessions)[id := old(SessionOf(id)).(state := Some(WaitingForPayment))]
              && reply == PaymentOptions)
        && (d.outcome == Delivered ==>
              sessions == old(sessions)[id := Cleared]
              && reply == HoroscopeMessage(GenerateHoroscope(old(SessionOf(id)).chosenSign,
                                                             old(SessionOf(id)).chosenDate,
                                                             SecondField(data))))
    {
      assert data[4] == "type_"[4];
      var category := SecondField(data);
      var s := SessionOf(id);
      var found := Get(users, id);
      var r := found.value;
      CheckKeepsRange(r, today);
      LimitReachedExactly(r, today);
      var given := r.dailyGiven.GetOr(0);
      var last := r.lastDate;
      if last.Some? && Before(last.value, today) {
        given := 0;
        UpdateUserData(id, ResetPatch(today));
      }
      if given >= FreeLimit {
        reply := PaymentOptions;
        SessionUpdateConsistent(sessions, users, id, s.(state := Some(WaitingForPayment)));
        sessions := sessions[id := s.(state := Some(WaitingForPayment))];
        return;
      }
      var text := GenerateHoroscope(s.chosenSign, s.chosenDate, category);
      UpdateUserData(id, DeliveryPatch(given, today));
      UpsertTwice(old(users), id, ResetPatch(today), DeliveryPatch(given, today));
      assert users == old(users)[id := Check(r, today).record];
      RecordUpdateConsistent(old(sessions), old(users), id, Check(r, today).record);
      SessionUpdateConsistent(old(sessions), users, id, Cleared);
      reply := HoroscopeMessage(text);
      sessions := sessions[id := Cleared];
    }

    /** `check_payment`: on the gateway's success the counter is set to 0 (a
        full reset, the date untouched) and the sign comes next; on failure
        nothing changes. */
    method CheckPayment(id: int, paid: bool) returns (reply: Reply)
      requires Valid() && SessionOf(id).state == Some(WaitingForPayment)
      modifies this
      ensures Valid()
      ensures id in old(users)
      ensures paid ==>
        users == old(users)[id := Paid(old(users)[id])]
        && sessions == old(sessions)[id := old(SessionOf(id)).(state := Some(ChoosingSign))]
        && reply == PaymentConfirmed
      ensures !paid ==> users == old(users) && sessions == old(sessions) && reply == PaymentNotFound
    {
      if paid {
        UpdateUserData(id, PaidPatch);
        RecordUpdateConsistent(old(sessions), old(users), id, users[id]);
        reply := PaymentConfirmed;
        var s := SessionOf(id);
        SessionUpdateConsistent(sessions, users, id, s.(state := Some(ChoosingSign)));
        sessions := sessions[id := s.(state := Some(ChoosingSign))];
      } else {
        reply := PaymentNotFound;
      }
    }

    /** `start_over`: from any state, clears the state and the data; the
        record is untouched. */
    method StartOver(id: int) returns (reply: Reply)
      requires Valid()
      modifies this
      ensures Valid()
      ensures users == old(users)
      ensures sessions == old(sessions)[id := Cleared]
      ensures reply == BackToMenu
    {
      SessionUpdateConsistent(sessions, users, id, Cleared);
      sessions := sessions[id := Cleared];
      reply := BackToMenu;
    }

    /** One inbound event of user `id`: the dispatcher hands it to the handler
        `Route` picks. An event no handler accepts changes nothing; any event
        touches only its own user's session and record, and records are never
        removed. */
    method Handle(id: int, ev: Event, today: Date, paid: bool) returns (reply: Reply)
      requires Valid()
      modifies this
      ensures Valid()
      ensures Route(old(SessionOf(id)).state, ev, botName) == Unhandled ==>
        sessions == old(sessions) && users == old(users) && reply == NoReply
      ensures sessions - {id} == old(sessions) - {id}
      ensures users - {id} == old(users) - {id}
      ensures old(users).Keys <= users.Keys
    {
      var h := Route(SessionOf(id).state, ev, botName);
      ghost var s0, u0 := sessions, users;
      match h
      case CmdStart =>
        reply := CmdStart(id);
        UpdateIsLocal(s0, id, sessions[id]);
        UpdateIsLocal(u0, id, users[id]);
      case ProcessChosenSign =>
        reply := ProcessChosenSign(id, ev.text.value);
        UpdateIsLocal(s0, id, sessions[id]);
      case ProcessBirthDate =>
        reply := ProcessBirthDate(id, ev.text.value);
        UpdateIsLocal(s0, id, sessions[id]);
      case ProcessChosenDate =>
        reply := ProcessChosenDate(id, ev.data);
        UpdateIsLocal(s0, id, sessions[id]);
      case ProcessChosenType =>
        reply := ProcessChosenType(id, ev.data, today);
        UpdateIsLocal(s0, id, sessions[id]);
        UpdateIsLocal(u0, id, users[id]);
      case CheckPayment =>
        reply := CheckPayment(id, paid);
        UpdateIsLocal(s0, id, sessions[id]);
        UpdateIsLocal(u0, id, users[id]);
      case StartOver =>
        reply := StartOver(id);
        UpdateIsLocal(s0, id, sessions[id]);
      case Unhandled =>
        reply := NoReply;
    }
  }
}
