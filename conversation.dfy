/** The conversation states, the per-user session, inbound events, the
    outbound replies, and which handler the dispatcher gives an event to. */
module Conversation {
  import opened Wrappers
  import opened Zodiac
  import opened UserStore
  import opened Payload
  import opened Quota

  /** `UserState`; a session with no state (`None`) is idle. */
  datatype UserState =
    | ChoosingSign
    | ChoosingDate
    | ChoosingType
    | WaitingForPayment
    | WaitingForAdsgramPayment
    | WaitingForTonPayment
    | WaitingForBirthDate

  /** The session storage of one user: the state and the scratch data. */
  datatype Session = Session(state: Option<UserState>, chosenSign: Option<string>, chosenDate: Option<string>)

  /** What `state.clear()` leaves: no state, no data. */
  const Cleared: Session := Session(None, None, None)

  /** A message (its text, absent for stickers, photos and the like) or a
      button press carrying its callback payload. */
  datatype Event = Message(text: Option<string>) | Callback(data: string)

  /** What the bot sends back, as a kind of message. */
  datatype Reply =
    | NoReply
    | SignKeyboard          // greeting or menu with the twelve signs
    | BirthDatePrompt       // asks for DD.MM.YYYY
    | PickFromKeyboard      // typed text is not a sign
    | FormatHint            // birth date not in the expected format
    | BadDate               // no such calendar date
    | PeriodKeyboard(sign: string)
    | CategoryKeyboard(period: string)
    | PaymentOptions        // free quota used up
    | HoroscopeMessage(text: string)
    | PaymentConfirmed
    | PaymentNotFound
    | BackToMenu            // after "start_over"

  datatype Handler =
    | CmdStart
    | ProcessChosenSign
    | ProcessBirthDate
    | ProcessChosenDate
    | ProcessChosenType
    | CheckPayment
    | StartOver
    | Unhandled

  /** The whitespace Python's `str.split()` splits on (`str.isspace`): the
      ASCII controls 9–13 and 28–31, the space, U+0085, U+00A0, and the
      Unicode space and line/paragraph separators. */
  predicate IsSpace(c: char) {
    || '\U{9}' <= c <= '\U{D}'
    || '\U{1C}' <= c <= ' '
    || c == '\U{85}' || c == '\U{A0}' || c == '\U{1680}'
    || '\U{2000}' <= c <= '\U{200A}'
    || c == '\U{2028}' || c == '\U{2029}' || c == '\U{202F}' || c == '\U{205F}' || c == '\U{3000}'
  }

  /** `text.split(maxsplit=1)[0]`, or empty when the text is all whitespace. */
  function FirstWord(text: string): (w: string)
    ensures forall i :: 0 <= i < |w| ==> !IsSpace(w[i])
    decreases |text|
  {
    if |text| == 0 then ""
    else if IsSpace(text[0]) then FirstWord(text[1..])
    else WordPrefix(text)
  }

  /** The longest prefix without whitespace. */
  function WordPrefix(text: string): (w: string)
    ensures forall i :: 0 <= i < |w| ==> !IsSpace(w[i])
    ensures w <= text
    decreases |text|
  {
    if |text| == 0 || IsSpace(text[0]) then "" else [text[0]] + WordPrefix(text[1..])
  }

  function AsciiLower(s: string): string {
    if |s| == 0 then ""
    else [if 'A' <= s[0] <= 'Z' then (s[0] as int + 32) as char else s[0]] + AsciiLower(s[1..])
  }

  /** The `Command("start")` filter: the first word is `/start`, optionally
      followed by `@` and either nothing or the bot's user name in any case. */
  predicate IsStartCommand(text: string, botName: string)
    ensures IsStartCommand(text, botName) ==>
      var w := FirstWord(text); StartsWith(w, "/start") && (|w| == 6 || w[6] == '@')
  {
    var w := FirstWord(text);
    assert StartsWith(w, "/start@") ==> w[..6] == w[..7][..6];
    w == "/start"
    || (StartsWith(w, "/start@") && (|w| == 7 || AsciiLower(w[7..]) == AsciiLower(botName)))
  }

  /** The `F.text` filter: the message has a non-empty text. */
  predicate HasText(ev: Event) {
    ev.Message? && ev.text.Some? && ev.text.value != ""
  }

  /** The dispatcher: the first handler, in registration order, whose filters
      accept the event in the current state. Messages and callbacks go to
      separate handler lists. */
  function Route(state: Option<UserState>, ev: Event, botName: string): (h: Handler)
    ensures h == ProcessChosenSign ==> state == Some(ChoosingSign) && HasText(ev)
    ensures h == ProcessBirthDate ==> state == Some(WaitingForBirthDate) && HasText(ev)
    ensures h == ProcessChosenDate ==> state == Some(ChoosingDate) && ev.Callback? && StartsWith(ev.data, "date_")
    ensures h == ProcessChosenType ==> state == Some(ChoosingType) && ev.Callback? && StartsWith(ev.data, "type_")
    ensures h == CheckPayment ==> state == Some(WaitingForPayment) && ev == Callback("check_payment")
    ensures h == CmdStart ==> HasText(ev)
    ensures h == StartOver ==> ev == Callback("start_over")
  {
    match ev
    case Message(text) =>
      if text.Some? && text.value != "" && IsStartCommand(text.value, botName) then CmdStart
      else if HasText(ev) && state == Some(ChoosingSign) then ProcessChosenSign
      else if HasText(ev) && state == Some(WaitingForBirthDate) then ProcessBirthDate
      else Unhandled
    case Callback(data) =>
      if StartsWith(data, "date_") && state == Some(ChoosingDate) then ProcessChosenDate
      else if StartsWith(data, "type_") && state == Some(ChoosingType) then ProcessChosenType
      else if data == "check_payment" && state == Some(WaitingForPayment) then CheckPayment
      else if data == "start_over" then StartOver
      else Unhandled
  }

  /** Every callback filter is exclusive of the others, so the registration
      order does not matter for button presses, and each handler runs exactly
      when its own filters hold. */
  lemma CallbackRouting(state: Option<UserState>, data: string, botName: string)
    ensures var h := Route(state, Callback(data), botName);
      && (h == ProcessChosenDate <==> state == Some(ChoosingDate) && StartsWith(data, "date_"))
      && (h == ProcessChosenType <==> state == Some(ChoosingType) && StartsWith(data, "type_"))
      && (h == CheckPayment <==> state == Some(WaitingForPayment) && data == "check_payment")
      && (h == StartOver <==> data == "start_over")
  {
    if data == "start_over" || data == "check_payment" {
      assert data[..5][0] == data[0] && data[0] != 'd' && data[0] != 't';
      assert data[..5] != "date_" && data[..5] != "type_";
    }
  }

  /** The start command wins in every state; other text reaches the sign or
      birth-date step only in its state; nothing else is handled for a message. */
  lemma MessageRouting(state: Option<UserState>, text: string, botName: string)
    requires text != ""
    ensures var h := Route(state, Message(Some(text)), botName);
      && (h == CmdStart <==> IsStartCommand(text, botName))
      && (h == ProcessChosenSign <==> state == Some(ChoosingSign) && !IsStartCommand(text, botName))
      && (h == ProcessBirthDate <==> state == Some(WaitingForBirthDate) && !IsStartCommand(text, botName))
      && (h == Unhandled <==> !IsStartCommand(text, botName) && state != Some(ChoosingSign) && state != Some(WaitingForBirthDate))
  {
  }

  /** `/start` after any leading whitespace, alone or followed by whitespace
      and arguments, is the start command. */
  lemma StartCommandWithArguments(blanks: string, c: char, args: string, botName: string)
    requires forall i :: 0 <= i < |blanks| ==> IsSpace(blanks[i])
    requires IsSpace(c)
    ensures IsStartCommand(blanks + "/start", botName)
    ensures IsStartCommand(blanks + "/start" + [c] + args, botName)
  {
    WordPrefixStops("/start", c, args);
    WordPrefixWhole("/start");
    FirstWordSkipsBlanks(blanks, "/start");
    FirstWordSkipsBlanks(blanks, "/start" + [c] + args);
    assert blanks + "/start" + [c] + args == blanks + ("/start" + [c] + args);
  }

  lemma {:induction false} FirstWordSkipsBlanks(blanks: string, t: string)
    requires forall i :: 0 <= i < |blanks| ==> IsSpace(blanks[i])
    requires |t| > 0 && !IsSpace(t[0])
    ensures FirstWord(blanks + t) == WordPrefix(t)
    decreases |blanks|
  {
    if |blanks| == 0 {
      assert blanks + t == t;
    } else {
      assert (blanks + t)[1..] == blanks[1..] + t;
      FirstWordSkipsBlanks(blanks[1..], t);
    }
  }

  /** The ASCII unit separator ends the command word, as `str.split()` has it. */
  lemma StartThenUnitSeparator(t: string, botName: string)
    requires t == "/start\U{1F}"
    ensures IsStartCommand(t, botName)
  {
    assert t == "" + "/start" + ['\U{1F}'] + "";
    StartCommandWithArguments("", '\U{1F}', "", botName);
  }

  /** A longer word is a different command. */
  lemma NotStartCommand(botName: string)
    ensures !IsStartCommand("/starting", botName)
  {
    WordPrefixWhole("/starting");
    assert "/starting"[..7] != "/start@" by {
      assert "/starting"[..7][6] == 'i';
    }
  }

  lemma {:induction false} WordPrefixWhole(w: string)
    requires forall i :: 0 <= i < |w| ==> !IsSpace(w[i])
    ensures WordPrefix(w) == w
    decreases |w|
  {
    if |w| > 0 {
      WordPrefixWhole(w[1..]);
    }
  }

  lemma {:induction false} WordPrefixStops(w: string, c: char, rest: string)
    requires forall i :: 0 <= i < |w| ==> !IsSpace(w[i])
    requires IsSpace(c)
    ensures WordPrefix(w + [c] + rest) == w
    decreases |w|
  {
    if |w| > 0 {
      assert (w + [c] + rest)[1..] == w[1..] + [c] + rest;
      WordPrefixStops(w[1..], c, rest);
    } else {
      assert (w + [c] + rest)[0] == c;
    }
  }

  /** The session facts every handler relies on and keeps: the two payment
      states that no handler sets are never entered, a stored sign is one of
      the twelve labels, and a state is entered only with the data it needs. */
  predicate SessionOk(s: Session) {
    && s.state != Some(WaitingForAdsgramPayment)
    && s.state != Some(WaitingForTonPayment)
    && (s.chosenSign.Some? ==> s.chosenSign.value in SignLabels)
    && (s.state == Some(ChoosingDate) ==> s.chosenSign.Some?)
    && (s.state == Some(ChoosingType) ==> s.chosenSign.Some? && s.chosenDate.Some?)
  }

  /** A stored record carries its own id and a counter within 0..FreeLimit. */
  predicate RecordOk(id: int, r: UserRecord) {
    r.userId == id && CounterInRange(r)
  }

  /** The whole system: sessions and records are well formed, and any user
      with a conversation in progress has a record (reached through /start). */
  predicate Consistent(sessions: map<int, Session>, users: Users) {
    && (forall id :: id in sessions ==> SessionOk(sessions[id]))
    && (forall id :: id in sessions && sessions[id].state.Some? ==> id in users)
    && (forall id :: id in users ==> RecordOk(id, users[id]))
  }

  /** Storing a well-formed session keeps the system consistent, provided a
      session in progress belongs to a user with a record. */
  lemma SessionUpdateConsistent(sessions: map<int, Session>, users: Users, id: int, s: Session)
    requires Consistent(sessions, users)
    requires SessionOk(s) && (s.state.Some? ==> id in users)
    ensures Consistent(sessions[id := s], users)
  {
  }

  /** Storing a well-formed record keeps the system consistent. */
  lemma RecordUpdateConsistent(sessions: map<int, Session>, users: Users, id: int, r: UserRecord)
    requires Consistent(sessions, users)
    requires RecordOk(id, r)
    ensures Consistent(sessions, users[id := r])
  {
  }

  /** Writing one key leaves every other key as it was. */
  lemma UpdateIsLocal<V>(m: map<int, V>, id: int, v: V)
    ensures m[id := v] - {id} == m - {id}
    ensures m.Keys <= m[id := v].Keys
  {
  }
}
