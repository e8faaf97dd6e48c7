/** The daily free quota of `process_chosen_type` and the reset of
    `check_payment`, as functions of a stored record and the current date. */
module Quota {
  import opened Wrappers
  import opened Calendar
  import opened UserStore

  /** Free horoscopes per user per calendar day. */
  const FreeLimit := 2

  /** The stored date lies before today, so the stored counter belongs to an
      earlier day. A missing date never counts as stale. */
  predicate Stale(r: UserRecord, today: Date) {
    r.lastDate.Some? && Before(r.lastDate.value, today)
  }

  /** Horoscopes already given today, as the handler counts them: zero on a
      new day, otherwise the stored counter, zero when it is absent. */
  function Effective(r: UserRecord, today: Date): (e: int)
    ensures Stale(r, today) ==> e == 0
    ensures !Stale(r, today) ==> e == r.dailyGiven.GetOr(0)
    ensures CounterInRange(r) ==> 0 <= e <= FreeLimit
  {
    if Stale(r, today) then 0 else r.dailyGiven.GetOr(0)
  }

  /** The write made when the day has changed. */
  function ResetPatch(today: Date): Patch {
    Patch(None, Some(0), Some(today))
  }

  /** The write made when a horoscope is given. */
  function DeliveryPatch(given: int, today: Date): Patch {
    Patch(None, Some(given + 1), Some(today))
  }

  /** The write made when a payment is confirmed. */
  const PaidPatch: Patch := Patch(None, Some(0), None)

  datatype Outcome = Delivered | LimitReached

  datatype Decision = Decision(outcome: Outcome, record: UserRecord)

  /** The decision of a category selection and the record left in the store. */
  function Check(r: UserRecord, today: Date): (d: Decision)
    ensures d.outcome == LimitReached <==> Effective(r, today) >= FreeLimit
    ensures d.outcome == LimitReached ==> d.record == r
    ensures d.outcome == Delivered ==>
      d.record == r.(dailyGiven := Some(Effective(r, today) + 1), lastDate := Some(today))
  {
    var given := Effective(r, today);
    if given >= FreeLimit then Decision(LimitReached, r)
    else Decision(Delivered, Merge(r, DeliveryPatch(given, today)))
  }

  /** The stored counter is present and within 0..FreeLimit. */
  predicate CounterInRange(r: UserRecord) {
    r.dailyGiven.Some? && 0 <= r.dailyGiven.value <= FreeLimit
  }

  /** A selection keeps the counter within range, does not touch the user id,
      and on delivery stamps today's date. */
  lemma CheckKeepsRange(r: UserRecord, today: Date)
    requires CounterInRange(r)
    ensures CounterInRange(Check(r, today).record)
    ensures Check(r, today).record.userId == r.userId
    ensures Check(r, today).outcome == Delivered ==> Check(r, today).record.lastDate == Some(today)
  {
  }

  /** The limit is reached exactly when two or more were already given today,
      and then the record is left as it was (a stale record is never at the limit). */
  lemma LimitReachedExactly(r: UserRecord, today: Date)
    ensures Check(r, today).outcome == LimitReached <==> Effective(r, today) >= FreeLimit
    ensures Check(r, today).outcome == LimitReached ==> Check(r, today).record == r && !Stale(r, today)
  {
  }

  /** On a new day the old counter is ignored: the horoscope is given, the
      counter becomes 1 and the date becomes today, whatever was stored. */
  lemma DayBoundaryReset(r: UserRecord, today: Date)
    requires Stale(r, today)
    ensures Check(r, today) == Decision(Delivered, r.(dailyGiven := Some(1), lastDate := Some(today)))
  {
  }

  /** Without a stored date the stored counter (default 0) decides: below the
      limit the horoscope is given and the counter goes up by one. */
  lemma NoDateUsesCounter(r: UserRecord, today: Date)
    requires r.lastDate.None?
    ensures Check(r, today).outcome == Delivered <==> r.dailyGiven.GetOr(0) < FreeLimit
    ensures Check(r, today).outcome == Delivered ==>
      Check(r, today).record == r.(dailyGiven := Some(r.dailyGiven.GetOr(0) + 1), lastDate := Some(today))
  {
  }

  /** After two deliveries on one day, the third selection that day goes to
      payment, whatever was chosen. */
  lemma ThirdSelectionPays(r: UserRecord, today: Date)
    requires CounterInRange(r)
    requires Check(r, today).outcome == Delivered
    requires Check(Check(r, today).record, today).outcome == Delivered
    ensures Check(Check(Check(r, today).record, today).record, today).outcome == LimitReached
  {
    var r1 := Check(r, today).record;
    assert r1.lastDate == Some(today) && !Stale(r1, today);
    var r2 := Check(r1, today).record;
    assert r2.lastDate == Some(today) && !Stale(r2, today);
    assert Effective(r2, today) == Effective(r1, today) + 1 == Effective(r, today) + 2;
  }

  /** The number of horoscopes given by `n` consecutive selections on one day. */
  function Deliveries(r: UserRecord, today: Date, n: nat): nat
    decreases n
  {
    if n == 0 then 0
    else
      var d := Check(r, today);
      (if d.outcome == Delivered then 1 else 0) + Deliveries(d.record, today, n - 1)
  }

  /** However many selections a user makes on one day without paying, at
      most the rest of the free quota is given. */
  lemma {:induction false} AtMostQuotaPerDay(r: UserRecord, today: Date, n: nat)
    requires Effective(r, today) >= 0
    ensures Deliveries(r, today, n) <= if Effective(r, today) >= FreeLimit then 0 else FreeLimit - Effective(r, today)
    decreases n
  {
    if n > 0 {
      var d := Check(r, today);
      if d.outcome == Delivered {
        assert !Stale(d.record, today);
        assert Effective(d.record, today) == Effective(r, today) + 1;
      }
      AtMostQuotaPerDay(d.record, today, n - 1);
    }
  }

  /** A confirmed payment zeroes the counter and keeps the date. */
  function Paid(r: UserRecord): (p: UserRecord)
    ensures p == r.(dailyGiven := Some(0))
  {
    Merge(r, PaidPatch)
  }

  /** One payment restores the whole day's quota, not one extra horoscope:
      three selections after it give exactly two. */
  lemma PaymentRestoresFullQuota(r: UserRecord, today: Date)
    ensures Effective(Paid(r), today) == 0
    ensures Deliveries(Paid(r), today, 3) == FreeLimit
  {
    var p := Paid(r);
    var r1 := Check(p, today).record;
    assert Check(p, today).outcome == Delivered;
    assert !Stale(r1, today) && Effective(r1, today) == 1;
    var r2 := Check(r1, today).record;
    assert Check(r1, today).outcome == Delivered;
    assert !Stale(r2, today) && Effective(r2, today) == 2;
    assert Check(r2, today).outcome == LimitReached;
  }

  /** `process_chosen_type` from reading the record to the quota decision, as
      the driver runs it: both writes carry `last_horoscope_date` as a
      `datetime.date`, so each raises `InvalidDocument` and the handler stops
      there, before any reply. */
  function SelectAsWritten(users: Users, id: int, today: Date): (r: Result<Decision, StoreError>)
    requires id in users
    ensures Stale(users[id], today) ==> r == Failure(InvalidDocument)
    ensures !Stale(users[id], today) && Effective(users[id], today) >= FreeLimit ==>
      r == Success(Decision(LimitReached, users[id]))
    ensures !Stale(users[id], today) && Effective(users[id], today) < FreeLimit ==>
      r == Failure(InvalidDocument)
  {
    var rec := users[id];
    var reset := UpsertAsWritten(users, id, ResetPatch(today));
    if Stale(rec, today) && reset.Failure? then Failure(reset.error)
    else
      var given := Effective(rec, today);
      if given >= FreeLimit then Success(Decision(LimitReached, rec))
      else
        var write := UpsertAsWritten(users, id, DeliveryPatch(given, today));
        if write.Failure? then Failure(write.error)
        else Success(Decision(Delivered, Merge(rec, DeliveryPatch(given, today))))
  }

  /** As written, no horoscope is ever given: wherever the quota decision
      delivers one, the write raises instead. Only the payment branch runs. */
  lemma AsWrittenNeverDelivers(users: Users, id: int, today: Date)
    requires id in users
    ensures SelectAsWritten(users, id, today).Success? ==>
      SelectAsWritten(users, id, today) == Success(Check(users[id], today))
      && Check(users[id], today).outcome == LimitReached
    ensures Check(users[id], today).outcome == Delivered ==>
      SelectAsWritten(users, id, today) == Failure(InvalidDocument)
  {
  }

  /** The first selection of a user `/start` has just registered: the quota
      decision gives the horoscope, the code as written raises. */
  lemma FreshUserAsWritten(id: int, today: Date)
    ensures Check(UserRecord(id, Some(0), None), today)
            == Decision(Delivered, UserRecord(id, Some(1), Some(today)))
    ensures SelectAsWritten(map[id := UserRecord(id, Some(0), None)], id, today) == Failure(InvalidDocument)
  {
    AsWrittenNeverDelivers(map[id := UserRecord(id, Some(0), None)], id, today);
  }
}
