/** The sign names offered on the keyboard and the birth-date-to-sign table
    of `get_zodiac_sign` (Western tropical zodiac). */
module Zodiac {

  datatype Sign =
    Aries | Taurus | Gemini | Cancer | Leo | Virgo
    | Libra | Scorpio | Sagittarius | Capricorn | Aquarius | Pisces

  /** The button text of each sign, symbol and Russian name. */
  function Label(s: Sign): string {
    match s
    case Aries => "♈ Овен"
    case Taurus => "♉ Телец"
    case Gemini => "♊ Близнецы"
    case Cancer => "♋ Рак"
    case Leo => "♌ Лев"
    case Virgo => "♍ Дева"
    case Libra => "♎ Весы"
    case Scorpio => "♏ Скорпион"
    case Sagittarius => "♐ Стрелец"
    case Capricorn => "♑ Козерог"
    case Aquarius => "♒ Водолей"
    case Pisces => "♓ Рыбы"
  }

  /** The list a typed sign is checked against, in keyboard order. */
  const SignLabels: seq<string> := [
    Label(Aries), Label(Taurus), Label(Gemini), Label(Cancer), Label(Leo), Label(Virgo),
    Label(Libra), Label(Scorpio), Label(Sagittarius), Label(Capricorn), Label(Aquarius), Label(Pisces)
  ]

  /** The extra keyboard button that asks for a birth date instead. */
  const ChooseOwnSign: string := "\U{2B50}\U{FE0F} Выбрать свой знак"

  /** What `get_zodiac_sign` returns when no branch matches. */
  const UnknownSign: string := "Неизвестный знак"

  /** The condition of the branch of `get_zodiac_sign` that returns `s`. */
  predicate Branch(s: Sign, day: int, month: int) {
    match s
    case Aries => (month == 3 && day >= 21) || (month == 4 && day <= 19)
    case Taurus => (month == 4 && day >= 20) || (month == 5 && day <= 20)
    case Gemini => (month == 5 && day >= 21) || (month == 6 && day <= 20)
    case Cancer => (month == 6 && day >= 21) || (month == 7 && day <= 22)
    case Leo => (month == 7 && day >= 23) || (month == 8 && day <= 22)
    case Virgo => (month == 8 && day >= 23) || (month == 9 && day <= 22)
    case Libra => (month == 9 && day >= 23) || (month == 10 && day <= 22)
    case Scorpio => (month == 10 && day >= 23) || (month == 11 && day <= 21)
    case Sagittarius => (month == 11 && day >= 22) || (month == 12 && day <= 21)
    case Capricorn => (month == 12 && day >= 22) || (month == 1 && day <= 19)
    case Aquarius => (month == 1 && day >= 20) || (month == 2 && day <= 18)
    case Pisces => (month == 2 && day >= 19) || (month == 3 && day <= 20)
  }

  /** `get_zodiac_sign`: the branches are tried in this order and the first
      that holds gives the sign. */
  function ZodiacSign(day: int, month: int): (r: string)
    ensures r == UnknownSign || exists s :: Branch(s, day, month) && r == Label(s)
    ensures !(1 <= month <= 12) ==> r == UnknownSign
  {
    if Branch(Aries, day, month) then Label(Aries)
    else if Branch(Taurus, day, month) then Label(Taurus)
    else if Branch(Gemini, day, month) then Label(Gemini)
    else if Branch(Cancer, day, month) then Label(Cancer)
    else if Branch(Leo, day, month) then Label(Leo)
    else if Branch(Virgo, day, month) then Label(Virgo)
    else if Branch(Libra, day, month) then Label(Libra)
    else if Branch(Scorpio, day, month) then Label(Scorpio)
    else if Branch(Sagittarius, day, month) then Label(Sagittarius)
    else if Branch(Capricorn, day, month) then Label(Capricorn)
    else if Branch(Aquarius, day, month) then Label(Aquarius)
    else if Branch(Pisces, day, month) then Label(Pisces)
    else UnknownSign
  }

  // An independent statement of the same table: every month holds the end of
  // one sign and the start of the next, which begins on the cutoff day.

  /** The sign whose period begins in `month`. */
  function SignStartingIn(month: int): Sign
    requires 1 <= month <= 12
  {
    [Aquarius, Pisces, Aries, Taurus, Gemini, Cancer,
     Leo, Virgo, Libra, Scorpio, Sagittarius, Capricorn][month - 1]
  }

  /** The first day of `month` that belongs to `SignStartingIn(month)`. */
  function CutoffDay(month: int): int
    requires 1 <= month <= 12
  {
    [20, 19, 21, 20, 21, 21, 23, 23, 23, 23, 22, 22][month - 1]
  }

  function PreviousMonth(month: int): int
    requires 1 <= month <= 12
  {
    if month == 1 then 12 else month - 1
  }

  /** The reference table: before the cutoff day a date still belongs to the
      sign that began in the previous month. */
  function SignFor(day: int, month: int): Sign
    requires 1 <= month <= 12
  {
    if day >= CutoffDay(month) then SignStartingIn(month) else SignStartingIn(PreviousMonth(month))
  }

  /** The twelve branches partition every month: for a month in 1..12, exactly
      the branch of the reference sign holds, whatever the day. */
  lemma BranchesPartition(day: int, month: int)
    requires 1 <= month <= 12
    ensures forall s :: Branch(s, day, month) <==> s == SignFor(day, month)
  {
  }

  /** The position of `s` on the keyboard. */
  function Index(s: Sign): nat {
    match s
    case Aries => 0 case Taurus => 1 case Gemini => 2 case Cancer => 3
    case Leo => 4 case Virgo => 5 case Libra => 6 case Scorpio => 7
    case Sagittarius => 8 case Capricorn => 9 case Aquarius => 10 case Pisces => 11
  }

  /** Every label starts with its own astrological symbol, U+2648 to U+2653. */
  lemma LabelSymbol(s: Sign)
    ensures |Label(s)| > 0 && Label(s)[0] as int == 0x2648 + Index(s)
    ensures Index(s) < 12 && SignLabels[Index(s)] == Label(s)
  {
  }

  /** The twelve labels are distinct, listed, and differ from the two other
      texts the sign step knows. */
  lemma LabelsDistinct(s: Sign, t: Sign)
    ensures Label(s) == Label(t) <==> s == t
    ensures Label(s) in SignLabels && Label(s) != UnknownSign && Label(s) != ChooseOwnSign
  {
    LabelSymbol(s);
    LabelSymbol(t);
    assert UnknownSign[0] != Label(s)[0];
    assert ChooseOwnSign[0] != Label(s)[0];
    if Label(s) == Label(t) {
      assert Label(s)[0] == Label(t)[0];
    }
  }

  /** For a month in 1..12, `get_zodiac_sign` returns the label of the
      reference sign, whatever the day. */
  lemma ZodiacSignIsReference(day: int, month: int)
    requires 1 <= month <= 12
    ensures ZodiacSign(day, month) == Label(SignFor(day, month))
  {
    BranchesPartition(day, month);
    match SignFor(day, month)
    case Aries =>
    case Taurus =>
    case Gemini =>
    case Cancer =>
    case Leo =>
    case Virgo =>
    case Libra =>
    case Scorpio =>
    case Sagittarius =>
    case Capricorn =>
    case Aquarius =>
    case Pisces =>
  }

  /** Out of range months fall through every branch to the fallback. */
  lemma ZodiacSignOutOfRange(day: int, month: int)
    requires !(1 <= month <= 12)
    ensures ZodiacSign(day, month) == UnknownSign
  {
  }

  /** The fallback "Неизвестный знак" is returned exactly when the month is out
      of range, so no real date reaches it, and every other answer is one of
      the twelve keyboard labels. */
  lemma ZodiacSignTotal(day: int, month: int)
    ensures ZodiacSign(day, month) == UnknownSign <==> !(1 <= month <= 12)
    ensures 1 <= month <= 12 ==> ZodiacSign(day, month) in SignLabels
  {
    if 1 <= month <= 12 {
      var s := SignFor(day, month);
      ZodiacSignIsReference(day, month);
      LabelsDistinct(s, s);
    } else {
      ZodiacSignOutOfRange(day, month);
    }
  }

  /** The boundaries of Aries and the start of the year. */
  lemma BoundaryExamples()
    ensures ZodiacSign(21, 3) == Label(Aries) && ZodiacSign(19, 4) == Label(Aries)
    ensures ZodiacSign(20, 4) == Label(Taurus) && ZodiacSign(20, 3) == Label(Pisces)
    ensures ZodiacSign(1, 1) == Label(Capricorn) && ZodiacSign(31, 12) == Label(Capricorn)
  {
  }
}
