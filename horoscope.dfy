/** `generate_horoscope`: a fixed text per (period, category), put after a
    heading that names the sign, the period and the category. */
module Horoscope {
  import opened Wrappers

  const Periods: seq<string> := ["today", "tomorrow", "week"]
  const Categories: seq<string> := ["general", "love", "business", "health"]

  const Unavailable: string := "Гороскоп пока недоступен."

  /** The texts for each category, one inner table per period. */
  const TodayTexts: map<string, string> := map[
    "general" := "Сегодня вас ждет день, полный неожиданных открытий и приятных встреч.",
    "love" := "В личных отношениях возможны новые романтические переживания.",
    "business" := "На работе будьте внимательны к деталям, чтобы избежать недоразумений.",
    "health" := "Уделите внимание своему самочувствию, возможно, потребуется отдых."
  ]

  const TomorrowTexts: map<string, string> := map[
    "general" := "Завтрашний день принесет спокойствие и возможность завершить начатые дела.",
    "love" := "День благоприятен для укрепления связей и взаимопонимания.",
    "business" := "Ожидайте новых предложений, которые могут быть очень выгодными.",
    "health" := "Энергии будет достаточно для всех ваших планов."
  ]

  const WeekTexts: map<string, string> := map[
    "general" := "На этой неделе сосредоточьтесь на своих долгосрочных целях. Возможно, придется потрудиться больше обычного, но результат того стоит.",
    "love" := "Ваши отношения укрепятся, если вы проявите больше внимания и заботы к близким.",
    "business" := "Будьте открыты к сотрудничеству, новые партнерства принесут успех.",
    "health" := "Ваша выносливость на высоте, но не забывайте о сбалансированном питании."
  ]

  /** The nested table, first by period and then by category. */
  const Table: map<string, map<string, string>> :=
    map["today" := TodayTexts, "tomorrow" := TomorrowTexts, "week" := WeekTexts]

  /** How an f-string shows a session value that may be missing (`None`). */
  function Show(v: Option<string>): string {
    match v
    case Some(s) => s
    case None => "None"
  }

  /** The heading line of every horoscope. */
  function Heading(sign: Option<string>, period: Option<string>, category: string): string {
    "Ваш гороскоп для знака " + Show(sign) + " на " + Show(period) + " (" + category + " аспект):\n\n"
  }

  /** The table text for a pair, if the table has one: the two nested
      `dict.get` calls, a missing period behaving like an empty inner table.
      A text is found exactly for the periods and categories the buttons
      offer. */
  function Lookup(period: Option<string>, category: string): (e: Option<string>)
    ensures e.Some? <==> period.Some? && period.value in Periods && category in Categories
    ensures e.Some? ==> e.value == Table[period.value][category]
  {
    TableShape();
    if period.Some? && period.value in Table && category in Table[period.value]
    then Some(Table[period.value][category])
    else None
  }

  /** `generate_horoscope(sign, date_type, horoscope_type)`: the heading, then
      the table text for an offered period and category, and the fallback in
      every other case, missing session values included. */
  function GenerateHoroscope(sign: Option<string>, period: Option<string>, category: string): (text: string)
    ensures text == Heading(sign, period, category)
                    + (if period.Some? && period.value in Periods && category in Categories
                       then Table[period.value][category] else Unavailable)
  {
    Heading(sign, period, category) + Lookup(period, category).GetOr(Unavailable)
  }

  /** The table has exactly the periods and categories the buttons offer. */
  lemma TableShape()
    ensures Table.Keys == {"today", "tomorrow", "week"}
    ensures forall p :: p in Table ==> Table[p].Keys == {"general", "love", "business", "health"}
  {
  }
}
