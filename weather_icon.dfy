/**
 * The weather-font glyph for a provider condition code and an hour of the
 * day: a daytime table, a night-time table, and the default glyph `")"`.
 *
 * As written, the night-time guard `hours > 19 && hours < 6` holds for no
 * hour, so the night table is never consulted and every hour outside 7..19
 * shows the default glyph. `WeatherIcon` keeps that behaviour;
 * `WeatherIconCorrected` is the day/night split the two tables were written
 * for.
 */
module WeatherIcons {

  /** The glyph shown when no table entry applies. */
  const DefaultGlyph: string := ")"

  /** The provider's condition codes, by group, that the tables list. */
  predicate Thunderstorm(id: int) {
    id == 200 || id == 201 || id == 202 || id == 210 || id == 211 || id == 212 ||
    id == 221 || id == 230 || id == 231 || id == 232
  }
  predicate Drizzle(id: int) {
    id == 300 || id == 301 || id == 302 || id == 310 || id == 311 || id == 312 ||
    id == 313 || id == 314 || id == 321
  }
  predicate Rain(id: int) {
    id == 500 || id == 501 || id == 502 || id == 503 || id == 504 || id == 511 ||
    id == 520 || id == 521 || id == 522 || id == 531
  }
  predicate Snow(id: int) {
    id == 600 || id == 601 || id == 602 || id == 611 || id == 612 || id == 615 ||
    id == 616 || id == 620 || id == 621 || id == 622
  }
  predicate Atmosphere(id: int) {
    id == 701 || id == 711 || id == 721 || id == 731 || id == 741 || id == 751 ||
    id == 761 || id == 762 || id == 771 || id == 781
  }
  predicate Clouds(id: int) {
    id == 800 || id == 801 || id == 802 || id == 803 || id == 804
  }

  predicate Listed(id: int) {
    Thunderstorm(id) || Drizzle(id) || Rain(id) || Snow(id) || Atmosphere(id) || Clouds(id)
  }

  /** The daytime table. */
  function DayGlyph(id: int): string
  {
    match id
    case 800 => "B"
    case 801 => "H"
    case 802 => "N"
    case 803 => "Y"
    case 804 => "%"
    case 200 => "Z"
    case 201 => "Z"
    case 202 => "Z"
    case 210 => "O"
    case 211 => "Z"
    case 212 => "0"
    case 221 => "Z"
    case 230 => "Z"
    case 231 => "Z"
    case 232 => "Z"
    case 300 => "Q"
    case 301 => "Q"
    case 302 => "Q"
    case 310 => "Q"
    case 311 => "Q"
    case 312 => "Q"
    case 313 => "Q"
    case 314 => "Q"
    case 321 => "Q"
    case 500 => "Q"
    case 501 => "R"
    case 502 => "R"
    case 503 => "R"
    case 504 => "R"
    case 511 => "R"
    case 520 => "R"
    case 521 => "R"
    case 522 => "R"
    case 531 => "R"
    case 600 => "V"
    case 601 => "W"
    case 602 => "W"
    case 611 => "W"
    case 612 => "W"
    case 615 => "W"
    case 616 => "W"
    case 620 => "W"
    case 621 => "W"
    case 622 => "W"
    case 701 => "M"
    case 711 => "M"
    case 721 => "M"
    case 731 => "M"
    case 741 => "M"
    case 751 => "M"
    case 761 => "M"
    case 762 => "M"
    case 771 => "M"
    case 781 => "M"
    case _ => DefaultGlyph
  }

  /** The night-time table: the daytime one with moon glyphs for clear sky and few clouds. */
  function NightGlyph(id: int): string
  {
    match id
    case 800 => "C"
    case 801 => "I"
    case _ => DayGlyph(id)
  }

  /** `getWeatherIcon` as written, for a condition code already read as an integer. */
  function WeatherIcon(id: int, hours: int): (w: string)
    ensures |w| == 1
  {
    if hours < 20 && hours > 6 then DayGlyph(id)
    else if hours > 19 && hours < 6 then NightGlyph(id)
    else DefaultGlyph
  }

  /** Every hour outside 7..19 shows the default glyph, whatever the code. */
  lemma IconOutsideDayWindow(id: int, hours: int)
    requires hours <= 6 || hours >= 20
    ensures WeatherIcon(id, hours) == DefaultGlyph
  {
  }

  /** Every hour in 7..19 shows the daytime glyph of the code. */
  lemma IconInDayWindow(id: int, hours: int)
    requires 7 <= hours <= 19
    ensures WeatherIcon(id, hours) == DayGlyph(id)
  {
  }

  /** A code has a glyph of its own exactly when the table lists it. */
  lemma DayGlyphListed(id: int)
    ensures DayGlyph(id) != DefaultGlyph <==> Listed(id)
    ensures |DayGlyph(id)| == 1
  {
  }

  /**
   * The daytime table group by group: one glyph per group of the provider's
   * codes, with the stated exceptions.
   */
  lemma DayGlyphByGroup(id: int)
    ensures Clouds(id) ==>
      DayGlyph(id) == (if id == 800 then "B" else if id == 801 then "H"
                       else if id == 802 then "N" else if id == 803 then "Y" else "%")
    ensures Thunderstorm(id) ==>
      DayGlyph(id) == (if id == 210 then "O" else if id == 212 then "0" else "Z")
    ensures Drizzle(id) ==> DayGlyph(id) == "Q"
    ensures Rain(id) ==> DayGlyph(id) == (if id == 500 then "Q" else "R")
    ensures Snow(id) ==> DayGlyph(id) == (if id == 600 then "V" else "W")
    ensures Atmosphere(id) ==> DayGlyph(id) == "M"
  {
  }

  /** The two tables differ only on clear sky (800) and few clouds (801). */
  lemma NightTableMatchesDayTable(id: int)
    ensures id != 800 && id != 801 ==> NightGlyph(id) == DayGlyph(id)
    ensures NightGlyph(800) == "C" && DayGlyph(800) == "B"
    ensures NightGlyph(801) == "I" && DayGlyph(801) == "H"
  {
  }

  /**
   * The night branch is dead: the icon is the daytime glyph in 7..19 and the
   * default glyph at every other hour, so clear sky at 2 o'clock shows `")"`
   * and never the night table's `"C"`.
   */
  lemma NightBranchUnreachable(id: int, hours: int)
    ensures WeatherIcon(id, hours) == (if 7 <= hours <= 19 then DayGlyph(id) else DefaultGlyph)
    ensures WeatherIcon(800, 2) == ")" && NightGlyph(800) == "C"
  {
  }

  /**
   * The day/night split the night table was written for: every hour outside
   * 7..19 is night. The one-token repair of the guard, `hours > 19 || hours < 6`,
   * would instead leave hour 6 on the default glyph; which of the two was
   * meant the source does not say.
   */
  function WeatherIconCorrected(id: int, hours: int): (w: string)
    ensures |w| == 1
    ensures 7 <= hours <= 19 ==> w == DayGlyph(id)
  {
    if hours < 20 && hours > 6 then DayGlyph(id) else NightGlyph(id)
  }

  /** Corrected: night hours show the night table, so clear sky at 2 o'clock is `"C"`. */
  lemma CorrectedIconAtNight(id: int, hours: int)
    requires hours <= 6 || hours >= 20
    ensures WeatherIconCorrected(id, hours) == NightGlyph(id)
    ensures WeatherIconCorrected(800, 2) == "C"
  {
  }
}
