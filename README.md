# OpenWeatherMapClient, modelled in Dafny

This project models the weather client of the printer monitor firmware
(`printermonitor/OpenWeatherMapClient.cpp`). The client:

- builds the request configuration: the comma-separated list of city ids,
  the unit system, the language and the API key;
- keeps a fixed-size table `weathers` of per-city records and updates it from
  one response of the weather service, using record 0 for the batch-level
  `cached` flag and `error` message;
- transliterates `"oe"` to `"ö"` in stored city names when they are read;
- maps a condition code and an hour of the day to a weather-font glyph.

Modules, one per concern of the source file:

- `ArduinoString` (`arduino_string.dfy`) models the Arduino `String`
  operations the client calls. These are `String(n)` (decimal), `toInt()`
  (C `atol`) and `replace` in its equal-length, in-place form. `toInt()`
  is proved to read back what `String(n)` wrote.
- `CityIds` (`city_ids.dfy`) defines the `id=` parameter that
  `updateCityIdList` must build: the positive ids in input order, in decimal,
  joined by single commas. The lemmas give its shape and its emptiness
  condition, and show that splitting it at commas and reading each field
  back gives the positive ids.
- `CityNames` (`city_names.dfy`) models the `getCity` rewrite. The source
  file is UTF-8, so `"ö"` is the two bytes C3 B6 and the rewrite keeps the
  length. The lemmas show that no `"oe"` is left afterwards, that the rewrite
  is idempotent, and that it can be undone on names that held no `"ö"`.
- `WeatherIcons` (`weather_icon.dfy`) holds the daytime and night-time
  tables and `getWeatherIcon` as written. The night-time guard can never
  hold, so every hour outside 7..19 shows `")"`. A corrected day/night split
  is given beside it (see Findings).
- `OpenWeatherMap` (`client.dfy`) holds the class `OpenWeatherMapClient`.
  Its fields are the string configuration, a `weathers` array of `Weather`
  records and a ghost copy of the ids the city list was built from.
  `UpdateWeather` is proved against the function `AfterUpdate`, and the
  lemmas state what each exit of `updateWeather` does to the table. The copy
  loop of `updateWeather` is its own method, `CopyRecords`.

`UpdateWeather` does not talk to the network. Its argument is a `Response`:
either the connection failed, or it succeeded and the response carries three
things. These are the status line read up to its `'\r'`, whether the blank
line ending the headers was found, and the parse result. The parse result is
either a failure or a `JsonRoot`: `measureLength()`, `message`, `cnt` and the
`list` elements, each field given as the text the parser yields. An element
beyond the end of `list` and a missing `message` read as empty text, because
ArduinoJson yields a null string for them. The method also returns a
`FetchOutcome` that says which exit it took. The source returns nothing; this
value only makes the exits visible to contracts.

Lines 88-89 reset record 0's `cached`/`error` only after the status line
and the end of the headers were checked, so a failed connection, another
status line or a missing blank line leave record 0 as it was.

## Model

| member | source | states |
|---|---|---|
| `ArduinoString.Decimal` | printermonitor/OpenWeatherMapClient.cpp:155 | `String(n)` of a non-negative number is a non-empty run of digits whose first digit is `0` only for `n == 0` |
| `ArduinoString.DecimalRoundTrip` | printermonitor/OpenWeatherMapClient.cpp:252 | `ToInt` (`toInt()`, which is `atol`: white space, an optional sign, leading digits) of `String(n)` is `n` for every `n >= 0` |
| `ArduinoString.DecimalInjective` | printermonitor/OpenWeatherMapClient.cpp:155 | distinct ids are written as distinct strings |
| `ArduinoString.ToIntNotANumber` | printermonitor/OpenWeatherMapClient.cpp:252 | a condition code with no number at its start (for example an empty field) reads as 0 |
| `ArduinoString.Replace` | printermonitor/OpenWeatherMapClient.cpp:185 | an equal-length `replace` keeps the length of the string (it rewrites in place), and the first byte is either kept or is the replacement's first byte |
| `CityIds.PositivesMembers` | printermonitor/OpenWeatherMapClient.cpp:151 | an id is kept by `Positives` (the filter `id > 0`) exactly when it is positive and occurs among the configured ids |
| `CityIds.CityIdListIsJoin` | printermonitor/OpenWeatherMapClient.cpp:148-158 | `CityIdList`, the list built one id at a time (a positive id appended in decimal, after a comma unless nothing was written yet), equals `JoinedPositives`, the comma-joined decimal forms of the positive ids |
| `CityIds.CityIdListEmpty` | printermonitor/OpenWeatherMapClient.cpp:149-157 | the list is `""` exactly when no configured id is positive |
| `CityIds.CityIdListShape` | printermonitor/OpenWeatherMapClient.cpp:152-155 | the list holds only digits and commas and has no leading or trailing comma |
| `CityIds.FieldsOfJoin` | printermonitor/OpenWeatherMapClient.cpp:152-155 | splitting a comma-joined list of non-empty, comma-free parts at its commas gives the parts back |
| `CityIds.CityIdListRoundTrip` | printermonitor/OpenWeatherMapClient.cpp:148-158 | splitting the list at commas and reading each field with `toInt()` gives exactly the positive ids, in input order |
| `CityIds.CityIdListExample` | printermonitor/OpenWeatherMapClient.cpp:148-158 | ids `[0, 5200, -3, 1234]` give `"5200,1234"` |
| `CityNames.Transliterate` | printermonitor/OpenWeatherMapClient.cpp:185 | replacing `"oe"` by the two UTF-8 bytes of `"ö"` keeps the length of the name |
| `CityNames.TransliterateRemovesOe` | printermonitor/OpenWeatherMapClient.cpp:185 | no `"oe"` is left in the result, including across a replaced pair |
| `CityNames.TransliterateWithoutOe` | printermonitor/OpenWeatherMapClient.cpp:185 | a name without `"oe"` is returned unchanged |
| `CityNames.TransliterateIdempotent` | printermonitor/OpenWeatherMapClient.cpp:184-187 | calling `getCity` again returns the same name |
| `CityNames.TransliterateReversible` | printermonitor/OpenWeatherMapClient.cpp:185 | on a name that held no `"ö"`, replacing each `"ö"` back by `"oe"` gives the original name |
| `CityNames.TransliterateExamples` | printermonitor/OpenWeatherMapClient.cpp:185 | `Koeln`, `Moers` and `Foetus` get an `"ö"` in place of their `"oe"` (the last one a false positive) |
| `WeatherIcons.WeatherIcon` | printermonitor/OpenWeatherMapClient.cpp:250-473 | the glyph is always a single character |
| `WeatherIcons.IconOutsideDayWindow` | printermonitor/OpenWeatherMapClient.cpp:404-470 | for every hour `<= 6` or `>= 20` the glyph is `")"`, whatever the condition code |
| `WeatherIcons.IconInDayWindow` | printermonitor/OpenWeatherMapClient.cpp:338-403 | for every hour in 7..19 the glyph is the daytime table's |
| `WeatherIcons.DayGlyphListed` | printermonitor/OpenWeatherMapClient.cpp:340-403 | a code has a glyph other than `")"` exactly when the table lists it; every glyph is one character |
| `WeatherIcons.DayGlyphByGroup` | printermonitor/OpenWeatherMapClient.cpp:340-403 | the daytime table `DayGlyph`: clouds 800..804 give B, H, N, Y, %; thunderstorm Z except 210 O and 212 0; drizzle Q; rain R except 500 Q; snow W except 600 V; atmosphere M |
| `WeatherIcons.NightTableMatchesDayTable` | printermonitor/OpenWeatherMapClient.cpp:406-469 | the night table `NightGlyph` differs from the daytime one only at 800 (C) and 801 (I) |
| `WeatherIcons.NightBranchUnreachable` | printermonitor/OpenWeatherMapClient.cpp:404 | the icon is the daytime glyph in 7..19 and `")"` at every other hour; clear sky at hour 2 is `")"`, never the night table's `"C"` |
| `WeatherIcons.WeatherIconCorrected` | printermonitor/OpenWeatherMapClient.cpp:338-470 | corrected split: one character, the daytime glyph in 7..19 |
| `WeatherIcons.CorrectedIconAtNight` | printermonitor/OpenWeatherMapClient.cpp:404-470 | corrected split: every hour outside 7..19 uses the night table, so clear sky at hour 2 is `"C"` |
| `OpenWeatherMap.Language` | printermonitor/OpenWeatherMapClient.cpp:37-42 | the stored language is never empty and is the given code whenever that is non-empty |
| `OpenWeatherMap.Units` | printermonitor/OpenWeatherMapClient.cpp:160-166 | the unit system is always `"metric"` or `"imperial"` |
| `OpenWeatherMap.CopyCount` | printermonitor/OpenWeatherMapClient.cpp:109 | the number of records copied never exceeds the table size, and is `cnt` (0 if negative) when `cnt` fits |
| `OpenWeatherMap.OutcomeReachesParser` | printermonitor/OpenWeatherMapClient.cpp:51-96 | a response gets past the status and header checks exactly when the exit `Outcome` names is a parse failure, an error report or an update |
| `OpenWeatherMap.UpdateEarlyExit` | printermonitor/OpenWeatherMapClient.cpp:50-83 | no connection, a status line other than `HTTP/1.1 200 OK`, or no end of headers: the table `AfterUpdate` gives is the old one, including record 0's `cached` and `error` |
| `OpenWeatherMap.UpdateParseFailure` | printermonitor/OpenWeatherMapClient.cpp:88-96 | `AfterUpdate` on a parse failure: record 0 has `cached` false and error `Weather Data Parsing failed!`; no data field changes and records 1.. are unchanged |
| `OpenWeatherMap.UpdateNoData` | printermonitor/OpenWeatherMapClient.cpp:100-106 | `AfterUpdate` when the parsed length is at most 150: record 0 has `cached` true and the response's `message` as error; no data field changes |
| `OpenWeatherMap.UpdateCopies` | printermonitor/OpenWeatherMapClient.cpp:88-139 | full payload: records `k < cnt` (within the table) show the 13 fields `CopyEntry` copies from `EntryAt(list, k)` (all empty when `list` has no element `k`), the other records keep their content, record 0 ends with `cached` false and error `""`, and the other records keep `cached`/`error` |
| `OpenWeatherMap.BatchStatus` | printermonitor/OpenWeatherMapClient.cpp:88-106 | record 0's `cached`/`error` in `AfterUpdate` match the exit `Outcome` names, and are the old ones when the exchange failed before the parser |
| `OpenWeatherMap.UpdateIdempotent` | printermonitor/OpenWeatherMapClient.cpp:88-139 | `AfterUpdate` is a snapshot of the last response: handling the same response twice gives the same table as handling it once |
| `OpenWeatherMap.CopyStaysInTable` | printermonitor/OpenWeatherMapClient.cpp:107-109 | the bounded copy writes at most the table size; copied plus dropped is `cnt`; something is dropped exactly when `cnt` exceeds the table |
| `OpenWeatherMap.CopyLoopOverrunsTable` | printermonitor/OpenWeatherMapClient.cpp:109 | as written, the loop visits `CopyIndicesAsWritten(cnt)`, that is `0..cnt-1`, so a response with `cnt > capacity` makes it write index `capacity`, past the table |
| `OpenWeatherMap.OpenWeatherMapClient.constructor` | printermonitor/OpenWeatherMapClient.cpp:26-31 | builds the city list from the first `cityCount` ids, normalizes the language, stores the key and the unit system |
| `OpenWeatherMap.OpenWeatherMapClient.UpdateWeatherApiKey` | printermonitor/OpenWeatherMapClient.cpp:33-35 | stores the key and changes nothing else |
| `OpenWeatherMap.OpenWeatherMapClient.UpdateLanguage` | printermonitor/OpenWeatherMapClient.cpp:37-42 | stores `"en"` for an empty code and the code otherwise; nothing else changes |
| `OpenWeatherMap.OpenWeatherMapClient.SetMetric` | printermonitor/OpenWeatherMapClient.cpp:160-166 | stores `"metric"` exactly when the flag is set, else `"imperial"`; nothing else changes |
| `OpenWeatherMap.OpenWeatherMapClient.UpdateCityIdList` | printermonitor/OpenWeatherMapClient.cpp:148-158 | the loop leaves in `myCityIDs` the comma-joined decimal forms of the positive ids among the first `cityCount`, in order |
| `OpenWeatherMap.OpenWeatherMapClient.UpdateWeather` | printermonitor/OpenWeatherMapClient.cpp:44-140 | clears `result`; the new table is `AfterUpdate` of the old one; the configuration is unchanged; the returned exit matches `Outcome` |
| `OpenWeatherMap.OpenWeatherMapClient.CopyRecords` | printermonitor/OpenWeatherMapClient.cpp:109-139 | the copy loop leaves the table `CopyList`: the first `CopyCount(cnt, capacity)` records take the data of the matching `list` elements, the rest stay as they were |
| `OpenWeatherMap.OpenWeatherMapClient.GetCity` | printermonitor/OpenWeatherMapClient.cpp:184-188 | overwrites record `index`'s city with its transliteration and returns it; no other field or record changes |
| `OpenWeatherMap.OpenWeatherMapClient.GetWeatherIcon` | printermonitor/OpenWeatherMapClient.cpp:250-254 | the glyph for the stored code read with `toInt()`; one character; `")"` at every hour outside 7..19 |
| `OpenWeatherMap.OpenWeatherMapClient.GetCached` | printermonitor/OpenWeatherMapClient.cpp:238-240 | the batch flag is record 0's |
| `OpenWeatherMap.OpenWeatherMapClient.GetError` | printermonitor/OpenWeatherMapClient.cpp:246-248 | the batch error is record 0's |
| `OpenWeatherMap.OpenWeatherMapClient.GetMyCityIDs` | printermonitor/OpenWeatherMapClient.cpp:242-244 | the stored list is the comma-joined list of the ids it was last built from |
| `OpenWeatherMap.OpenWeatherMapClient.GetWeatherResults` | printermonitor/OpenWeatherMapClient.cpp:168-170 | always `""`: `updateWeather` clears `result` at line 50 and never stores the response in it, which `Valid()` records |

## Left out

- The network exchange is not modelled; `UpdateWeather` receives its result as a `Response`. This covers `WiFiClient` connect, the request lines, the busy wait for data, `readBytesUntil`, `find` and `stop`. Whether the connection is closed on each exit is not modelled either.
- The status line is compared whole. The source reads at most 32 bytes into an unterminated buffer, which is undefined for a status line of 32 bytes or more.
- `Serial` logging is diagnostic output and is left out.
- The ArduinoJson parser, its 710-byte buffer and `measureLength()` are foreign code. The parsed object is given as a `JsonRoot`.
- `roundValue`, `getTempRounded`, `getHumidityRounded` and `getWindRounded` are left out because they are floating-point arithmetic (`toFloat`, `+ 0.5f`, a cast to `int`).
- The plain field getters `getLat`, `getLon`, `getDt`, `getCountry`, `getTemp`, `getHumidity`, `getCondition`, `getCloudiness`, `getWind`, `getWeatherId`, `getDescription` and `getIcon` are left out. Each returns one field of `weathers[index]`.
- The commented-out icon-code table in `getWeatherIcon` is dead source and is left out.
- `OpenWeatherMapClient.h` is not part of this model. The table size becomes the constructor parameter `capacity`. The records are assumed to start empty with `cached` false.
- `ArduinoString.ToInt` models `atol` over unbounded integers. Overflow of `long` is undefined in C and is not modelled.
- `ArduinoString.Replace` models only the equal-length path of `String::replace`, the only one `getCity` takes. NUL bytes inside a string are not modelled.
- `CityIds.CityIdList` formats ids as unbounded integers. `String(int)` is exact for every 32-bit `int`, so the width of `int` does not matter here.
- `OpenWeatherMap.OpenWeatherMapClient.UpdateWeather` stops copying at the table size instead of writing past it. The source's write past the table is undefined behaviour; see Findings.

## Findings

| source | as written | input that shows it | evidently intended | confidence | as-written member | corrected member |
|---|---|---|---|---|---|---|
| printermonitor/OpenWeatherMapClient.cpp:404 | the night guard asks for an hour above 19 and below 6 at once, so it never holds | condition 800 at hour 2 gives `")"`, not the night table's `"C"` | hours outside the daytime window use the night table: either every hour outside 7..19 (`WeatherIconCorrected`), or, with the one-token repair that turns the `and` of the guard into an `or`, hours 20..23 and 0..5, leaving hour 6 on `")"` | not executed; certain that the branch is dead; the hour-6 boundary of the fix is a choice between the two readings | `WeatherIcons.NightBranchUnreachable` | `WeatherIcons.CorrectedIconAtNight` |
| printermonitor/OpenWeatherMapClient.cpp:109 | the copy loop runs to the response's `cnt` with no check against the size of `weathers` | a full payload with `cnt == capacity + 1` writes `weathers[capacity]` | copy at most as many records as the table holds | not executed; high | `OpenWeatherMap.CopyLoopOverrunsTable` | `OpenWeatherMap.CopyStaysInTable` |

The client's `GetWeatherIcon` keeps the as-written icon selection, because
that is what the firmware shows. The corrected split is stated and proved
beside it. `UpdateWeather` uses the bounded copy.
