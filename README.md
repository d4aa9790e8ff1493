# Cadastral lookup bot — a Dafny model of its core

The bot answers a chat message holding a Russian cadastral number with a
description of the land plot or building. It fetches the feature record from
the public cadastral registry, formats it as six lines (object type, address,
area, cadastral cost, land category, permitted use) and sends a map of the
plot's outline when the record has one. Records are kept in an in-memory
cache with the time they were fetched. A later request for the same number
is answered from the cache, with the fetch time and a "refresh" button. The
button's callback fetches the record again and overwrites the cache entry.

This project models three parts of that behaviour:

- `cache.dfy` (module `Cache`) models `SimpleCache` from `bot/utils/cache.py`.
  It is a class over a `map` from key to `(value, time)`. `Set` takes the
  clock reading as a parameter. A list of `set` calls replayed from an empty
  cache (`History`) is used to state what a sequence of calls does.
- `formatter.dfy` (module `Formatter`) models `format_cadastral_info` from
  `bot/utils/formatter.py` as pure functions. It covers the attribute
  placeholders, the first-truthy choice of area, the thousands grouping of
  the cost, and ring extraction from Polygon and MultiPolygon geometries. The
  two Python exceptions it can raise on the modelled records are `Failure`
  outcomes.
- `cadastral.dfy` (module `Cadastral`) models the three handlers of
  `bot/handlers/cadastral.py`. Each handler is first a function of its inputs
  and the cache table (`FetchStep`, `TextStep`, `CallbackStep`), which
  returns a `Step`: the messages sent, the new table, the keys asked of the
  registry, and whether an exception escaped. Each handler is then a method
  of the class `CadastralBot`, which holds the shared cache and an outbox of
  sent messages. Each method is proved to do exactly what its function says.
  The registry, the plotter, the clock and the Moscow-time formatting of a
  stored time are fields of the `Env` parameter.
- `wrappers.dfy` holds `Option` and `Result`.

The Russian and emoji strings in `bot/handlers/cadastral.py` appear
mis-encoded: their UTF-8 bytes were decoded as Mac Roman. The model uses the
intended UTF-8 text.

Some of what the code does is easy to miss, and the model keeps it:

- A record without a cost attribute does not print the "Не указана"
  placeholder. The placeholder string reaches `f"{cost:,}"`, and Python
  raises `ValueError("Cannot specify ',' with 's'.")`.
- `cache.set` runs before the record is formatted. A record that cannot be
  formatted therefore stays in the cache, and every later request for it
  hits the cache and fails again, uncaught
  (`Cadastral.CostlessRecordStaysBroken`).
- A failing plot is handled differently on the two paths. On the fetch path
  the info text has already been sent; the error message "❌ Ошибка при
  получении данных: …" follows it, and the cache entry stays
  (`Cadastral.PlotFailureAfterCacheWriteIsReported`). On the cache-hit path
  the exception escapes the handler after the info text
  (`Cadastral.HitPlotFailureEscapes`).
- The area is the first truthy of the specified and the recorded area, so a
  specified area of 0 or "" gives way to the recorded one
  (`Formatter.ZeroAreaFallsThrough`).

## Model

| member | source | states |
|---|---|---|
| `Cache.SimpleCache.constructor` | bot/utils/cache.py:17-23 | A new cache holds no entries. |
| `Cache.SimpleCache.Get` | bot/utils/cache.py:25-37 | Returns the stored `(value, time)` pair exactly when the key is present, otherwise None; nothing changes. |
| `Cache.SimpleCache.Set` | bot/utils/cache.py:39-48 | The key now maps to the value stamped with the clock reading; every other key keeps its entry. |
| `Cache.Lookup` | bot/utils/cache.py:37 | `dict.get`: a pair exactly when the key is present, and then the stored pair. |
| `Cache.Store` | bot/utils/cache.py:48 | After the assignment the key is present with the value and the clock reading. |
| `Cache.History` | bot/utils/cache.py:39-48 | Replaying set calls from an empty cache: no calls give the empty table, and the latest call's key holds that call's value and clock reading. |
| `Cache.EmptyCacheMisses` | bot/utils/cache.py:22-37 | A fresh cache answers None for every key. |
| `Cache.LookupAfterStore` | bot/utils/cache.py:48 | A get after a set of the same key returns exactly that value and that clock reading. |
| `Cache.StoreFrame` | bot/utils/cache.py:48 | A set leaves the entry of every other key unchanged. |
| `Cache.StoreOverwrites` | bot/utils/cache.py:48 | A second set of the same key replaces the first entirely: the table is as if only the second set had happened. |
| `Cache.StampsAtMostLatestClock` | bot/utils/cache.py:48 | With a clock that never runs backwards, every stored time is at most the clock reading of the latest set. |
| `Cache.StoreKeepsStamp` | bot/utils/cache.py:48 | One set keeps every present key, and does not lower its stored time when the clock has not gone back. |
| `Cache.TimestampNeverDecreases` | bot/utils/cache.py:48 | With a clock that never runs backwards, a key once present stays present, and its stored time never decreases over later sets. |
| `Formatter.Digits` | bot/utils/formatter.py:58 | The decimal text of a natural number is non-empty, all digits, has no leading zero unless the number is 0, and has at most three digits below 1000. |
| `Formatter.DigitsRoundTrip` | bot/utils/formatter.py:58 | Reading the digit text back gives the number. |
| `Formatter.GroupRoundTrip` | bot/utils/formatter.py:58 | Removing the separators from the grouped cost gives the plain digits back. |
| `Formatter.Group` | bot/utils/formatter.py:58 | The `,` grouping with commas replaced by spaces: it adds one separator per full group of three digits after the leading group. |
| `Formatter.GroupChars` | bot/utils/formatter.py:58 | The grouped cost holds only digits and spaces, so it holds no newline. |
| `Formatter.GroupLayout` | bot/utils/formatter.py:58 | A position of the grouped cost is a space exactly when it sits a multiple of four characters from the end; up to three digits are left unchanged. |
| `Formatter.FormatCost` | bot/utils/formatter.py:57-58 | An integer cost gives its decimal text with spaces between thousands; with the spaces removed it is `str(n)`, and below 1000 in magnitude it is exactly `str(n)`. The placeholder string fails with the `ValueError` of the `,` format spec. |
| `Formatter.ObjectType` | bot/utils/formatter.py:25 | The object type is `land_record_type` when present, else "Неизвестно". |
| `Formatter.Address` | bot/utils/formatter.py:26 | The address is `readable_address` when present, else "Неизвестен". |
| `Formatter.Area` | bot/utils/formatter.py:27-31 | The area is the specified area when truthy, else the recorded area when truthy, else "Неизвестна". |
| `Formatter.CostField` | bot/utils/formatter.py:32 | The cost is the number `cost_value` when present, else the text "Не указана". |
| `Formatter.Category` | bot/utils/formatter.py:33 | The land category is `land_record_category_type` when present, else "Не указана". |
| `Formatter.PermittedUse` | bot/utils/formatter.py:34-36 | The permitted use is `permitted_use_established_by_document` when present, else "Не установлен". |
| `Formatter.ZeroAreaFallsThrough` | bot/utils/formatter.py:27-31 | A specified area of 0 or "" counts as missing, and the recorded area is shown. |
| `Formatter.Pairs` | bot/utils/formatter.py:44 | A ring becomes the `(longitude, latitude)` pairs of its positions, in order and of the same length. |
| `Formatter.OuterRings` | bot/utils/formatter.py:43-46 | A MultiPolygon gives the first ring of each polygon in order. It fails with IndexError exactly when some polygon has no rings. |
| `Formatter.ExtractRings` | bot/utils/formatter.py:40-55 | Only a MultiPolygon can fail, and then with IndexError. |
| `Formatter.RingsOfGeometry` | bot/utils/formatter.py:40-55 | A Polygon gives its outer ring alone and a MultiPolygon gives the outer ring of each polygon. No geometry, empty coordinates or another geometry type give no rings. The only failure is IndexError. |
| `Formatter.JoinLines` | bot/utils/formatter.py:60-67 | Each line is followed by a newline, so a non-empty text ends with one. |
| `Formatter.InfoLines` | bot/utils/formatter.py:60-67 | There are six lines, and the fourth is the cost label, the formatted cost and " ₽". |
| `Formatter.SplitJoinRoundTrip` | bot/utils/formatter.py:60-67 | Splitting newline-terminated lines that hold no newline gives the lines back. |
| `Formatter.FormatCadastralInfo` | bot/utils/formatter.py:4-69 | The formatter succeeds exactly when the rings can be extracted and the cost attribute is present. |
| `Formatter.FormatOutcome` | bot/utils/formatter.py:4-69 | The formatter succeeds exactly when the rings can be extracted and the cost attribute is present. A ring failure is raised before a cost failure. On success it returns the extracted rings and the six info lines joined. |
| `Formatter.AbsentAttributesBecomePlaceholders` | bot/utils/formatter.py:24-36 | Missing type, address, area, category and permitted use are printed as their placeholders. |
| `Formatter.MissingCostRaises` | bot/utils/formatter.py:32-58 | A record without a cost attribute makes the formatter raise `ValueError("Cannot specify ',' with 's'.")`. |
| `Formatter.CostNoNewline` | bot/utils/formatter.py:58 | Any integer cost formats successfully and holds no newline. |
| `Formatter.SixLines` | bot/utils/formatter.py:60-67 | When no attribute text holds a newline, the info text splits into exactly the six labelled lines, in order (splitting cuts at each first newline). |
| `Cadastral.TrimStart` | bot/handlers/cadastral.py:95 | The leading-whitespace cut of `str.strip()`; the result is no longer than the text. `Cadastral.TrimStartDropsLeadingSpace` characterises it. |
| `Cadastral.TrimEnd` | bot/handlers/cadastral.py:95 | The trailing-whitespace cut of `str.strip()`; the result is no longer than the text. `Cadastral.TrimEndDropsTrailingSpace` characterises it. |
| `Cadastral.TrimStartDropsLeadingSpace` | bot/handlers/cadastral.py:95 | The leading cut removes a prefix made only of whitespace and stops at a character that is not whitespace. |
| `Cadastral.TrimEndDropsTrailingSpace` | bot/handlers/cadastral.py:95 | The trailing cut removes a suffix made only of whitespace and stops at a character that is not whitespace. |
| `Cadastral.Strip` | bot/handlers/cadastral.py:95 | `message.text.strip()`: never longer than the text; `Cadastral.StripCutsOnlyOuterWhitespace` characterises it. |
| `Cadastral.StripCutsOnlyOuterWhitespace` | bot/handlers/cadastral.py:95 | The key is a contiguous piece of the message with only whitespace cut from each end, and it neither starts nor ends with whitespace. |
| `Cadastral.StripIdempotent` | bot/handlers/cadastral.py:95 | Stripping twice is the same as stripping once. |
| `Cadastral.ErrorText` | bot/handlers/cadastral.py:60 | The error reply is "❌ Ошибка при получении данных: " followed by exactly the exception's message. |
| `Cadastral.SearchingText` | bot/handlers/cadastral.py:97 | The first reply is "🔍 Ищу информацию для кадастрового номера: " followed by exactly the stripped key. |
| `Cadastral.CacheNote` | bot/handlers/cadastral.py:109 | The cache note is a blank line, "🔁 *Данные из кэша от:* ", then the time in backquotes. |
| `Cadastral.RefreshData` | bot/handlers/cadastral.py:116 | The button data is "refresh:" followed by exactly the key. |
| `Cadastral.RefreshButton` | bot/handlers/cadastral.py:114-117 | The button reads "🔄 Обновить информацию" and its data parses back to the key it was made for. |
| `Cadastral.ParseRefresh` | bot/handlers/cadastral.py:78-79 | Callback data yields a key exactly when it is "refresh:" followed by that key. |
| `Cadastral.RefreshRoundTrip` | bot/handlers/cadastral.py:116 | The data of a refresh button parses back to exactly its key. |
| `Cadastral.Delivery` | bot/handlers/cadastral.py:51-61 | What follows the cache write: one or two messages, the first being the info text exactly when the record formats. |
| `Cadastral.FetchStep` | bot/handlers/cadastral.py:41-61 | The fetch path never lets an exception escape, asks the registry exactly once for its key, sends one or two messages, and leaves the cache unchanged unless a record was found. |
| `Cadastral.NotFoundSendsOneMessage` | bot/handlers/cadastral.py:45-47 | A falsy registry result or code 204 sends only the not-found message and leaves the cache unchanged. |
| `Cadastral.RegistryErrorIsReported` | bot/handlers/cadastral.py:59-61 | A registry exception sends one error message carrying its text and leaves the cache unchanged. |
| `Cadastral.FoundRecordIsCached` | bot/handlers/cadastral.py:49 | A found record is stored under the key with the clock reading, whatever happens after, and no other entry changes. |
| `Cadastral.FoundRecordIsSent` | bot/handlers/cadastral.py:51-57 | A found record that formats is sent first as the info text. A photo of `<key>_map.png` is sent exactly when there are rings and the plot was saved. |
| `Cadastral.ErrorAfterCacheWriteKeepsEntry` | bot/handlers/cadastral.py:49-61 | A formatting exception after `cache.set` sends one error message with its text, and the cache entry stays written. |
| `Cadastral.PlotFailureAfterCacheWriteIsReported` | bot/handlers/cadastral.py:54-61 | A plot failure on the fetch path sends the info text and then one error message with the plotter's text, and the cache entry stays written. |
| `Cadastral.HitReplies` | bot/handlers/cadastral.py:103-127 | The hit branch sends at most two messages, none exactly when formatting fails, and its first is the info with the refresh button for the key. The map photo for the key is sent exactly when formatting succeeds, the rings are non-empty and the plot is saved, and it is then the second message. |
| `Cadastral.TextStep` | bot/handlers/cadastral.py:95-130 | A text request first sends "searching" for the stripped text. It asks the registry for that key on a cache miss and not at all on a hit. |
| `Cadastral.CacheHitServesStoredRecord` | bot/handlers/cadastral.py:102-122 | On a hit the cache is unchanged and the registry is not asked. The reply is the cached record's text plus the stored-time note, with one "refresh:"+key button. |
| `Cadastral.HitPlotFailureEscapes` | bot/handlers/cadastral.py:124-127 | On a hit a failing plot is not caught: after the info reply the exception escapes the handler. |
| `Cadastral.CallbackStep` | bot/handlers/cadastral.py:76-82 | A callback never lets an exception escape. Data that is not a refresh does nothing. A refresh answers the callback first and asks the registry for exactly the button's key. |
| `Cadastral.ForeignCallbackIgnored` | bot/handlers/cadastral.py:76-78 | Callback data without the "refresh:" prefix sends nothing, fetches nothing and leaves the cache unchanged. |
| `Cadastral.RefreshBypassesCache` | bot/handlers/cadastral.py:78-82 | A refresh answers the callback and then fetches from the registry even when the key is cached. A found record overwrites the entry. |
| `Cadastral.SecondRequestHitsCache` | bot/handlers/cadastral.py:100-130 | After a successful fetch, the same text asked again is served from the cache without a registry call, and the note shows the fetch time. |
| `Cadastral.CostlessRecordStaysBroken` | bot/handlers/cadastral.py:49-104 | A record without a cost is cached before formatting raises. The first request reports the error. Every later request hits the cache and raises again, uncaught, after the "searching" message. |
| `Cadastral.CadastralBot.constructor` | bot/handlers/cadastral.py:26 | The module-level cache starts empty, with nothing sent and nothing asked. |
| `Cadastral.CadastralBot.FetchAndSendRealData` | bot/handlers/cadastral.py:31-61 | The outbox, cache table and registry queries change exactly as `FetchStep` describes for the cache table before the call. |
| `Cadastral.CadastralBot.ProcessCallback` | bot/handlers/cadastral.py:66-82 | The outbox, cache table and registry queries change exactly as `CallbackStep` describes. |
| `Cadastral.CadastralBot.AnswerFromCache` | bot/handlers/cadastral.py:103-127 | The hit branch appends exactly the replies that `HitReplies` describes, asks the registry nothing, and reports the exception it lets escape. |
| `Cadastral.CadastralBot.GetCadastralInfo` | bot/handlers/cadastral.py:85-130 | The outbox, cache table, registry queries and outcome change exactly as `TextStep` describes. |

## Left out

- `bot/utils/plotter.py` is not part of this model. `plot_polygon` is the function `Env.plot`, which either saves `<key>_map.png` or raises with a message.
- The registry client (`Nspd`) is the function `Env.find`. It is reduced to four outcomes: a feature, a falsy value, a dict with code 204, or an exception. A truthy dict with another code is left out: the code caches it and then fails to format it with an AttributeError, and the cache here holds feature records only.
- The asyncio lock in `SimpleCache` and concurrent handler calls are left out. Calls are modelled one after another.
- `datetime.now(timezone.utc)` is the `now` parameter. Converting to Moscow time and `strftime` are the function `Env.showTime` applied to the stored time.
- Telegram I/O (aiogram messages, Markdown parsing, `FSInputFile`, the inline keyboard) is reduced to the `Output` values appended to the outbox.
- Float attribute values and float coordinates are not computed on. Areas are integers or texts, costs are integers, and coordinates are opaque `real` pairs that are only copied.
- Attributes that are present with the value None, callback data that is None, and a geometry object that is falsy are left out. Attributes are either present with a value or missing.
- Messages without text are left out. `get_cadastral_info` is registered for every message, so a photo or a sticker has `message.text` None, and `strip()` raises AttributeError before anything is sent. The model takes the text as a string and does not capture that failure.
- Formatter.FormatCost: the thousands grouping is stated by `Formatter.GroupLayout` and `Formatter.GroupRoundTrip` on the digit text. The cost's own contract does not repeat the layout.
- Cadastral.CadastralBot.GetCadastralInfo: the `if cached:` test is modelled as key presence, because a stored pair is always a non-empty tuple.
- `bot/handlers/commands.py` and `bot/bot.py` (start command, router setup, polling) are not part of this model.
