# Price-list bot: a Dafny model of its core logic

The bot serves a catalogue of prices, such as phones and laptops, in a
Telegram chat. A Google spreadsheet holds the catalogue, one sheet per
category, with rows of model and price. The bot reads those sheets and keeps
the rows in memory. The user navigates a menu of categories and
subcategories. Each product list is rendered as an HTML message: short
models are section headers, and prices are grouped by thousands.

This project models the deterministic logic under the chat and spreadsheet
I/O, and proves properties of it.

- **Category registry** (`Registry`): the configured categories, as an
  ordered sequence of distinct keys to nodes. A node is either a *direct*
  category bound to one sheet, or a *container* of subcategories, each bound
  to a sheet. The sheet configuration used by the main keyboard is a second
  ordered sequence.
- **Sheet reader** (`Sheets`): the row filter of `get_sheet_data` and the
  connection flag. The API's answer for a sheet is a parameter (`FetchResult`).
- **Leaf cache** (`Cache`): one product list per leaf of the registry. The
  cache is refreshed wholesale in registry order, reads are total, and it
  reports per-leaf counts. A two-state flag records the auto-update task.
- **Product store** (`Store`): the SQLite store as in-memory tables. It
  holds rows with an autoincrement id and a metadata map. A save deletes the
  category's rows by key, appends the new rows, then upserts the timestamp.
- **Formatters** (`Formatters`):
  - the product list, with its section and counter logic and its emoji search;
  - the integer path of the price formatter;
  - the statistics message.
- **Progress bar** (`Progress`): the percent and bar arithmetic, the frame
  cycle, and the change detection before an edit.
- **Main keyboard** (`Keyboard`): the sheet buttons, two to a row, then the
  refresh row.
- **Callback handlers** (`Callbacks`):
  - first-match lookup of a button's token;
  - the per-user memory of the last category;
  - the admin gate on refresh;
  - the list of registered tokens.
- **Single-file version** (`Legacy`): the earlier `main.py`. It has its own
  reader, a cache with two fixed keys, its refresh, and a plain numbered list.

Python strings are `seq<char>`, dictionaries are sequences of pairs in
insertion order (or maps where order does not matter), and `int` is
unbounded as in Python. Things the bot gets from outside are parameters:

- the spreadsheet's answers;
- the clock (elapsed time, current timestamp);
- the admin check;
- Python's float formatting, which is only used in the float branch of the
  price formatter;
- the outcome of a Telegram edit.

## Model

| member | source | states |
|---|---|---|
| `Text.StripEmptyIff` | services/google_sheets.py:55 | a stripped cell is empty exactly when every character is Python whitespace, so `row[i].strip()` is falsy exactly for blank cells |
| `Text.StripIdempotent` | services/google_sheets.py:56 | stripping a stripped cell changes nothing, so the stored cells are already stripped |
| `Text.DigitsRoundTrip` | bot/utils/formatters.py:59-61 | the decimal numeral of `n` reads back as `n`, so `str(int)` inverts `int()` on numerals |
| `Text.ValueRoundTrip` | bot/utils/formatters.py:59-61 | a digit string with no superfluous leading zero is the numeral of its own value |
| `Text.RemoveConcat` | bot/utils/formatters.py:49 | `replace(c, '')` works independently on the two halves of a concatenation |
| `Text.RemoveAbsent` | bot/utils/formatters.py:49 | removing an absent character leaves the string unchanged |
| `Sheets.FilterRows` | services/google_sheets.py:53-56 | the filter loop returns exactly `Kept(rows)`: the stripped first two cells of each row that has two non-blank cells, in input order |
| `Sheets.KeptAppend` | services/google_sheets.py:54-56 | filtering distributes over concatenation, so input order is kept |
| `Sheets.KeptSingle` | services/google_sheets.py:55-56 | one row contributes its stripped pair when it has at least two non-blank cells, and nothing otherwise; extra cells are ignored |
| `Sheets.KeptBound` | services/google_sheets.py:54-56 | there is at most one product per data row |
| `Sheets.KeptFromRows` | services/google_sheets.py:55-56 | every product consists of two non-empty stripped cells taken from some accepted row |
| `Sheets.KeptEmptyIff` | services/google_sheets.py:54-56 | the output is empty exactly when no data row qualifies |
| `Sheets.HeaderIgnored` | services/google_sheets.py:54 | the first row never influences the result |
| `Sheets.SheetDataBound` | services/google_sheets.py:49-56 | the output has at most `len(values) - 1` entries, and none for an empty sheet |
| `Sheets.SheetsReader.constructor` | services/google_sheets.py:15-31 | the reader is connected exactly when the connect attempt succeeded |
| `Sheets.SheetsReader.Connect` | services/google_sheets.py:20-31 | success sets a service; failure leaves `None` |
| `Sheets.SheetsReader.IsConnected` | services/google_sheets.py:85-87 | whether a service is held; without one, every sheet read gives `[]` |
| `Sheets.SheetsReader.GetSheetData` | services/google_sheets.py:33-63 | no service gives `[]`; an exception gives `[]`; a missing or empty `values` gives `[]`; otherwise the filtered rows after the header |
| `Sheets.SheetsReader.GetAllSheetsData` | services/google_sheets.py:65-71 | the result has exactly the configured keys, and each key holds the data of its own sheet |
| `Cache.OverwrittenKeys` | data/cache.py:47-63 | writing leaves into the cache adds their keys and removes none |
| `Cache.OverwrittenConcat` | data/cache.py:47-63 | writing the direct leaves and then the subcategory leaves is one write of all leaves |
| `Cache.OverwrittenAt` | data/cache.py:51 | a leaf holds what was written for it unless a later leaf with the same key overwrote it |
| `Cache.OverwrittenOther` | data/cache.py:47-63 | keys that no leaf names keep their old contents |
| `Cache.RefreshedLeaf` | data/cache.py:47-63 | with distinct leaf keys, each leaf key holds exactly its own sheet's data after a refresh, `[]` included |
| `Cache.OverwrittenIdempotent` | data/cache.py:47-63 | refreshing twice from the same sheet data equals refreshing once |
| `Cache.OverwrittenUnderWrite` | data/cache.py:51 | a write made before the leaves are written is cancelled by the same write made after them |
| `Cache.DataCache.constructor` | data/cache.py:14-32 | the cache holds `[]` for every direct key and every subcategory key of a container, and no other key; there is no task |
| `Cache.DataCache.InitCache` | data/cache.py:21-32 | the cache gets `[]` written for every direct leaf, then for every subcategory leaf |
| `Cache.DataCache.InitDirect` | data/cache.py:24-26 | the direct categories get `[]`, in registry order |
| `Cache.DataCache.InitContainers` | data/cache.py:29-32 | every subcategory of every container gets `[]`, container by container |
| `Cache.DataCache.InitSubcategories` | data/cache.py:31-32 | the subcategories of one container get `[]`, in order |
| `Cache.DataCache.GetCategory` | data/cache.py:34-36 | the stored list for a known key, and `[]` for any other key |
| `Cache.DataCache.UpdateAll` | data/cache.py:38-65 | no reader or no connection: the cache and call log are unchanged; otherwise every leaf is overwritten with its fetched list, empty ones included, and sheets are requested in order (all direct leaves, then all subcategories); the leaf keys are preserved |
| `Cache.DataCache.RefreshDirect` | data/cache.py:47-53 | the direct leaves are overwritten with their fetched lists, in registry order |
| `Cache.DataCache.RefreshContainers` | data/cache.py:56-63 | the subcategory leaves are overwritten with their fetched lists, container by container |
| `Cache.DataCache.RefreshSubcategories` | data/cache.py:58-63 | the subcategories of one container are overwritten from their sheets, in order |
| `Cache.DataCache.GetStats` | data/cache.py:67-82 | the dictionary `get_stats` builds, as its items in the order the loops assign them: each leaf key once, with the length of its cached list |
| `Cache.DataCache.CountDirect` | data/cache.py:72-74 | the direct categories are assigned in registry order |
| `Cache.DataCache.CountContainers` | data/cache.py:77-80 | every subcategory is assigned after the first loop's items, container by container |
| `Cache.DataCache.CountSubcategories` | data/cache.py:79-80 | one container's subcategories are assigned in their order |
| `Cache.AssignFacts` | data/cache.py:74 | `d[k] = v` keeps the keys distinct, puts `(k, v)` in place of the key's old item, keeps every other item, and appends a new key at the end |
| `Cache.AssignKeys` | data/cache.py:74 | `d[k] = v` adds exactly the key `k` |
| `Cache.CountedFacts` | data/cache.py:69-80 | the counting loops build a dictionary whose keys are the leaf keys, each with the length of its cached list |
| `Cache.CountedInOrder` | data/cache.py:69-80 | with distinct leaf keys there is one item per leaf, direct categories first and then subcategories container by container, which is the order `format_stats` prints them in |
| `Cache.DataCache.StartAutoUpdate` | data/cache.py:84-95 | a no-op when a task exists; otherwise the new task is recorded |
| `Cache.DataCache.StopAutoUpdate` | data/cache.py:97-102 | the task field ends as `None`, and the task that was there (if any) is the one cancelled |
| `Store.MetaKeyInjective` | data/database.py:71 | distinct categories never share a `last_update_<key>` entry |
| `Store.SelectConcat` | data/database.py:81-87 | selecting by key distributes over the table's order |
| `Store.SelectEmptyIff` | data/database.py:81-87 | a key reads back empty exactly when no row has that key |
| `Store.SelectWithout` | data/database.py:58 | after the delete, the key reads back empty and every other key reads as before |
| `Store.WithoutSubseq` | data/database.py:58 | the delete keeps only old rows of other keys |
| `Store.SelectInserted` | data/database.py:61-65 | the inserted rows read back as the saved products, in order, under the saved key only |
| `Store.SelectAfterSave` | data/database.py:58-65 | after a save the key reads back exactly its new products (replace, not append), and other keys are untouched |
| `Store.GroupCountAll` | data/database.py:106-110 | when every row of a key carries the same name, that key's one group counts all of the key's rows |
| `Store.Database.constructor` | data/database.py:12-50 | a fresh database has empty tables and ids starting at 1 |
| `Store.Database.SaveProducts` | data/database.py:52-75 | delete by key, then append numbered rows, then upsert `last_update_<key>`; afterwards `get_products(key)` is the products, every other key is unchanged, `get_last_update(key)` is the new time, and ids stay increasing with one name per key |
| `Store.Database.KeptOrdered` | data/database.py:58 | the delete keeps the ids increasing |
| `Store.Database.SavedOrdered` | data/database.py:58-65 | the rows inserted after the delete take fresh ids above every kept row, so ids stay increasing |
| `Store.Database.SavedNames` | data/database.py:58-65 | a save keeps one category name per category key |
| `Store.Database.NameOf` | data/database.py:61-65 | after a save, every row of the saved key carries the saved name, and every other row is an old one |
| `Store.Database.GetProducts` | data/database.py:77-87 | on a valid table, where ids increase along the rows, the key's products in id order; `[]` for a key with no rows |
| `Store.Database.GetLastUpdate` | data/database.py:119-129 | the stored time when the metadata entry exists, and `None` exactly when it does not |
| `Store.Database.GetAllProducts` | data/database.py:89-101 | on a valid table, a key appears exactly when some row has it, and holds that key's products in id order, never empty |
| `Store.Database.GetStats` | data/database.py:103-117 | exactly the keys with rows; each key's count is the `COUNT(*)` of its (key, name) group, which on a valid table (one name per key) is its number of rows |
| `Store.Database.ClearAll` | data/database.py:131-137 | both tables are emptied, so every key then reads `[]` and `None` |
| `Formatters.IntBodyDigits` | bot/utils/formatters.py:59 | dropping the underscores of an `int()` body leaves only digits |
| `Formatters.FormatPrice` | bot/utils/formatters.py:45-65 | the result is either the raw price or a formatted number followed by `" ₽"` |
| `Formatters.GroupUngroup` | bot/utils/formatters.py:60 | removing the separators of a grouped numeral gives the digits back |
| `Formatters.GroupShape` | bot/utils/formatters.py:60 | a grouped numeral consists of digits and spaces and starts with the first digit |
| `Formatters.FormatPriceDigits` | bot/utils/formatters.py:45-65 | a cleaned digit string of at most 4300 digits gives its value grouped by thousands with spaces, then `" ₽"`; a longer one makes `int()` raise, so the raw price comes back |
| `Formatters.ParseDigits` | bot/utils/formatters.py:52-59 | a digit string takes the integer branch (it has no `.`), and `int()` reads it as its value exactly when it has at most 4300 digits |
| `Formatters.FormatPriceCanonical` | bot/utils/formatters.py:49-65 | within the digit limit and without superfluous leading zeros, the result is the cleaned digits themselves, grouped; past the limit, the raw price |
| `Formatters.FormatPriceRaw` | bot/utils/formatters.py:64-65 | an unparseable price comes back as the raw input, not the cleaned string |
| `Formatters.BodyOfDigits` | bot/utils/formatters.py:59 | a numeral is an `int()` body with its own value, and is convertible exactly when it has at most 4300 digits |
| `Formatters.ParseIntToString` | bot/utils/formatters.py:59 | `int(str(n)) == n` when `n` has at most 4300 digits; beyond that `int()` raises |
| `Formatters.ParseIntBound` | bot/utils/formatters.py:59-61 | a value `int()` returns has at most 4300 digits |
| `Formatters.IntStringChars` | bot/utils/formatters.py:59-61 | `str(n)` consists of digits and a minus sign only |
| `Formatters.UngroupFormatted` | bot/utils/formatters.py:49-63 | removing the spaces of a formatted integer price gives `str(n)` and the rouble sign |
| `Formatters.CleanFormatted` | bot/utils/formatters.py:49-63 | the cleaning step maps a formatted integer price back to `str(n)` |
| `Formatters.FormatPriceIdempotent` | bot/utils/formatters.py:45-63 | formatting an already formatted integer price changes nothing |
| `Formatters.FirstSubEmojiMatch` | bot/utils/formatters.py:22-25 | a container with a subcategory of that name gives the first such subcategory's emoji, whatever emoji was found before |
| `Formatters.FirstSubEmojiMiss` | bot/utils/formatters.py:22-25 | a container without one leaves the emoji found so far |
| `Formatters.ScanEmojiDirect` | bot/utils/formatters.py:16-20 | the first direct category with the name decides the emoji |
| `Formatters.ScanEmojiDefault` | bot/utils/formatters.py:13-25 | with no leaf of that name the emoji is `📦` |
| `Formatters.ScanEmojiLastContainer` | bot/utils/formatters.py:16-25 | with no direct match, the last container holding a match decides the emoji |
| `Formatters.FindEmoji` | bot/utils/formatters.py:13-25 | the search loop with its two `break`s computes the scan above |
| `Formatters.FormatProductsList` | bot/utils/formatters.py:5-43 | an empty list gives exactly `"❌ Нет данных по категории {category}"`; otherwise the header with the found emoji, then the lines of the list |
| `Formatters.HeadedList` | bot/utils/formatters.py:13-41 | a non-empty list is the header with the emoji the category search finds, then the rendered lines |
| `Formatters.AppendLines` | bot/utils/formatters.py:32-41 | the loop appends exactly the rendered lines of `LinesOf(products)`: a section line for a short model, nothing for a hidden item, a numbered item otherwise |
| `Formatters.LinesFollowShown` | bot/utils/formatters.py:35-41 | the lines correspond one-to-one, in order, to the products that are not hidden; a short model becomes a section whatever its price |
| `Formatters.ShownIsFilter` | bot/utils/formatters.py:35-38 | the shown products are exactly the input without long models priced `"0"` |
| `Formatters.CountAfterLast` | bot/utils/formatters.py:7-41 | the counter is 1 at the start and after a section header, and one past the last item's number otherwise |
| `Formatters.NumberingConsecutive` | bot/utils/formatters.py:7-41 | within a section, items are numbered 1, 2, 3 … in order |
| `Formatters.SubLabelsKeys` | bot/utils/formatters.py:88-93 | recording a container's subcategories adds exactly their keys |
| `Formatters.NamesKeys` | bot/utils/formatters.py:78-93 | the name table knows exactly the leaf keys of the registry |
| `Formatters.TotalOverLeaves` | bot/utils/formatters.py:96-102 | the reported total is the sum of counts over keys that are leaves of the registry; unknown keys are neither shown nor counted |
| `Formatters.TotalAllKnown` | bot/utils/formatters.py:96-102 | when every key is known, the total is the plain sum of the counts |
| `Formatters.AddSubLabels` | bot/utils/formatters.py:89-93 | the inner loop records one container's subcategory labels |
| `Formatters.CollectNames` | bot/utils/formatters.py:78-93 | the loop builds the name table of the registry |
| `Formatters.AppendStats` | bot/utils/formatters.py:96-102 | the stats loop appends one line per entry with a known key, in order, and totals exactly those entries' counts |
| `Formatters.FormatStats` | bot/utils/formatters.py:67-104 | empty stats give `"📊 Нет данных для статистики"`; otherwise the header, one line per known key in the given order, and the footer with the total of known counts |
| `Progress.PercentBounds` | bot/utils/progress.py:37 | for `0 <= current <= total`, the percent lies in 0..100 and is 100 at the end |
| `Progress.BarShape` | bot/utils/progress.py:47-48 | for `0 <= current <= total`, at most `width` cells are filled and the bar is exactly `width` cells wide |
| `Progress.Estimated` | bot/utils/progress.py:41-44 | the estimate is 0 until some progress is made |
| `Progress.FrameShowsInText` | bot/utils/progress.py:51-55 | two messages with different frames differ, so consecutive updates never have identical text |
| `Progress.ProgressBar.constructor` | bot/utils/progress.py:9-21 | `current` 0, no last text, last percent -1, frame 0 |
| `Progress.ProgressBar.NextFrame` | bot/utils/progress.py:23-25 | the frame advances by one modulo 4 and remains a valid index |
| `Progress.ProgressBar.MessageText` | bot/utils/progress.py:37-63 | the message `update` renders starts with the bar's emoji, a space and the current animation frame |
| `Progress.ProgressBar.Update` | bot/utils/progress.py:34-76 | `current` is stored first; a zero total raises before anything else changes; otherwise the frame advances and the text is the rendered message for the floor-divided percent; the edit is attempted only when the text changed |
| `Progress.ProgressBar.Send` | bot/utils/progress.py:66-73 | skipped exactly when the text is unchanged; `last_text` is replaced only after a successful edit; "message is not modified" is swallowed and any other error propagates |
| `Keyboard.PairsFlatten` | bot/keyboards/main.py:11-27 | reading the category rows in order gives the buttons in configuration order |
| `Keyboard.PairsShape` | bot/keyboards/main.py:21-27 | there are `ceil(n/2)` category rows; every row but the last has 2 buttons; the last has 1 exactly when n is odd; no row is empty |
| `Keyboard.MainKeyboard` | bot/keyboards/main.py:5-32 | the loop produces the buttons in pairs, then the refresh row |
| `Keyboard.MainKeyboardLayout` | bot/keyboards/main.py:11-30 | `ceil(n/2) + 1` rows; flattening all but the last gives the configured buttons in order; the last row is the single `refresh_data` button |
| `Callbacks.FirstCategoryIsFirst` | bot/handlers/callbacks.py:41-45 | nothing is found exactly when no entry carries the token; otherwise the entry found is the one with the lowest index carrying it |
| `Callbacks.FirstSubFound` | bot/handlers/callbacks.py:86-91 | a subcategory is found exactly when one carries the token, and it is then the first one that does (the inner `break`) |
| `Callbacks.FirstProductFound` | bot/handlers/callbacks.py:84-93 | a product is found exactly when some container has a subcategory with the token; direct categories are never searched; the parent is the first container with a match (the outer `break`), and the product is that container's first matching subcategory |
| `Callbacks.ByKeyFound` | bot/handlers/callbacks.py:126-127 | indexing the registry by key succeeds exactly for registry keys, and with distinct keys it gives that key's node |
| `Callbacks.FindCategory` | bot/handlers/callbacks.py:38-45 | the loop with `break` returns the first match |
| `Callbacks.FindProduct` | bot/handlers/callbacks.py:80-93 | the nested loops with their two `break`s return the first match over the containers |
| `Callbacks.FindSub` | bot/handlers/callbacks.py:86-91 | the inner loop returns the first matching subcategory |
| `Callbacks.Router.constructor` | bot/handlers/callbacks.py:19-20 | the last-category map starts empty |
| `Callbacks.Router.ShowCategoryMenu` | bot/handlers/callbacks.py:30-70 | unknown token: the map is unchanged and "not found" is shown; known: exactly the user's entry becomes the key, then the product list of a direct category or the subcategory menu of a container is shown |
| `Callbacks.Router.ShowProductCategory` | bot/handlers/callbacks.py:72-112 | unknown token: the map is unchanged and "not found" is shown; known: exactly the user's entry becomes the parent container's key, and the subcategory's product list is shown |
| `Callbacks.Router.BackToSubcategories` | bot/handlers/callbacks.py:119-133 | a remembered key is used only if it is non-empty and in the registry, otherwise the main menu is shown; since remembered keys are always registry keys, any non-empty remembered key opens its menu |
| `Callbacks.Router.RefreshData` | bot/handlers/callbacks.py:135-153 | a non-admin gets "no rights" and the cache is untouched; an admin with a connected reader gets a full refresh; without one, the cache is untouched and a connection error is shown |
| `Callbacks.CategoryTokensRoute` | bot/handlers/callbacks.py:166-167 | a token is registered for the category handler exactly when that handler, at lines 41-45, finds a category for it |
| `Callbacks.ProductTokensRoute` | bot/handlers/callbacks.py:169-171 | a token is registered for the product handler exactly when that handler, at lines 84-93, finds a product for it |
| `Callbacks.CollectTokens` | bot/handlers/callbacks.py:163-171 | one category token per registry entry, and product tokens from containers only, in order |
| `Callbacks.CollectSubTokens` | bot/handlers/callbacks.py:170-171 | one token per subcategory of a container, in order |
| `Callbacks.RegisterCallbacks` | bot/handlers/callbacks.py:156-182 | handlers are registered in order: the three navigation handlers, the category tokens, the product tokens, then `refresh_data` |
| `Callbacks.Register` | bot/handlers/callbacks.py:174-179 | each token is registered with the handler, in order |
| `Legacy.LegacySheetData` | main.py:59-84 | agrees with the packaged reader in every case: a missing service raises and is caught (giving `[]`), then the header is skipped and valid pairs are stripped |
| `Legacy.LegacyFormatList` | main.py:131-139 | an empty list gives the "no data" line; otherwise the header and one line per product, numbered from 1, in order |
| `Legacy.ConcatSnoc` | main.py:136-137 | adding a product adds exactly one line, numbered one past the previous count |
| `Legacy.LegacyBot.constructor` | main.py:94-98 | the cache starts with exactly `iphones` and `macbooks`, both `[]` |
| `Legacy.LegacyBot.Get` | main.py:171 | a read gives `[]` for a missing key, as at line 179 too |
| `Legacy.LegacyBot.ShowList` | main.py:167-181 | the list of one cached key, as the formatter renders it |
| `Legacy.LegacyBot.RefreshData` | main.py:183-205 | with a reader, both keys are overwritten with the two sheets' data, even when the reader failed to connect; without one, the cache is unchanged; the two key sets stay the same |

## Left out

- Google API calls, credentials and `connect` internals. The result of a
  values request is a `FetchResult` parameter, and a connect attempt is a
  boolean.
- `get_sheet_info` of the reader. It lists sheet titles through the API and
  has no logic of its own.
- SQLite connections, commits, `init_db`'s `CREATE TABLE` statements, the
  `updated_at` columns, and opening an existing database file. The store is
  two in-memory tables with no claim about atomicity or concurrent readers.
- `Store.Database.GetStats`: the insertion order of its dictionary, which
  follows SQLite's output order for the groups. No `ORDER BY` fixes that
  order, so the model returns a map.
- Insertion order of the dictionary that `get_all_products` builds. The
  model returns a map, so the SQL `ORDER BY category_key` only matters for
  that order. Each list's id order is modelled.
- `asyncio.sleep` pacing, `create_task`, the `updater` and `update_cache`
  loops, and task cancellation. These are scheduling; only the task-present
  flag is kept.
- The startup load in `main()` of the single-file version. It performs the
  same two-key overwrite as its `refresh_data`.
- The float branch of `format_price`, which is the parameter
  `floatFormat`.
- `Formatters.ParseInt`: it models `int()` on ASCII digits with an optional
  sign and single underscores. It does not model Unicode decimal digits,
  which Python's `int()` also accepts. Its digit limit is CPython's default,
  4300. A limit changed with `sys.set_int_max_str_digits` or
  `PYTHONINTMAXSTRDIGITS` is not modelled, and neither is an interpreter
  that predates the limit.
- `Text.IntToString`: it does not model that `str()` raises past 4300
  digits. The numbers the bot prints are counts, percentages, list numbers
  and values `int()` returned, all within the limit.
- `Progress.IsNotModified`: it lowers ASCII letters only. Python's `lower()`
  also maps a few non-ASCII letters to ASCII, such as the Kelvin sign to `k`.
- The clock of the progress bar and `_format_time`. These are parameters:
  the elapsed time is a number, and the formatting is a function. Float
  arithmetic of the estimate is modelled with reals.
- `finish` and `error` of the progress bar, and its console log.
- The unused `details` and `emoji` parameters of `update`. The unused field
  `last_percent` is modelled, but it is only ever assigned -1.
- All Telegram calls: `answer` without text, `edit_text`, and
  `InlineKeyboardMarkup`. Screens are records of text plus a keyboard name.
- `get_subcategory_keyboard`, `get_back_keyboard` and
  `get_back_to_menu_keyboard`. The handlers import them, but the keyboard
  module does not define them, so screens only name them.
- The handlers also call `get_main_keyboard(user_id)`, which takes no
  argument, so those calls raise `TypeError`. The model treats all of them
  as "the main keyboard".
- Logging, `run.py`, configuration loading and validation, and the message
  handlers of `bot/handlers/commands.py`. These are plumbing with no
  decisions of their own.
- aiogram's dispatch among registered handlers. A category token equal to
  `main_menu` would reach the first registered handler; the model only lists
  the registrations.

## Behaviours of the code worth noting

These behaviours of the code are modelled as written:

- **Failed fetches.** A failed fetch returns `[]`, and `update_all` writes
  that `[]` over the cached list (`Cache.DataCache.UpdateAll`,
  `Cache.RefreshedLeaf`).
- **Refresh report.** A refresh returns nothing; no per-category outcome is
  reported.
- **Stopping auto-update.** `stop_auto_update` only cancels the task and
  clears the field.
- **Cache and store.** `data/cache.py` never calls `data/database.py`, so
  the model keeps them separate.
- **Emoji search.** The search in `format_products_list` stops at a direct
  category with the name. A container match does not stop it, so a later
  container with the same subcategory name sets the emoji
  (`Formatters.ScanEmojiLastContainer`).
- **Back to subcategories.** `show_category_menu` also remembers direct
  categories. So `back_to_subcategories` can show the subcategory menu of a
  direct category.
- **Store ids.** `clear_all` does not reset the AUTOINCREMENT counter.
