# Visit-collection bot (tagihan), modelled in Dafny

An account officer's field agents use this WhatsApp bot to record collection visits to borrowers. A command such as `moni <SPK> …`, `canvasing …`, `janji …` or `tagihan <SPK> …` opens a per-agent session. The session holds a visit that is seeded from the bank's bill for that SPK (loan contract number). The state engine then asks for each missing field that the visit's type calls for, in the order SPK, note, plafond, appointment, reminder date, name, address and business. Each answer is validated by the handler registered for the current state. When the visit is complete it is saved and summarised, and the session is dropped. The `cancel` command is meant to drop a session early, but it never can: a sender with a session is routed to the state engine before any command is looked up, and `cancel` does nothing for a sender without one. `lkn` and `rkh` produce PDF reports of visits. `up_tagihan <URL>` replaces the bill collection with a CSV export. A morning job sends each agent the reminders due that day.

The model follows the Java packages:

- Value types and string or number helpers are datatypes and functions: `Domain`, `JavaText`, `JavaLong`, `Dates`, `CurrencyUtil`, `CaptionFindUtil`, `NumberParser`.
- The CSV line pipeline is pure functions: `DownloadService`.
- The session map, the bill and visit collections, the user registry and the gateway are classes whose methods update their fields: `Stores`, `Users`, `BillsImport`, `Sessions`.
- The rest is modelled from the message dispatcher (`MessageDispatch`) down through the commands (`VisitCommands`, `TagihanCommand`, `UpTagihanCommand`, `CancelCommand`, `Reports`), the state dispatcher (`StateDispatch`) and the per-state handlers (`StateHandlers`), to the prompts and summaries (`Prompts`, `Summaries`) and the decision of which field comes next (`NextState`).

The scheduler is `ReminderScheduler`.

The database, the WhatsApp gateway and the HTTP download are collaborators:

- The stores are classes whose state is a `seq` or a `map`.
- The gateway is a log of handed-over messages.
- The download is a function parameter `fetch`. It yields a `Fetched` value: `URI.create` rejects the URL, or some lines arrive and the stream then ends or fails.
- Clocks become parameters (`now`, `today`).
- Store failures are flags the caller cannot see in advance.

## Model

| member | source | states |
|---|---|---|
| JavaText.Trim | src/main/java/com/example/tagihan/service/DownloadService.java:64 | the trimmed text has no char at or below U+0020 at either end, is no longer than the input, and is empty exactly when every char of the input is at or below U+0020 |
| JavaText.TrimKeeps | src/main/java/com/example/tagihan/service/DownloadService.java:64 | a text starting and ending with a char above U+0020 is its own trim |
| JavaText.TrimIdempotent | src/main/java/com/example/tagihan/handler/BaseVisitHandler.java:91-94 | trimming twice is trimming once, so the second trim of the canvasing note changes nothing |
| JavaText.RemoveAll | src/main/java/com/example/tagihan/util/NumberParser.java:39 | deleting every occurrence of a target never lengthens the text |
| JavaText.Fields | src/main/java/com/example/tagihan/service/DownloadService.java:47 | there is at least one field and no field contains the separator |
| JavaText.JoinFields | src/main/java/com/example/tagihan/service/DownloadService.java:47 | joining the fields with the separator gives back the original text, so splitting loses nothing |
| JavaText.DropTrailingEmpty | src/main/java/com/example/tagihan/handler/UpTagihan.java:31 | the result is a prefix of the fields, does not end in an empty field, and every dropped field is empty |
| JavaText.Split | src/main/java/com/example/tagihan/handler/UpTagihan.java:31 | without the separator the result is the whole text; otherwise it is all fields with the trailing empty ones dropped |
| JavaText.FirstField | src/main/java/com/example/tagihan/dispatcher/WhatsAppMessageDispatcher.java:80 | the first field is a separator-free prefix of the text, followed by the separator unless it is the whole text |
| JavaText.SplitWhitespaceOnce | src/main/java/com/example/tagihan/handler/BaseVisitHandler.java:99 | the first part holds no `\s` char; there is no second part exactly when the text holds no `\s` char, and then the first part is the whole text |
| JavaText.ToUpper | src/main/java/com/example/tagihan/handler/StateChangedListener.java:121-122 | the result has the same length and each char is the upper-case form of the input's char |
| JavaText.Decimal | src/main/java/com/example/tagihan/service/DownloadService.java:130 | the decimal digits of a number are at least one ASCII digit with no leading zero |
| JavaText.DecimalValue | src/main/java/com/example/tagihan/service/DownloadService.java:130 | the value of the decimal digits of `n` is `n` |
| JavaText.DigitsValueBound | src/main/java/com/example/tagihan/service/DownloadService.java:130 | a string of `k` digits has a value below 10^k |
| JavaText.DecimalLength | src/main/java/com/example/tagihan/util/DateRangeUtil.java:51-53 | a number below 10^k has at most `k` decimal digits |
| JavaText.PadDecimal | src/main/java/com/example/tagihan/util/DateRangeUtil.java:51-53 | zero-padding gives at least `width` ASCII digits |
| JavaLong.Wrap | src/main/java/com/example/tagihan/handler/BaseVisitHandler.java:238 | the wrapped value is a `long`, differs from the exact value by a multiple of 2^64, and equals it when it is in range |
| JavaLong.Add | src/main/java/com/example/tagihan/handler/BaseVisitHandler.java:238 | `long` addition is exact inside the range and wraps by 2^64 above and below it |
| JavaLong.ParseLong | src/main/java/com/example/tagihan/service/DownloadService.java:128-134 | a parsed value is always inside the `long` range |
| JavaLong.LongToString | src/main/java/com/example/tagihan/service/DownloadService.java:128-134 | a printed `long` is never empty |
| JavaLong.ParseLongToString | src/main/java/com/example/tagihan/service/DownloadService.java:128-134 | parsing a printed `long` gives back the number, negative ones included |
| JavaLong.ParseLongRejectsNonDigit | src/main/java/com/example/tagihan/service/DownloadService.java:128-134 | a text with a char after the first that is not a digit is rejected |
| Dates.PrevDay | src/main/java/com/example/tagihan/handler/state/AddReminder.java:48 | the day before a valid date is a valid date, before it, and no valid date lies between the two |
| Dates.NewDateRange | src/main/java/com/example/tagihan/util/DateRangeUtil.java:39-45 | a range exists exactly when its start is not after its end, and keeps both ends |
| Dates.CreateDateRange | src/main/java/com/example/tagihan/util/DateRangeUtil.java:27-31 | the range of two dates exists exactly when the end date is not before the start date |
| Dates.CreateDayRange | src/main/java/com/example/tagihan/util/DateRangeUtil.java:18-20 | the range of one day always exists |
| Dates.DayRangeContains | src/main/java/com/example/tagihan/util/DateRangeUtil.java:18-20 | a day's range holds an instant exactly when the instant's Jakarta date is that day |
| Dates.DateRangeContains | src/main/java/com/example/tagihan/util/DateRangeUtil.java:27-31 | a range of two dates holds exactly the instants whose Jakarta date lies between them, both included |
| Dates.RangeHoldsItsEnds | src/main/java/com/example/tagihan/util/DateRangeUtil.java:47-49 | `contains` includes both ends of every range that was built |
| Dates.ParseDate | src/main/java/com/example/tagihan/util/DateRangeUtil.java:51-53 | every date read from text is a valid calendar date with a four-digit year |
| Dates.DateString | src/main/java/com/example/tagihan/handler/state/CompletedVisitState.java:88-90 | for a four-digit year the printed date is the ISO `yyyy-MM-dd` text |
| Dates.ZerosValue | src/main/java/com/example/tagihan/util/DateRangeUtil.java:51-53 | leading zeros do not change the value of a digit string |
| Dates.PadDecimalValue | src/main/java/com/example/tagihan/util/DateRangeUtil.java:51-53 | a zero-padded number reads back as the number |
| Dates.ParseFormatIso | src/main/java/com/example/tagihan/util/DateRangeUtil.java:51-53 | parsing the ISO text of a valid date gives back that date |
| CurrencyUtil.GroupShape | src/main/java/com/example/tagihan/util/CurrencyUtil.java:11-14 | grouping the digits gives a leading group of one to three digits and then groups of exactly three, each after a '.' |
| CurrencyUtil.UngroupGroup | src/main/java/com/example/tagihan/util/CurrencyUtil.java:11-14 | deleting the separators from the grouped digits recovers the digits |
| CurrencyUtil.DigitsRecovered | src/main/java/com/example/tagihan/util/CurrencyUtil.java:11-14 | the grouped digits of a number are well grouped and recover exactly the number's digits and value |
| CurrencyUtil.FormatRupiahRoundTrip | src/main/java/com/example/tagihan/util/CurrencyUtil.java:8-15 | a non-negative amount prints as "Rp" and well-grouped digits with no fraction, and reads back to the amount |
| CurrencyUtil.FormatRupiahNegativeRoundTrip | src/main/java/com/example/tagihan/util/CurrencyUtil.java:8-15 | a negative amount prints as "-Rp" and the groups of its magnitude, and reads back to the amount |
| CurrencyUtil.FormatRupiahExamples | src/main/java/com/example/tagihan/util/CurrencyUtil.java:8-15 | a missing amount and zero print as "Rp0", 999 as "Rp999", and 1000 as "Rp1.000" |
| CaptionFindUtil.Caption | src/main/java/com/example/tagihan/util/CaptionFindUtil.java:10-25 | the body when there is one; else the image caption when there is an image; else "" |
| NumberParser.MatchAt | src/main/java/com/example/tagihan/util/NumberParser.java:19-25 | a match starting at a digit ends after it, and its group 1 is digits joined by single dots or commas |
| NumberParser.Value | src/main/java/com/example/tagihan/util/NumberParser.java:37-60 | the conversion fails exactly when two or more dots are left after the commas are deleted; any value fits in a `long` |
| NumberParser.ToLong | src/main/java/com/example/tagihan/util/NumberParser.java:59 | the cast to `long` saturates at `Long.MAX_VALUE` and keeps any value in range |
| NumberParser.Scan | src/main/java/com/example/tagihan/util/NumberParser.java:22-34 | every amount found fits in a `long` |
| NumberParser.Numbers | src/main/java/com/example/tagihan/util/NumberParser.java:17-36 | every amount returned fits in a `long` |
| NumberParser.ScanStep | src/main/java/com/example/tagihan/util/NumberParser.java:22-34 | a match that fails to convert empties the whole result; otherwise its amount comes before those of the later matches |
| NumberParser.ParseNumber | src/main/java/com/example/tagihan/util/NumberParser.java:17-36 | the `find` loop returns exactly the amounts `Numbers` defines |
| NumberParser.ParseFirstNumber | src/main/java/com/example/tagihan/util/NumberParser.java:9-15 | missing or empty text gives no amount; otherwise there is an amount exactly when some amount is found, and it is the first one |
| NumberParser.OneAmount | src/main/java/com/example/tagihan/util/NumberParser.java:17-36 | a text holding one well-formed number and no other digit yields exactly that number's amount |
| NumberParser.UnitOfWord | src/main/java/com/example/tagihan/util/NumberParser.java:19 | the first unit alternative that matches gives the unit of the word |
| NumberParser.MatchUnit | src/main/java/com/example/tagihan/util/NumberParser.java:19 | a number followed by a unit word is matched with that unit |
| NumberParser.UnitMultiplies | src/main/java/com/example/tagihan/util/NumberParser.java:41-56 | rb, ribu and k multiply by 1000; jt, juta, million and m multiply by 1,000,000 |
| NumberParser.NoUnit | src/main/java/com/example/tagihan/util/NumberParser.java:19-24 | a number without a following unit word is taken as it is |
| NumberParser.IntegerValue | src/main/java/com/example/tagihan/util/NumberParser.java:37-60 | plain digits give their decimal value times the unit, clamped to the `long` range |
| NumberParser.CommasDeleted | src/main/java/com/example/tagihan/util/NumberParser.java:39 | commas are deleted before conversion rather than read as decimal marks |
| NumberParser.ExampleCommaThousands | src/main/java/com/example/tagihan/util/NumberParser.java:39-40 | "1,500" reads as 1500 |
| NumberParser.ExampleCommaMillions | src/main/java/com/example/tagihan/util/NumberParser.java:37-60 | "5,7jt" reads as 57,000,000, not 5,700,000 |
| NumberParser.ExampleUnitPrefix | src/main/java/com/example/tagihan/util/NumberParser.java:19 | the unit is not word-bounded: in "5 menit" the "m" multiplies by a million |
| NumberParser.ExampleUpperCaseUnit | src/main/java/com/example/tagihan/util/NumberParser.java:19 | units are case-sensitive in the pattern: "5JT" is just 5 |
| NumberParser.ExampleTwoDots | src/main/java/com/example/tagihan/util/NumberParser.java:28-33 | "1.000.000" fails to convert, so the whole result is empty |
| Users.Registered | src/main/java/com/example/tagihan/service/UserService.java:23-28 | after registering, the id is known; a known id keeps its record; a new id gets a member record with the label; no other entry changes |
| Users.RegisterIdempotent | src/main/java/com/example/tagihan/service/UserService.java:23-28 | registering twice equals registering once, whatever label the second call gives |
| Users.RegisterKeepsOfficer | src/main/java/com/example/tagihan/service/UserService.java:23-28 | a stored account-officer label never changes |
| Users.UserService.FindByJid | src/main/java/com/example/tagihan/service/UserService.java:16-18 | a user is found exactly when the id is registered, and it is that id's record |
| Users.UserService.SaveUser | src/main/java/com/example/tagihan/service/UserService.java:23-28 | the registry becomes `Registered` of the old one, and the returned user is the stored record, the old one for a known id |
| Stores.Outbox.Send | src/main/java/com/example/tagihan/service/WhatsappService.java:44-62 | a message handed to the gateway is appended to the log of sent messages |
| Stores.VisitStore.Save | src/main/java/com/example/tagihan/handler/state/CompletedVisitState.java:39 | an accepted visit is returned and appended to the saved visits; a refused one returns nothing and saves nothing |
| Stores.WithSpk | src/main/java/com/example/tagihan/repository/BillsRepo.java:10 | exactly the bills with that SPK, never more bills than the store holds |
| Stores.LookupSpk | src/main/java/com/example/tagihan/repository/BillsRepo.java:10 | a single bill with the SPK is found; none gives `NotFound`; several give `LookupFailed` |
| Stores.BillsStore.FindBillBySpk | src/main/java/com/example/tagihan/service/BillsService.java:102-104 | the lookup answers as `LookupSpk` over the stored bills |
| Stores.BillsStore.DeleteAll | src/main/java/com/example/tagihan/service/BillsService.java:30-46 | a successful delete empties the store; a failed one leaves it as it was and says so |
| Stores.BillsStore.SaveAll | src/main/java/com/example/tagihan/service/BillsService.java:52-64 | a batch save stores all of the batch or none of it |
| Stores.BillsStore.Save | src/main/java/com/example/tagihan/service/BillsService.java:71-79 | a single save stores the bill or nothing |
| BillsImport.Batches | src/main/java/com/example/tagihan/service/BillsService.java:48 | every batch is non-empty and holds at most `n` bills, every batch but the last holds exactly `n`, and there are no batches exactly when there are no bills |
| BillsImport.FlattenBatches | src/main/java/com/example/tagihan/service/BillsService.java:48 | the batches laid end to end are the input: nothing is lost, duplicated or reordered |
| BillsImport.BatchCount | src/main/java/com/example/tagihan/service/BillsService.java:48 | there are as many batches as the bills divided by 200, rounded up |
| BillsImport.FourHundredFiftyRows | src/test/java/com/example/tagihan/service/BillsServiceTest.java:66-86 | 450 bills make batches of 200, 200 and 50 |
| BillsImport.SmallImportsOneBatch | src/test/java/com/example/tagihan/service/BillsServiceTest.java:89-142 | up to 200 bills make one batch, and no bills make no batch |
| BillsImport.Survivors | src/main/java/com/example/tagihan/service/BillsService.java:69-87 | the fallback never keeps more bills than the batch holds |
| BillsImport.SurvivorsFromBatch | src/main/java/com/example/tagihan/service/BillsService.java:69-87 | a bill kept by the fallback is in the batch and its own save succeeded |
| BillsImport.SurvivorsAll | src/main/java/com/example/tagihan/service/BillsService.java:69-87 | with no failing single save the fallback keeps the whole batch |
| BillsImport.Kept | src/main/java/com/example/tagihan/service/BillsService.java:49-88 | a batch whose save succeeds is kept whole; otherwise what the one-by-one fallback keeps |
| BillsImport.Imported | src/main/java/com/example/tagihan/service/BillsService.java:47-90 | the import never stores more bills than the export holds |
| BillsImport.ImportedFromInput | src/main/java/com/example/tagihan/service/BillsService.java:47-90 | every stored bill comes from the export |
| BillsImport.ImportedAllWithoutFailures | src/test/java/com/example/tagihan/service/BillsServiceTest.java:222-242 | with no failing batch the store ends up with exactly the export's bills, in order |
| BillsImport.BillsService.SaveOneByOne | src/main/java/com/example/tagihan/service/BillsService.java:66-88 | the store gains exactly the bills whose single save succeeds, in batch order; successes are counted and successes plus failures make the batch size |
| BillsImport.BillsService.SaveBatch | src/main/java/com/example/tagihan/service/BillsService.java:49-88 | the store gains exactly what `Kept` says for the batch, and the count of saved bills is that many |
| BillsImport.BillsService.SaveBatches | src/main/java/com/example/tagihan/service/BillsService.java:47-100 | the store gains the imported bills of all batches, in order, and the returned success count is their number |
| BillsImport.BillsService.SaveAndDeleteBills | src/main/java/com/example/tagihan/service/BillsService.java:26-101 | it throws, with the bills untouched, exactly when `URI.create` rejects the URL; otherwise the delete runs first and its failure is swallowed, and the store gains what the saved batches import: every emitted batch when the stream completes, only the first `finished` emitted batches when it fails; the result is the count of saved bills when the stream completes and a failure when it does not |
| BillsImport.FullBatchesOf | src/main/java/com/example/tagihan/service/BillsService.java:48 | what `buffer(200)` has handed on before its input fails: a prefix of the bills, a multiple of 200 long, missing fewer than 200 |
| BillsImport.BatchesOfMultiple | src/main/java/com/example/tagihan/service/BillsService.java:48 | a multiple of 200 bills is cut into full batches only |
| BillsImport.Emitted | src/main/java/com/example/tagihan/service/BillsService.java:47-48 | the batches `buffer(200)` hands on: a completed stream's batches lay end to end to all its bills; a failed stream's partial buffer is dropped, so its batches are all full and lay end to end to a prefix missing fewer than 200 |
| BillsImport.FlattenFullLength | src/main/java/com/example/tagihan/service/BillsService.java:48 | batches of 200 laid end to end hold 200 bills per batch |
| BillsImport.FlattenPrefix | src/main/java/com/example/tagihan/service/BillsService.java:47-49 | the first batches laid end to end begin all the batches laid end to end |
| BillsImport.SavedBatches | src/main/java/com/example/tagihan/service/BillsService.java:47-89 | the batches `concatMap` saves: all emitted ones when the stream completes; when it fails, the first `finished` of the emitted batches (all of them if fewer), which lay end to end to a prefix of the bills 200 bills per batch |
| BillsImport.FailedStreamKeepsFinishedBatches | src/main/java/com/example/tagihan/service/BillsService.java:47-90 | with no failing write, a stream that fails part way leaves in the store a prefix of the export's bills made of whole batches of 200, at most `finished` of them |
| DownloadService.RemoveQuotes | src/main/java/com/example/tagihan/service/DownloadService.java:60-69 | the value is trimmed, then one enclosing pair of double quotes is dropped when there is one around at least two chars |
| DownloadService.RemoveQuotesOfQuoted | src/main/java/com/example/tagihan/service/DownloadService.java:60-69 | unquoting reverses quoting, and a value quoted twice comes back quoted once |
| DownloadService.LoneQuoteKept | src/main/java/com/example/tagihan/service/DownloadService.java:65 | a single `"` is not a quoted value and is kept |
| DownloadService.ParseLongOrZero | src/main/java/com/example/tagihan/service/DownloadService.java:128-134 | the trimmed value as a `long` when `Long.parseLong` accepts it, and 0 otherwise |
| DownloadService.ParseLongOrZeroOfPrinted | src/main/java/com/example/tagihan/service/DownloadService.java:128-134 | a printed `long` reads back, with or without surrounding blanks |
| DownloadService.PrintedLongIsTrimmed | src/main/java/com/example/tagihan/service/DownloadService.java:130 | a printed `long` has nothing for `trim` to remove |
| DownloadService.PlaceholdersReadAsZero | src/test/java/com/example/tagihan/service/DownloadServiceTest.java:122-152 | the export's placeholders (INVALID, N/A, NULL, blank) all read as 0 |
| DownloadService.Amounts | src/main/java/com/example/tagihan/service/DownloadService.java:108-120 | one amount per column |
| DownloadService.AmountAt | src/main/java/com/example/tagihan/service/DownloadService.java:108-120 | the k-th amount is the k-th column read as a number |
| DownloadService.MapToBill | src/main/java/com/example/tagihan/service/DownloadService.java:93-126 | the kiosk is empty for rows of at most 28 columns, the deposit 0 for at most 29, the fixed interest 0 for at most 30 |
| DownloadService.AmountsInRange | src/main/java/com/example/tagihan/service/DownloadService.java:128-134 | every amount is a `long` |
| DownloadService.MappedBillFitsLong | src/main/java/com/example/tagihan/service/DownloadService.java:93-126 | every number of a mapped bill fits in a `long` |
| DownloadService.MappedAmountsFromColumns | src/main/java/com/example/tagihan/service/DownloadService.java:108-124 | plafond, last principal, principal penalty, deposit and fixed interest are read from columns 13, 19, 25, 29 and 30 |
| DownloadService.Cleaned | src/main/java/com/example/tagihan/service/DownloadService.java:49-54 | unquoting keeps the number of columns |
| DownloadService.CleanColumns | src/main/java/com/example/tagihan/service/DownloadService.java:50-52 | the loop replaces every column of the array by its unquoted value, in place |
| DownloadService.Row | src/main/java/com/example/tagihan/service/DownloadService.java:46-54 | a line gives columns exactly when it is not blank and splits into at least 30 fields, and these are the unquoted fields |
| DownloadService.ParseLine | src/main/java/com/example/tagihan/service/DownloadService.java:46-55 | a line gives a bill exactly when it gives columns, and the bill is `mapToBill` of them |
| DownloadService.ParsedLines | src/main/java/com/example/tagihan/service/DownloadService.java:46-55 | the lines never give more bills than there are lines |
| DownloadService.LineBills | src/main/java/com/example/tagihan/service/DownloadService.java:46-55 | a skipped line gives no bill, any other line exactly one |
| DownloadService.ParsedLinesAppend | src/main/java/com/example/tagihan/service/DownloadService.java:46-55 | the bills of two stretches of lines are the bills of the whole, in order |
| DownloadService.LineContribution | src/main/java/com/example/tagihan/service/DownloadService.java:46-55 | each line adds no bill or exactly its own bill, in its place among its neighbours' bills |
| DownloadService.ParseCsv | src/main/java/com/example/tagihan/service/DownloadService.java:33-58 | an empty export gives no bills; otherwise the first line is skipped and the rest are parsed |
| DownloadService.HeaderIgnored | src/main/java/com/example/tagihan/service/DownloadService.java:45 | whatever the header says, it never becomes a bill |
| CancelCommand.Cancelled | src/main/java/com/example/tagihan/handler/CancelHandler.java:23-39 | without a session nothing changes; with one the session is dropped and "Aksi Dibatalkan" is sent to the sender; nothing else changes |
| CancelCommand.CancelKeepsOthers | src/main/java/com/example/tagihan/handler/CancelHandler.java:23-39 | cancelling leaves every other agent's session as it was |
| CancelCommand.CancelIdempotent | src/main/java/com/example/tagihan/handler/CancelHandler.java:23-39 | a second cancel changes nothing more |
| CancelCommand.HandleCancel | src/main/java/com/example/tagihan/handler/CancelHandler.java:23-39 | the service's new state is `Cancelled` of the old one for the sender, and the service stays well formed |
| UpTagihanCommand.ImportUrl | src/main/java/com/example/tagihan/handler/UpTagihan.java:28-31 | a URL exactly when `split(" ")` gives two parts, and it is the second part |
| UpTagihanCommand.ImportUrlShape | src/main/java/com/example/tagihan/handler/UpTagihan.java:28-31 | an accepted URL is not empty and holds no space, and the body held a space |
| UpTagihanCommand.TwoPartsGiveUrl | src/main/java/com/example/tagihan/handler/UpTagihan.java:28-31 | `up_tagihan <url>` names that URL |
| UpTagihanCommand.TrailingFields | src/main/java/com/example/tagihan/handler/UpTagihan.java:28 | a trailing space makes a trailing empty field before `split` drops it |
| UpTagihanCommand.TrailingSpaceIgnored | src/main/java/com/example/tagihan/handler/UpTagihan.java:28-31 | a trailing space still names the URL |
| UpTagihanCommand.DoubledSpaceRefused | src/main/java/com/example/tagihan/handler/UpTagihan.java:28-30 | two spaces between command and URL make three parts, so the command is refused |
| UpTagihanCommand.ImportReply | src/main/java/com/example/tagihan/handler/UpTagihan.java:33-50 | the reply goes to the chat as a reply to the command; success names the URL, failure starts with the failure text |
| UpTagihanCommand.HandleUpTagihan | src/main/java/com/example/tagihan/handler/UpTagihan.java:26-61 | `handle` throws, changing nothing, exactly for a missing body or a URL `URI.create` rejects; a malformed body gets the format hint and keeps the bills; a well formed one replaces the bills by what the saved batches import and gets the success reply exactly when the stream completes, else the failure reply |
| ReminderScheduler.ReminderMessage | src/main/java/com/example/tagihan/service/scheduler/ReminderScheduler.java:81-99 | the text starts with the header and the name, SPK and address lines, with "-" for a missing value, and ends with the footer |
| ReminderScheduler.NonPositiveAppointmentHidden | src/main/java/com/example/tagihan/service/scheduler/ReminderScheduler.java:87-89 | an appointment of zero or less prints as no appointment |
| ReminderScheduler.BlankNoteHidden | src/main/java/com/example/tagihan/service/scheduler/ReminderScheduler.java:91-93 | a blank note prints as no note |
| ReminderScheduler.ReminderShowsOnlyItsFields | src/main/java/com/example/tagihan/service/scheduler/ReminderScheduler.java:81-99 | two visits alike in name, SPK, address, appointment and note get the same text |
| ReminderScheduler.Messages | src/main/java/com/example/tagihan/service/scheduler/ReminderScheduler.java:45-47 | never more messages than due visits |
| ReminderScheduler.MessagesExact | src/main/java/com/example/tagihan/service/scheduler/ReminderScheduler.java:45-47 | a message is sent exactly for the visits with a non-blank agent id |
| ReminderScheduler.DueVisits | src/main/java/com/example/tagihan/service/scheduler/ReminderScheduler.java:34-36 | the due visits are exactly the stored visits whose reminder date is today |
| ReminderScheduler.RemindersExact | src/main/java/com/example/tagihan/service/scheduler/ReminderScheduler.java:30-79 | one run sends exactly the reminders of the stored visits due today with a recipient |
| ReminderScheduler.RemindersGoToAgents | src/main/java/com/example/tagihan/service/scheduler/ReminderScheduler.java:46-59 | every reminder goes to the non-blank agent id of a visit due today |
| ReminderScheduler.NoneDueNothingSent | src/main/java/com/example/tagihan/service/scheduler/ReminderScheduler.java:38-41 | with no visit due nothing is sent |
| ReminderScheduler.SendEach | src/main/java/com/example/tagihan/service/scheduler/ReminderScheduler.java:45-48 | the loop hands the gateway exactly `Messages` of the due visits, in order |
| ReminderScheduler.SendReminders | src/main/java/com/example/tagihan/service/scheduler/ReminderScheduler.java:30-53 | the gateway gets exactly `Reminders` of the stored visits for today |
| ReminderScheduler.AppointmentPart | src/main/java/com/example/tagihan/service/scheduler/ReminderScheduler.java:87-89 | the appointment is printed exactly when it is above zero, as "Janji Bayar:" and the Rupiah amount |
| ReminderScheduler.NotePart | src/main/java/com/example/tagihan/service/scheduler/ReminderScheduler.java:91-93 | the note is printed exactly when it is not blank, on its own "Catatan: " line |
| Reports.Filter | src/main/java/com/example/tagihan/handler/VisitPlanSPK.java:84-105 | the kept visits are exactly those of the input that meet the condition, never more of them |
| Reports.FilterAll | src/main/java/com/example/tagihan/handler/VisitPlanSPK.java:84 | a filter every visit passes changes nothing |
| Reports.LknCandidates | src/main/java/com/example/tagihan/handler/VisitPlanSPK.java:94-109 | a twelve-digit request keeps exactly the stored visits of that SPK; any other request keeps all of them |
| Reports.LknReply | src/main/java/com/example/tagihan/handler/VisitPlanSPK.java:43-128 | a reply is sent exactly when the message has a body |
| Reports.LknBlankAsksForSpk | src/main/java/com/example/tagihan/handler/VisitPlanSPK.java:51-53 | a blank request is answered with the SPK prompt in the sender's own chat |
| Reports.LknUnknownUserRefused | src/main/java/com/example/tagihan/handler/VisitPlanSPK.java:63-80 | an unregistered sender gets the user-not-found text in the chat |
| Reports.LknReportShape | src/main/java/com/example/tagihan/handler/VisitPlanSPK.java:82-123 | a report goes to the chat for the sender's account officer, lists at least one stored typed visit that is not Informational, is named after its first visit, and with a twelve-digit request lists only that SPK |
| Reports.LknSpkReportExact | src/main/java/com/example/tagihan/handler/VisitPlanSPK.java:84-105 | with a twelve-digit request every non-Informational visit of that SPK is in the report |
| Reports.LknOtherRequestReportsAll | src/main/java/com/example/tagihan/handler/VisitPlanSPK.java:84-108 | any other request reports every non-Informational visit |
| Reports.LknUntypedVisitFails | src/main/java/com/example/tagihan/handler/VisitPlanSPK.java:84-128 | one visit without a type turns the request into the error reply |
| Reports.RkhReply | src/main/java/com/example/tagihan/handler/VisitPlanAccountOfficer.java:33-86 | a report goes to the sender, labelled "Cabang Kaligondang", lists at least one visit and is named after the first visit's SPK; otherwise the no-visit text with today's date goes to the chat |
| Reports.RkhListsToday | src/main/java/com/example/tagihan/handler/VisitPlanAccountOfficer.java:41-69 | there is a report exactly when some stored visit is dated today, and it lists exactly those visits |
| Reports.RkhSkipsUndated | src/main/java/com/example/tagihan/handler/VisitPlanAccountOfficer.java:62-64 | a visit without a date is never in the report |
| Reports.HandleLkn | src/main/java/com/example/tagihan/handler/VisitPlanSPK.java:43-128 | sends exactly `LknReply`, and escapes on a missing body |
| Reports.HandleRkh | src/main/java/com/example/tagihan/handler/VisitPlanAccountOfficer.java:33-54 | sends exactly `RkhReply` |
| Summaries.Optional | src/main/java/com/example/tagihan/handler/state/CompletedVisitState.java:100-110 | a field gives its line exactly when it is not null, with its value |
| Summaries.VisitTypeName | src/main/java/com/example/tagihan/handler/state/CompletedVisitState.java:193-200 | a name for every visit type but the informational one |
| Summaries.VisitTypeNameInjective | src/main/java/com/example/tagihan/handler/state/CompletedVisitState.java:193-200 | different visit types have different names |
| Summaries.SuccessText | src/main/java/com/example/tagihan/handler/state/CompletedVisitState.java:72-79 | a summary exactly for a typed, non-informational visit: the type's header, its detail lines, and the footer naming the type |
| Summaries.ErrorText | src/main/java/com/example/tagihan/handler/state/CompletedVisitState.java:172-191 | an apology exactly for a typed, non-informational visit |
| Summaries.TagihanLinesExact | src/main/java/com/example/tagihan/handler/state/CompletedVisitState.java:82-98 | the collection summary has a line exactly for each non-null SPK, name, note, reminder date and promised amount, with that value |
| Summaries.MonitoringLinesExact | src/main/java/com/example/tagihan/handler/state/CompletedVisitState.java:112-125 | the monitoring summary has a line exactly for each non-null SPK, name, note and business condition |
| Summaries.CanvasingLinesExact | src/main/java/com/example/tagihan/handler/state/CompletedVisitState.java:127-148 | the canvasing summary has a line exactly for each non-null name, address, interest and business condition |
| Summaries.SurveyLinesExact | src/main/java/com/example/tagihan/handler/state/CompletedVisitState.java:151-169 | the survey summary has a line exactly for each non-null name, plafond and business condition |
| Summaries.SurveyPlafondSaysRpTwice | src/main/java/com/example/tagihan/handler/state/CompletedVisitState.java:160 | the plafond line of a survey reads "• Plafond: Rp Rp…" |
| Summaries.AppendOptional | src/main/java/com/example/tagihan/handler/state/CompletedVisitState.java:100-110 | appending a field keeps the text equal to the rendering of the lines so far plus that field's line, if any |
| Summaries.BuildSuccessMessage | src/main/java/com/example/tagihan/handler/state/CompletedVisitState.java:72-169 | the text built one append at a time is `SuccessText` |
| Prompts.TemplateOf | src/main/java/com/example/tagihan/handler/StateChangedListener.java:44-59 | a prompt template for every state but Completed, AddInterested, and AddUsaha on an untyped visit |
| Prompts.Shown | src/main/java/com/example/tagihan/handler/StateChangedListener.java:121-294 | the slot shows the name or ""; the caption prompt upper-cases it, the address prompt falls back to "calon nasabah", the name prompt shows nothing |
| Prompts.TemplateWherePrompt | src/main/java/com/example/tagihan/handler/StateChangedListener.java:44-59 | there is a template exactly for the prompted states |
| Prompts.PromptText | src/main/java/com/example/tagihan/handler/StateChangedListener.java:61-306 | a text exactly for the prompted states, made of the template around the slot |
| Prompts.Notification | src/main/java/com/example/tagihan/handler/StateChangedListener.java:29-59 | one prompt, to the visit's agent and not as a reply, exactly when the agent id is not blank and the state is prompted |
| Prompts.NotificationText | src/main/java/com/example/tagihan/handler/StateChangedListener.java:61-306 | a notification carries a text exactly when it is sent |
| Prompts.PromptShowsName | src/main/java/com/example/tagihan/handler/StateChangedListener.java:70-99 | every prompt sent contains what fills its slot |
| Prompts.UsahaText | src/main/java/com/example/tagihan/handler/StateChangedListener.java:238-254 | the business-condition prompt shows the name and the example for the visit's type |
| Prompts.UsahaExampleByType | src/main/java/com/example/tagihan/handler/StateChangedListener.java:240-251 | canvasing and survey visits get the short example, the others the long one |
| Prompts.NoPromptWithoutRecipient | src/main/java/com/example/tagihan/handler/StateChangedListener.java:65-310 | a blank agent id, or the Completed state, gets no prompt |
| NextState.DetermineStateFromVisit | src/main/java/com/example/tagihan/service/StateService.java:182-230 | a next state exactly for a typed visit, and never AddInterested or Register |
| NextState.DetermineNextState | src/main/java/com/example/tagihan/service/StateService.java:174-180 | Register for an agent missing from the users, whatever the visit holds; otherwise the resolver's state |
| NextState.ResolverFollowsChecklist | src/main/java/com/example/tagihan/service/StateService.java:182-269 | the resolver asks for the first absent field of the visit type's ordered checklist, or says Completed |
| NextState.TagihanChecklist | src/main/java/com/example/tagihan/service/StateService.java:197-229 | a collection visit asks for SPK, caption, appointment, reminder date (once there is an appointment), name and usaha, in that order |
| NextState.MonitoringChecklist | src/main/java/com/example/tagihan/service/StateService.java:197-229 | a monitoring visit asks for SPK, caption, name and usaha |
| NextState.InformationalChecklist | src/main/java/com/example/tagihan/service/StateService.java:184-229 | an informational visit asks for SPK, appointment, reminder date, name and usaha |
| NextState.CanvasingChecklist | src/main/java/com/example/tagihan/service/StateService.java:201-229 | a canvasing visit asks for caption, name, address and usaha |
| NextState.SurveyChecklist | src/main/java/com/example/tagihan/service/StateService.java:205-229 | a survey visit asks for plafond, name and usaha |
| NextState.FirstMissingCompleted | src/main/java/com/example/tagihan/service/StateService.java:182-230 | the scan says Completed exactly when every listed field is present |
| NextState.FirstMissingIsFirst | src/main/java/com/example/tagihan/service/StateService.java:182-230 | otherwise it names the prompt of an absent field, every earlier field being present |
| NextState.CompletedIffChecklistPresent | src/main/java/com/example/tagihan/service/StateService.java:182-230 | a visit is Completed exactly when every field its type asks for is present |
| NextState.ResolverAsksFirstAbsentField | src/main/java/com/example/tagihan/service/StateService.java:182-230 | any other state asks for an absent field of the checklist, all earlier ones present |
| NextState.InformationalAsksSpkAppointmentReminderFirst | src/main/java/com/example/tagihan/service/StateService.java:184-194 | an informational visit is asked for SPK, then appointment, then reminder date before anything else |
| NextState.UnregisteredAlwaysRegister | src/main/java/com/example/tagihan/service/StateService.java:177-179 | an unregistered agent always gets Register |
| NextState.Fill | src/main/java/com/example/tagihan/service/StateService.java:124-162 | a present field is kept; an absent one takes the update's value |
| NextState.Merge | src/main/java/com/example/tagihan/service/StateService.java:123-162 | the merge keeps every present field, takes the update only to fill gaps, and never takes SPK, usaha, ids or the bill amounts from it |
| NextState.MergeSelf | src/main/java/com/example/tagihan/service/StateService.java:123-162 | merging a visit with itself changes nothing |
| NextState.MergeIdempotent | src/main/java/com/example/tagihan/service/StateService.java:123-162 | the same update twice is the same as once |
| NextState.NewSessionVisit | src/main/java/com/example/tagihan/service/StateService.java:93-109 | a new session's visit belongs to the agent and has no id, usaha or interest |
| NextState.FirstUpdateCopiesUpdate | src/main/java/com/example/tagihan/service/StateService.java:85-162 | after its first update a session's visit holds the whole update but its id and usaha, owned by the agent |
| NextState.SeedFromBill | src/main/java/com/example/tagihan/service/StateService.java:60-70 | SPK from the update; debit tray, interest, principal, plafond, name and address from the bill; penalty the Java long sum of both penalties; nothing else changes |
| NextState.SeededVisitHasSpkAndName | src/main/java/com/example/tagihan/service/StateService.java:60-219 | once seeded from a bill, a visit is never asked for its SPK or name again |
| Sessions.FinalizeMessages | src/main/java/com/example/tagihan/handler/state/CompletedVisitState.java:32-191 | at most one message, to the agent: the summary after a save, the apology after a failure, and nothing for an untyped or informational visit |
| Sessions.NotifyMessages | src/main/java/com/example/tagihan/handler/StateChangedListener.java:44-310 | a completed session gets the finalize messages; any other gets at most its prompt |
| Sessions.Finalized | src/main/java/com/example/tagihan/handler/state/CompletedVisitState.java:32-49 | a saved visit is added to the store and its session is removed; a refused one changes neither; the messages are appended |
| Sessions.Notified | src/main/java/com/example/tagihan/handler/StateChangedListener.java:29-59 | a completed session is finalized, any other only prompted |
| Sessions.PromptedSessionStays | src/main/java/com/example/tagihan/service/StateService.java:47-53 | a session entering any state but Completed is stored with it, publishes one event, saves nothing and gets at most one message |
| Sessions.CompletedSessionEnds | src/main/java/com/example/tagihan/handler/state/CompletedVisitState.java:32-49 | a completed visit that saves ends its session only, is saved once and is summarized when typed and not informational |
| Sessions.RefusedVisitKeepsSession | src/main/java/com/example/tagihan/handler/state/CompletedVisitState.java:44-191 | a refused visit keeps its session and its agent gets the apology |
| Sessions.UnregisteredSessionRegisters | src/main/java/com/example/tagihan/service/StateService.java:164-180 | an unregistered agent's session moves to Register and nothing is saved |
| Sessions.FirstVisit | src/main/java/com/example/tagihan/service/StateService.java:93-162 | the visit a first update opens: the update without id and usaha, owned by the agent |
| Sessions.OpenedSessionStays | src/main/java/com/example/tagihan/service/StateService.java:55-172 | a session opened by a typed update is stored in its resolved state, never Completed, with one event and no save, other sessions untouched |
| Sessions.Opened | src/main/java/com/example/tagihan/service/StateService.java:85-121 | the existing session, or a new one asking for the SPK |
| Sessions.Prepared | src/main/java/com/example/tagihan/service/StateService.java:55-162 | without a bill lookup the update is merged; with one, a visit exactly when the bill is found |
| Sessions.PreparedFillsOnly | src/main/java/com/example/tagihan/service/StateService.java:123-162 | without a lookup the update only fills gaps |
| Sessions.PreparedTakesBill | src/main/java/com/example/tagihan/service/StateService.java:60-74 | a found bill provides SPK, name, address, principal and interest, and has the asked SPK |
| Sessions.StateService.constructor | src/main/java/com/example/tagihan/service/StateService.java:17-27 | the service starts with no session and no event |
| Sessions.StateService.GetUserState | src/main/java/com/example/tagihan/service/StateService.java:33-35 | the session of the jid exactly when there is one |
| Sessions.StateService.RemoveState | src/main/java/com/example/tagihan/service/StateService.java:276-281 | removes that jid's session and nothing else |
| Sessions.StateService.Finalize | src/main/java/com/example/tagihan/handler/state/CompletedVisitState.java:32-70 | the new state is `Finalized` for the store's verdict on the visit |
| Sessions.StateService.HandleStateData | src/main/java/com/example/tagihan/dispatcher/WhatsAppMessageDispatcher.java:55-60 | finalizes a completed session and leaves any other unchanged |
| Sessions.StateService.OnStateChanged | src/main/java/com/example/tagihan/handler/StateChangedListener.java:29-42 | the new state is `Notified` for the session |
| Sessions.StateService.SetState | src/main/java/com/example/tagihan/service/StateService.java:47-53 | a jid without a session changes nothing; otherwise the new state is stored, published once and heard by the listener |
| Sessions.StateService.SetVisitData | src/main/java/com/example/tagihan/service/StateService.java:55-83 | a missing bill fails with its reason after opening the session; otherwise the merged visit is stored and the resolved state entered, or the call fails for an untyped visit |
| Sessions.StateService.Resubmit | src/main/java/com/example/tagihan/service/StateService.java:55-83 | re-submitting the session's own edited visit resolves its state with no merge and no bill lookup |
| Sessions.StateService.Open | src/main/java/com/example/tagihan/service/StateService.java:85-121 | a first update opens the session as `Opening` says |
| Sessions.StateService.OpenAndSeed | src/main/java/com/example/tagihan/service/StateService.java:56-162 | the stored session holds `Prepared` of the update, or on a missing bill the opened session and the reason |
| StateHandlers.CheckAddress | src/main/java/com/example/tagihan/handler/state/AddAddress.java:38-60 | an address is accepted exactly when the body is not blank and its trimmed length is 9 to 500, and the trimmed text is stored |
| StateHandlers.AddressRejections | src/main/java/com/example/tagihan/handler/state/AddAddress.java:41-60 | each rejection names its own reason: empty, too short, too long |
| StateHandlers.StoredAddressIsTrimmed | src/main/java/com/example/tagihan/handler/state/AddAddress.java:46-55 | a stored address has at least 9 characters and neither starts nor ends with a blank |
| StateHandlers.InterestLabel | src/main/java/com/example/tagihan/handler/state/AddInterested.java:24-52 | a label exactly for the answers "1" to "4" |
| StateHandlers.InterestLabelsDistinct | src/main/java/com/example/tagihan/handler/state/AddInterested.java:24 | different answers give different labels |
| StateHandlers.PaddedAnswerRejected | src/main/java/com/example/tagihan/handler/state/AddInterested.java:42 | an answer with a space around it is not accepted |
| StateHandlers.ReminderStepOf | src/main/java/com/example/tagihan/handler/state/AddReminder.java:41-101 | a null body does nothing; "kosong" in any case means yesterday; an ISO date from today on is stored; an earlier one is refused; anything else is a format error |
| StateHandlers.ReminderNeverInPast | src/main/java/com/example/tagihan/handler/state/AddReminder.java:45-72 | a stored reminder date is a valid date not before today, and only "kosong" gives yesterday |
| StateHandlers.KosongAnyCase | src/main/java/com/example/tagihan/handler/state/AddReminder.java:45 | "KOSONG" and "Kosong" both skip the reminder |
| StateHandlers.HandleCaption | src/main/java/com/example/tagihan/handler/state/AddCaption.java:32-91 | a blank sender, blank body or missing session changes nothing; otherwise the untrimmed body becomes the note and the state is re-resolved |
| StateHandlers.HandleAppointment | src/main/java/com/example/tagihan/handler/state/AddAppointment.java:35-64 | without a number the agent is told so and nothing else changes; otherwise the first number becomes the appointment and the state is re-resolved |
| StateHandlers.HandleReminder | src/main/java/com/example/tagihan/handler/state/AddReminder.java:41-101 | each outcome of `ReminderStepOf` has its effect: the date written and the state re-resolved, or the one matching error message sent |
| StateHandlers.HandleName | src/main/java/com/example/tagihan/handler/state/AddName.java:27-33 | the body, even a null one, becomes the name and the state is re-resolved |
| StateHandlers.HandleAddress | src/main/java/com/example/tagihan/handler/state/AddAddress.java:35-84 | a rejected address gets its reason in the chat; an accepted one is stored trimmed and the state re-resolved |
| StateHandlers.HandleInterested | src/main/java/com/example/tagihan/handler/state/AddInterested.java:41-57 | an unknown answer gets the retry text; a known one stores its label and re-resolves the state |
| StateHandlers.HandleUsaha | src/main/java/com/example/tagihan/handler/state/AddUsaha.java:25-41 | a non-blank body, "kosong" included, becomes the usaha verbatim and the state is re-resolved |
| StateHandlers.HandleRegister | src/main/java/com/example/tagihan/handler/state/RegisterUser.java:32-45 | the sender is registered with the upper-cased body as account officer, then the session, if any, is re-resolved |
| StateDispatch.Registry | src/main/java/com/example/tagihan/dispatcher/StateDispatcher.java:30-39 | the table holds a state exactly when it held it before or some bean implementing `StateHandlers` names it |
| StateDispatch.LastBeanWins | src/main/java/com/example/tagihan/dispatcher/StateDispatcher.java:33-34 | a state maps to the last implementing bean that names it |
| StateDispatch.UnnamedStateKept | src/main/java/com/example/tagihan/dispatcher/StateDispatcher.java:33-38 | a state no implementing bean names keeps its old entry, or stays absent |
| StateDispatch.BeansAreTable | src/main/java/com/example/tagihan/handler/state/AddCaption.java:16-18 | every bean of the application is the entry of its state |
| StateDispatch.TableIsBeans | src/main/java/com/example/tagihan/handler/state/AddUsaha.java:13-16 | every entry comes from a bean of the application |
| StateDispatch.ApplicationRegistry | src/main/java/com/example/tagihan/dispatcher/StateDispatcher.java:26-42 | in any scan order the application's beans register exactly the table: no handler for AddSpk and AddLimit, its own handler for every other state |
| StateDispatch.ApplicationTable | src/main/java/com/example/tagihan/dispatcher/StateDispatcher.java:26-42 | so the scanned table equals that table |
| StateDispatch.LastOf | src/main/java/com/example/tagihan/dispatcher/StateDispatcher.java:33-34 | every implementing bean naming a state has a last such bean after it |
| StateDispatch.ApplicationOnlyCompletedFinalizes | src/main/java/com/example/tagihan/handler/state/CompletedVisitState.java:19-20 | only the Completed state is served by the completed-visit handler |
| StateDispatch.StateDispatcher.constructor | src/main/java/com/example/tagihan/dispatcher/StateDispatcher.java:20-24 | the dispatcher starts with an empty table |
| StateDispatch.StateDispatcher.Init | src/main/java/com/example/tagihan/dispatcher/StateDispatcher.java:26-42 | the loop leaves the table equal to `Registry` of the beans |
| StateDispatch.StateDispatcher.Dispatch | src/main/java/com/example/tagihan/dispatcher/StateDispatcher.java:44-60 | a session whose state maps to the completed-visit handler is finalized; any other is left unchanged |
| StateDispatch.StateDispatcher.Handle | src/main/java/com/example/tagihan/dispatcher/StateDispatcher.java:62-95 | a group chat, a sender without a session or a state without a handler changes nothing; otherwise the routed handler runs and has its effect |
| StateDispatch.StateDispatcher.Run | src/main/java/com/example/tagihan/dispatcher/StateDispatcher.java:87-91 | the handler of the kind has exactly the effect `Handled` gives it |
| StateDispatch.Routed | src/main/java/com/example/tagihan/dispatcher/StateDispatcher.java:62-83 | a handler exactly when the chat is not a group, the sender has a session and its state has a handler, and it is that state's handler |
| StateDispatch.SpkAndLimitStatesIgnoreMessages | src/main/java/com/example/tagihan/dispatcher/StateDispatcher.java:78-83 | a session waiting for its SPK or its plafond ignores every message |
| MessageDispatch.AsMessageHandler | src/main/java/com/example/tagihan/dispatcher/WhatsAppMessageDispatcher.java:47-51 | a class goes in the table exactly when it implements `MessageHandler`: the cancel, lkn and rkh report classes |
| MessageDispatch.TriggerTable | src/main/java/com/example/tagihan/dispatcher/WhatsAppMessageDispatcher.java:39-54 | a trigger is in the table exactly when it was before or a registering bean names it, and its handler is the old one or that bean's |
| MessageDispatch.ApplicationHandler | src/main/java/com/example/tagihan/dispatcher/WhatsAppMessageDispatcher.java:39-54 | the application's table has a handler for "cancel", "lkn" and "rkh" only |
| MessageDispatch.RegisteringBeans | src/main/java/com/example/tagihan/handler/VisitPlan.java:9-11 | a registering application bean is one of those three: the look-alike interface keeps the others out |
| MessageDispatch.TriggersHaveBeans | src/main/java/com/example/tagihan/handler/CancelHandler.java:15-18 | each of the three triggers has a registering bean |
| MessageDispatch.ApplicationTable | src/main/java/com/example/tagihan/dispatcher/WhatsAppMessageDispatcher.java:39-54 | in any scan order the table holds exactly cancel, lkn and rkh with their handlers |
| MessageDispatch.TableEntryFromBean | src/main/java/com/example/tagihan/dispatcher/WhatsAppMessageDispatcher.java:46-48 | each entry of the scanned table is the application's handler for its trigger |
| MessageDispatch.SessionCommandsUnregistered | src/main/java/com/example/tagihan/handler/Tagihan.java:27-30 | no trigger besides cancel, lkn and rkh is ever in the table |
| MessageDispatch.CommandName | src/main/java/com/example/tagihan/dispatcher/WhatsAppMessageDispatcher.java:91-92 | the command is the first word without the prefix, and holds no space; none where the first word is shorter than the prefix |
| MessageDispatch.RouteOf | src/main/java/com/example/tagihan/dispatcher/WhatsAppMessageDispatcher.java:62-100 | a sender with a session goes to the state dispatcher; an id in flight is dropped; a caption without the prefix is not a command; a known command runs its handler, an unknown one nothing |
| MessageDispatch.CancelNeverEndsSession | src/main/java/com/example/tagihan/dispatcher/WhatsAppMessageDispatcher.java:67-106 | whenever the route runs the cancel command, the sender has no session and cancelling leaves everything as it was |
| MessageDispatch.FirstFieldOfWord | src/main/java/com/example/tagihan/dispatcher/WhatsAppMessageDispatcher.java:91 | `split(" ", 2)[0]` of a word followed by a space is the word |
| MessageDispatch.CommandIsFirstWord | src/main/java/com/example/tagihan/dispatcher/WhatsAppMessageDispatcher.java:91-100 | `<prefix><word> <rest>` runs the handler of the word, whatever the rest says |
| MessageDispatch.OnlyThreeCommandsRun | src/main/java/com/example/tagihan/dispatcher/WhatsAppMessageDispatcher.java:94-102 | with the application's table only cancel, lkn and rkh ever run |
| MessageDispatch.InFlightAfter | src/main/java/com/example/tagihan/dispatcher/WhatsAppMessageDispatcher.java:81-108 | a message's id stays in flight only when `dispatch` throws before releasing it |
| MessageDispatch.MarkerReleased | src/main/java/com/example/tagihan/dispatcher/WhatsAppMessageDispatcher.java:87-108 | else the in-flight set ends as it began |
| MessageDispatch.WhatsAppMessageDispatcher.constructor | src/main/java/com/example/tagihan/dispatcher/WhatsAppMessageDispatcher.java:25-37 | the dispatcher starts with an empty table and nothing in flight |
| MessageDispatch.WhatsAppMessageDispatcher.Init | src/main/java/com/example/tagihan/dispatcher/WhatsAppMessageDispatcher.java:39-54 | the loop leaves the table equal to `TriggerTable` of the beans |
| MessageDispatch.WhatsAppMessageDispatcher.RunCommand | src/main/java/com/example/tagihan/dispatcher/WhatsAppMessageDispatcher.java:102-106 | cancel has the cancel effect; lkn and rkh send their one reply and change no session; only lkn on a missing body escapes |
| MessageDispatch.WhatsAppMessageDispatcher.Dispatch | src/main/java/com/example/tagihan/dispatcher/WhatsAppMessageDispatcher.java:62-109 | the route is `RouteOf`, the in-flight set is `InFlightAfter`, and each route has its effect: the routed state handler, a command's handler (none of which touches the user registry, and lkn and rkh touch no session or event), or nothing |
| VisitCommands.CommandPrefix | src/main/java/com/example/tagihan/handler/MonitoringHandler.java:28-31 | only moni's prefix is the message prefix followed by its trigger; canvasing and janji use their bare trigger |
| VisitCommands.OnlyCanvasingWithoutSpk | src/main/java/com/example/tagihan/handler/BaseVisitHandler.java:52-55 | of the three commands only canvasing goes without an SPK, and janji needs one though the resolver's general checklist does not |
| VisitCommands.CommandText | src/main/java/com/example/tagihan/handler/BaseVisitHandler.java:73-80 | the text exists exactly when there is a body at least as long as the command prefix, and is the rest of it, trimmed |
| VisitCommands.ParseCommandInput | src/main/java/com/example/tagihan/handler/BaseVisitHandler.java:98-104 | the SPK is the trimmed first token; parameters exist exactly when the text holds whitespace, and are the trimmed rest |
| VisitCommands.Appointment | src/main/java/com/example/tagihan/handler/BaseVisitHandler.java:161-170 | an appointment exactly when the parameters have a first number of at least 3000, and it is that number |
| VisitCommands.ParseVisitParameters | src/main/java/com/example/tagihan/handler/BaseVisitHandler.java:150-159 | no parameters give nothing; otherwise the note is the whole parameters, with their reminder date and appointment |
| VisitCommands.BuildVisit | src/main/java/com/example/tagihan/handler/BaseVisitHandler.java:228-246 | the visit belongs to the agent, has the command's type and time, takes SPK, name, address, debit tray, plafond, last interest and last principal from the bill, the long sum of both penalties, and note, reminder and appointment from the parameters |
| VisitCommands.BuildCanvasingVisit | src/main/java/com/example/tagihan/handler/BaseVisitHandler.java:251-269 | the canvasing visit holds no bill field at all, only the parameters, the type and the time |
| VisitCommands.CommandAndSeedPrincipal | src/main/java/com/example/tagihan/handler/BaseVisitHandler.java:240 | the command's visit takes the last principal while the bill seed takes the loan principal; all else they take from the bill agrees |
| VisitCommands.Identifier | src/main/java/com/example/tagihan/handler/BaseVisitHandler.java:271-277 | the ongoing reminder names the SPK, else the name, else "N/A" |
| VisitCommands.OngoingSessionOnlyReminded | src/main/java/com/example/tagihan/handler/BaseVisitHandler.java:62-287 | an agent with a session is only reminded of it, in the agent's own chat |
| VisitCommands.RejectedCommandOpensNothing | src/main/java/com/example/tagihan/handler/BaseVisitHandler.java:66-306 | a command that opens no session changes no session, event or saved visit and sends exactly one reply to the chat it came from |
| VisitCommands.FoundBillOpensSession | src/main/java/com/example/tagihan/handler/BaseVisitHandler.java:106-197 | with the bill found the agent's new session holds the visit built from it in a state that is not Completed, nothing is saved, and only a group chat gets the group notification |
| VisitCommands.CanvasingOpensSession | src/main/java/com/example/tagihan/handler/BaseVisitHandler.java:90-131 | a canvasing note is the whole trimmed text, no bill is asked for and the session opens |
| VisitCommands.CanvasingNoteKeepsLastLetter | src/main/java/com/example/tagihan/handler/CanvasingHandler.java:25-28 | with a one-character prefix ".canvasing Toko ramai" keeps "g Toko ramai" as its text |
| VisitCommands.InformationalSpkIsLastLetter | src/main/java/com/example/tagihan/handler/InformationalHandler.java:24-27 | ".janji 123" reads "i" as its SPK |
| VisitCommands.MonitoringTextAfterTrigger | src/main/java/com/example/tagihan/handler/MonitoringHandler.java:28-31 | ".moni 123 janji 5000" leaves "123 janji 5000", and ".mo" is too short |
| VisitCommands.Launch | src/main/java/com/example/tagihan/handler/BaseVisitHandler.java:172-197 | the session opens as `Opening` says, the group is notified for a group chat, and the dispatch does nothing more |
| VisitCommands.ProcessBillWithSpk | src/main/java/com/example/tagihan/handler/BaseVisitHandler.java:106-114 | an unknown SPK gets the not-found reply, a failed lookup the general error, a found bill opens its session |
| VisitCommands.ValidateAndProcess | src/main/java/com/example/tagihan/handler/BaseVisitHandler.java:82-96 | the new state is `CommandEffect` of the text |
| VisitCommands.HandleVisitCommand | src/main/java/com/example/tagihan/handler/BaseVisitHandler.java:57-71 | a missing or short body gets the general error, an agent with a session is reminded, any other command has `CommandEffect` |
| TagihanCommand.OngoingName | src/main/java/com/example/tagihan/handler/Tagihan.java:63-70 | the reminder names the visit's name, printed "null" when there is none |
| TagihanCommand.TagihanParameters | src/main/java/com/example/tagihan/handler/Tagihan.java:89-96 | the note is the whole remainder, the reminder date is parsed even without one, and the appointment is the first amount of at least 3000 |
| TagihanCommand.TagihanThrowsOnShortBody | src/main/java/com/example/tagihan/handler/Tagihan.java:44 | the handler throws exactly for a missing body or one shorter than ".tagihan" |
| TagihanCommand.TagihanOngoingOnlyReminded | src/main/java/com/example/tagihan/handler/Tagihan.java:47-76 | an agent with a session is only reminded, in the chat the message came from |
| TagihanCommand.TagihanRejectedOpensNothing | src/main/java/com/example/tagihan/handler/Tagihan.java:51-111 | a missing or unknown SPK, or a failed lookup, opens nothing and sends one reply to the chat |
| TagihanCommand.TagihanOpensSession | src/main/java/com/example/tagihan/handler/Tagihan.java:89-150 | with the bill found the new session holds a Tagihan visit of that SPK, with the remainder as note and its appointment, never Completed, nothing saved |
| TagihanCommand.HandleTagihan | src/main/java/com/example/tagihan/handler/Tagihan.java:40-61 | escapes exactly where `TagihanEffect` says it throws; otherwise the new state is `TagihanEffect` |

## Left out

- Text is `seq<char>`. Lengths count characters, not Java's UTF-16 units. Case handling (`toLowerCase`, `equalsIgnoreCase`) covers ASCII letters only. No locale rules apply.
- JavaLong.ParseLong accepts only the ASCII digits '0' to '9'. Java's `Long.parseLong` also reads the other Unicode decimal digits.
- NumberParser.Value computes `(whole + fraction) * unit` exactly and then truncates. Java computes it in `double`, which can round a long fraction, or a product beyond 2^53, to a neighbouring value. Floating point is not modelled.
- The `%n` of `String.format` is taken as "\n".
- Clocks and zones: `LocalDateTime.now`, `LocalDate.now` and the Jakarta zone are parameters (`now`, `today`). The `today` of StateHandlers.ReminderStepOf is the server zone's `LocalDate.now()`; the `today` of the rkh report and of the reminder job is the Asia/Jakarta date. The model does not relate the two. Years are assumed to lie in 0..9999.
- `DateRangeUtil.parseReminder` is not part of this model. It is an uninterpreted function parameter (`reminderOf`); only what the handler does with its result or its exception is modelled.
- The HTTP part of `downloadAndParseCsv` is the parameter `fetch` of BillsImport.BillsService.SaveAndDeleteBills. `URI.create` is not modelled; which URLs it rejects is up to `fetch` (`BadUri`). Only the parsing of the lines that arrive is modelled (DownloadService.ParseCsv).
- BillsImport.BillsService.SaveAndDeleteBills:
  - The asynchronous order of the batch saves and their concurrency are modelled sequentially.
  - Store failures are per-batch and per-row flags.
  - A partly saved batch whose fallback row-by-row save then also runs is not modelled as double counting of saved rows.
  - The import's 10-minute time-out is modelled as a failed stream that ends after the lines read so far.
  - When a stream fails, `concatMap` cancels the batch save in progress. The rows of that save that were already written are not modelled: the cancelled batch counts as not saved. How many saves finish before the error is the parameter `finished`, not computed.
- Sessions.StateService.SetState and Sessions.StateService.Finalize: the listener's asynchronous sends, the visit save and `removeState` are taken to finish after the re-store of the session (`saveUserState`). In the other order, the re-store would bring back a removed session; that order is not modelled.
- Concurrency in MessageDispatch: two deliveries of one message id racing past the in-flight check are modelled one after the other. The in-flight set is a field that `Accept` adds to and `Release` removes from.
- Completion: the finalize step is modelled once, on the listener path. The second call that `BaseVisitHandler` makes to the state dispatcher is not replayed.
- Reports.HandleLkn and Reports.HandleRkh:
  - PDF generation is not modelled; the document is a `Report` content.
  - Gateway send failures are not modelled.
  - A database failure while reading visits is not modelled.
- Error replies carry an exception's message that the model does not compute. Only the fixed lead text is recorded (`ErrorText`).
- ReminderScheduler.SendEach:
  - The `flatMap` of the source may interleave sends; the model sends in store order.
  - The cron trigger (07:30 Asia/Jakarta) is not modelled; a run is a call with `today`.
- `Visit.userId` is modelled as always present. Sender, chat and message ids are non-null.
- An outgoing prompt or success summary is recorded by what its wording depends on (`Prompt`, `Summary`), and Prompts.PromptText and Summaries.SuccessText render the text. A PDF report is recorded by its kind, account officer, identifier and visits.
- `VisitRepository.findByAccountOfficer` and the other query methods are not used by the modelled core and are not modelled.
- The gateway's variants (`sendMessage`, `sendDocument`, `sendVideoMessage`, `sendMessageText`) and their HTTP requests are one `Send` of an `Outbound`, whose content says what is sent.
- AddReminder's `DateTimeException` branch is not modelled separately. `DateTimeParseException` is caught first and covers every parse failure the model has.
- Logging is not modelled.

## Observations

The model keeps the behaviour as written. Writing its contracts brought out these points; most are stated by a lemma or a contract named in the table above:

- Only three handlers can be reached. The visit commands (`moni`, `canvasing`, `janji`), `tagihan` and `up_tagihan` implement the lower-case `Messagehandler` interface. The dispatcher collects `MessageHandler` beans only, so only `cancel`, `lkn` and `rkh` are registered. The other handlers are still modelled and their behaviour proved.
- The `cancel` command can never end a session (`CancelNeverEndsSession`). The dispatcher hands a sender who has a session to the state engine before it looks at commands (src/main/java/com/example/tagihan/dispatcher/WhatsAppMessageDispatcher.java:67-77). So `cancel` runs only for a sender without a session, and then `CancelHandler` returns at once, with no reply and no change (src/main/java/com/example/tagihan/handler/CancelHandler.java:26-29).
- Two beans claim the `rkh` trigger: `VisitPlanAccountOfficer` and `VisitPlan`. `VisitPlan` implements the look-alike interface, so only the account-officer report is registered, whatever order the beans come in.
- A message can leave its id in the dispatcher's in-flight set for good. This happens when a registered handler's `handle` throws, such as `lkn` with no body, or when a prefix that contains a space makes `substring` throw. Both throws happen before the release step.
- A visit opened by a visit command takes the bill's last principal. A visit seeded from the bill through the state service takes the loan principal instead (`CommandAndSeedPrincipal`).
- `canvasing` and `janji` cut only their trigger's length off a body that also carries the message prefix. With the one-character prefix, the note of `canvasing` starts with "g", and the SPK of `janji` is read as "i".
- `tagihan` prints "null" for a visit without a name. Its reminder about an ongoing session goes to the chat the message came from, not to the agent.
- `up_tagihan`: a failure of the delete step is logged and swallowed, and the import goes on.
- In `up_tagihan`, a doubled space between the command and the URL makes an empty middle field, and the command is refused.
- The daily reminder has no space or line break after "Janji Bayar:".
- The blank-request branch of `lkn`'s `buildFilteredVisits` cannot be reached, because `handle` answers a blank request before calling it.
- The `switch` expressions in `buildSuccessMessage` and `getVisitTypeName` have no case for the `INFORMATIONAL` visit type, and no `default`. A Java switch expression over an enum must cover every constant, so as written this does not compile. The model reads this as "no summary": an informational visit gets no summary text from Summaries.SuccessText and no type name from Summaries.VisitTypeName, and finalizing it sends nothing.
- The survey summary's plafond line prints "Rp" twice, since the formatted amount already starts with it.
- NumberParser's unit is not bounded by a word: "5 menit" (five minutes) reads as 5,000,000, because the "m" counts as million.
- `ADD_SPK` and `ADD_LIMIT` are states that no handler is registered for.
- The state listener's `switch` expression (`sendNotification`) has no case for `ADD_INTERESTED` and no `default`, which likewise does not compile as written. The model reads this as "nothing is sent": no prompt exists for that state (Prompts.TemplateOf).
