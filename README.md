# Scooter acceptance bot — a verified model of its core

The bot runs in Telegram group chats of a scooter-sharing depot. Workers
post the numbers of the scooters they hand in (Яндекс, Whoosh, Jet and
Bolt), either one by one or as a batch phrase such as `whoosh 15`. The
bot turns each message into records of a table `accepted_scooters` and
answers with a summary. Admin commands report the current shift, a range
of days, a month, and the history of one scooter, and can delete records.
Twice a day a spreadsheet of the shift goes to the report chats.

This project models that logic in Dafny and proves what it promises:

- **Extraction**, current revision (`process_scooter_text`):
  - the batch pass with its `0 < q <= 200` cap;
  - the removal of every batch phrase from the text;
  - the individual pass in the order Яндекс, Whoosh, Jet, Bolt, with one claimed set per message;
  - a single `INSERT OR IGNORE` batch write, and the reply.
- **Extraction**, earlier revision (`main.py`):
  - `handle_all_messages`, which has no dedup, matches batches on the unmodified text, has no cap, and inserts one record at a time;
  - `/batch_accept`;
  - the per-day statistics with their `Деп` separators.
- **The regular expressions** of both revisions, as leftmost, non-overlapping scanners over strings, with `\b`, `\s+`, `\d+` and case-insensitive aliases written out.
- **Time windows**:
  - the current shift;
  - the report shifts;
  - the calendar month with its December rollover;
  - the day loop of `/service_report`, which also visits the day after the end date.
- **Aggregation**:
  - per-user and per-service counters, as insertion-ordered `defaultdict(int)`;
  - Python's stable `sorted`;
  - the monthly rows;
  - both sheets of the spreadsheet;
  - the scheduled report's decisions.
- **The three copies of the 4000-character chunker**, one method with a policy flag.
- **The chat filter**, and the argument parsing of `/delete_scooter` together with its `DELETE`.

Modelling choices:

- **Instants** are integers: seconds since 00:00 of day 1 in the bot's single civil time zone. `DayOf`/`SecondOfDay` split them, and day numbers are proleptic Gregorian ordinals, as in `date.toordinal()`.
- **SQL queries** become filters over an in-memory sequence of rows. `BETWEEN` is inclusive at both ends.
- **Wall-clock reads** become parameters: `now`, and a `tick` function giving the placeholder tokens.
- **`strftime`/`strptime` renderings** become parameters too (`dayLabel`, `parseDate`, `monthLabel`, `dateStamp`).
- **The Bolt matcher** is a parameter `bolt`. `handlers.py:4` imports `BOLT_SCOOTER_PATTERN`, but `config.py` does not define it, so its format is not known.
- **State the source updates in place** is modelled imperatively:
  - the record tables are classes with `modifies` frames (`Store.Table`, `Legacy.LegacyTable`);
  - the handlers' loops are methods with loop invariants, proved against specification functions;
  - the lemmas state the properties of those functions.

## Model

| member | source | states |
|---|---|---|
| Text.NormalizeIdempotent | handlers.py:69-70 | normalising twice changes nothing, and removing dashes commutes with upper-casing, so the `/find_scooter` key (upper-case, then strip dashes) is the stored key |
| Text.SplitJoinRoundTrip | config.py:32-34 | the pieces of `split(',')` joined by `,` give the text back and contain no comma |
| Text.WordsOfJoin | handlers.py:227 | `split()` of words joined by single spaces gives the words back |
| Text.WordsAreWords | handlers.py:227 | every piece `split()` returns is non-empty and holds no whitespace |
| Text.ParseIntOfIntToString | handlers.py:47 | `int(str(i)) == i` for every integer |
| Sorting.StrLeTotalPreorder | handlers.py:89 | Python's `<=` on str (code-point order, prefix first) is total and transitive |
| Sorting.SortByPermutes | handlers.py:490 | sorting yields a permutation of its input |
| Sorting.SortBySorted | handlers.py:490 | under a total preorder the sorted list is in key order |
| Sorting.SortByStable | handlers.py:490 | the elements sharing a key keep their input order |
| Sorting.StableSort | reports.py:59 | the insertion loop computes the stable sort |
| Counting.CountMapMeaning | reports.py:48-56 | a `defaultdict(int)` counter holds exactly the items seen, each with its number of occurrences, never 0 |
| Counting.CounterOfMeaning | handlers.py:124-130 | the insertion-ordered counter: keys are the distinct items in first-seen order, counts are occurrences, and the counts sum to the number of items |
| Counting.CountsSumToLength | handlers.py:137-139 | the counts of a counter sum to the number of items counted |
| Counting.Tally | handlers.py:128-130 | the `c[x] += 1` loop builds that counter |
| Counting.SumByPermutation | handlers.py:490 | reordering rows does not change a column's sum |
| Tallies.PerUserMeaning | handlers.py:128-129 | `user_stats` has a key for each user seen, holding the counter of that user's services |
| Tallies.UserTotalsAreCounts | handlers.py:137-138 | each user's `sum(services.values())` is the user's number of records |
| Tallies.UserTotalsSum | handlers.py:137-139 | the user totals, taken in the order the users were first seen, sum to the number of records |
| Tallies.SortedItemsMeaning | handlers.py:141-146 | `sorted(counter.items())` gives one pair per distinct service, with its positive count, in string order, summing to the number of records |
| Tallies.AppendItemLines | handlers.py:141-142 | the line loop appends one formatted line per item, in order |
| Config.AliasTable | config.py:54-58 | SERVICE_ALIASES maps exactly yandex/яндекс/y to Яндекс, whoosh/вуш/w to Whoosh, jet/джет/j to Jet |
| Config.BatchAlternativesResolve | config.py:51-58 | every alternative of the batch pattern is lower-case and a key of SERVICE_ALIASES |
| Config.ServiceMapAgrees | config.py:59 | SERVICE_MAP has the three English keys and agrees with SERVICE_ALIASES on them |
| Config.ParseIdItemsMeaning | config.py:32-34 | an ID list fails exactly when a non-blank item is not an integer; otherwise its set is exactly the values of the non-blank items |
| Config.BadItemEmptiesAll | config.py:31-39 | one bad item in any of the three lists leaves all three sets empty |
| Patterns.FindAllShapes | config.py:46-48 | every identifier match has its pattern's shape: 8 digits; 2 Latin/Cyrillic letters then 4 digits; 3 digits, an optional dash, 3 digits |
| Patterns.YandexExcludesJet | config.py:46-48 | no Jet match starts inside an eight-digit Yandex match |
| Patterns.FindAllAtSpans | config.py:46-48 | `findall` returns the text of the reported spans, one per span, in order |
| Patterns.FindAllComplete | config.py:46-48 | `findall` misses nothing: every position where the pattern matches, not inside an earlier reported match, starts a reported match whose text is returned |
| Patterns.JetPhraseScan | config.py:51 | the text "jet" plus a space and a run of digits is exactly one batch match, spanning the whole text |
| Patterns.FindBatchesFrom | config.py:51 | the batch matches are left to right, disjoint and within the text |
| Patterns.FindBatchesFromAreMatches | config.py:51 | each reported span is the match the pattern makes at its start |
| Patterns.AliasMatch | config.py:51 | a match spans the alias and a non-empty run of digits, and its alias lower-cases to the alternative tried |
| Patterns.SubRemovesExactlyTheMatches | handlers.py:55 | `sub('')` leaves exactly the text outside the spans `findall` reports |
| Patterns.BatchAliasesResolve | handlers.py:42-45 | every alias the batch pattern matches resolves in SERVICE_ALIASES |
| Patterns.LegacyBatchAliasesResolve | main.py:304-311 | every alias the earlier batch pattern matches resolves in its service map, within the ASCII-plus-Cyrillic case mapping |
| Store.InsertOrIgnoreProperties | database.py:37-45 | INSERT OR IGNORE keeps the stored rows, adds only batch records, never two rows with one UNIQUE key, and every batch key is then present |
| Store.InsertOrIgnoreFresh | database.py:37-45 | a batch with fresh, pairwise distinct keys is appended whole |
| Store.Where | handlers.py:117-118 | a WHERE keeps exactly the rows satisfying the condition, in stored order |
| Store.Table.WriteBatch | database.py:37-45 | one executemany: the records become `InsertOrIgnore` of the old ones; the stored rows are kept as a prefix |
| Store.Table.AppendRow | database.py:41-44 | one row of the executemany whose key is new is appended with the next id, and the table's invariants (unique keys, increasing ids) still hold |
| Store.Table.Delete | handlers.py:383-384 | the DELETE keeps exactly the rows not matching number and username, and returns the number removed |
| Shifts.ShiftTable | handlers.py:163-185 | the shift window for each time of day (five cases); the start is before the end; the window holds `now` except 04:00-07:00 and from 23:00 |
| Shifts.ReportShiftWindows | reports.py:85-102 | morning and evening give today's 8-hour and 13-hour windows; any other type gives none |
| Shifts.ThreePmInBoth | handlers.py:252-267 | an instant at 15:00:00 lies in both windows of its day |
| Shifts.WindowsCover | handlers.py:252-267 | an instant lies in no window of any day exactly when it is after 04:00 and before 07:00 |
| Shifts.MonthLength | handlers.py:409-413 | the first of the next month is the month's length after the first of the month, December rolling into January |
| Shifts.OrdinalBounds | handlers.py:237-238 | the first and the last day `datetime` holds are 0001-01-01 and 9999-12-31 |
| Shifts.FirstOfMonthRange | handlers.py:414-415 | for a month `date` accepts, `localize` accepts the 1st of the next month, and the 1st of the month unless it is 0001-01-01 |
| Shifts.MonthStartEndMeaning | handlers.py:399-418 | `Invalid` (caught, so the format error) exactly for a non-integer argument, a month outside 1..12, a C-int year outside 1..9999, or December 9999; `Overflow` (not caught) exactly for a year beyond a C int or January of year 1; otherwise 00:00 on the 1st to 00:00 on the 1st of the next month |
| Extraction.TallyMapCounts | handlers.py:38-76 | `accepted_summary` has exactly the services of the records, each with its number of records |
| Extraction.TallyMapAppend | handlers.py:52 | appending q records of one service raises its count by q |
| Extraction.ExpandProperties | handlers.py:49-51 | one phrase adds q records of its service, all with the message's sender, chat and timestamp |
| Extraction.JetPhraseCap | handlers.py:41-54 | the message "jet q" is one phrase adding q Jet records when q is in 1..200 and none otherwise ("jet 200" adds 200; "jet 0" and "jet 201" add none) |
| Extraction.OnePhraseRecords | handlers.py:43-52 | a single phrase adds its accepted quantity of records, all of its service, or none when skipped |
| Extraction.BatchRecordsCount | handlers.py:44-54 | the batch pass adds, per service, exactly the sum of the accepted quantities; skipped phrases add none and do not stop the others |
| Extraction.BatchRecordsStamped | handlers.py:51 | every batch record carries the message's sender, chat and timestamp |
| Extraction.BatchRecordsProvenance | handlers.py:44-54 | every batch record is a placeholder `<SERVICE>_BATCH_<token>_<i>` of an accepted phrase |
| Extraction.TextForNumbersRemovesBatches | handlers.py:40-55 | the identifier patterns see exactly the text outside all batch matches, accepted or not |
| Extraction.ClaimedAfterIs | handlers.py:64-77 | the claimed set is the normalised numbers seen so far |
| Extraction.DedupMatchesNumbers | handlers.py:68-77 | one service's records are exactly its normalised matches not claimed before |
| Extraction.DedupMatchesDistinct | handlers.py:68-77 | one service's records have pairwise distinct numbers |
| Extraction.IndividualNumbers | handlers.py:57-77 | individual records have pairwise distinct numbers across services, exactly one per normalised match |
| Extraction.IndividualFirstClaim | handlers.py:57-77 | each number is recorded under the first service, in order Яндекс, Whoosh, Jet, Bolt, whose pattern matched it |
| Extraction.ExtractStamped | handlers.py:35-77 | all records share the message's timestamp, sender and chat; the individual numbers are distinct |
| Extraction.ExtractServicesKnown | handlers.py:44-77 | every record's service is one of the four |
| Extraction.ExtractCount | handlers.py:42-77 | each service's count is its accepted batch quantity plus its individual records |
| Extraction.AppendPlaceholders | handlers.py:49-51 | the placeholder loop appends exactly the phrase's q placeholder records |
| Extraction.BatchPass | handlers.py:42-54 | the batch loop builds the batch records and the matching counter |
| Extraction.BatchPhrase | handlers.py:44-54 | one phrase of the batch loop extends the records to the batch records of the phrases so far, and the counter stays the tally of those records |
| Extraction.AcceptPhrase | handlers.py:49-52 | an accepted phrase appends its q placeholders and `accepted_summary[service] += quantity` keeps the counter equal to the tally of all records |
| Extraction.ClaimMatches | handlers.py:67-77 | the loop over one service's matches appends its deduplicated records, extends the claimed set and keeps the counter in step |
| Extraction.ClaimOne | handlers.py:68-77 | one match either is skipped as already claimed or adds one record, extends the claimed set and bumps its service's count, keeping all three in step |
| Extraction.IndividualPass | handlers.py:66-77 | the loop over the four services appends the individual records and keeps the counter in step |
| Extraction.ExtractRecords | handlers.py:33-77 | the records and counter built before the write are the extraction's, and the counter tallies the records |
| Acceptance.NonZeroKeepsPositive | handlers.py:89-91 | the `count > 0` filter drops nothing from a counter's items |
| Acceptance.ReplyMeaning | handlers.py:84-93 | the reply's total is the number of records; it lists each recorded service once, in string order, with its count |
| Acceptance.SummaryMeaning | handlers.py:84-93 | for any records of the four services: the summary items sum to the record count, are sorted and distinct by name, and pair each recorded service with its tally |
| Acceptance.ProcessScooterText | handlers.py:33-94 | returns False and writes nothing when no record is built; otherwise one INSERT OR IGNORE write and the reply |
| Acceptance.SumOfCounts | handlers.py:86 | `sum(accepted_summary.values())` is the sum of the items' counts |
| DailyStats.FirstNamesMeaning | handlers.py:131-132 | each user's name comes from the user's first record: `@username` if set, else the full name |
| DailyStats.FirstNamesKeys | handlers.py:131-132 | the users with a name are exactly the users that have a record |
| DailyStats.ShiftTotal | handlers.py:128-148 | the overall total equals the number of records and the sum of the service totals |
| DailyStats.UserBlockCounts | handlers.py:137-142 | a user's header shows the user's record count, and the service lines list each service once, with its count, sorted |
| DailyStats.ScanRecords | handlers.py:124-132 | the scan builds `user_stats`, `user_info` and `service_totals` as the counters of the records |
| DailyStats.UserLines | handlers.py:135-142 | the per-user loop builds the user blocks and `total_all_users` as the sum of the user totals |
| DailyStats.ShiftStatsReply | handlers.py:111-161 | `/today_stats` sends the specified messages for the clock reading |
| Chunker.GroupsKeepLines | handlers.py:150-161 | every line is sent exactly once, in order |
| Chunker.GroupsFit | handlers.py:300-309 | a message of two or more lines is at most 4000 characters |
| Chunker.TodayStatsNeverEmpty | handlers.py:153-157 | the guarded copy never sends an empty message |
| Chunker.GroupsEmpty | handlers.py:350-359 | the unguarded copies send an empty message exactly when the first line alone overflows, and only as the first |
| Chunker.FirstLineThresholds | handlers.py:300-309 | with an empty buffer, two copies flush at 4000 characters and the service report only above 4000 |
| Chunker.Chunk | handlers.py:350-359 | the splitting loop sends the joined groups |
| ServiceReport.PeriodCases | handlers.py:236-268 | the date error exactly when a date fails to parse, the start is not strictly between 0001-01-01 and 9999-12-31, or the end is after 9999-12-29; an uncaught exception exactly for an end of 9999-12-29 with the start no later than the next day; otherwise the start day through the day after the end |
| ServiceReport.DatesAnswerCases | handlers.py:236-309 | the date error is sent exactly for bad dates and nothing exactly when the loop raises; otherwise the messages are the report's lines split into groups, none lost |
| ServiceReport.ThreePmCountedTwice | handlers.py:252-270 | a record stamped 15:00:00 is in both windows of its day |
| ServiceReport.EarlyMorningNeverCounted | handlers.py:252-270 | a record stamped between 04:00 and 07:00 is in no window |
| ServiceReport.PeriodSize | handlers.py:246-297 | the grand total is the sum of both windows' record counts over the visited days |
| ServiceReport.PeriodTotals | handlers.py:294-297 | the period lines list each service once, sorted, with counts summing to the grand total |
| ServiceReport.DayTotalAddsUp | handlers.py:280-289 | the day's total is the sum of the counts listed under its two windows |
| ServiceReport.CountWindow | handlers.py:258-264 | one window's loop builds its counter and total and raises the period's |
| ServiceReport.WriteDay | handlers.py:280-290 | one day's lines |
| ServiceReport.ReportDay | handlers.py:252-290 | one day of the loop: its lines, period counter and grand total |
| ServiceReport.ReportDays | handlers.py:250-292 | the while loop visits the start day through the day after the end date |
| ServiceReport.AdvanceDay | handlers.py:252-292 | one pass of the while loop adds that day's lines and its morning and evening services to the period counter and the grand total |
| ServiceReport.ReportBody | handlers.py:246-297 | the report lines: the days, then the period's services and total |
| ServiceReport.ReportForDates | handlers.py:236-309 | the answer to two parsed dates: the date error, nothing when the loop's `localize` raises, or the chunked report of the start day through the day after the end |
| ServiceReport.ServiceReportReply | handlers.py:223-309 | `/service_report` sends the usage text unless there are two words, then the date error, nothing (an uncaught exception), or the chunked report |
| FindScooter.LookupKeyIsNormalize | handlers.py:325 | the lookup key equals the key extraction stores |
| FindScooter.HistoryMeaning | handlers.py:327-335 | the history holds exactly the records with that number, each as often as stored, newest first, ties in table order |
| FindScooter.FindAnswers | handlers.py:315-348 | usage text for blank arguments, "not found" for a number with no record, otherwise the header and one line per record |
| FindScooter.WriteHistory | handlers.py:341-348 | the history loop writes one line per record |
| FindScooter.FindScooterReply | handlers.py:311-359 | `/find_scooter` sends the specified messages |
| Access.AllowedChatCases | handlers.py:14-20 | a private chat passes exactly for an admin, a group or supergroup exactly when allowed, any other chat type never |
| Access.StrippedUsername | handlers.py:377 | `lstrip('@')` is empty exactly when the word is all `@`s, and otherwise starts with another character |
| Access.ParseDeleteMeaning | handlers.py:365-381 | fewer than two words give the usage text; an all-`@` username is rejected; otherwise the number is normalised and the username is non-empty |
| Access.DeleteKeeps | handlers.py:383-384 | the DELETE keeps exactly the rows it does not target |
| Access.DeleteScooter | handlers.py:361-396 | a malformed request changes nothing; otherwise exactly the targeted rows go, and the reply gives the count |
| Access.RemoveTargeted | handlers.py:383-396 | the DELETE removes exactly the rows with that number and username, and the reply reports how many went |
| Monthly.UserRows | handlers.py:473-487 | one row per user, in order, each the user's counts |
| Monthly.UserRowsMeaning | handlers.py:463-487 | each row holds the name of the user's first record, the user's count per service, and their sum |
| Monthly.MonthRowsOrder | handlers.py:489-490 | one row per distinct user, sorted by total descending, a permutation, ties in first-seen order |
| Monthly.RowTotalIsUserTotal | handlers.py:479-483 | with only the four services, a row's total is the user's record count |
| Monthly.MonthTotal | handlers.py:479-490 | the totals column sums to the month's number of records |
| Monthly.MonthlyAnswerCases | handlers.py:425-446 | usage text for blank arguments, format error unless two words name a valid month, nothing sent when the month's bounds overflow, else the month's answer over a non-empty window |
| Monthly.MonthAnswerMeaning | handlers.py:448-460 | a spreadsheet exactly when a row is stamped in the half-open month window, built from exactly those rows; "no data" otherwise |
| Monthly.MonthlyNeverDelivers | handlers.py:493-506 | as written, every month with records is answered with the error text |
| Monthly.ScanMonth | handlers.py:463-469 | the scan builds `user_stats` and `user_info` |
| Monthly.BuildRows | handlers.py:472-487 | the row loop builds the rows in `user_stats` order |
| Monthly.MonthSheet | handlers.py:463-490 | the month's sorted rows |
| Monthly.MonthlyReport | handlers.py:421-490 | `/monthly_report` with the spreadsheet delivered; nothing sent when the month's bounds overflow |
| Reports.RowCellsRoundTrip | reports.py:27-28 | a record's cells read back as the record |
| Reports.AllDataMeaning | reports.py:21-28 | the all-data sheet is the header, then one row per record in query order |
| Reports.DisplayNameCases | reports.py:55 | the full name if non-empty, else `@username` if any, else `ID: <id>`; never empty |
| Reports.LastNamesMeaning | reports.py:51-57 | each user's name is the one of the user's last record |
| Reports.SortedUsersMeaning | reports.py:59 | the users are distinct, all present, ordered by lower-cased name, ties in first-seen order |
| Reports.TotalsOrder | reports.py:59-64 | totals rows come in lower-cased name order, one per distinct user |
| Reports.TotalsCounts | reports.py:48-64 | each totals row counts the user's records, and the counts sum to the number of records |
| Reports.BetweenEmpty | reports.py:118-121 | the window query is empty exactly when no row is stamped within it |
| Reports.ScheduledCases | reports.py:105-149 | nothing without a bot or for an unknown type; otherwise each report chat gets the notice when the window is empty, else the spreadsheet of exactly the window's records |
| Reports.WriteAllData | reports.py:27-28 | the row loop builds the all-data sheet |
| Reports.ScanUsers | reports.py:51-57 | the scan builds the per-user counts and last names |
| Reports.WriteTotals | reports.py:61-64 | the totals loop writes one row per user, in order |
| Reports.CreateExcelReport | reports.py:16-83 | the workbook's two sheets |
| Reports.SendNotices | reports.py:121-129 | the text notice goes to every report chat in turn |
| Reports.SendDocuments | reports.py:137-147 | the spreadsheet goes to every report chat in turn |
| Reports.SendScheduledReport | reports.py:105-149 | the deliveries of the scheduled report |
| Legacy.LegacyTable.Insert | main.py:61-69 | one INSERT appends the record with a fresh id |
| Legacy.TagMeaning | main.py:286-302 | each match becomes a record of the pattern's service, in order |
| Legacy.PlaceholdersMeaning | main.py:316-318 | placeholder i is `<SERVICE>_BATCH_<ts>_<i>` for i = 1..q |
| Legacy.IndividualNoDedup | main.py:286-302 | every match becomes a record, repeats included: Яндекс first, then Whoosh, then Jet, on the unmodified text |
| Legacy.PhraseMeaning | main.py:307-320 | a positive quantity q, with no upper cap, adds exactly q placeholders numbered 1..q under one token |
| Legacy.DigitsAreLiteral | main.py:314 | `int()` of a digit run is its decimal value |
| Legacy.AcceptedKnown | main.py:284-320 | only the three services are recorded |
| Legacy.BatchPairsCount | main.py:307-322 | the phrase loop inserts as many records as the phrases' positive quantities add up to |
| Legacy.AcceptedCount | main.py:267-322 | a blank message adds nothing; otherwise one record per identifier match of each pattern plus the sum of the positive batch quantities, uncapped |
| Legacy.CountLinesMeaning | main.py:335-338 | a line appears exactly for each service with a positive count |
| Legacy.LegacyReplyMeaning | main.py:324-341 | a reply exactly when something was inserted; the three counts sum to the total; lines only for positive counts |
| Legacy.TrackedStep | main.py:288-290 | one insert raises its service's count and the total by one |
| Legacy.InsertNumbers | main.py:286-302 | one pattern's loop inserts one record per match and keeps the counts in step |
| Legacy.InsertOne | main.py:287-290 | one `insert_scooter_record` appends exactly one record and raises its service's count and the total by one |
| Legacy.InsertPlaceholders | main.py:316-320 | one phrase's loop inserts its q placeholders and keeps the counts in step |
| Legacy.InsertBatches | main.py:304-322 | the phrase loop inserts every phrase's placeholders |
| Legacy.InsertIndividual | main.py:286-302 | the three pattern loops insert every match |
| Legacy.HandleAllMessages | main.py:267-341 | the table gains one record per accepted item, in order, and the reply is sent only when the total is positive |
| Legacy.ReplyIfAny | main.py:324-341 | a reply is produced exactly when the total is positive, and it is the reply built from the accepted items |
| Legacy.ParseBatchAcceptCases | main.py:100-126 | usage unless two words; unknown service unless yandex/whoosh/jet in any case; bad quantity unless `int()` is positive |
| Legacy.InsertBatch | main.py:132-138 | the loop inserts exactly q placeholders and counts them |
| Legacy.BatchAccept | main.py:95-149 | a rejected request inserts nothing and answers its error; an accepted one inserts q placeholders numbered 1..q |
| Legacy.LegacyBlock | main.py:181-189 | every user's block ends with the separator |
| Legacy.PatchLastMeaning | main.py:192-193 | only the last part is touched, and only when it is the separator |
| Legacy.LegacyStatsMeaning | main.py:160-197 | on a day with records, the per-user totals sum to `total_all_users`, the number of records, each user's being the user's count |
| Legacy.WriteServiceCounts | main.py:183-186 | a user's service lines and `user_total` |
| Legacy.WriteBlocks | main.py:177-190 | the per-user loop builds the blocks and `total_all_users` |
| Legacy.AdminTodayStats | main.py:153-199 | `/today_stats` of the earlier revision returns the specified text |

## Left out

- Telegram plumbing: sending, replying, documents, handler registration, `command_start_handler`, `handle_text_messages`/`handle_photo_messages`/`handle_unsupported_content` (handlers.py:22-31, 96-109) and app.py. The model returns what would be sent.
- The admin re-checks at the top of the admin handlers: each command is modelled as it runs for an admin.
- `export_excel_handler` (handlers.py:187-221) and the earlier revision's export handlers and spreadsheet builder (main.py:201-263); they only query and call the spreadsheet builder, which is modelled.
- Spreadsheet styling, column widths (floating point) and `BytesIO` saving: a workbook is two sequences of cell rows.
- The scheduler and its cron wiring; report chats are given as a sequence in the order the set iterates, which Python does not fix.
- Database connections, WAL and commits; SQL row order without `ORDER BY` is taken to be insertion order.
- FindScooter.HistoryMeaning: rows with equal timestamps under `ORDER BY timestamp DESC` are taken in table order; SQLite does not promise any order among them.
- Chunker.Chunk: an empty first group is counted as one message sent; Telegram rejects an empty text, so in the source `message.reply("")` raises and the handler stops before the later messages.
- Environment loading and logging; the ID lists take the raw environment strings as parameters.
- The missing `BOLT_SCOOTER_PATTERN` (imported at handlers.py:4, not defined in config.py, so the module as given cannot be imported): the Bolt matcher is a parameter, with no format assumed.
- Wall-clock reads, time-zone localisation (a fixed offset; only its range limits are modelled, through `Localizable`), and `strftime`/`strptime` text, including `%B` month names: parameters or integers.
- Legacy.HandleAllMessages: the earlier table stamps each insert with its own `CURRENT_TIMESTAMP`; the model uses one `now` for the whole message.
- Legacy.InsertBatch: likewise one `now` for every placeholder of the loop, where each insert takes its own `CURRENT_TIMESTAMP`.
- Legacy.BatchAccept: likewise one `now` for the whole `/batch_accept` command.
- Legacy.PhraseQuantity: Python's case-insensitive matching also takes `ſ` (U+017F) for `s`, so "whooſh 5" is a batch phrase whose lowered alias is not in the service map; with a positive quantity `service.upper()` (main.py:317) then raises `AttributeError`, which `except ValueError` does not catch, and the handler stops after the individual inserts without replying. Only the ASCII-plus-Cyrillic case mapping of `Text` (below) excludes this input from the model, and the model skips such a phrase where the source aborts.
- Text: Unicode case mapping and `\w`/`\d` are restricted to ASCII plus the basic Cyrillic alphabet (with Ё/ё); `int()` accepts ASCII digits only. Whitespace is not restricted: `\s` and the blanks of `strip()`, `split()` and `int()` are exactly the characters of `str.isspace()`, \x1c-\x1f and the Unicode spaces included.
- Extraction.ExtractRecords: the `except (ValueError, TypeError)` of the batch loop is the `None` of `ParseInt`; no other exception is modelled.
- Extraction.ExtractRecords: under Python's case-insensitive matching `ſ` (U+017F) matches `s`, so in "whooſh 12345678" the source finds a batch phrase, skips it because its lowered alias is not in `SERVICE_ALIASES` (handlers.py:44), and `sub` (handlers.py:55) deletes it, so nothing is recorded; the model's case mapping finds no phrase there and records 12345678 as an Яндекс number.

## Findings

| source | as written | input that shows it | evidently intended | confidence | as-written member | corrected member |
|---|---|---|---|---|---|---|
| handlers.py:494 | imports `create_monthly_excel_report`, which reports.py does not define, inside the `try`, so the `ImportError` is caught and the error text is sent | `/monthly_report 09 2024` with one record stamped in September 2024 | the month's rows are sent as a spreadsheet | high; not executed | Monthly.MonthlyAnswerAsWritten | Monthly.MonthlyAnswer |
