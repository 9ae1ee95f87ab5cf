# A verified model of the iFood import pipelines, the Piter WhatsApp bot and the SQL agent

This project models the core of a restaurant back office built around iFood
sales data, written in Python (backend, scripts, serverless API, bot) and
TypeScript (frontend), as Dafny functions, methods and classes, and proves
what each part promises.

- **Financial-report import.** Three revisions of the pipeline that reads an
  iFood financial report, cleans it and saves its sales rows:
  - the current one (`backend/scripts/process_report.py`): header
    normalisation, the cell parsers, upsert keys, de-duplication against the
    stored rows, batched upserts and the buffered logger;
  - the older script (`scripts/process_report.py`);
  - the serverless handler (`api/process/index.py`).

  In each, the status of the file's row in `received_files` goes from
  'processing' to 'processed' or 'error'.
- **Conciliation import.** Two revisions:
  - the current one (`backend/scripts/process_conciliation.py`): renaming
    to the 30 table columns, date, id and value conversion, a hashed
    `row_key`, and upserts of 100 rows;
  - the older one (`scripts/process_conciliation.py`).
- **Piter, the WhatsApp bot:**
  - the webhook message parser;
  - the conversation service (the button catalog, the demo buttons and the
    text state machine);
  - the demo flows that build numbered lists;
  - the signup endpoint;
  - the outbox worker that claims, sends, retries with back-off and
    finalises queued messages.
- **The SQL agent:**
  - the fixed query presets and their `days` parameter;
  - the normalisation of an extracted intent and its fallback;
  - the read-only SQL guard.
- **Storage paths.** The backend's helpers that choose a unique upload path
  and split a stored path into its bucket and key.
- **Frontend logic:**
  - the two multi-select components;
  - the scheduling dialog's day and time slots;
  - the two performance charts' weekday filters, week windows and indicator
    selection;
  - the upload form's file list;
  - the set-password rules.

**Data.**
- The database is modelled as tables keyed by their conflict columns. Each
  table is given, up front, which calls fail and with what message.
- A pandas DataFrame is a `Sheet` of named columns. The `Frame` class holds a
  `Sheet` and changes it in place.
- Floats are exact decimals, written as a mantissa and a scale. `str()` of a
  number is written out: an integer in decimal, a float in positional
  notation (Numbers.FloatStr).

**Oracles.** Whatever the code gets from outside is an input:
- clocks, UUIDs and hashes;
- the date parser and the JSON encoder and decoder;
- `str()` of a timestamp, and `repr()` of a JSON object or list;
- the SQL parser;
- the WhatsApp client and the webhook's reply.

What is proved about these calls holds for every answer they could give.

## Model

| member | source | states |
|---|---|---|
| `ReportParsers.NormalizeHeaderClean` | backend/scripts/process_report.py:103 | a normalised header has no blank, no ç/ã/é, no "n°", no upper-case letter and no whitespace at either end |
| `ReportParsers.UnaccentFacts` | backend/scripts/process_report.py:103 | the ç/ã/é replacements add no blank, no "n°", no upper-case letter and keep the ends clean |
| `ReportParsers.NumeroPairFree` | backend/scripts/process_report.py:103 | after "n°" becomes "numero" none is left, and the accent replacements create none |
| `ReportParsers.NormalizeHeaderIdempotent` | backend/scripts/process_report.py:103 | normalising a normalised header changes nothing |
| `ReportParsers.FloatCell` | backend/scripts/process_report.py:145-155 | a parse result becomes the number cell, or None where float() raised |
| `ReportParsers.ParseAsDecimal` | backend/scripts/process_report.py:145-155 | missing cells give None, numbers pass through, strings are read with dots removed and the comma as decimal point, and text float() refuses gives None |
| `ReportParsers.AmountPrefix` | backend/scripts/process_report.py:151 | text without "R$" and without edge blanks passes the first two cleaning steps unchanged |
| `ReportParsers.CommaAmount` | backend/scripts/process_report.py:151-152 | digits around a comma read as one number with as many decimals as follow the comma |
| `ReportParsers.PointRead` | backend/scripts/process_report.py:152 | "a.c" with digits on both sides parses to the digits with \|c\| decimals |
| `ReportParsers.BrazilianAmount` | backend/scripts/process_report.py:151-152 | dots are thousands separators: a.b,c reads as the digits abc with \|c\| decimals |
| `Numbers.ParsesDigitsFirst` | backend/scripts/process_report.py:152 | a literal that starts and ends with a digit parses with no stripping and no sign |
| `Numbers.ParseFloat` | backend/scripts/process_report.py:152 | float() on decimal literals: a value read is in canonical form, so equal floats are equal decimals |
| `Numbers.FloatStrRoundTrip` | backend/scripts/process_report.py:166 | float() reads back what str() prints for a float in positional notation: the same value |
| `Numbers.PointLiteral` | backend/scripts/process_report.py:152 | a literal 'digits.digits' reads as its digits taken as one integer, scaled by the length of the fraction |
| `Numbers.SignedLiteral` | backend/scripts/process_report.py:152 | a sign in front of an unsigned literal negates the value read |
| `Numbers.Div100Inverse` | backend/scripts/process_report.py:186 | dividing by 100.0 and multiplying by 100 gives the same value back |
| `Numbers.Round1` | backend/scripts/process_report.py:204 | round(x, 1) has at most one decimal, and leaves a value with at most one decimal unchanged |
| `Numbers.Round1Nearest` | backend/scripts/process_report.py:204 | round(x, 1) is within half a tenth of x, and a tie goes to the even tenth |
| `Numbers.IntStrRoundTrip` | sqlagent/services/presets.py:74 | int() reads back what str() writes, for every integer |
| `ReportParsers.WholeBrazilianAmount` | backend/scripts/process_report.py:151-152 | a whole amount written with ",00" reads as that whole number |
| `ReportParsers.ParseTotalText` | backend/scripts/process_report.py:164-189 | on str(value), "R$" is removed and the text stripped, then the three cases are applied |
| `ReportParsers.TotalOfCleaned` | backend/scripts/process_report.py:167-189 | a comma means Brazilian notation; otherwise a last "."-segment of two characters means a dot decimal; otherwise a whole number above 99 is divided by 100 |
| `ReportParsers.ParseTotal` | backend/scripts/process_report.py:164-190 | missing cells give None; anything else is read from its str() |
| `ReportParsers.PositionalText` | backend/scripts/process_report.py:166 | the printed form of a number has no "R", no comma, clean ends and a last segment as long as its decimals |
| `ReportParsers.PointText` | backend/scripts/process_report.py:176 | text with exactly one point splits into the parts around it |
| `ReportParsers.ShownNumber` | backend/scripts/process_report.py:166 | a number's printed form survives the "R$" removal and the strip and parses back to the number |
| `ReportParsers.TotalOfNumber` | backend/scripts/process_report.py:158-190 | on the number the money pass already produced, the total is kept, except that a whole number above 99 in absolute value is divided by 100 |
| `ReportParsers.TotalAsWrittenShrinksWholeAmounts` | backend/scripts/process_report.py:158-190 | as written, a whole Brazilian total such as "126,00" is stored as 1.26 |
| `ReportParsers.HundredthsDiffer` | backend/scripts/process_report.py:185-186 | n hundredths differs from n for every n other than 0 |
| `ReportParsers.TotalCorrectedReadsCommaAmounts` | backend/scripts/process_report.py:167-173 | the corrected total reads every comma amount exactly as parse_as_decimal does |
| `ReportParsers.TotalCorrectedWholeAmount` | backend/scripts/process_report.py:167-173 | the corrected total keeps whole Brazilian amounts ("126,00" is 126) |
| `ReportParsers.CommaKept` | backend/scripts/process_report.py:166 | digits around a comma keep the comma through the first two cleaning steps |
| `ReportParsers.TotalCorrectedCents` | backend/scripts/process_report.py:182-187 | the corrected total still reads a bare whole number above 99 as cents |
| `ReportParsers.PercentOfNumber` | backend/scripts/process_report.py:198-204 | a fraction in (0, 1] is multiplied by 100, and the result is rounded to one decimal |
| `ReportParsers.ParsePercent` | backend/scripts/process_report.py:193-207 | text is cleaned and empty text gives None; a number is read as a percentage; NaN stays NaN; text float() refuses gives None |
| `ReportParsers.PercentOfShare` | backend/scripts/process_report.py:201-204 | a share with two or three decimals becomes the percentage it denotes ("0.115" is 11.5) |
| `ReportParsers.PercentOfPercentage` | backend/scripts/process_report.py:201-204 | a number outside (0, 1] with at most one decimal is its own percentage |
| `ReportParsers.ParsePercentIdempotent` | backend/scripts/process_report.py:193-207 | parsing a parsed percentage changes nothing unless it lies in (0, 1] |
| `ReportParsers.PercentShownNumber` | backend/scripts/process_report.py:194-199 | a percentage given as text reads as the number it prints |
| `ReportParsers.PercentOfPlainText` | backend/scripts/process_report.py:194-199 | text with no "%", no comma and no edge blanks is read by float() as it stands |
| `ReportParsers.PercentOfText` | backend/scripts/process_report.py:194-204 | text that cleans to a float() literal gives that number's percentage |
| `ReportParsers.PercentCommaText` | backend/scripts/process_report.py:194-204 | Brazilian percentage text such as "11,5%" reads as 11.5 |
| `ReportReader.RenameHeader` | backend/scripts/process_report.py:221-225 | the two long headers get the database's names; every other header is kept |
| `ReportReader.ToDatetime` | backend/scripts/process_report.py:214-216 | a text the date parser accepts becomes its timestamp; anything else becomes NaT |
| `ReportReader.Converted` | backend/scripts/process_report.py:158-160 | a converted column has the sheet's length and holds the parser's result for each cell |
| `ReportReader.ConvertOne` | backend/scripts/process_report.py:159-160 | a listed column is converted when the sheet has it; the columns and the other data stay |
| `ReportReader.ConvertAll` | backend/scripts/process_report.py:158-160 | the loop over a column list keeps the sheet's shape and column names |
| `ReportReader.ConvertAllColumn` | backend/scripts/process_report.py:158-160 | each listed column is converted exactly once and every other column is left as it was |
| `ReportReader.Normalized` | backend/scripts/process_report.py:103 | every header is normalised in place; the data are untouched |
| `ReportReader.Renamed` | backend/scripts/process_report.py:221-225 | every header goes through the renaming map; the data are untouched |
| `ReportReader.ConvertedBy` | backend/scripts/process_report.py:157-216 | corrected reader: the amounts, then the order total by its own parser alone, then percentages and dates |
| `ReportReader.ConvertedByColumn` | backend/scripts/process_report.py:157-216 | corrected reader: every column goes through the conversion of the list its name is in, and only that one |
| `ReportReader.Clean` | backend/scripts/process_report.py:103-225 | corrected reader: headers normalised, the sheet refused unless one essential column is present, renamed first, then converted |
| `ReportReader.ReadClean` | backend/scripts/process_report.py:98-231 | read_and_clean_data as written: a failure of read_excel is passed on; otherwise the sheet is cleaned as CleanAsWritten does it |
| `ReportReader.AmountColumnsDistinct` | backend/scripts/process_report.py:113-126 | the column lists have no repeats and share no column |
| `ReportReader.CleanColumn` | backend/scripts/process_report.py:157-225 | corrected reader: every column of the cleaned sheet is the renamed sheet's column through the conversion its name calls for |
| `ReportReader.ConvertedAsWrittenBy` | backend/scripts/process_report.py:157-216 | as written: the order total is parsed with the amounts, then again by its own parser |
| `ReportReader.ConvertedAsWrittenByColumn` | backend/scripts/process_report.py:157-216 | as written, the order total goes through both parsers and every other column through its own list's conversion |
| `ReportReader.CleanAsWritten` | backend/scripts/process_report.py:103-225 | the reader as the code orders it: refused with the FINANCEIRO message exactly when no essential column is present; otherwise converted, then renamed, with the normalised and renamed headers |
| `ReportReader.CleanAsWrittenColumn` | backend/scripts/process_report.py:157-225 | as written, a column outside the renaming keeps its name and holds its list's conversion; the order total goes through parse_as_decimal and then parse_total_do_pedido |
| `ReportReader.RenamedColumn` | backend/scripts/process_report.py:221-225 | a renamed column sits where its long header was, when the short name was not already there |
| `ReportReader.RenamedUnchanged` | backend/scripts/process_report.py:221-225 | a column named neither long nor short keeps its place through the renaming |
| `ReportReader.RenamedNames` | backend/scripts/process_report.py:113-126 | the short names are amounts; the long names are in no list and differ from the order total |
| `ReportReader.RenamedAmountAsWritten` | backend/scripts/process_report.py:158-160 | as written, a money column that arrives under its long header is never parsed and keeps the text read from the file |
| `ReportReader.RenamedAmountCorrected` | backend/scripts/process_report.py:158-160 | the corrected reader parses that column like the other amounts |
| `ReportReader.RenamedAmountCellAsWritten` | backend/scripts/process_report.py:158-160 | as written, a text cell of such a column reaches the database as text |
| `ReportReader.RenamedAmountCellCorrected` | backend/scripts/process_report.py:158-160 | in the corrected reader no cell of such a column is text |
| `ReportReader.TotalAfterMoney` | backend/scripts/process_report.py:165 | parse_total_do_pedido reads NaN like None, so the float pass before it changes nothing for missing cells |
| `ReportReader.TotalColumnAsWritten` | backend/scripts/process_report.py:158-190 | as written, the order total column is parse_total_do_pedido of parse_as_decimal of each cell |
| `ReportReader.TotalColumnCorrected` | backend/scripts/process_report.py:164-190 | the corrected reader applies parse_total_do_pedido to the text alone |
| `ReportReader.ConvertColumns` | backend/scripts/process_report.py:158-160 | the loop rewrites the frame in place to the converted sheet |
| `ReportReader.ConvertTypes` | backend/scripts/process_report.py:157-216 | in place, as written: all money columns (the order total among them), the order total again, the percentages and the dates |
| `ReportReader.CleanSheet` | backend/scripts/process_report.py:103-227 | after read_excel: the frame is the sheet cleaned as written (converted, then renamed), or the ValueError is raised; the log lines are those of each step |
| `ReportReader.ReadAndClean` | backend/scripts/process_report.py:96-231 | read_and_clean_data: the result and the log lines, including the error line with the traceback before re-raising |
| `ReportKeys.Get` | backend/scripts/process_report.py:268 | str(row.get(col, '')): the shown cell, or '' when the column is absent |
| `ReportKeys.Gets` | backend/scripts/process_report.py:268 | Get for each listed column, in order |
| `ReportKeys.Keys` | backend/scripts/process_report.py:281 | one key per row, each the key of that row |
| `ReportKeys.TailAfterLast` | backend/scripts/process_report.py:269-271 | what follows the last separator determines itself when neither tail holds one |
| `ReportKeys.SeparatorInLongerTail` | backend/scripts/process_report.py:269-271 | with the same text, the longer tail holds the shorter one's separator |
| `ReportKeys.DigitsNoUnderscore` | backend/scripts/process_report.py:265 | decimal digits are hexadecimal digits |
| `ReportKeys.OrderKeysDistinct` | backend/scripts/process_report.py:266-271 | two order rows with different row labels never share a key, whatever their columns hold |
| `ReportKeys.OrderKeyNotHex` | backend/scripts/process_report.py:265-276 | an order key holds a '_', so no hex digest and no uuid hex is an order key |
| `ReportKeys.OrderRowKeyUnique` | backend/scripts/process_report.py:253-281 | within one sheet, the key of a row with an order id is shared with no other row |
| `ReportKeys.LooseKeysShared` | backend/scripts/process_report.py:257-265 | two loose occurrences with the same five identifying fields get the same key |
| `ReportKeys.LooseKeysApart` | backend/scripts/process_report.py:257-265 | with an injective digest and no '\|' in the fields, loose occurrences differing in a field get different keys |
| `ReportKeys.GetsAside` | backend/scripts/process_report.py:268 | records that differ in one column read the same in every other |
| `ReportKeys.ReingestKeys` | backend/scripts/process_report.py:253-281 | a re-ingest under another file id keeps every row's key, except the uuid-keyed rows |
| `ReportSave.Constant` | backend/scripts/process_report.py:236-237 | a column of the sheet's length holding the same value in every row |
| `ReportSave.Stamped` | backend/scripts/process_report.py:236-237 | account_id and received_file_id hold the given ids in every row; every other column is kept |
| `ReportSave.KeyCells` | backend/scripts/process_report.py:281 | the key of each row, computed under its own row label |
| `ReportSave.IsoCell` | backend/scripts/process_report.py:295 | a timestamp becomes its ISO text; NaT and None become None |
| `ReportSave.IsoDates` | backend/scripts/process_report.py:290-295 | each present date column is passed through IsoCell; the others are kept |
| `ReportSave.Prepared` | backend/scripts/process_report.py:236-295 | the caller's frame after stamping, keying and the date conversion |
| `ReportSave.NoneForMissing` | backend/scripts/process_report.py:298 | NaN and NaT become None; every other value is kept |
| `ReportSave.LastOnes` | backend/scripts/process_report.py:315 | the positions keep='last' keeps: those whose value occurs nowhere later, in increasing order |
| `ReportSave.Deduped` | backend/scripts/process_report.py:315 | the rows keep='last' keeps, in their order |
| `ReportSave.Keep` | backend/scripts/process_report.py:317 | the names of the list that are present, in the list's order |
| `ReportSave.ColsToSend` | backend/scripts/process_report.py:302-317 | the final database columns the frame has |
| `ReportSave.Relevant` | backend/scripts/process_report.py:326 | the columns sent, without upsert_key |
| `ReportSave.IsoColumns` | backend/scripts/process_report.py:293-295 | the loop leaves the frame equal to IsoDates of the old one |
| `ReportSave.Prepare` | backend/scripts/process_report.py:234-287 | in place: the frame becomes Prepared; the log lines are the count, the key line and the duplicate warning when keys repeat |
| `ReportSave.StampAndKey` | backend/scripts/process_report.py:234-286 | in place: the frame gains the account, the file and the upsert key (Keyed of Stamped); the log lines are the count, the key line and the duplicate warning when keys repeat |
| `ReportSave.FetchExisting` | backend/scripts/process_report.py:330-340 | pages of 500 rows are read until an empty or short page; a failing call stops the read with its error |
| `ReportSave.IndexPage` | backend/scripts/process_report.py:336-337 | the loop leaves the index equal to the page indexed by order id over the old index |
| `ReportSave.IsIdentical` | backend/scripts/process_report.py:342-346 | true exactly when the two rows agree on every relevant column |
| `ReportSave.SelectedNext` | backend/scripts/process_report.py:350-355 | one step of the filter: the record is appended exactly when it is new or changed; a record without an order id raises the KeyError |
| `ReportSave.SelectChanged` | backend/scripts/process_report.py:349-356 | the loop's result equals the filter function over all records |
| `ReportSave.Choose` | backend/scripts/process_report.py:328-356 | the stored rows read page by page, then the records filtered against them, as the specification functions say |
| `ReportSave.Send` | backend/scripts/process_report.py:318-362 | the table, the calls and the outcome are those of Saved; the log gets the warning or the fetch and count lines |
| `ReportSave.SendRecords` | backend/scripts/process_report.py:329-362 | the changed records are chosen and upserted in batches of 500, as SavedRecords says |
| `ReportSave.SaveSalesData` | backend/scripts/process_report.py:233-362 | the frame becomes Prepared, the table and outcome are Saved of it, and the log lines are those of both parts |
| `ReportSave.DuplicateWarningIffRepeated` | backend/scripts/process_report.py:284-286 | the duplicate warning is logged exactly when two rows got the same key |
| `ReportSave.LastOnesDistinct` | backend/scripts/process_report.py:315 | the rows keep='last' keeps have pairwise different keys |
| `ReportSave.LastOccurrence` | backend/scripts/process_report.py:315 | each value of a sequence has a last position, and that position is kept |
| `ReportSave.LastOnesCover` | backend/scripts/process_report.py:315 | every key of the sheet is still present after keep='last' |
| `ReportSave.ColsToSendLast` | backend/scripts/process_report.py:302-317 | cols_to_send ends with upsert_key when the frame has it |
| `ReportSave.OutgoingKey` | backend/scripts/process_report.py:315-318 | the upsert key of the k-th record is the key of the k-th row kept |
| `ReportSave.OutgoingKeysDistinct` | backend/scripts/process_report.py:315-318 | no two records built share an upsert key |
| `ReportSave.OutgoingKeepsEveryKey` | backend/scripts/process_report.py:315-318 | every row's key is sent, by the last row holding it |
| `ReportSave.PlanPercentNeverSent` | backend/scripts/process_report.py:124 | the third percentage column the reader converts is not among the columns sent, because the list at line 309 spells it differently |
| `ReportSave.IndexKeys` | backend/scripts/process_report.py:336-337 | the index holds every order id read and nothing else |
| `ReportSave.IndexLast` | backend/scripts/process_report.py:336-337 | under each order id the index holds the last row read with it |
| `ReportSave.FetchOk` | backend/scripts/process_report.py:330-340 | one call per page; success exactly when none of them fails, and then every row from the offset on is indexed |
| `ReportSave.FetchErr` | backend/scripts/process_report.py:330-340 | a failing read stops at its first failing call, with that call's error |
| `ReportSave.SelectedMembers` | backend/scripts/process_report.py:349-356 | a record is sent exactly when its order id is not stored or the stored row differs in a relevant column |
| `ReportSave.SelectedDistinct` | backend/scripts/process_report.py:349-356 | filtering records with distinct keys keeps them distinct |
| `ReportSave.SelectedErr` | backend/scripts/process_report.py:349-356 | the filter raises exactly when some record has no order id column, and then with the KeyError |
| `ReportSave.NewFileSendsAll` | backend/scripts/process_report.py:342-356 | under a new file id no stored row matches, so every record is sent again |
| `ReportSave.ChosenFacts` | backend/scripts/process_report.py:328-356 | reading and filtering raises only a failing call's error or the KeyError, and keeps keys distinct |
| `ReportSave.SaveRaises` | backend/scripts/process_report.py:315-362 | the save never makes the database reject a batch for touching a row twice; every error is a failing call's or the KeyError |
| `ReportSave.SaveDone` | backend/scripts/process_report.py:349-362 | a completed save has merged every chosen record over its stored row, or stored it, and left every other row alone |
| `ReportLog.IfTruthy` | backend/scripts/process_report.py:42-43 | None or '' leaves the value as it was; any other string replaces it |
| `ReportLog.Logger.constructor` | backend/scripts/process_report.py:35-39 | no context and an empty buffer |
| `ReportLog.Logger.SetContext` | backend/scripts/process_report.py:41-43 | only non-empty values replace the current ids |
| `ReportLog.Logger.Log` | backend/scripts/process_report.py:45-54 | the entry, with the level in upper case and the current ids, goes to the end of the buffer |
| `ReportLog.Logger.Flush` | backend/scripts/process_report.py:58-66 | nothing on an empty buffer; otherwise one insert of the whole buffer, emptied on success and kept on failure |
| `ReportMain.StatusFields` | backend/scripts/process_report.py:87-89 | the status and the time, plus error_details exactly when a message is given |
| `ReportMain.StatusEntry` | backend/scripts/process_report.py:92-94 | the info line of a successful update, or the error line with the failing call's message |
| `ReportMain.UpdateFileStatus` | backend/scripts/process_report.py:85-94 | one update of the file's row; success and failure are both logged and nothing is raised |
| `ReportMain.Drawn` | backend/scripts/process_report.py:276 | n uuid hex strings, the i-th being uuid(i) |
| `ReportMain.ReadAndSave` | backend/scripts/process_report.py:375-379 | read_and_clean_data, then save_sales_data on its frame; the outcome, table and log are those of the specification functions |
| `ReportMain.ProcessReport` | backend/scripts/process_report.py:364-393 | the whole run: the table and outcome are Processed, the file gets the two status writes, the log is RunLog and is flushed |
| `ReportMain.Finish` | backend/scripts/process_report.py:381-389 | the final status write and its log lines, in the order each branch writes them |
| `ReportMain.RunStatuses` | backend/scripts/process_report.py:373-389 | every run writes 'processing' then exactly one of 'processed' or 'error'; 'processed' only when reading and saving succeeded |
| `ReportMain.ProcessedRaises` | backend/scripts/process_report.py:375-389 | a run that ends in error was stopped by the reader with sales_data untouched, or raised a failing call's error or the KeyError |
| `ReportMain.NotFinancialFails` | backend/scripts/process_report.py:108-110 | a sheet without any essential column ends in 'error' with the reader's message and writes nothing to sales_data |
| `ReportSave.SavedRecordsRaises` | backend/scripts/process_report.py:315-356 | records with distinct keys make the save raise only by a failing call, never by the duplicate-key error |
| `LegacyReport.ToFloat` | scripts/process_report.py:142-171 | missing gives None, numbers pass through, text is read as a Brazilian amount and divided by 100 when it carries '%'; text float() refuses gives None |
| `LegacyReport.TextToFloat` | scripts/process_report.py:148-170 | the strip, the '%' test, the removal of 'R$' and '%', and the separator rule: dots dropped only when a comma is also present |
| `LegacyReport.BothSeparatorsLikeCurrent` | scripts/process_report.py:156-157 | an amount holding both separators is read as the current pipeline's parse_as_decimal reads it |
| `LegacyReport.CleanText` | scripts/process_report.py:149-164 | text without edge blanks and without '%' reads as the float of its cleaned text |
| `LegacyReport.PlainAmountCleaned` | scripts/process_report.py:154 | a plain amount has nothing for the cleaning steps to remove |
| `LegacyReport.NoSignToRemove` | scripts/process_report.py:154 | a plain amount holds no 'R$' or '%' to replace |
| `LegacyReport.ThousandsAndComma` | scripts/process_report.py:154-157 | 'R$ a.b,c' reads as the digits abc with \|c\| decimals |
| `LegacyReport.LoneDotIsDecimalPoint` | scripts/process_report.py:158-159 | with no comma a '.' is a decimal point ('1.999' reads as 1.999), unlike the current pipeline |
| `LegacyReport.ToStr` | scripts/process_report.py:173-176 | missing values and the text 'nan' give None; anything else its str() |
| `LegacyReport.ToIso` | scripts/process_report.py:131-140 | missing values and values the date parser refuses give None; otherwise the ISO text |
| `LegacyReport.Missing` | scripts/process_report.py:200 | a header is listed exactly when it is expected and absent, in the expected order |
| `LegacyReport.ReadAndClean` | scripts/process_report.py:178-205 | a missing file raises FileNotFoundError; a sheet lacking expected headers raises the ValueError naming them all; otherwise the sheet as read |
| `LegacyReport.ConvertedValue` | scripts/process_report.py:222-254 | with distinct field names, each field holds its own header's converted value |
| `LegacyReport.SalesRecord` | scripts/process_report.py:222-255 | the record of one row: the converted fields tagged with the account, the file and the order id |
| `LegacyReport.SalesRecords` | scripts/process_report.py:213-256 | the records of the rows with an order id, in row order |
| `LegacyReport.SalesRecordsComplete` | scripts/process_report.py:215-256 | every row with an order id has its record among the records |
| `LegacyReport.SalesRecordsSound` | scripts/process_report.py:215-256 | every record is built from a row with an order id |
| `LegacyReport.SalesRecordsTagged` | scripts/process_report.py:222-230 | every record carries the run's account and file and a non-empty order id |
| `LegacyReport.BuildRecords` | scripts/process_report.py:213-256 | the loop over the rows returns SalesRecords of the sheet |
| `LegacyReport.IgnoreStoredKeys` | scripts/process_report.py:267-271 | with do-nothing on conflict, upserting records whose keys are all stored changes nothing |
| `LegacyReport.ReingestChangesNothing` | scripts/process_report.py:207-271 | ingesting the same records again after a successful insert-or-ignore leaves the table as the first time |
| `LegacyReport.SaveSalesDataToDb` | scripts/process_report.py:207-284 | no call when no row has an order id; otherwise one insert-or-ignore of every record on (account_id, pedido_id_completo), whose failure is raised |
| `LegacyReport.Procedures.constructor` | scripts/process_report.py:339-342 | no procedure called yet, with the given failing calls |
| `LegacyReport.Procedures.Call` | scripts/process_report.py:339-342 | the call is recorded with its arguments; it fails exactly when its number is failing |
| `LegacyReport.KpiCell` | scripts/process_report.py:322 | the kpi_date of an order date: its 'YYYY-MM-DD' text, or NaT |
| `LegacyReport.Present` | scripts/process_report.py:323 | the positions dropna keeps: exactly those whose cell is not missing |
| `LegacyReport.Texts` | scripts/process_report.py:332 | the texts of a column of date strings |
| `LegacyReport.Unique` | scripts/process_report.py:325 | the distinct values in order of first appearance, none twice |
| `LegacyReport.TakenColumn` | scripts/process_report.py:323 | a column of the frame after dropping rows is the kept cells of the column before |
| `LegacyReport.KpiDatesExact` | scripts/process_report.py:322-332 | a date is sent exactly when some row's order date parses to it, and no date is sent twice |
| `LegacyReport.UpdateDailyKpis` | scripts/process_report.py:314-347 | the frame gains kpi_date and loses the NaT rows; no call when no date remains, otherwise one call with the distinct dates whose failure is raised |
| `LegacyReport.SaveAndRecalculate` | scripts/process_report.py:365-368 | the sales are saved, then the KPIs recalculated; stored rows are kept |
| `LegacyReport.StatusFields` | scripts/process_report.py:69-73 | status, the time, and the error text or null |
| `LegacyReport.UpdateFileStatus` | scripts/process_report.py:61-84 | one update of the file's row, whose failure is raised to the caller |
| `LegacyReport.Steps` | scripts/process_report.py:356-371 | the five steps up to the final status: the first exception, if any, and the status updates made |
| `LegacyReport.ProcessFinancialReport` | scripts/process_report.py:349-386 | 'processing', read, save, KPIs, 'processed'; the first exception marks the file 'error' with its text and exits with status 1, unless that marking raises |
| `LegacyReport.TwoStatuses` | scripts/process_report.py:358-371 | two status writes to the same file leave their statuses in the order written |
| `ServerlessReport.ToFloat` | api/process/index.py:103-112 | the same cleaning as the older script, but '%' is only removed and never divides by 100; text float() refuses gives None |
| `ServerlessReport.PercentNoLongerScaled` | api/process/index.py:107-110 | the two revisions agree except on text carrying '%', which the older one divides by 100 and this one keeps ('2,60%' is 0.026 there and 2.6 here) |
| `ServerlessReport.SameCleaning` | api/process/index.py:107-109 | both revisions parse the same cleaned text; only the older one scales it |
| `ServerlessReport.Missing` | api/process/index.py:93 | a header is listed exactly when it is required and absent, in order |
| `ServerlessReport.ReadAndClean` | api/process/index.py:90-96 | the sheet as read (a failing read raises), or the ValueError naming the missing required headers |
| `ServerlessReport.LooserThanLegacy` | api/process/index.py:92-95 | every sheet the older script accepts is accepted here, and not the other way round |
| `ServerlessReport.Bucket.constructor` | api/process/index.py:80-84 | an empty upload history with the given failing calls and objects |
| `ServerlessReport.Bucket.Upload` | api/process/index.py:80-84 | an upload with upsert stores the object at its path unless the call fails, and reports the failure |
| `ServerlessReport.StoragePath` | api/process/index.py:78 | the path is the account, a '/', then the original name |
| `ServerlessReport.UploadFileToStorage` | api/process/index.py:75-88 | the storage path on success; on failure the file is marked 'error' and IOError is raised, or the marking's own exception when that fails |
| `ServerlessReport.TrackingRow` | api/process/index.py:172-177 | the tracking row: account, original name, 'received' and the source |
| `ServerlessReport.Steps` | api/process/index.py:180-193 | steps two to five once the tracking row exists: the first exception, if any |
| `ServerlessReport.Process` | api/process/index.py:183-193 | 'processing', read, save, KPIs, 'processed'; on success both status writes were made and the sheet was accepted |
| `ServerlessReport.ReadAndSave` | api/process/index.py:185-191 | a refused sheet raises its ValueError and leaves sales_data untouched; stored rows are never changed |
| `ServerlessReport.OrchestrateReportProcessing` | api/process/index.py:167-203 | success answers 'success' after both status writes; any exception answers 'error' with its text after marking the file 'error' when the tracking row exists; only a failure of that marking escapes |
| `ServerlessReport.Mark` | api/process/index.py:60-73 | one status write without an error message; it raises exactly when the call fails |
| `ServerlessReport.SaveAndMark` | api/process/index.py:185-193 | read, save and the KPIs, then 'processed' only when they went through; the table keeps every row it had |
| `Conciliation.Targets` | backend/scripts/process_conciliation.py:104 | the table columns of a mapping, in its order |
| `Conciliation.Renamed` | backend/scripts/process_conciliation.py:70 | a header the mapping lists becomes its column (the first pair for it); any other header is kept |
| `Conciliation.RowKeyNotFinal` | backend/scripts/process_conciliation.py:104-111 | row_key is none of the kept columns, so adding it does not overwrite one |
| `Conciliation.NoneForMissing` | backend/scripts/process_conciliation.py:67 | every missing marker becomes None; other cells are kept |
| `Conciliation.DateCell` | backend/scripts/process_conciliation.py:79-80 | a cell the date parser accepts becomes its ISO text; anything else None |
| `Conciliation.DropPointZero` | backend/scripts/process_conciliation.py:88 | one trailing ".0" is removed; other text is kept |
| `Conciliation.IdCell` | backend/scripts/process_conciliation.py:88 | astype(str), one trailing ".0" removed, and the text 'None' turned back into None |
| `Conciliation.WholeIdKeepsDigits` | backend/scripts/process_conciliation.py:88 | an id read as a whole float keeps its digits: 123.0 is stored as '123' |
| `Conciliation.KeepValueChars` | backend/scripts/process_conciliation.py:99 | every character other than a digit, ',' or '-' is deleted and the rest kept in order |
| `Conciliation.NoDotKept` | backend/scripts/process_conciliation.py:99 | a dot never survives the filter |
| `Conciliation.KeepValueCharsAll` | backend/scripts/process_conciliation.py:99 | text of digits, ',' and '-' passes the filter unchanged |
| `Conciliation.KeepValueCharsAppend` | backend/scripts/process_conciliation.py:99 | filtering a concatenation filters each part |
| `Conciliation.KeepValueCharsNone` | backend/scripts/process_conciliation.py:99 | text with no digit, ',' or '-' is deleted entirely |
| `Conciliation.ValueAsWritten` | backend/scripts/process_conciliation.py:96-102 | as written: astype(str) (a float in positional notation), the filter, ',' to '.', then to_numeric with NaN where no number is read |
| `Conciliation.ValueCell` | backend/scripts/process_conciliation.py:96-102 | as intended: a number the sheet holds keeps its value; text is converted as written |
| `Conciliation.MissingValueIsNaN` | backend/scripts/process_conciliation.py:67-102 | a missing value is read as NaN |
| `Conciliation.DigitsKept` | backend/scripts/process_conciliation.py:99 | digits pass the filter unchanged |
| `Conciliation.PointDropped` | backend/scripts/process_conciliation.py:99 | the filter on digits, a dot and digits keeps the two runs of digits |
| `Conciliation.BrazilianAmountRead` | backend/scripts/process_conciliation.py:96-102 | 'R$ 1.500,00'-style text is read with the dots dropped and the comma as decimal point |
| `Conciliation.BrazilianValueText` | backend/scripts/process_conciliation.py:99-100 | the text read from a Brazilian amount: thousands dots and prefix gone, comma made a point |
| `Conciliation.CommaKept` | backend/scripts/process_conciliation.py:99 | digits, a comma and digits pass the filter unchanged |
| `Conciliation.PointDroppedBefore` | backend/scripts/process_conciliation.py:99 | digits and a dot before text the filter keeps lose only the dot |
| `Conciliation.ValueAsWrittenShiftsNumbers` | backend/scripts/process_conciliation.py:96-102 | as written, a number the sheet already holds loses its decimal point and is read as its digits |
| `Conciliation.TwelveAndAHalfStoredAs125` | backend/scripts/process_conciliation.py:96-102 | as written, a cell holding 12.5 is stored as 125 |
| `Conciliation.ValueCellKeepsNumbers` | backend/scripts/process_conciliation.py:96-102 | the corrected conversion keeps every number's value and reads every other cell as the code does |
| `Conciliation.MissingAsNone` | backend/scripts/process_conciliation.py:67 | every cell is passed through NoneForMissing; the shape is kept |
| `Conciliation.ConvertAll` | backend/scripts/process_conciliation.py:77-102 | each loop keeps the sheet's shape and names |
| `Conciliation.ConvertAllColumn` | backend/scripts/process_conciliation.py:77-102 | a column listed once is converted once; an unlisted column is untouched |
| `Conciliation.Converted` | backend/scripts/process_conciliation.py:73-102 | as written: the date, id and value loops, in that order, keeping the sheet's shape and names |
| `Conciliation.ConvertedColumn` | backend/scripts/process_conciliation.py:73-102 | as written: each column goes through the conversion of the list it is in, and only that one; a value column through ValueAsWritten |
| `Conciliation.Prepared` | backend/scripts/process_conciliation.py:67-102 | missing values made None, headers renamed, columns converted |
| `Conciliation.KeyParts` | backend/scripts/process_conciliation.py:109 | the values of the given columns of a row, in order |
| `Conciliation.RowKeyOfCanonical` | backend/scripts/process_conciliation.py:108-110 | the row key depends on the values of the hashed columns and nothing else |
| `Conciliation.RowKeyIgnoresOtherFields` | backend/scripts/process_conciliation.py:108-110 | fields outside the hashed columns leave the key as it was |
| `Conciliation.KeysColumn` | backend/scripts/process_conciliation.py:111 | one key per row, each the key of that row |
| `Conciliation.FirstOnes` | backend/scripts/process_conciliation.py:115 | the positions keep='first' keeps, in increasing order |
| `Conciliation.FirstOnesMember` | backend/scripts/process_conciliation.py:115 | a position is kept exactly when its value does not occur before it |
| `Conciliation.FirstOnesDistinct` | backend/scripts/process_conciliation.py:115 | the kept values are pairwise distinct |
| `Conciliation.FirstOnesCover` | backend/scripts/process_conciliation.py:115 | every value is kept, at its first occurrence |
| `Conciliation.Keyed` | backend/scripts/process_conciliation.py:111 | the sheet gains row_key holding each row's key |
| `Conciliation.Deduplicated` | backend/scripts/process_conciliation.py:115 | the rows at the positions keep='first' keeps |
| `Conciliation.TakenColumn` | backend/scripts/process_conciliation.py:115 | a column of the kept rows is the whole column read at the kept positions |
| `Conciliation.Cleaned` | backend/scripts/process_conciliation.py:62-115 | fails exactly when a kept column is absent after renaming; otherwise the kept columns in mapping order, then row_key |
| `Conciliation.KeyedSelection` | backend/scripts/process_conciliation.py:104-111 | the selected and keyed sheet before duplicates are dropped |
| `Conciliation.CleanedKeysDistinct` | backend/scripts/process_conciliation.py:108-115 | after cleaning no two rows share a row_key, and every key of the selected rows is still there at its first row |
| `Conciliation.CleanedRows` | backend/scripts/process_conciliation.py:62-115 | each kept row holds, in every kept column, the converted value of the first row with its key |
| `Conciliation.ConvertColumns` | backend/scripts/process_conciliation.py:77-102 | one conversion loop rewrites the frame in place to ConvertAll of it |
| `Conciliation.ReadAndCleanData` | backend/scripts/process_conciliation.py:62-134 | the frame read from the second sheet and cleaned in place, or the error that reading or selecting raised |
| `Conciliation.Fallback` | backend/scripts/process_conciliation.py:140-143 | the object dumped when to_json raises: the error, and every field of the row as its str() |
| `Conciliation.Filled` | backend/scripts/process_conciliation.py:150-151 | n cells, all equal to the value |
| `Conciliation.Uuids` | backend/scripts/process_conciliation.py:152 | the uuid drawn for row i is uuid(i) |
| `Conciliation.Tagged` | backend/scripts/process_conciliation.py:150-152 | the three metadata columns added; the sheet stays well formed with the same rows |
| `Conciliation.TaggedColumns` | backend/scripts/process_conciliation.py:150-152 | tagging sets account_id, received_file_id and id as drawn, and keeps every other column |
| `Conciliation.RawColumnOf` | backend/scripts/process_conciliation.py:155 | each row's JSON, taken with every column it has at that point |
| `Conciliation.Stamped` | backend/scripts/process_conciliation.py:150-155 | the frame as sent: tagged, then with raw_data |
| `Conciliation.OnceAfterSet` | backend/scripts/process_conciliation.py:150-155 | setting another column keeps a column that appears once, and its cells |
| `Conciliation.StampedKeepsColumn` | backend/scripts/process_conciliation.py:150-155 | a column other than the metadata ones that appears once keeps its cells through stamping |
| `Conciliation.StampedKeysDistinct` | backend/scripts/process_conciliation.py:150-160 | stamped records keep the distinct row_key cells of the sheet |
| `Conciliation.RowOnce` | backend/scripts/process_conciliation.py:160 | the record of a row holds, for a column that appears once, that column's cell |
| `Conciliation.RecordsKeysDistinct` | backend/scripts/process_conciliation.py:160 | rows whose key column appears once and holds distinct cells give records with distinct keys |
| `Conciliation.CleanedKeyOnce` | backend/scripts/process_conciliation.py:104-115 | a cleaned sheet has row_key once, as its last column |
| `Conciliation.RowKeyBatchesFailOnlyByCall` | backend/scripts/process_conciliation.py:162-173 | records with distinct row_keys, upserted 100 at a time, fail only by a failing call |
| `Conciliation.StampedSaveFailsOnlyByCall` | backend/scripts/process_conciliation.py:145-173 | saving a sheet whose row_key appears once and is distinct fails only by a failing call |
| `Conciliation.CleanedRecordsDistinct` | backend/scripts/process_conciliation.py:111-160 | after cleaning the stamped records have distinct keys, so no upsert touches a row twice |
| `Conciliation.CleanedSaveFailsOnlyByCall` | backend/scripts/process_conciliation.py:111-173 | saving a cleaned sheet fails only by a failing database call, never with the duplicate-key error |
| `Conciliation.Tag` | backend/scripts/process_conciliation.py:150-152 | in place, the frame becomes Tagged of the old one |
| `Conciliation.StampAndUpsert` | backend/scripts/process_conciliation.py:150-173 | the frame becomes Stamped in place, and the table, calls and outcome are those of the batch loop over its records |
| `Conciliation.SaveDataInBatches` | backend/scripts/process_conciliation.py:145-174 | the shared save loop with this safe_to_json, upserting on row_key |
| `Conciliation.StatusOnly` | backend/scripts/process_conciliation.py:53-56 | the status alone: writing the details is switched off |
| `Conciliation.UpdateFileStatus` | backend/scripts/process_conciliation.py:50-60 | one update of the file's row with the status alone; its failure is swallowed |
| `Conciliation.ReadAndSave` | backend/scripts/process_conciliation.py:183-188 | a read error aborts with its text and writes nothing; no rows ends without a save; otherwise the stamped records are upserted as the batch loop says |
| `Conciliation.AbortedSaveIsCallError` | backend/scripts/process_conciliation.py:183-200 | a run on a sheet that cleans aborts only with the text of a failing database call |
| `Conciliation.ProcessConciliationFile` | backend/scripts/process_conciliation.py:176-203 | the file's statuses gain 'processing' then 'processed' or 'error', and the table is as ReadAndSave says |
| `LegacyConciliation.Renamed` | scripts/process_conciliation.py:101 | a header the mapping lists becomes its column; any other header keeps its name |
| `LegacyConciliation.Cleaned` | scripts/process_conciliation.py:101-106 | fails with the missing column exactly when a mapped column is absent after renaming; otherwise exactly the mapped columns, in mapping order |
| `LegacyConciliation.CleanedColumnSource` | scripts/process_conciliation.py:101-106 | each kept column holds the cells of the first sheet column renamed to it |
| `LegacyConciliation.ReadAndCleanData` | scripts/process_conciliation.py:92-111 | the frame read, renamed in place and cut to the mapped columns, or the error re-raised |
| `LegacyConciliation.FieldText` | scripts/process_conciliation.py:120-123 | a field's text, or the unreadable marker when str() raises |
| `LegacyConciliation.Fallback` | scripts/process_conciliation.py:117-127 | the dumped object holds the error message and every field of the row, readable or marked |
| `LegacyConciliation.SaveDataInBatches` | scripts/process_conciliation.py:129-152 | the three metadata columns and raw_data added in place, then upserts of 100 records on entry_id until one raises |
| `LegacyConciliation.RepeatedEntryAborts` | scripts/process_conciliation.py:141-151 | two records of the first batch with the same entry_id make that upsert raise, so nothing is saved |
| `LegacyConciliation.StampedEntry` | scripts/process_conciliation.py:133-141 | each record's entry_id is the sheet's, when entry_id is one column of the sheet |
| `LegacyConciliation.RepeatedEntryInSheetAborts` | scripts/process_conciliation.py:92-151 | a sheet repeating an entry_id within its first 100 rows is not saved at all, unless the call fails first |
| `LegacyConciliation.ContextOr` | scripts/process_conciliation.py:62 | the given context, or the empty object |
| `LegacyConciliation.Logger.constructor` | scripts/process_conciliation.py:46-49 | a logger with no file, no account and no rows |
| `LegacyConciliation.Logger.SetContext` | scripts/process_conciliation.py:51-53 | file and account set; rows kept |
| `LegacyConciliation.Logger.Log` | scripts/process_conciliation.py:55-68 | one insert with the level upper-cased, the context and source; a failing insert is swallowed |
| `LegacyConciliation.InitClient` | scripts/process_conciliation.py:70-76 | raises the fixed ValueError when either variable is missing or empty; otherwise the outcome of connecting |
| `LegacyConciliation.StatusFields` | scripts/process_conciliation.py:81-83 | the status, plus details exactly when they are present and non-empty |
| `LegacyConciliation.UpdateFileStatus` | scripts/process_conciliation.py:78-88 | one update with StatusFields, then one log line saying whether it failed; nothing is raised |
| `LegacyConciliation.Disk.constructor` | scripts/process_conciliation.py:191-193 | the files present and the ones whose removal raises |
| `LegacyConciliation.Disk.Remove` | scripts/process_conciliation.py:193 | the file is removed, or OSError with its text when it is stuck |
| `LegacyConciliation.Cleanup` | scripts/process_conciliation.py:190-198 | the file is removed when present and not stuck; one log line exactly when it was present and a logger exists |
| `LegacyConciliation.ReadAndSave` | scripts/process_conciliation.py:172-180 | a read error aborts and writes nothing; no rows skips the save; otherwise the table is the batch loop's, and a save that ends normally upserts every record |
| `LegacyConciliation.Finish` | scripts/process_conciliation.py:176-189 | one status write: 'completed', 'error' with the empty-sheet text, or 'error' with the error and its traceback |
| `LegacyConciliation.ProcessConciliationFile` | scripts/process_conciliation.py:156-198 | no client: nothing is written; otherwise the file's statuses gain 'processing' and the final status with its details, and the table is as ReadAndSave says; the file is removed in every case |
| `LegacyConciliation.SaveAndFinish` | scripts/process_conciliation.py:172-189 | the read and save, then exactly one status write with the final status and details |
| `LegacyConciliation.Run` | scripts/process_conciliation.py:167-189 | context set, start logged, then exactly two status writes: 'processing' and the final one |
| `WaWorker.BackoffSeconds` | backend/scripts/wa_worker.py:33-37 | base[min(attempts - 1, 3)] with Python indexing: a delay from the list, and IndexError exactly for attempts <= -4 |
| `WaWorker.BackoffSchedule` | backend/scripts/wa_worker.py:33-37 | from the first attempt: 60, 300, 900, then 3600 for ever |
| `WaWorker.BackoffMonotone` | backend/scripts/wa_worker.py:33-37 | the delay never decreases with the attempt count and never exceeds an hour |
| `WaWorker.BackoffWraps` | backend/scripts/wa_worker.py:36-37 | counts from -3 to 0 index from the end of the list |
| `WaWorker.InsertPermutes` | backend/scripts/wa_worker.py:47 | inserting by key adds exactly the one element |
| `WaWorker.InsertKeepsSorted` | backend/scripts/wa_worker.py:47 | inserting into a sorted list keeps it sorted |
| `WaWorker.InsertSorted` | backend/scripts/wa_worker.py:47 | inserting a row into a list ordered by time keeps it ordered and adds exactly that row |
| `WaWorker.SortBy` | backend/scripts/wa_worker.py:47 | a stable sort: a permutation, sorted by the key |
| `WaWorker.SortByTime` | backend/scripts/wa_worker.py:47 | ORDER BY scheduled_at: a permutation in non-decreasing time |
| `WaWorker.InTableOrder` | backend/scripts/wa_worker.py:43-44 | the table's rows, in the order the table returns them |
| `WaWorker.DueRows` | backend/scripts/wa_worker.py:45-46 | exactly the rows that are queued and due |
| `WaWorker.PickQueue` | backend/scripts/wa_worker.py:40-51 | at most BATCH_SIZE rows, all queued and due, oldest first |
| `WaWorker.PickedFromTable` | backend/scripts/wa_worker.py:40-51 | each picked row is the table's row under its id |
| `WaWorker.PickComplete` | backend/scripts/wa_worker.py:40-51 | a due row left out waits because a full batch of rows at least as old was picked |
| `WaWorker.InTableOrderHas` | backend/scripts/wa_worker.py:43-44 | every row whose id the table lists is selected |
| `WaWorker.FailureRetriesOrGivesUp` | backend/scripts/wa_worker.py:78-95 | a failure counts one attempt more; it is final exactly at MAX_ATTEMPTS, otherwise requeued strictly later by the backoff delay |
| `WaWorker.SuccessRecorded` | backend/scripts/wa_worker.py:67-75 | a success marks the row sent, counts one attempt more and clears the last error |
| `WaWorker.BodyTextsRoundTrip` | backend/scripts/wa_worker.py:106-109 | the texts of a built body component are the texts it was built from |
| `WaWorker.ComponentsChosen` | backend/scripts/wa_worker.py:98-117 | stored components win; else one text parameter per variable as str(); else the user name; else None |
| `WaWorker.Language` | backend/scripts/wa_worker.py:142 | lang_code when truthy, otherwise pt_BR |
| `WaWorker.Recipient` | backend/scripts/wa_worker.py:137 | to_number when truthy, otherwise user_number_normalized |
| `WaWorker.Elements` | backend/scripts/wa_worker.py:104-109 | the values the loop over variables visits: a list's items, a string's characters, a dict's keys; any other value raises the TypeError whose text is "'<type>' object is not iterable" |
| `WaWorker.IntNotIterable` | backend/scripts/wa_worker.py:104-109 | a number stored as variables gives the text "'int' object is not iterable" |
| `WaWorker.NotIterableVariablesFail` | backend/scripts/wa_worker.py:104-152 | a queued item with a recipient, no components and a number or true as variables is not sent; its row counts one attempt more and stores str() of the TypeError as last_error |
| `WaWorker.ItemStep` | backend/scripts/wa_worker.py:129-153 | one item: nothing changes unless its row is still queued; at most one message is counted, none without a recipient, and a counted one leaves the row sent with one attempt more |
| `WaWorker.ItemStepKeeps` | backend/scripts/wa_worker.py:129-153 | one item changes no row but its own queued row, and keeps the table's ids |
| `WaWorker.Run` | backend/scripts/wa_worker.py:128-153 | the loop over the picked items sends at most one message per item |
| `WaWorker.Outbox.constructor` | backend/scripts/wa_worker.py:43 | the table's rows and the order it returns them in |
| `WaWorker.Outbox.Claim` | backend/scripts/wa_worker.py:54-64 | true exactly when the row exists and is queued, and then only that row becomes 'sending' |
| `WaWorker.Outbox.FinalizeSuccess` | backend/scripts/wa_worker.py:67-75 | the row with this id becomes the succeeded row; a missing id changes nothing |
| `WaWorker.Outbox.FinalizeFailure` | backend/scripts/wa_worker.py:78-95 | the row with this id becomes the failed or requeued row; a missing id changes nothing |
| `WaWorker.Outbox.Handle` | backend/scripts/wa_worker.py:129-153 | one iteration: skip when the claim fails, fail on a missing recipient or a raising send, otherwise finalize as sent |
| `WaWorker.Outbox.ProcessOnce` | backend/scripts/wa_worker.py:120-154 | the picked batch handled in order; the rows and count are those of Run over it |
| `WaWorker.Outbox.HandleAll` | backend/scripts/wa_worker.py:128-153 | the outbox after handling the items in turn, and the number sent, are those of the specification Run over all of them |
| `WaWorker.SentAtMostBatch` | backend/scripts/wa_worker.py:120-154 | one pass sends at most BATCH_SIZE messages |
| `WaWorker.RunTouchesOnlyItems` | backend/scripts/wa_worker.py:128-153 | rows that were not picked are left alone |
| `WaWorker.RunKeepsFinalRows` | backend/scripts/wa_worker.py:54-64 | rows already sent or failed are never changed, since claiming needs 'queued' |
| `WaWorker.RunKeepsRetriesBounded` | backend/scripts/wa_worker.py:78-95 | no row counts more than MAX_ATTEMPTS attempts after a pass |
| `WhatsAppFlow.OrText` | backend/Piter/services/whatsapp_flow.py:36 | the text when present and non-empty, otherwise the default |
| `WhatsAppFlow.StateOf` | backend/Piter/services/whatsapp_flow.py:32-36 | a non-empty step and a truthy or empty context; a conversation without a row is (welcome, {}) |
| `WhatsAppFlow.StoredReadsBack` | backend/Piter/services/whatsapp_flow.py:32-47 | a stored step and context read back as stored, an empty context as {} |
| `WhatsAppFlow.TextStep` | backend/Piter/services/whatsapp_flow.py:64-101 | the next step is one of the five known ones, and welcome exactly when the step was neither welcome nor menu |
| `WhatsAppFlow.MenuIgnoresBlanks` | backend/Piter/services/whatsapp_flow.py:81 | in the menu, blanks around the reply change nothing |
| `WhatsAppFlow.SameChoice` | backend/Piter/services/whatsapp_flow.py:81-82 | a reply and its stripped form choose the same option |
| `WhatsAppFlow.MenuChoices` | backend/Piter/services/whatsapp_flow.py:80-95 | replies starting with 1, 2 or 3 lead to their steps; any other reply stays in the menu |
| `WhatsAppFlow.StripKeepsHead` | backend/Piter/services/whatsapp_flow.py:81 | stripping keeps a first character that is not blank |
| `WhatsAppFlow.ResetThenMenu` | backend/Piter/services/whatsapp_flow.py:69-101 | any other step resets to welcome, and the next message brings the menu |
| `WhatsAppFlow.TextFlowKeepsContext` | backend/Piter/services/whatsapp_flow.py:64-101 | the text flow stores its next step with the context it read, and sends nothing itself |
| `WhatsAppFlow.NextButtons` | backend/Piter/services/whatsapp_flow.py:120-125 | next_buttons or []; a string is decoded, and invalid JSON gives [] |
| `WhatsAppFlow.NextButtonsSent` | backend/Piter/services/whatsapp_flow.py:117-134 | one buttons message exactly when there are buttons, with the response text or the default body |
| `WhatsAppFlow.NextStateApplied` | backend/Piter/services/whatsapp_flow.py:136-143 | a truthy next_state is stored as its str() with an empty context; otherwise nothing changes |
| `WhatsAppFlow.NextStateReadsBack` | backend/Piter/services/whatsapp_flow.py:136-143 | a textual next state is what the conversation then reads, with an empty context |
| `WhatsAppFlow.WebhookOverride` | backend/Piter/services/whatsapp_flow.py:198-213 | only a webhook answer that is an object overrides; its keys win over the catalog's |
| `WhatsAppFlow.CatalogRoute` | backend/Piter/services/whatsapp_flow.py:162-226 | a catalog entry is handled exactly when its type is text, webhook, none or noop |
| `WhatsAppFlow.Ranked` | backend/Piter/services/whatsapp_flow.py:230 | the demo ranking has n entries |
| `WhatsAppFlow.Supplies` | backend/Piter/services/whatsapp_flow.py:235 | the demo supply list has n entries |
| `WhatsAppFlow.DemoReply` | backend/Piter/services/whatsapp_flow.py:228-253 | a reply exactly for the six demo ids |
| `WhatsAppFlow.NoIdOrSenderUnhandled` | backend/Piter/services/whatsapp_flow.py:147-150 | a click without id or sender is not handled and changes nothing |
| `WhatsAppFlow.CatalogTypesHandled` | backend/Piter/services/whatsapp_flow.py:162-226 | a catalog entry of type text, webhook, none or noop always handles the click |
| `WhatsAppFlow.FallbackIds` | backend/Piter/services/whatsapp_flow.py:228-253 | without a usable catalog entry the six demo ids are handled; any other id is not, and changes nothing |
| `WhatsAppFlow.UnhandledChangesNothing` | backend/Piter/services/whatsapp_flow.py:145-253 | an unhandled click leaves the world as it was |
| `WhatsAppFlow.HandledSkipsTextFlow` | backend/Piter/services/whatsapp_flow.py:259-264 | a handled click is the whole effect of the message |
| `WhatsAppFlow.UnhandledRunsTextFlow` | backend/Piter/services/whatsapp_flow.py:263-266 | otherwise the text flow runs on the unchanged world and its reply goes to the sender |
| `WhatsAppFlow.FlowService.constructor` | backend/Piter/services/whatsapp_flow.py:27-30 | the stored conversation states, nothing sent |
| `WhatsAppFlow.FlowService.GetConversationState` | backend/Piter/services/whatsapp_flow.py:32-36 | the step and context StateOf gives |
| `WhatsAppFlow.FlowService.SetConversationState` | backend/Piter/services/whatsapp_flow.py:38-47 | only this conversation's state is replaced |
| `WhatsAppFlow.FlowService.SendMessage` | backend/Piter/services/whatsapp_flow.py:103-115 | the message is appended to what was sent |
| `WhatsAppFlow.FlowService.HandleTextFlow` | backend/Piter/services/whatsapp_flow.py:64-101 | the state and reply of the text flow |
| `WhatsAppFlow.FlowService.SendNextButtons` | backend/Piter/services/whatsapp_flow.py:117-134 | the world after NextButtonsSent |
| `WhatsAppFlow.FlowService.ApplyNextState` | backend/Piter/services/whatsapp_flow.py:136-143 | the world after NextStateApplied |
| `WhatsAppFlow.FlowService.FollowUps` | backend/Piter/services/whatsapp_flow.py:169-170 | next buttons, then next state |
| `WhatsAppFlow.FlowService.RouteCatalog` | backend/Piter/services/whatsapp_flow.py:162-226 | the world after CatalogRoute, false for an unknown type |
| `WhatsAppFlow.FlowService.DemoFallback` | backend/Piter/services/whatsapp_flow.py:228-253 | the demo reply for the six ids, None for any other |
| `WhatsAppFlow.FlowService.HandleButtonClick` | backend/Piter/services/whatsapp_flow.py:145-253 | the world and answer of ButtonClick; an error changes nothing |
| `WhatsAppFlow.FlowService.ProcessMessage` | backend/Piter/services/whatsapp_flow.py:255-266 | the world of Process: the click if handled, else the text flow and its reply |
| `Flows.StartSalesImport` | backend/Piter/services/flows.py:21-27 | a buttons message to the number offering only view_summary |
| `Flows.StartLowStock` | backend/Piter/services/flows.py:70-76 | a buttons message to the number offering only view_low_stock |
| `Flows.StartCmvDeviation` | backend/Piter/services/flows.py:98-104 | a buttons message to the number offering only view_cmv_analysis |
| `Flows.Take` | backend/Piter/services/flows.py:58 | the first min(n, len) elements, unchanged |
| `Flows.Head` | backend/Piter/services/flows.py:32-33 | a list's first n items; a string slices too; anything else raises TypeError |
| `Flows.FieldText` | backend/Piter/services/flows.py:41 | item.get raises exactly when the entry is not a dict |
| `Flows.Enumerated` | backend/Piter/services/flows.py:40-41 | one line per item, numbered from 1 in order; fails exactly when some item's line fails |
| `Flows.EnumerateLines` | backend/Piter/services/flows.py:40-41 | the append loop builds exactly Enumerated |
| `Flows.EnumerateStops` | backend/Piter/services/flows.py:40-41 | once a prefix fails, every longer prefix fails with the same error |
| `Flows.SummaryHeader` | backend/Piter/services/flows.py:35-39 | the five header lines of the summary |
| `Flows.SendSalesSummary` | backend/Piter/services/flows.py:29-46 | one text message of the summary lines joined by newlines |
| `Flows.SalesSummaryFails` | backend/Piter/services/flows.py:29-46 | with lists, the summary fails exactly when one of the first 10 pizzas or first 5 drinks is not a dict |
| `Flows.DrinksHeadingAt` | backend/Piter/services/flows.py:32-42 | otherwise five header lines, at most 10 pizza lines, the drinks heading right after them, at most 5 drink lines |
| `Flows.PizzaLineAt` | backend/Piter/services/flows.py:32-41 | the k-th of the first 10 pizzas is numbered k + 1 on line 5 + k, in input order |
| `Flows.DrinkLineAt` | backend/Piter/services/flows.py:33-44 | the k-th of the first 5 drinks is numbered k + 1 on the line k after the drinks heading, in input order |
| `Flows.SalesSummaryShape` | backend/Piter/services/flows.py:32-45 | with both lists present and every line rendered, the summary is the header, the numbered pizza lines, the drinks heading and the numbered drink lines |
| `Flows.SendConsumptionList` | backend/Piter/services/flows.py:56-65 | one text message of the consumption lines |
| `Flows.ConsumptionRanks` | backend/Piter/services/flows.py:56-65 | at most 10 items, numbered from 1 in order, between the title and the tip |
| `Flows.SendLowStockList` | backend/Piter/services/flows.py:78-93 | one buttons message of the low-stock lines offering only make_purchase_list |
| `Flows.LowStockRanks` | backend/Piter/services/flows.py:78-93 | at most 5 items, each as 'n) insumo — atual/min unid', numbered from 1 |
| `Flows.SendCmvAnalysis` | backend/Piter/services/flows.py:106-122 | one buttons message of the CMV lines offering only view_cmv_actions |
| `Flows.CmvRanks` | backend/Piter/services/flows.py:106-122 | at most 3 contributors, numbered from 1 in order, after the five header lines |
| `MessageParser.PhoneNormalized` | backend/Piter/services/message_parser.py:46-50 | an empty number stays empty; any other comes out starting with '+', the number itself after any added '+' |
| `MessageParser.PhoneIdempotent` | backend/Piter/services/message_parser.py:46-50 | normalising twice is normalising once |
| `MessageParser.BeforeColon` | backend/Piter/services/message_parser.py:90-91 | the prefix before the first ':', the whole text when there is none |
| `MessageParser.NormalizeButtonId` | backend/Piter/services/message_parser.py:79-91 | a normalised id never contains ':' |
| `MessageParser.ExtractButtonInfo` | backend/Piter/services/message_parser.py:52-93 | (None, None) unless an interactive or button message with a non-empty id; an AttributeError on a malformed reply |
| `MessageParser.NotAClick` | backend/Piter/services/message_parser.py:62-77 | any other message type carries no button |
| `MessageParser.ButtonReplyPreferred` | backend/Piter/services/message_parser.py:66-70 | a usable button_reply wins over list_reply |
| `MessageParser.PayloadPreferred` | backend/Piter/services/message_parser.py:71-74 | in the legacy button type a payload wins over id |
| `MessageParser.ReplyFieldsFirst` | backend/Piter/services/message_parser.py:68-70 | a truthy string under the first key is the id whatever the second holds; an absent title is empty |
| `MessageParser.PlainIdNormalized` | backend/Piter/services/message_parser.py:80-91 | an id that does not look like JSON is only lower-cased and cut at ':' |
| `MessageParser.InvalidJsonKeepsId` | backend/Piter/services/message_parser.py:81-87 | an id that fails to decode is treated like a plain one |
| `MessageParser.StrippedIdNormalized` | backend/Piter/services/message_parser.py:89 | str(), strip and lower leave a stripped id lower-cased only |
| `MessageParser.JsonIdUsed` | backend/Piter/services/message_parser.py:81-85 | a JSON object with a string id: that id, normalised, replaces the raw one |
| `MessageParser.LowerKeepsEnds` | backend/Piter/services/message_parser.py:89 | lower-casing a stripped string keeps it stripped |
| `MessageParser.LowerCharSpace` | backend/Piter/services/message_parser.py:89 | lower-casing never makes a blank from a non-blank |
| `MessageParser.MessageStep` | backend/Piter/services/message_parser.py:119-146 | an emitted message has type, sender and id, a normalised number, text only for text messages, an id without ':' and the contact's profile name |
| `MessageParser.Collect` | backend/Piter/services/message_parser.py:119-146 | the loop keeps at most one message per entry |
| `MessageParser.Parse` | backend/Piter/services/message_parser.py:95-152 | exactly ParseSpec: the messages of the first entry's first change, or [] on a caught error |
| `MessageParser.CollectLoop` | backend/Piter/services/message_parser.py:119-146 | the for loop builds exactly Collect |
| `MessageParser.CollectStops` | backend/Piter/services/message_parser.py:119-150 | once the loop stopped on an exception, later messages do not matter |
| `MessageParser.Raws` | backend/Piter/services/message_parser.py:144 | the payload of each parsed message, in order |
| `MessageParser.CollectedWellFormed` | backend/Piter/services/message_parser.py:105-152 | every message parse returns has a type, a sender, an id, a '+' number and the contact's profile name |
| `MessageParser.CollectInOrder` | backend/Piter/services/message_parser.py:119-146 | the parsed messages are the usable entries, in input order |
| `MessageParser.OnlyFirstEntry` | backend/Piter/services/message_parser.py:107-108 | entries after the first change nothing |
| `MessageParser.NotADictBody` | backend/Piter/services/message_parser.py:107-150 | a body that is not a dict makes .get raise, and parse returns [] |
| `MessageParser.CaughtDiscards` | backend/Piter/services/message_parser.py:147-150 | a caught error in any message discards the messages parsed before it |
| `SignupForm.MobileAccepted` | backend/Piter/api/routers/forms.py:39-40 | a number in the documented +55, area code, nine digits format is accepted, even with blanks around it |
| `SignupForm.NumberValid` | backend/Piter/api/routers/forms.py:40 | +55, two digits and nine digits pass validation |
| `SignupForm.StripAround` | backend/Piter/api/routers/forms.py:39 | strip() removes exactly the blanks around a word |
| `SignupForm.LeftBlanks` | backend/Piter/api/routers/forms.py:39 | leading blanks are removed up to the first non-blank |
| `SignupForm.RightBlanks` | backend/Piter/api/routers/forms.py:39 | trailing blanks are removed back to the last non-blank |
| `SignupForm.RejectedShapes` | backend/Piter/api/routers/forms.py:40 | too short, no +55, or a non-digit after the '+' is rejected |
| `SignupForm.UserStepFacts` | backend/Piter/api/routers/forms.py:53-69 | after the account, at most the owner insert, and 200 exactly when it returned an id |
| `SignupForm.CreatedFacts` | backend/Piter/api/routers/forms.py:46-73 | past validation the inserts are a prefix of [account, owner]; the answer is 200 or 500, 200 exactly when both inserts returned an id, with the account id returned |
| `SignupForm.RejectionInsertsNothing` | backend/Piter/api/routers/forms.py:39-44 | an invalid number is answered 400 before any insert, and nothing else is answered 400 |
| `SignupForm.AccountBeforeUser` | backend/Piter/api/routers/forms.py:47-61 | the owner is never inserted without the account before it |
| `SignupForm.SuccessIff` | backend/Piter/api/routers/forms.py:33-73 | 200 exactly when the number is valid and both inserts returned an id; everything else is 400 or 500 |
| `SignupForm.Database.constructor` | backend/Piter/api/routers/forms.py:35 | no inserts yet |
| `SignupForm.Database.InsertAccount` | backend/Piter/api/routers/forms.py:47 | one account insert appended |
| `SignupForm.Database.InsertUser` | backend/Piter/api/routers/forms.py:59 | one owner insert appended |
| `SignupForm.Database.SignupCreate` | backend/Piter/api/routers/forms.py:33-73 | the inserts and answer of Signup |
| `SignupForm.Database.CreateAccount` | backend/Piter/api/routers/forms.py:46-73 | the inserts and answer of Created |
| `SignupForm.Database.CreateUser` | backend/Piter/api/routers/forms.py:52-73 | the inserts and answer of UserStep |
| `SqlPresets.AllowedTable` | sqlagent/services/presets.py:6 | the variable when set and non-empty, otherwise the default view; never empty |
| `SqlPresets.Find` | sqlagent/services/presets.py:67 | the preset with that id, None exactly when no preset has it |
| `SqlPresets.ListPresets` | sqlagent/services/presets.py:56-63 | the allowed table, and an item for exactly the known ids with that preset's title and parameters |
| `SqlPresets.Ids` | sqlagent/services/presets.py:12-53 | exactly the ids Find knows |
| `SqlPresets.IntOf` | sqlagent/services/presets.py:74 | int() keeps an integer, and raises on None and on values it cannot read |
| `SqlPresets.SanitizedDays` | sqlagent/services/presets.py:70-79 | always within [min, max]; an in-range readable value is kept; a missing or unreadable one gives the default |
| `SqlPresets.Gate` | sqlagent/services/presets.py:81-87 | a query whose check failed raises with its issues joined by '; '; only a query whose check passed is executed, and a database error is passed on |
| `SqlPresets.RunPreset` | sqlagent/services/presets.py:66-87 | as written: an unknown id raises 'Preset inválido'; a known preset's query is refused with validate_sql's issues joined by '; ' when the as-written check fails; a query that passed is executed, its columns and rows returned, and a database error passed on |
| `SqlPresets.PresetSql` | sqlagent/services/presets.py:70-81 | the query a preset runs is its SQL for some number of days within the preset's range |
| `SqlPresets.RunPresetCorrected` | sqlagent/services/presets.py:66-87 | with the corrected validator: an unknown id raises 'Preset inválido'; a refused query raises with its issues joined by '; '; a query that passed is executed, its columns and rows returned, and a database error passed on; a result comes from a known preset whose query passed, for days within range |
| `SqlPresets.LowerPlain` | sqlagent/services/presets.py:18-51 | lower() leaves the presets' lower-case text unchanged |
| `SqlPresets.LowerConcat` | sqlagent/services/validators.py:13 | lower() works character by character |
| `SqlPresets.ContainsInSuffix` | sqlagent/services/validators.py:26 | a substring of a suffix is a substring of the whole |
| `SqlPresets.ContainsAt` | sqlagent/services/validators.py:26 | a text occurring at an offset is a substring |
| `SqlPresets.TotalsWellFormed` | sqlagent/services/presets.py:13-24 | the totals preset ends in a LIMIT clause and has days in [1, 365] with default 7 |
| `SqlPresets.DailyWellFormed` | sqlagent/services/presets.py:25-38 | the daily preset ends in a LIMIT clause and has days in [1, 365] with default 7 |
| `SqlPresets.StatusWellFormed` | sqlagent/services/presets.py:39-52 | the status preset ends in a LIMIT clause and has days in [1, 365] with default 7 |
| `SqlPresets.PresetsWellFormed` | sqlagent/services/presets.py:12-53 | all three presets are well formed |
| `SqlPresets.LimitClause` | sqlagent/services/presets.py:22 | ' limit n;' is lower case and starts with ' limit ' |
| `SqlPresets.LimitClauseSurvives` | sqlagent/services/validators.py:13-26 | a LIMIT clause after a non-blank body survives strip() and lower() |
| `SqlPresets.PresetHasLimit` | sqlagent/services/presets.py:10 | every well-formed preset's query passes the LIMIT check |
| `SqlPresets.ContainsMiddle` | sqlagent/services/presets.py:21 | a text occurs in any text built around it |
| `SqlPresets.PresetHasDays` | sqlagent/services/presets.py:21 | every query carries its number of days in decimal |
| `SqlPresets.CorrectedRunHasLimitAndDays` | sqlagent/services/presets.py:66-87 | with the corrected validator, every query run_preset executes has a LIMIT clause and days within [1, 365] |
| `SqlPresets.RunPresetRefusesKnown` | sqlagent/services/presets.py:81-84 | as written, no known preset's query is executed: a parse error is reported, otherwise the root issue is, the LIMIT issue never is, and with no banned keyword the error is exactly 'SQL inválido para o preset: Root statement must be SELECT.' |
| `SqlPresets.PresetIds` | sqlagent/services/presets.py:12-53 | each of the three ids finds its preset |
| `SqlIntent.AsList` | sqlagent/services/intent.py:76-81 | a list is kept; anything else becomes [] |
| `SqlIntent.AsCount` | sqlagent/services/intent.py:74-75 | a string of digits becomes the non-negative number; anything else is kept |
| `SqlIntent.AsLimit` | sqlagent/services/intent.py:82-83 | null becomes 100; anything else is kept |
| `SqlIntent.Normalize` | sqlagent/services/intent.py:70-84 | exactly the schema's keys; each uncoerced key is the input's value or the default |
| `SqlIntent.CountRoundTrip` | sqlagent/services/intent.py:74-75 | a count written in decimal is read back as that count |
| `SqlIntent.NormalizeCoerces` | sqlagent/services/intent.py:74-83 | last_n, metrics, dimensions, filters and limit go through their coercions |
| `SqlIntent.NormalizeNormal` | sqlagent/services/intent.py:70-84 | every result is normal: schema keys, lists where lists belong, a limit that is not null |
| `SqlIntent.NormalFixed` | sqlagent/services/intent.py:70-84 | a normal intent is its own normalisation |
| `SqlIntent.NormalizeIdempotent` | sqlagent/services/intent.py:70-84 | normalising twice is normalising once |
| `SqlIntent.SchemaNormal` | sqlagent/services/intent.py:23-36 | the schema's defaults are already normal |
| `SqlIntent.FallbackShape` | sqlagent/services/intent.py:118-119 | the fallback carries the question and the totals preset, and every other key at its default |
| `SqlValidator.ValidateSql` | sqlagent/services/validators.py:5-30 | corrected validate_sql, comparing the root key with the parser's "select": a parse error gives only its issue; otherwise one issue each for a banned keyword, a non-SELECT root and a missing ' limit '; valid exactly when there are none |
| `SqlValidator.ValidateSqlAsWritten` | sqlagent/services/validators.py:5-30 | validate_sql as written: a parse error gives only its issue; otherwise a banned-keyword issue exactly when one occurs, a root issue exactly when the key is not "Select", a LIMIT issue exactly when ' limit ' is missing; valid exactly when there are none |
| `SqlValidator.IssuesDistinct` | sqlagent/services/validators.py:19-27 | the three issue texts differ |
| `SqlValidator.ValidIff` | sqlagent/services/validators.py:5-30 | valid exactly when it parses to a SELECT root, has no banned keyword and contains ' limit ' |
| `SqlValidator.AsWrittenRejectsAll` | sqlagent/services/validators.py:22-23 | as written, comparing with 'Select' rejects every query the parser produces |
| `SqlValidator.AsWrittenRootIssue` | sqlagent/services/validators.py:18-27 | as written, a parsed query with ' limit ' is refused for its root, and for nothing else unless it holds a banned keyword |
| `SqlValidator.NoSpaceNoLimit` | sqlagent/services/validators.py:26-27 | a query without a space after stripping always fails the LIMIT check |
| `StoragePaths.UniquePathShape` | backend/main.py:131-155 | the folder, a slash, and the name, prefixed with the timestamp exactly when it is listed |
| `StoragePaths.UniquePathFresh` | backend/main.py:131-155 | when the prefixed name is free too, the chosen name overwrites nothing listed |
| `StoragePaths.FinancialTargetOf` | backend/main.py:284-303 | an empty path stops, a path without '/' after the leading ones is refused, else bucket and path |
| `StoragePaths.FinancialTargetRoundTrip` | backend/main.py:294-303 | bucket, '/' and path give back the stored path less its leading slashes |
| `StoragePaths.FinancialTargetInvalid` | backend/main.py:294-300 | refused exactly when, less its leading slashes, the path holds no '/' |
| `StoragePaths.ConciliationTarget` | backend/main.py:371-373 | the same split with no count check; the bucket never holds '/' |
| `StoragePaths.ConciliationTargetNoSlash` | backend/main.py:371-373 | with no '/' the whole path is the bucket and the path in it is empty |
| `StoragePaths.ConciliationAgrees` | backend/main.py:294-303 | with a '/', the conciliation task splits as the financial one does |
| `StoragePaths.ConciliationAccount` | backend/main.py:359-363 | no row or an empty account_id raises; otherwise that account |
| `StoragePaths.ConciliationErrorDetails` | backend/main.py:401-406 | the details written end with the error's message |
| `Choices.Without` | frontend/src/shared/components/ui/simple-multiselect.tsx:30 | every occurrence of the value removed, every other element kept |
| `Choices.WithoutAbsent` | frontend/src/shared/components/ui/simple-multiselect.tsx:30 | removing an absent value changes nothing |
| `Choices.WithoutAppended` | frontend/src/shared/components/ui/simple-multiselect.tsx:28-34 | removing a value just appended to a list that lacked it gives the list back |
| `Choices.SelectedOptions` | frontend/src/shared/components/ui/simple-multiselect.tsx:48 | exactly the options whose value is selected, no more of them than options |
| `Seqs.SubsequenceExtend` | frontend/src/shared/components/ui/simple-multiselect.tsx:48 | dropping one more element keeps a subsequence |
| `Seqs.SubsequenceSnoc` | frontend/src/shared/components/ui/simple-multiselect.tsx:48 | keeping the same last element of both keeps a subsequence |
| `Seqs.SubsequenceSingle` | frontend/src/shared/components/ui/simple-multiselect.tsx:48 | one element of a list is a subsequence of it |
| `Choices.SelectedOptionsInOrder` | frontend/src/shared/components/ui/simple-multiselect.tsx:48 | the selected options keep the options' order, not the selection's |
| `Choices.SelectedOptionsBySet` | frontend/src/shared/components/ui/multiselect-dropdown.tsx:38 | only which values are selected matters, not their order |
| `Choices.FindIndex` | frontend/src/shared/components/ui/multiselect-dropdown.tsx:87 | the first position holding the value, -1 exactly when none does |
| `SimpleMultiSelect.BadgeColor` | frontend/src/shared/components/ui/simple-multiselect.tsx:64-68 | one of the four colours, the k-th for the first four |
| `SimpleMultiSelect.SelectRemoves` | frontend/src/shared/components/ui/simple-multiselect.tsx:27-31 | selecting a selected value removes it, and only it |
| `SimpleMultiSelect.SelectAppends` | frontend/src/shared/components/ui/simple-multiselect.tsx:32-34 | an unselected value is appended while there is room; at the cap nothing changes |
| `SimpleMultiSelect.SelectKeepsCap` | frontend/src/shared/components/ui/simple-multiselect.tsx:27-36 | starting within the cap, the selection never grows past it |
| `SimpleMultiSelect.DisabledIffNoChange` | frontend/src/shared/components/ui/simple-multiselect.tsx:84 | an option is disabled exactly when a click on it would change nothing |
| `SimpleMultiSelect.ClickIsHandleSelect` | frontend/src/shared/components/ui/simple-multiselect.tsx:92 | the guard on the click only hides a no-op |
| `SimpleMultiSelect.SelectTwice` | frontend/src/shared/components/ui/simple-multiselect.tsx:27-36 | selecting a value and selecting it again gives the selection back |
| `MultiSelectDropdown.DotColor` | frontend/src/shared/components/ui/multiselect-dropdown.tsx:87 | the colour index is the option's first position modulo the colour count, -1 when absent |
| `MultiSelectDropdown.SelectToggles` | frontend/src/shared/components/ui/multiselect-dropdown.tsx:30-36 | a present value is removed; an absent one appended while fewer than four are selected |
| `MultiSelectDropdown.SelectKeepsCap` | frontend/src/shared/components/ui/multiselect-dropdown.tsx:30-36 | from at most four, the selection never exceeds four |
| `MultiSelectDropdown.DisabledIffNoChange` | frontend/src/shared/components/ui/multiselect-dropdown.tsx:81 | an item is disabled exactly when selecting it would change nothing |
| `MultiSelectDropdown.DotColorByPosition` | frontend/src/shared/components/ui/multiselect-dropdown.tsx:87 | with distinct values, the option at position k gets colour k modulo the count |
| `ScheduleModal.Pad2Digits` | frontend/src/modules/summaries/components/ScheduleModal.tsx:31 | padStart(2, '0') gives the number's digits, exactly two below 100 |
| `ScheduleModal.GenerateTimeIntervals` | frontend/src/modules/summaries/components/ScheduleModal.tsx:27-39 | the nested loops push 48 slots, the i-th being slot i |
| `ScheduleModal.SlotIndex` | frontend/src/modules/summaries/components/ScheduleModal.tsx:29-35 | the slot pushed at hour h and minute m is number 2h + m/30 |
| `ScheduleModal.HalfHour` | frontend/src/modules/summaries/components/ScheduleModal.tsx:32-34 | slot i starts at hour i/2 and minute 0 or 30, and ends 29 minutes later in the same hour |
| `ScheduleModal.SlotTimes` | frontend/src/modules/summaries/components/ScheduleModal.tsx:31-35 | slot i reads from minute 30i to 30i + 29 of the day, as value and as label |
| `ScheduleModal.Pad2Injective` | frontend/src/modules/summaries/components/ScheduleModal.tsx:31 | two padded numbers that read alike are equal |
| `ScheduleModal.ClockInjective` | frontend/src/modules/summaries/components/ScheduleModal.tsx:31-34 | different times of day read differently |
| `ScheduleModal.ClockLength` | frontend/src/modules/summaries/components/ScheduleModal.tsx:31-34 | a time of day reads as five characters |
| `ScheduleModal.PrefixOf` | frontend/src/modules/summaries/components/ScheduleModal.tsx:35 | the start time is the prefix of a slot's value |
| `ScheduleModal.SlotsChronological` | frontend/src/modules/summaries/components/ScheduleModal.tsx:27-39 | earlier slots end before later ones start, and no two share a value |
| `ScheduleModal.HandleSchedule` | frontend/src/modules/summaries/components/ScheduleModal.tsx:51-56 | onSchedule then onClose exactly when a day and a time are both chosen; otherwise nothing |
| `ScheduleModal.WeekdaysDistinct` | frontend/src/modules/summaries/components/ScheduleModal.tsx:17-25 | seven weekdays with distinct values |
| `PerformanceWindow.Between` | frontend/src/modules/dashboard/performance/components/PerformanceChart.tsx:87-89 | exactly the points whose day lies in the range, no more than there were |
| `PerformanceWindow.InRange` | frontend/src/modules/dashboard/performance/components/PerformanceChart.tsx:83-90 | all points unless both ends are set, else those inside the range |
| `PerformanceWindow.BetweenInOrder` | frontend/src/modules/dashboard/performance/components/PerformanceChart.tsx:87-89 | the range filter keeps the order of the points |
| `PerformanceWindow.StartsBelow` | frontend/src/modules/dashboard/performance/components/PerformanceChart.tsx:95-99 | ascending, and exactly the week starts below n |
| `PerformanceWindow.StartsBelowTail` | frontend/src/modules/dashboard/performance/components/PerformanceChart.tsx:95 | no week starts in the last six positions, so the scan may stop before them |
| `PerformanceWindow.WeekStartIndexes` | frontend/src/modules/dashboard/performance/components/PerformanceChart.tsx:93-101 | the loop over i <= length - 7 pushes exactly the week starts |
| `PerformanceWindow.WeekStartsExact` | frontend/src/modules/dashboard/performance/components/PerformanceChart.tsx:93-101 | an index is listed exactly when a Sunday starts seven points there; the list ascends |
| `PerformanceWindow.Prev` | frontend/src/modules/dashboard/performance/components/PerformanceChart.tsx:126-135 | the largest week start below the window, None exactly when there is none |
| `PerformanceWindow.Next` | frontend/src/modules/dashboard/performance/components/PerformanceChart.tsx:136-145 | the smallest week start above the window, None exactly when there is none |
| `PerformanceWindow.PrevDisabledIffStuck` | frontend/src/modules/dashboard/performance/components/PerformanceChart.tsx:180 | on a week start, Prev is disabled exactly when it would not move |
| `PerformanceWindow.NextDisabledIffStuck` | frontend/src/modules/dashboard/performance/components/PerformanceChart.tsx:190 | on a week start, Next is disabled exactly when it would not move |
| `PerformanceWindow.Window` | frontend/src/modules/dashboard/performance/components/PerformanceChart.tsx:108 | the at most seven points from the window start, seven when there are enough |
| `PerformanceWindow.VisibleData` | frontend/src/modules/dashboard/performance/components/PerformanceChart.tsx:106-113 | the window, kept only on the selected weekdays when any are selected |
| `PerformanceWindow.WeekWindow` | frontend/src/modules/dashboard/performance/components/PerformanceChart.tsx:106-113 | a window on a week start shows a whole week, Sunday first |
| `PerformanceWindow.GetBrandColor` | frontend/src/modules/dashboard/performance/components/PerformanceChart.tsx:121-123 | one of the seven colours |
| `PerformanceWindow.Chart.Visible` | frontend/src/modules/dashboard/performance/components/PerformanceChart.tsx:106-113 | at most seven points are shown |
| `PerformanceWindow.Chart.constructor` | frontend/src/modules/dashboard/performance/components/PerformanceChart.tsx:81-103 | the first render: points in range, the window on the last week start, the two initial indicators, no weekday |
| `PerformanceWindow.Chart.ChangeRange` | frontend/src/modules/dashboard/performance/components/PerformanceChart.tsx:83-103 | a new range recomputes the points and week starts; the window start keeps its old value |
| `PerformanceWindow.Chart.HandlePrev` | frontend/src/modules/dashboard/performance/components/PerformanceChart.tsx:126-135 | the window moves to Prev when there is one, else stays; nothing else changes |
| `PerformanceWindow.Chart.HandleNext` | frontend/src/modules/dashboard/performance/components/PerformanceChart.tsx:136-145 | the window moves to Next when there is one, else stays; nothing else changes |
| `PerformanceWindow.Chart.ClickKpi` | frontend/src/modules/dashboard/performance/components/PerformanceChart.tsx:153-159 | the indicators toggle as the multi-select with a cap of four |
| `PerformanceWindow.Chart.ClickWeekday` | frontend/src/modules/dashboard/performance/components/PerformanceChart.tsx:163-169 | the weekdays toggle as the multi-select with no cap |
| `PerformanceWindow.Chart.DrawnLines` | frontend/src/modules/dashboard/performance/components/PerformanceChart.tsx:222-225 | one line per selected indicator when every lookup succeeds |
| `PerformanceWindow.InitialLinesDrawn` | frontend/src/modules/dashboard/performance/components/PerformanceChart.tsx:81 | the initial indicators are known ids, so the first render draws its lines |
| `ChartPoints.OnWeekdays` | frontend/src/modules/dashboard/components/PerformanceChart.tsx:16 | exactly the points on one of the days |
| `ChartPoints.OnWeekdaysInOrder` | frontend/src/modules/dashboard/components/PerformanceChart.tsx:16 | the weekday filter keeps the order of the data |
| `ChartPoints.OnAllWeekdays` | frontend/src/modules/dashboard/performance/components/PerformanceChart.tsx:112 | when every point's day is selected the filter keeps everything |
| `ChartPoints.FindKpi` | frontend/src/modules/dashboard/performance/components/PerformanceChart.tsx:223 | the first indicator with that id, None exactly when there is none |
| `ChartPoints.Lines` | frontend/src/modules/dashboard/performance/components/PerformanceChart.tsx:222-225 | one line per selected id in selection order, coloured by position, named after its indicator exactly when the chart names lines; present exactly when every id is known |
| `DashboardChart.FilteredData` | frontend/src/modules/dashboard/components/PerformanceChart.tsx:12-17 | all points with no weekday selected, else exactly those on a selected weekday |
| `DashboardChart.FilteredInOrder` | frontend/src/modules/dashboard/components/PerformanceChart.tsx:12-17 | the filtered points keep the order of the data, and with no weekday selected they are the data itself |
| `DashboardChart.HandleDaySelect` | frontend/src/modules/dashboard/components/PerformanceChart.tsx:19-23 | a selected day is removed and the rest kept; an unselected one appended |
| `DashboardChart.DaySelectTwice` | frontend/src/modules/dashboard/components/PerformanceChart.tsx:19-23 | pressing an unselected day twice restores the selection |
| `DashboardChart.GetBrandColor` | frontend/src/modules/dashboard/components/PerformanceChart.tsx:25-27 | one of the seven colours |
| `DashboardChart.BrandColorCycle` | frontend/src/modules/dashboard/components/PerformanceChart.tsx:25-27 | seven consecutive lines get seven different colours, and the eighth repeats the first |
| `DashboardChart.ModDiffers` | frontend/src/modules/dashboard/components/PerformanceChart.tsx:26 | numbers less than seven apart leave different remainders modulo seven |
| `DashboardChart.ColorsDistinct` | frontend/src/modules/dashboard/components/PerformanceChart.tsx:6 | the seven colours are distinct |
| `DashboardChart.DrawnLines` | frontend/src/modules/dashboard/components/PerformanceChart.tsx:62-65 | one line per selected indicator, coloured by position and without a legend name, when every lookup succeeds |
| `DashboardChart.InitialLinesAsWrittenFail` | frontend/src/modules/dashboard/components/PerformanceChart.tsx:9-64 | as written, the initial selection holds display names, the id lookup finds none and the render fails |
| `DashboardChart.IdsStartLowerCase` | frontend/src/modules/dashboard/data/chart.data.ts:28-36 | every indicator id starts with a lower-case letter, unlike the display names |
| `DashboardChart.InitialLinesDrawn` | frontend/src/modules/dashboard/components/PerformanceChart.tsx:9-64 | with ids in the initial selection the first render draws both lines |
| `UploadForm.File.constructor` | frontend/src/modules/upload/components/upload/UploadForm.tsx:16-19 | a file object with its name, compared by reference |
| `UploadForm.Names` | frontend/src/modules/upload/components/upload/UploadForm.tsx:19 | the name of each listed file, in order |
| `UploadForm.NewFiles` | frontend/src/modules/upload/components/upload/UploadForm.tsx:16-21 | the incoming files whose name is not listed: none other, and every such one |
| `UploadForm.NewFilesInOrder` | frontend/src/modules/upload/components/upload/UploadForm.tsx:18-20 | the kept incoming files stay in their order |
| `UploadForm.NothingListedTakesAll` | frontend/src/modules/upload/components/upload/UploadForm.tsx:18-20 | with nothing listed a batch is taken whole, repeated names included |
| `UploadForm.Remove` | frontend/src/modules/upload/components/upload/UploadForm.tsx:24-26 | every reference to the file dropped, every other file kept |
| `UploadForm.RemoveKeepsOrder` | frontend/src/modules/upload/components/upload/UploadForm.tsx:24-26 | the others keep their order, and a file never listed changes nothing |
| `UploadForm.Form.constructor` | frontend/src/modules/upload/components/upload/UploadForm.tsx:13-14 | no files and an idle status |
| `UploadForm.Form.HandleFilesSelected` | frontend/src/modules/upload/components/upload/UploadForm.tsx:16-22 | the new files are appended; the status is unchanged |
| `UploadForm.Form.HandleRemoveFile` | frontend/src/modules/upload/components/upload/UploadForm.tsx:24-26 | the file is removed; the status is unchanged |
| `UploadForm.Form.StartOver` | frontend/src/modules/upload/components/upload/UploadForm.tsx:41 | status back to idle and the list emptied |
| `UploadForm.FreshNamesAllAdded` | frontend/src/modules/upload/components/upload/UploadForm.tsx:16-22 | files whose names are all new are all appended |
| `UploadForm.ReselectAddsNothing` | frontend/src/modules/upload/components/upload/UploadForm.tsx:16-22 | picking the same files again adds nothing |
| `UploadForm.AllListedNoneNew` | frontend/src/modules/upload/components/upload/UploadForm.tsx:18-20 | files whose names are all listed add nothing |
| `UploadForm.NamesConcat` | frontend/src/modules/upload/components/upload/UploadForm.tsx:19 | the names of a concatenation are the names of each part |
| `UploadForm.NameListed` | frontend/src/modules/upload/components/upload/UploadForm.tsx:19 | a listed file's name is among the names |
| `UploadForm.CanUploadIff` | frontend/src/modules/upload/components/upload/UploadForm.tsx:67 | upload is enabled exactly when files are listed and none is being sent |
| `SetPassword.HasUpper` | frontend/src/modules/auth/pages/SetPasswordPage.tsx:34 | true exactly when some character is an ASCII capital |
| `SetPassword.HasNumber` | frontend/src/modules/auth/pages/SetPasswordPage.tsx:35 | true exactly when some character is a digit |
| `SetPassword.HasSpecial` | frontend/src/modules/auth/pages/SetPasswordPage.tsx:36 | true exactly when some character is in the special class |
| `SetPassword.Validate` | frontend/src/modules/auth/pages/SetPasswordPage.tsx:33-39 | one flag per rule: a capital, a digit, a special character, and at least eight characters, each exactly when the password has it |
| `SetPassword.ValidIff` | frontend/src/modules/auth/pages/SetPasswordPage.tsx:33-41 | valid exactly when it has a capital, a digit, a special character and at least eight characters |
| `SetPassword.ValidExtends` | frontend/src/modules/auth/pages/SetPasswordPage.tsx:33-41 | typing more characters never makes a valid password invalid |
| `SetPassword.SubmittableShape` | frontend/src/modules/auth/pages/SetPasswordPage.tsx:43 | a submittable form has a confirmed password of at least eight characters and is not loading |
| `SetPassword.Submit` | frontend/src/modules/auth/pages/SetPasswordPage.tsx:45-50 | a no-op exactly when the form cannot be submitted; otherwise loading with the error cleared |
| `SetPassword.SubmitOnce` | frontend/src/modules/auth/pages/SetPasswordPage.tsx:43-50 | a second submit while the first runs changes nothing |
| `Tables.UpsertOne` | backend/scripts/process_conciliation.py:167 | a new key is added at the end; a stored one is merged, the record's columns winning, or left alone |
| `Tables.UpsertAllAppend` | backend/scripts/process_conciliation.py:162-173 | upserting a + b is upserting a, then b |
| `Tables.UpsertAllKeys` | backend/scripts/process_conciliation.py:167 | upserting keeps the table consistent and adds exactly the records' keys |
| `Tables.IgnoreKeepsStored` | scripts/process_report.py:267-271 | with do-nothing on conflict every stored row is left as it was |
| `Tables.MergeStoresEach` | backend/scripts/process_conciliation.py:167 | records with distinct keys are each stored merged over their old row; other rows stay |
| `Tables.RunBatchesDone` | backend/scripts/process_conciliation.py:162-173 | when no batch fails every record is committed |
| `Tables.RunBatchesCalls` | backend/scripts/process_conciliation.py:162-173 | when no batch fails there is one call per batch |
| `Tables.RunBatchesRaised` | backend/scripts/process_conciliation.py:162-173 | when a batch fails exactly the batches before it are committed, and its error is raised |
| `Tables.RunBatchesDistinct` | backend/scripts/process_conciliation.py:162-173 | records with distinct keys can fail only by a failing call, never by touching a row twice |
| `Tables.Table.Upsert` | backend/scripts/process_conciliation.py:167 | one call: the batch upserted, or the call's error with nothing changed; a batch repeating a key under merge raises |
| `Tables.Table.SelectRange` | backend/scripts/process_report.py:333 | the stored rows in the window, projected on the columns |
| `Tables.UpsertInBatches` | backend/scripts/process_conciliation.py:162-173 | consecutive batches of the given size upserted until one raises; the state is that of RunBatches |
| `Files.StatusesAppend` | backend/scripts/process_conciliation.py:50-60 | the statuses written by a run follow those written before it |
| `Files.FileTable.Update` | backend/scripts/process_conciliation.py:57 | the fields are merged into the row with that id, if there is one, and the write is logged |
| `Frames.WithColumn` | backend/scripts/process_conciliation.py:150-152 | df[name] = col replaces a present column and appends an absent one at the right; nothing else changes |
| `Frames.RowRecordCell` | backend/scripts/process_conciliation.py:160 | a row's record holds the cell of the last column of each name |
| `Frames.SelectColumns` | backend/scripts/process_conciliation.py:104-105 | df[cols]: the named columns the sheet has, in the order given |
| `Frames.Frame.SetColumn` | backend/scripts/process_conciliation.py:150-152 | in place, the frame becomes WithColumn of the old one |

## Left out

- Logging to standard output (`print`, the `logging` module) is not modelled. Log lines written to the `logs` table are modelled as follows:
  - the current report pipeline: `SupabaseLogger`, in ReportLog;
  - the older conciliation script: the status, start, end and cleanup lines, in LegacyConciliation.

  The older report script (scripts/process_report.py) has no logger and only prints. The read and save lines of the older conciliation script (scripts/process_conciliation.py:95-110, 126 and 131-152) are not modelled.
- The logger of the current conciliation pipeline (backend/scripts/process_conciliation.py:147-174 and the lines logged after them) is not modelled. Its calls only append log rows and never change what is imported.
- The progress and sample log lines of the current report reader and saver are not modelled. Neither is the warning that `safe_to_json` logs.
- These oracles are inputs:
  - clocks (`datetime.now`, `time.monotonic`, the database's `now()`);
  - `uuid4`, the SHA-256 and MD5 digests;
  - the pandas date parser, `json.dumps` and `json.loads`;
  - `str()` of a timestamp, `repr()` of a JSON object or list;
  - the sqlglot parser.

  Only what the code relies on about them is stated, for example that a digest is lower-case hexadecimal.
- Reading the Excel workbook from disk is modelled as an input sheet. So are downloading it from storage and the environment variables.
- `os.path.exists` followed by `os.remove` is modelled as one step. A file removed between the two calls is not modelled.
- The difference between a Python int and a float that prints as a whole number is not modelled: both are one exact decimal.
- Binary floating-point rounding is not modelled: numbers are exact decimals.
- `NaT` is modelled as its own missing value. The pandas rules for mixing it with other types in one column are not.
- A pandas `KeyError`'s message text is not modelled: a missing column is the error `NotInIndex`.
- An empty DataFrame is modelled as a sheet with no rows. A sheet with rows but no columns is not distinguished.
- NaN in the records built by the older report script is not modelled. It is a missing cell, as pandas gives it.
- The current conciliation pipeline tests `if logger and supabase_client` (backend/scripts/process_conciliation.py:198). That guard is always true when it is reached, and it is modelled as always taken.
- A regular expression's `$` also matches before a final newline. The patterns are modelled on text without a trailing newline.
- Both conciliation pipelines pass each value through `str(v).encode('utf-8', 'ignore').decode('utf-8')` before serialising it. This round trip is modelled as the identity on text.
- The serverless handler, api/process/index.py, can itself raise when writing the error status fails. This is modelled as the Err result of that write, not as an HTTP 500 response.
- These helpers of scripts/process_report.py are not modelled because they are not part of the import:
  - `upload_file_to_storage` (86-107);
  - `get_message_template` (109-116);
  - `get_kpis_from_db` (118-129);
  - `generate_summary_message` (287-312);
  - the command-line `main` (388).
- The following parts of backend/scripts/wa_worker.py are not modelled because they only wait or loop:
  - `_rate_sleep` and its `time.sleep`;
  - `now_iso`;
  - the endless `main` loop.

  One pass (`process_once`) is modelled.
- Two inserts in backend/Piter/services/whatsapp_flow.py are not modelled:
  - `_persist_button_click` (49-62) inserts an analytics row;
  - `_persist_outbound_message` (103-115) inserts the outgoing message.

  Both swallow their failures. The model records the messages handed to the WhatsApp client instead.
- The webhook HTTP call of a catalog button is not modelled. Its decoded reply is the parameter `hook`.
- `ask_consumption_after_delay` (backend/Piter/services/flows.py:48-54) is not modelled. It is an `asyncio.sleep` followed by a call the service never makes: the call is commented out at whatsapp_flow.py:232.
- Numbers.FloatStr: writes every float in positional notation. Python's `str()` and `repr()` of a float switch to exponent notation below 1e-4 and from 1e16 up in absolute value ("5e-05", "1e+16"). The members that read a float's printed form therefore hold in the code only for floats in the positional range: Cells.Show, JsonValues.PyStr, ReportKeys.Get, LegacyReport.ToStr, Numbers.FloatStrRoundTrip, ReportParsers.PositionalText, ReportParsers.ShownNumber, ReportParsers.TotalOfNumber, ReportParsers.PercentShownNumber, Conciliation.IdCell, Conciliation.WholeIdKeepsDigits, Conciliation.ValueAsWritten and Conciliation.ValueAsWrittenShiftsNumbers.
- Conciliation.ValueAsWritten: reads the positional text of a float. For a value cell holding 5e-05 the code filters "5e-05" to "5-05" and reads NaN, where the model reads 5. For 1e16 the code filters "1e+16" to "116", where the model reads 10^17.
- Conciliation.ValueAsWrittenShiftsNumbers: is stated for every decimal. In the code it holds only for floats from 1e-4 up to, but not including, 1e16 in absolute value, for the reason given under Numbers.FloatStr.
- Frames.Column: reads the first column of a name. A sheet with two headers that collide is not modelled as the code runs it:
  - in the current report reader, two headers that normalise or rename to the same name (for example "Total do Pedido" and "total do pedido "): `df[col]` is then a DataFrame, `pd.isna` of a Series inside the converters raises ValueError, and the run ends in 'error'. ReportReader.Normalized, ReportReader.Renamed, ReportReader.CleanAsWritten and ReportReader.Clean convert the first such column and succeed;
  - in the older conciliation script, `df[list(COLUMNS_MAPPING.values())]` (scripts/process_conciliation.py:106) keeps every column of a repeated name, and each record then takes the last one. LegacyConciliation.Cleaned and LegacyConciliation.CleanedColumnSource keep only the first.
- LegacyConciliation.CleanedColumnSource: states the first sheet column renamed to a name. When two headers rename to the same name, the code's records hold the last one (see Frames.Column).
- WaWorker.Outbox.Claim: never fails. The update at backend/scripts/wa_worker.py:54-64 can raise; the code then finalises the item as failed (wa_worker.py:151-152), which the model does not show.
- WaWorker.Outbox.FinalizeSuccess: never fails. The update at backend/scripts/wa_worker.py:67-75 can raise, and the item is then finalised as failed after all.
- WaWorker.Outbox.FinalizeFailure: never fails. The update at backend/scripts/wa_worker.py:78-95 can raise; raised inside the loop's handler, it ends the whole pass.
- WhatsAppFlow.FlowService.SendMessage: never fails. The WhatsApp client's sends (backend/Piter/services/whatsapp_flow.py:129, 167, 206, 243, 250 and 266, and the demo flows' sends at 231-247) can raise and end the handling of the message.
- Numbers.ParseFloat: reads decimal literals only. Python's float() also accepts "nan", "inf", exponents ("1e3") and digit separators ("1_000"); the model reads those as None, where the code gets a number (ParseFloat("1e3") is None here, 1000.0 in the code).
- Text.IsDigit: ASCII digits only. Python's str.isdigit also accepts other Unicode digits; this affects SignupForm.ValidWhatsapp and SqlIntent.IsDigitString.
- Text.AllDigits: ASCII digits only, for the same reason as Text.IsDigit.
- Text.IsSpace: the ASCII and Latin-1 white space only. Python's strip() removes every Unicode white-space character.
- Text.Lower: ASCII and Latin-1 capitals only. Python's lower() maps every Unicode capital.
- SetPassword.Validate: the length counts characters. JavaScript's length counts UTF-16 code units, so a character outside the Basic Multilingual Plane counts twice in the code and once in the model.
- WhatsAppFlow.Ranked: states only that it gives one entry per position up to the count. The demo ranking's data is fixed text.
- WhatsAppFlow.Supplies: states only that it gives one entry per position up to the count. The demo ranking's data is fixed text.
- Parts of sqlagent `interpret` are not modelled:
  - the calls to the language-model providers;
  - `_extract_json`, which uses a regular expression and `json.loads`.

  The model covers the normalisation of a decoded reply (`_normalize`) and the fallback intent used when no provider answers.
- The conciliation steps take the column layout (`Layout`) as a parameter. They are proved for every layout whose column groups are apart. The programs' own layouts are `Conciliation.Current` and `LegacyConciliation.Current`.
- Frontend rendering, styling, network requests and toasts are not modelled. Only the state each component computes is.

## Findings

| source | as written | input that shows it | evidently intended | confidence | as-written member | corrected member |
|---|---|---|---|---|---|---|
| backend/scripts/process_report.py:158-190 | The order total is parsed twice. `parse_as_decimal` reads it first. `parse_total_do_pedido` then reads `str()` of that float, so a whole amount loses two digits. | a total cell "126,00" becomes 126.0, then the text "126.0", then 1.26 | the total is read from its text once, so "126,00" is 126 | high, not executed | `ReportParsers.TotalAsWrittenShrinksWholeAmounts` | `ReportParsers.TotalCorrectedWholeAmount` |
| backend/scripts/process_report.py:158-225 | The money columns are converted before the two long headers are renamed. A money column that arrives under its long header is skipped and keeps its text. | a sheet whose amount column has the long header, with a cell "10,50" | every money column is parsed whatever header it arrived under | medium, not executed | `ReportReader.RenamedAmountAsWritten` | `ReportReader.RenamedAmountCorrected` |
| sqlagent/services/validators.py:22-23 | The root expression's key is compared with "Select". sqlglot spells keys in lower case, so every query is rejected, the presets' queries included. | "SELECT 1 FROM t LIMIT 1", whose root key is "select" | a SELECT root is accepted | high, not executed | `SqlValidator.AsWrittenRejectsAll` | `SqlValidator.ValidIff` |
| frontend/src/modules/dashboard/components/PerformanceChart.tsx:9-64 | The initial selection holds two indicators' display names. The lines are looked up by id, the lookup finds nothing, and `kpi!.id` is read from undefined. | the first render, with the default selection | the initial selection holds ids, so both lines are drawn | high, not executed | `DashboardChart.InitialLinesAsWrittenFail` | `DashboardChart.InitialLinesDrawn` |
| backend/scripts/process_conciliation.py:96-102 | A value column is turned into text with `astype(str)`, every character other than a digit, ',' or '-' is removed, and the rest is read as a number. A float cell such as 12.5 loses its decimal point. | a value cell holding the float 12.5 is stored as 125 | a number the sheet already holds keeps its value | high, not executed | `Conciliation.ValueAsWrittenShiftsNumbers` | `Conciliation.ValueCellKeepsNumbers` |
