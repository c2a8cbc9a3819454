# Billing Buddy — a Dafny model of the billing core

Billing Buddy is a desktop and mobile billing application for a hardware and paint store. This project models its billing logic as pure Dafny functions over immutable datatypes and proves what that logic promises. It covers:

- **The mobile invoice editor.** Line totals are quantity × rate. Display names are the trimmed join of product, colour code and volume. The last line cannot be removed. GST is 18 %. A validation gate runs before sending, and the submission status moves `draft → sending → sent / failed → printed`.
- **The desktop invoice builder.** Lines are priced from the product catalogue, the tax rate is configurable, and invoice numbers have the form `INV-YYYYMM-NNNN`. Saving appends a draft invoice.
- **The invoice list.** Delete by id, status change, the paid toggle, the paid/unpaid/draft tabs, the year × paid/unpaid archive, and the download file names.
- **The reports screen.** The top five products by revenue, per-status counts, overall statistics, and the seven-day and twelve-month revenue buckets. The daily buckets are modelled as written and also with the day key the code evidently intends; see "## Findings".
- **The product and customer catalogues.** Add, or replace by id, on submit; delete by id; form reset; and loading a customer into the form for editing.
- **Data export.** CSV text with every cell quoted and inner quotes doubled, as in rules 5 to 7 of section 2 of RFC 4180. It is proved against a parser that reads the text back. Backup export and restore over a key → value store are also modelled.
- **The desktop-side services.**
  - The in-memory "PC" server, whose counter starts at 1001.
  - The invoice service, with a persisted counter, store-identity defaults, submission, and a print-status table.
  - The request interceptor that routes `/api/...` paths.
- **The store settings.** Saved settings are merged over the defaults. The thermal-printer choices map to layout values, and the test receipt carries the logo, GST line and QR code only under its conditions.
- **The native shell's `greet` command.**

Money is an exact `real`. JavaScript's string built-ins (`trim`, `parseInt`, `padStart`, `slice(-n)`, `join`, `split('/').pop()`, `split('T')[0]`, `includes`, and the `[^a-zA-Z0-9]` replacement over UTF-16 code units) are written out with their JavaScript edge cases in module `Text`.

Modules: `Options`, `Text`, `Seqs`, `Billing`, `Catalogue`, `Greeter`, `Mobile`, `InvoiceBuilder`, `Invoices`, `Reports`, `Products`, `Customers`, `Csv`, `Backup`, `MockApi`, `InvoiceApi`, `Router`, `StoreSettings`.

## Model

| member | source | states |
|---|---|---|
| Greeter.Greet | src-tauri/src/main.rs:9-11 | For every name, the empty one included, the greeting is "Hello, " then the name verbatim from index 7, then the fixed suffix; its length is the name's plus 39 |
| Greeter.NameOfGreet | src-tauri/src/main.rs:9-11 | The name can be read back out of its greeting |
| Greeter.GreetInjective | src-tauri/src/main.rs:9-11 | Distinct names give distinct greetings |
| Billing.SumTotalsAppend | src/pages/Mobile.tsx:177 | The subtotal of two runs of lines is the sum of their subtotals |
| Billing.SumTotalsReplace | src/pages/Mobile.tsx:177 | Replacing one line moves the subtotal by exactly the difference of the two line totals |
| Billing.SumTotalsRemove | src/pages/Mobile.tsx:177 | Removing one line lowers the subtotal by exactly its total |
| Billing.SumTotalsNonNegative | src/pages/Mobile.tsx:177 | With no negative line total the subtotal is not negative |
| Mobile.NewForm | src/pages/Mobile.tsx:57-93 | The initial form is an unpaid draft with GST on, the default store, an empty customer and exactly one blank line with id "1" |
| Mobile.NewFormConsistent | src/pages/Mobile.tsx:75-84 | The initial line is already priced and named |
| Mobile.SetField | src/pages/Mobile.tsx:195-204 | A quantity or rate edit reprices the line and keeps its names; a name-part edit renames it and keeps quantity, rate and total; the id never changes |
| Mobile.UpdateItem | src/pages/Mobile.tsx:193-207 | Only the edited line changes; every other line and the length stay |
| Mobile.SetFieldKeepsConsistent | src/pages/Mobile.tsx:195-204 | Any single edit of a priced, named line leaves it priced and named |
| Mobile.UpdateKeepsConsistent | src/pages/Mobile.tsx:193-207 | Editing preserves the invariant that every line's total is quantity × rate and its display name is the trimmed join of its parts |
| Mobile.AddItem | src/pages/Mobile.tsx:209-221 | One line with quantity 1, rate 0, total 0 and empty names is appended; the existing lines are untouched |
| Mobile.BlankItemConsistent | src/pages/Mobile.tsx:209-221 | A blank line satisfies the pricing and naming invariant |
| Mobile.AddKeepsConsistent | src/pages/Mobile.tsx:209-221 | Adding a line preserves the invariant |
| Mobile.RemoveItem | src/pages/Mobile.tsx:223-228 | A single remaining line is never removed; otherwise exactly the indexed line goes and the rest keep their order; a non-empty list stays non-empty |
| Mobile.RemoveKeepsConsistent | src/pages/Mobile.tsx:223-228 | Removing a line preserves the invariant |
| Mobile.Tax | src/pages/Mobile.tsx:178 | With GST on the tax is 18 % of the subtotal; with it off, zero |
| Mobile.CalculateTotals | src/pages/Mobile.tsx:176-187 | Subtotal is the sum of the line totals, tax follows the GST switch, total is subtotal plus tax, and no other field changes |
| Mobile.GrandTotal | src/pages/Mobile.tsx:176-187 | The total is 118 % of the subtotal with GST and equal to it without; with non-negative lines it is at least the subtotal, which is at least 0 |
| Mobile.SubtotalAfterQuantity | src/pages/Mobile.tsx:197-199 | Changing one line's quantity moves the subtotal by exactly the change in that line's total |
| Mobile.SubtotalAfterRemove | src/pages/Mobile.tsx:223-228 | Removing a line (when allowed) lowers the subtotal by that line's total |
| Mobile.FinalNameOfCleanParts | src/pages/Mobile.tsx:201-204 | When the product name does not start with whitespace and the volume does not end with it, the display name is the three parts joined by single spaces, verbatim |
| Mobile.Validate | src/pages/Mobile.tsx:239-255 | A missing customer name or phone is reported first; the form passes exactly when both are set and every line has a product name, positive quantity and positive rate |
| Mobile.BeginSubmit | src/pages/Mobile.tsx:238-276 | Rejected exactly when validation fails; saved as a draft exactly when valid and offline; otherwise the form moves to sending and the request carries the fresh id, watermark and date |
| Mobile.CompleteSubmit | src/pages/Mobile.tsx:286-309 | A receipt moves the form to sent with the desktop's id and number; a failure moves it to failed and leaves the invoice as it was |
| Mobile.Submit | src/pages/Mobile.tsx:238-319 | A rejected or offline submission leaves the form exactly as it was, so it never enters sending; a started one ends sent or failed |
| Mobile.PollPrintStatus | src/pages/Mobile.tsx:321-339 | The form becomes printed exactly when the reply says printed; a "not yet" reply polls again; a failed request stops; the invoice is never touched |
| Mobile.HappyPath | src/pages/Mobile.tsx:238-339 | A valid form sent online, accepted and then reported printed ends printed with the desktop's invoice number, and polling stops |
| Mobile.AutoSaveTriggers | src/pages/Mobile.tsx:169-173 | A fresh form is not auto-saved; naming a product on any line makes it so |
| InvoiceBuilder.AddInvoiceItem | src/components/InvoiceBuilder.tsx:64-72 | One line with no product, quantity 1, price 0 and total 0 is appended after the existing ones |
| InvoiceBuilder.RemoveInvoiceItem | src/components/InvoiceBuilder.tsx:74-77 | Exactly the indexed line goes and the others keep their order; an out-of-range index changes nothing |
| InvoiceBuilder.RemoveLastLineEmpties | src/components/InvoiceBuilder.tsx:74-77 | There is no minimum-one guard: removing the only line empties the list |
| InvoiceBuilder.FindProduct | src/components/InvoiceBuilder.tsx:84 | The result is the first catalogue product with that id, and nothing exactly when no product has it |
| InvoiceBuilder.SetField | src/components/InvoiceBuilder.tsx:79-93 | After any edit the line total is quantity × price; picking a known product copies its name and price, and an unknown id leaves them unchanged |
| InvoiceBuilder.UpdateInvoiceItem | src/components/InvoiceBuilder.tsx:79-95 | Only the edited line changes |
| InvoiceBuilder.EditsKeepPriced | src/components/InvoiceBuilder.tsx:64-95 | Editing, adding and removing lines all preserve "every line total is quantity × price" |
| InvoiceBuilder.SubtotalAppend | src/components/InvoiceBuilder.tsx:97-99 | The subtotal of two runs of lines is the sum of their subtotals |
| InvoiceBuilder.Tax | src/components/InvoiceBuilder.tsx:101-103 | The tax is the subtotal times the rate in percent |
| InvoiceBuilder.Total | src/components/InvoiceBuilder.tsx:105-107 | The total is subtotal plus tax, i.e. (100 + rate) % of the subtotal |
| InvoiceBuilder.SubtotalAfterAdd | src/components/InvoiceBuilder.tsx:64-72 | A new line adds nothing to the subtotal |
| InvoiceBuilder.SubtotalAfterRemove | src/components/InvoiceBuilder.tsx:74-77 | Removing a line lowers the subtotal by that line's total |
| InvoiceBuilder.InvoiceNumberShape | src/components/InvoiceBuilder.tsx:109-115 | For a four-digit year and a clock of at least four digits, the number is 15 characters: `INV-`, the year, the month as two digits reading back as month + 1, a dash, and the clock's last four digits |
| InvoiceBuilder.CustomerName | src/components/InvoiceBuilder.tsx:136-142 | The name of the first customer with the selected id, and empty when no customer has it |
| InvoiceBuilder.HandleSaveInvoice | src/components/InvoiceBuilder.tsx:117-155 | Refused without a customer (checked first) or without lines. Otherwise exactly one draft invoice is appended after all existing ones. Its id is the clock in milliseconds and its number is the generated one. It carries the selected customer's id and looked-up name, the form's dates, notes and lines, their subtotal, tax at the form's rate, and the total |
| InvoiceBuilder.SavedInvoiceNumbered | src/components/InvoiceBuilder.tsx:109-142 | A saved invoice's number has the 15-character `INV-YYYYMM-NNNN` shape, with year and month reading back, and its customer name is that of the first customer with the selected id |
| Invoices.HandleDelete | src/components/Invoices.tsx:95-97 | No survivor has the deleted id, every survivor was in the list, and every invoice with another id survives |
| Invoices.DeleteKeepsOrder | src/components/Invoices.tsx:95-97 | Deleting works part by part, so survivors keep their order; deleting an absent id changes nothing |
| Invoices.HandleStatusChange | src/components/Invoices.tsx:104-108 | Invoices with the id take the new status and nothing else; all other invoices stay; the length is kept |
| Invoices.TogglePaid | src/components/Invoices.tsx:590 | The result is paid exactly when the status was not paid; paid becomes sent |
| Invoices.ToggleTwice | src/components/Invoices.tsx:590 | Toggling twice restores a paid invoice but turns any other status into sent |
| Invoices.TabsPartition | src/components/Invoices.tsx:397-404 | The paid and unpaid tabs split the list (their sizes add up to it); every draft shows under unpaid; any other tab shows everything |
| Invoices.MarkPaidShowsInPaidTab | src/components/Invoices.tsx:104-108 | An invoice marked paid appears in the paid tab |
| Invoices.Organize | src/components/Invoices.tsx:72-93 | The archive is empty exactly when the list is |
| Invoices.OrganizeKeys | src/components/Invoices.tsx:74-80 | There is a year folder exactly for the years that occur |
| Invoices.OrganizeContents | src/components/Invoices.tsx:72-89 | Each folder's paid and unpaid parts hold exactly that year's paid and unpaid invoices, in list order |
| Invoices.InBucketMembers | src/components/Invoices.tsx:72-89 | An invoice is in a folder part exactly when it is in the list with that year and paid state |
| Invoices.EachInvoiceInOneBucket | src/components/Invoices.tsx:72-89 | Every invoice is filed under its own year and paid state and under no other |
| Invoices.GenerateFileName | src/components/Invoices.tsx:115-119 | The sanitised name, then `_`, then the phone's last (up to) four characters |
| Invoices.FileNameIsSafe | src/components/Invoices.tsx:115-119 | With a digits-only phone the file name holds only letters, digits and underscores |
| Invoices.SavedFileNameShape | src/components/Invoices.tsx:123-135 | The download name is the four-digit year, `_`, a two-digit month reading back as month + 1, `_`, a two-digit day, `_`, the file name, `.html` |
| Reports.AggregateHas | src/components/Reports.tsx:90-100 | A product has a sales entry exactly when some invoice line sells it |
| Reports.AggregateSums | src/components/Reports.tsx:90-100 | A product's entry holds the exact sums of quantity and revenue over every line that sells it |
| Reports.AggregateDistinct | src/components/Reports.tsx:90-100 | No product has two entries |
| Reports.Insert | src/components/Reports.tsx:104 | One insertion step adds exactly the new entry to the multiset |
| Reports.InsertSorted | src/components/Reports.tsx:104 | Inserting into a list sorted by falling revenue keeps it sorted |
| Reports.SortByRevenue | src/components/Reports.tsx:102-104 | The result is a permutation of the entries in non-increasing revenue order |
| Reports.TopProductsAreTop | src/components/Reports.tsx:102-105 | At most five entries, best first, each a real entry; any product left out earns no more than each of the five shown (and then exactly five are shown) |
| Reports.StatusCountsSeeded | src/components/Reports.tsx:109-114 | Draft, sent, paid and overdue always come first, in that order |
| Reports.BumpSum | src/components/Reports.tsx:117 | Counting one invoice adds exactly one to the total count |
| Reports.StatusCountsSum | src/components/Reports.tsx:108-118 | The counts add up to the number of invoices |
| Reports.StatusCountsExact | src/components/Reports.tsx:108-118 | A status has a row exactly when it is seeded or carried by some invoice, and its count is the number of invoices carrying it |
| Reports.Capitalize | src/components/Reports.tsx:121 | The first character is upper-cased and the rest kept; the length is unchanged |
| Reports.StatusData | src/components/Reports.tsx:120-123 | Each row keeps its count and has its label capitalised, in table order |
| Reports.StatusDataShape | src/components/Reports.tsx:108-124 | The chart starts with Draft, Sent, Paid and Overdue, and its counts add up to the number of invoices |
| Reports.OverallStats | src/components/Reports.tsx:126-139 | Total revenue is the sum of all totals. Paid revenue and the paid count come from exactly the invoices with status "paid". The invoice count is the list length. The average times the count is the total revenue, and everything is 0 for no invoices |
| Reports.OverallStatsAppend | src/components/Reports.tsx:126-139 | One more invoice adds its total to the revenue and one to the count; the paid figures move by the same amounts exactly when it is paid |
| Reports.PaidAndUnpaidRevenue | src/components/Reports.tsx:127-129 | Paid revenue plus unpaid revenue is the total revenue |
| Reports.PaidRevenueBounded | src/components/Reports.tsx:127-129 | With non-negative totals, paid revenue lies between 0 and total revenue |
| Reports.Countdown | src/components/Reports.tsx:68-72 | The seeded keys run from the oldest period to the current one |
| Reports.SeedKeys | src/components/Reports.tsx:45-72 | Seven keys in daily mode and twelve in monthly mode |
| Reports.SeedShape | src/components/Reports.tsx:48-52 | Distinct keys are seeded in order, one bucket each, at zero |
| Reports.Credit | src/components/Reports.tsx:54-59 | Crediting a sale keeps the bucket keys and their order |
| Reports.CreditAll | src/components/Reports.tsx:74-80 | Crediting all sales keeps the bucket keys and their order |
| Reports.CreditAllSums | src/components/Reports.tsx:74-80 | Each bucket gains exactly the totals of the sales carrying its key |
| Reports.RevenueDataBuckets | src/components/Reports.tsx:31-86 | With distinct period keys there are exactly 7 (daily) or 12 (monthly) buckets, oldest first. Daily keys are the date parts of the ISO timestamps of the last seven days. Each bucket holds the revenue of the in-window sales with its key, where a sale's daily key is its raw date text |
| Reports.UnseededSaleIgnored | src/components/Reports.tsx:54-80 | A sale whose key has no bucket changes nothing |
| Reports.DailyKeysHaveNoT | src/components/Reports.tsx:48-52 | No daily seed key contains a `T`: each is an ISO timestamp cut at its first `T` |
| Reports.TimestampedSaleNotCharted | src/components/Reports.tsx:54-58 | In daily mode an invoice whose stored date contains a `T`, as a full ISO timestamp does, adds to no bucket |
| Reports.TimestampedSaleCharted | src/components/Reports.tsx:48-58 | With the daily key taken as the date part of the stored date, an in-window timestamped invoice adds its total to the bucket of its day |
| Reports.ByDayAgreesOnPlainDates | src/components/Reports.tsx:54-58 | On invoices whose dates contain no `T`, the date-part chart equals the chart as written |
| Catalogue.Delete | src/components/Products.tsx:108-110 | Exactly the entries with that id go; nothing is added |
| Catalogue.DeleteAppend | src/components/Products.tsx:108-110 | Deleting works part by part, so survivors keep their order |
| Catalogue.DeleteIdempotent | src/components/Customers.tsx:108-110 | Deleting an id twice is deleting it once |
| Catalogue.Upsert | src/components/Products.tsx:65-78 | Outside edit mode the entry is appended; in edit mode every entry with the edited id is replaced and the length is kept |
| Catalogue.ReplaceBySelf | src/components/Customers.tsx:66-67 | Replacing by an entry equal to the stored one leaves the list unchanged |
| Products.ResetForm | src/components/Products.tsx:84-94 | All five fields are emptied and edit mode is left |
| Products.TargetId | src/components/Products.tsx:57 | The edited product's id when it is non-empty, otherwise the fresh id |
| Products.FromForm | src/components/Products.tsx:56-63 | The product carries the form's texts and the target id; the stock is the parsed integer, or 0 when parsing fails |
| Products.HandleSubmit | src/components/Products.tsx:44-82 | Without a name or price nothing changes; otherwise the product is appended (adding) or replaces the edited id in place (editing), and the form resets |
| Products.HandleDelete | src/components/Products.tsx:108-110 | Exactly the products with that id go |
| Products.EditKeepsIds | src/components/Products.tsx:66-67 | Editing keeps the length and the id at every position |
| Products.StockRoundTrip | src/components/Products.tsx:62 | A stock typed as an integer is stored as that integer |
| Products.AddThenDelete | src/components/Products.tsx:72-73 | Adding under a fresh id and deleting that id restores the catalogue |
| Customers.ResetForm | src/components/Customers.tsx:84-94 | All five fields are emptied and edit mode is left |
| Customers.HandleEdit | src/components/Customers.tsx:96-106 | The form shows exactly that customer's fields, in edit mode on that customer |
| Customers.FromForm | src/components/Customers.tsx:56-63 | The customer carries the form's fields, under the edited id when it is non-empty, else the fresh one |
| Customers.HandleSubmit | src/components/Customers.tsx:44-82 | Without a name or email nothing changes; otherwise the customer is appended (adding) or replaces the edited id in place (editing), and the form resets |
| Customers.HandleDelete | src/components/Customers.tsx:108-110 | Exactly the customers with that id go |
| Customers.EditThenSubmitUnchanged | src/components/Customers.tsx:56-67 | Opening a stored customer and submitting it untouched leaves the list as it was |
| Customers.DeleteLaws | src/components/Customers.tsx:108-110 | Deleting is idempotent and keeps the survivors' order |
| Text.Trim | src/pages/Mobile.tsx:203 | The result is the infix left after removing the leading and trailing whitespace; everything removed is whitespace, and the result neither starts nor ends with it |
| Text.ParseIntOrZero | src/components/Products.tsx:62 | The parsed integer, or 0 when no digits parse |
| Text.ParseIntOfIntToString | src/services/invoiceApi.ts:49 | `parseInt` reads back any integer `toString` wrote, whatever non-digit text follows |
| Text.PadStart | src/components/Invoices.tsx:125-126 | A short string is filled on the left to the width; a long one is unchanged; the original is the suffix |
| Text.Pad2Shape | src/components/Invoices.tsx:125-126 | A number up to 99 padded to two places is two digits that read back as the number |
| Text.LastN | src/components/Invoices.tsx:117 | The last n characters, or the whole string when it is shorter |
| Text.Sanitize | src/components/Invoices.tsx:116 | The result has one character per UTF-16 code unit of the input, and each is a letter, a digit or `_` |
| Text.SanitizeBmp | src/components/Invoices.tsx:116 | Within the Basic Multilingual Plane the length is kept, each letter or digit stays, and every other character becomes `_` |
| Text.SanitizeAstral | src/components/Invoices.tsx:116 | Without the `u` flag a character outside the Basic Multilingual Plane becomes two underscores: `"A😀"` gives `"A__"` |
| Text.SanitizeIdempotent | src/components/Invoices.tsx:116 | Sanitising leaves only letters, digits and underscores, so doing it again changes nothing |
| Text.LastSegment | src/services/apiInterceptor.ts:62 | The suffix after the last `/` (the whole string without one); it contains no `/` |
| Text.FirstSegment | src/components/Reports.tsx:50 | `split(sep)[0]`: the prefix before the first separator, which contains none |
| Text.FirstSegmentWhole | src/components/Reports.tsx:50 | A text without the separator is its own first segment |
| Csv.Keys | src/utils/dataExport.ts:43 | The header names are the first row's keys, in order |
| Csv.Lookup | src/utils/dataExport.ts:48 | A found cell is the row's value under that key; a key the row lacks reads as undefined |
| Csv.Double | src/utils/dataExport.ts:50 | The doubled cell is longer by exactly the number of quotes in it, and a cell without quotes is unchanged |
| Csv.ParseBodyOfDouble | src/utils/dataExport.ts:50 | Undoubling a doubled cell up to its closing quote recovers the original text and leaves what follows untouched |
| Csv.QuoteAll | src/utils/dataExport.ts:47-51 | One quoted, doubled cell per header, in header order |
| Csv.RowTexts | src/utils/dataExport.ts:47-51 | A row yields one text per header exactly when it has a value under every header; otherwise some header is undefined |
| Csv.DataLines | src/utils/dataExport.ts:46-52 | One data line per row |
| Csv.DataLinesAreLines | src/utils/dataExport.ts:46-52 | The data lines exist exactly when every row has every header, and are then the quoted lines of those rows' texts |
| Csv.ParseRecordOfLine | src/utils/dataExport.ts:46-52 | A line of quoted cells reads back as exactly those cells and stops at the following newline |
| Csv.SplitOfJoin | src/utils/dataExport.ts:45 | Splitting the header line at commas gives back the header names when no name contains a comma, newline or quote |
| Csv.ToCsv | src/utils/dataExport.ts:40-53 | No rows produce no output (and only no rows do) |
| Csv.CsvRoundTrip | src/utils/dataExport.ts:40-53 | Encoding throws exactly when some row lacks a header key; otherwise the text reads back as the header names plus one record per row holding that row's cell texts |
| Backup.Read | src/utils/dataExport.ts:11-14 | A stored value reads as itself; a missing key or an empty text reads as the fallback; any other text throws |
| Backup.ExportAll | src/utils/dataExport.ts:10-23 | Throws exactly when one of the four keys holds non-empty text that is not JSON; otherwise missing lists export as `[]`, missing settings as `{}`, and the export carries the given date |
| Backup.Restore | src/utils/dataExport.ts:84-89 | The four backed-up keys are written and every other key is untouched; an absent field is stored as the text "undefined" |
| Backup.RestoreThenExport | src/utils/dataExport.ts:84-89 | Restoring a complete backup and exporting again gives back the same four collections |
| Backup.PartialRestoreBreaksExport | src/utils/dataExport.ts:68-89 | A backup lacking any of the four fields, which `importData` lets through, leaves storage from which every later export throws |
| Backup.ExportThenRestore | src/utils/dataExport.ts:10-23 | When the stored keys hold values, the export succeeds, and restoring it changes nothing if all four keys exist; otherwise it only adds the empty defaults |
| MockApi.InitialValid | src/services/mockApi.ts:38-39 | A fresh server, with no invoices and the counter at 1001, satisfies the numbering invariant |
| MockApi.NextInvoiceNumber | src/services/mockApi.ts:69-72 | `INV-` followed by text that parses back to the counter |
| MockApi.CreateInvoice | src/services/mockApi.ts:74-98 | The receipt carries the given id and the number the next-number call would have returned; exactly one invoice is appended with them; the counter advances by one |
| MockApi.CreateKeepsValid | src/services/mockApi.ts:77-84 | Creating keeps the invariant: the counter is 1001 plus the invoice count, and invoice i is numbered 1001 + i |
| MockApi.NumberReadsBack | src/services/mockApi.ts:77 | On a valid server invoice i's number reads back as 1001 + i, so later invoices carry larger numbers |
| MockApi.NumbersDistinct | src/services/mockApi.ts:77 | On a valid server no two invoices share a number |
| MockApi.NumberValue | src/services/mockApi.ts:71 | Reading the counter back out of `INV-<n>` gives n |
| MockApi.FindInvoice | src/services/mockApi.ts:88 | The first position with that id, or -1 when there is none |
| MockApi.MarkPrinted | src/services/mockApi.ts:87-91 | Only the first invoice with that id becomes printed; every other invoice and the counter are unchanged |
| MockApi.MarkKeepsValid | src/services/mockApi.ts:87-91 | Print marking keeps the numbering invariant |
| MockApi.GetInvoiceStatus | src/services/mockApi.ts:100-107 | An unknown id reads as not printed with no number; a known one reports its number, and is printed exactly when its flag is true |
| InvoiceApi.InitCounter | src/services/invoiceApi.ts:46-50 | A missing or empty stored counter starts at 1000; otherwise the counter is the stored value's `parseInt`, which is NaN when no digits parse |
| InvoiceApi.NaNIsNotANumber | src/services/invoiceApi.ts:49 | The text "NaN" does not parse as an integer |
| InvoiceApi.GenerateInvoiceNumber | src/services/invoiceApi.ts:59-63 | The counter is incremented before formatting; the persisted text and the issued number both carry the new value |
| InvoiceApi.PersistedCounterReloads | src/services/invoiceApi.ts:46-63 | What is persisted reloads as the counter in memory, so no number is issued twice across a restart |
| InvoiceApi.SuccessiveNumbersDiffer | src/services/invoiceApi.ts:59-63 | Two successive numbers from an integer counter differ |
| InvoiceApi.OrElse | src/services/invoiceApi.ts:72-77 | The value when it is present and non-empty, else the fallback |
| InvoiceApi.GetStoreInfo | src/services/invoiceApi.ts:69-81 | Each missing or empty identity field takes its fixed default; logo and payment QR pass through as stored |
| InvoiceApi.StoreInfoNeverBlank | src/services/invoiceApi.ts:69-81 | No identity field of the store info is ever empty |
| InvoiceApi.SubmitInvoice | src/services/invoiceApi.ts:83-112 | A new number is issued and persisted; the invoice is appended after all stored ones with number, watermark, store info and status `sent` overridden; settings and print table are untouched |
| InvoiceApi.SubmitKeepsPayload | src/services/invoiceApi.ts:90-96 | The stored invoice differs from the submitted one only in the four stamped fields |
| InvoiceApi.MarkAsPrinted | src/services/invoiceApi.ts:114-122 | The id's record is set to printed with its time and number; every other record, the invoices and the counter stay |
| InvoiceApi.GetPrintStatus | src/services/invoiceApi.ts:124-127 | An unmarked id reads as not printed; a marked one returns its stored record |
| InvoiceApi.MarkThenRead | src/services/invoiceApi.ts:114-127 | After marking, that id reads as printed with its number, and every other id reads as before |
| Router.InterceptsApiPaths | src/services/apiInterceptor.ts:29 | Paths starting with `/api/` are always intercepted; other URLs only in the desktop shell and only when they contain `/api/` |
| Router.MethodOf | src/services/apiInterceptor.ts:39 | A missing or empty method means GET |
| Router.Respond | src/services/apiInterceptor.ts:78-86 | The status text is "OK" exactly for status 200, else "Error" |
| Router.Handle | src/services/apiInterceptor.ts:38-76 | Only a POST with a body to the invoice list changes the server; the status is always 200, 404 or 500; 500 exactly when that POST's body does not parse |
| Router.ReadRoutes | src/services/apiInterceptor.ts:44-54 | Health, product list and next number answer 200 with the server's data and change nothing |
| Router.CreateRoute | src/services/apiInterceptor.ts:56-59 | A POST to the invoice list creates exactly what the server's create does and returns its receipt; an unparsable body is a 500 that changes nothing |
| Router.ListWithoutPost | src/services/apiInterceptor.ts:56-70 | Any other method on the invoice list is "API endpoint not found" (404) |
| Router.StatusRoute | src/services/apiInterceptor.ts:61-67 | A status path answers with the status of its last segment; an empty last segment is "Invoice not found" (404) |
| Router.LastSegmentOfSuffix | src/services/apiInterceptor.ts:62 | The last segment after a slash-terminated prefix is the slash-free id that follows |
| Router.UnknownRoute | src/services/apiInterceptor.ts:69-70 | Every other path is "API endpoint not found" (404) and changes nothing |
| StoreSettings.Load | src/components/StoreSettings.tsx:61-71 | Nothing stored keeps the defaults; otherwise each stored field overrides its default, and a missing or empty name falls back to the default store name, so the name is never empty |
| StoreSettings.SaveThenLoad | src/components/StoreSettings.tsx:61-71 | Saving and reloading restores the form exactly, except that an emptied name comes back as the default |
| StoreSettings.ThermalLayout | src/components/StoreSettings.tsx:92-185 | The body font and body width are the font-size and paper-width mappings |
| StoreSettings.FontSizesOrdered | src/components/StoreSettings.tsx:102-138 | Small < medium < large (10, 12, 14 px), any unknown size is 12 px, and header text ≤ body text ≤ heading |
| StoreSettings.BodyFitsPaper | src/components/StoreSettings.tsx:112-113 | An 80 mm or 58 mm roll gets a body 2 mm narrower; any other value gets 108 mm |
| StoreSettings.CompactIsTighter | src/components/StoreSettings.tsx:104-144 | Compact mode lowers the line height (1.1 vs 1.3), header spacing (1 vs 2 mm) and section padding, and changes no font size or width |
| StoreSettings.TestPrint | src/components/StoreSettings.tsx:197-233 | The logo appears exactly when one is set and logos are enabled; the GST line exactly with a tax id; the QR block exactly when a code is set and QR printing is enabled |
| StoreSettings.DefaultsPrintPlain | src/components/StoreSettings.tsx:37-58 | With the defaults the test receipt has no logo, GST line or QR code |

## Left out

- The splash-screen command in src-tauri/src/main.rs:13-48. It races a timer task against host-owned windows, which is concurrency and foreign GUI calls.
- Browser and host I/O: `fetch`, `localStorage`, `FileReader`, `Blob` and download links, `window.open` and printing, toasts. Storage is an explicit record or an explicit key → value map of parsed values. Network replies are explicit inputs, e.g. `Mobile.CompleteSubmit` takes the receipt or its absence.
- Timers and randomness: the mobile health polling, the `setTimeout` print simulation, the poll retry delay, the random service delays and `healthCheck`. Print marking is an explicit operation, and "poll again" is an output flag.
- Clocks and dates: `Date.now()`, `Math.random()`, `new Date(...)` parsing and `toLocaleDateString`. Ids, watermarks, timestamps, years, months and days are parameters. The revenue report takes the ISO timestamps of the last seven days, the month keys of the last twelve months and each invoice's month key as parameters, and its in-window test is a predicate parameter.
- IEEE-754 doubles and `toFixed(2)`. Money is an exact `real`, so rounding differences in sums, the 0.18 rate and the average are not modelled.
- The HTML and CSS text of the invoice print, thermal print and test print. Only the values that feed them are modelled.
- The JSON text layer. Values are kept parsed. A request body that fails `JSON.parse` is the `None` body of `Router.Handle`. Outside `Backup`, a stored empty string, which `getItem(...) || default` also treats as missing, is not distinguished from a missing key, and stored text that is not JSON is not modelled.
- URL parsing in the interceptor: `Router.Handle` receives the pathname directly.
- The `window.fetch` override in src/services/invoiceApi.ts:145-189. It only dispatches by substring to the service methods modelled here.
- `parseFloat` of price and rate fields: the parsed number is an input of `Products.HandleSubmit` and of `Mobile.SetField`.
- Text.ParseInt: reads decimal only. A `0x` prefix, which JavaScript `parseInt` reads as hexadecimal, is not modelled, and neither is the loss of precision on very long digit strings.
- Text.IntToString: does not produce the exponent form JavaScript uses for magnitudes of 10^21 and above.
- Reports.Capitalize: upper-cases ASCII letters only; full Unicode `toUpperCase` is not modelled.
- Object key order: JavaScript lists integer-like keys (such as year folders) first in ascending order. The year archive is a map, and the status and product tables keep insertion order, which matches for the non-numeric keys they use. Product names that clash with `Object.prototype` members are not modelled.
- Text.LastN: counts characters, where `slice(-4)` counts UTF-16 code units. For a phone ending in characters outside the Basic Multilingual Plane the tail differs, and a cut through a surrogate pair leaves a lone surrogate, which a Dafny `char` cannot hold.
- Invoices.GenerateFileName: the phone part inherits the Text.LastN gap; the name part counts UTF-16 code units as JavaScript does.
- Reports.SortByRevenue: proves sortedness and permutation but not which of two equal-revenue products comes first.
- Reports.RevenueDataBuckets: assumes the seeded period keys are distinct, as consecutive days and months are; the labels formatted from the keys are not modelled.
- The mobile draft restore and `saveDraft` are storage writes of the form as it is; only the auto-save condition is modelled.
- UI-only files with no logic of their own: src/components/invoice/, DesktopGuide.tsx, PWAInstallPrompt.tsx, ConnectionInfo.tsx, DataManager.tsx, src/pages/Index.tsx, src/main.tsx. Thin wrappers and build configuration: src/lib/tauri.ts, the Electron scripts, vite.config.ts.
- The product editor's `handleEdit` only copies fields into the form; the customer one is modelled as `Customers.HandleEdit`.

## Findings

| source | as written | input that shows it | evidently intended | confidence | as-written member | corrected member |
|---|---|---|---|---|---|---|
| src/components/Reports.tsx:54-58 | In daily mode an invoice is credited under its raw `invoice.date` text, which is compared with the date-only seed keys of line 50 | An invoice stored with `date: new Date().toISOString()` (src/pages/Mobile.tsx:275, kept by src/services/invoiceApi.ts:90-101), such as `2025-01-15T10:30:00.000Z`, viewed in daily mode on 2025-01-15: its total lands in no bucket | Credit the invoice under the date part of its date, `invoice.date.split('T')[0]`, as the seed keys are built | medium, not executed | Reports.TimestampedSaleNotCharted | Reports.TimestampedSaleCharted |
