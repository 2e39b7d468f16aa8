# Order notifications and report generation, in Dafny

This project models the two small pipelines of the repository. Each has a
factory that resolves interchangeable components by a string tag, and an
orchestrator object that runs them and appends to a history list it owns.

- **Order notification dispatch** (`ejercicio1/ejercicio1_corregido.py`),
  module `Notifications`. `NotificationFactory` resolves a sender and a message
  strategy per channel tag. The sender lookup rejects every tag outside
  `email`, `sms` and `push`; the strategy lookup falls back to the short
  message. `OrderNotificationSystem.process_order` walks the requested
  channels in order. For each one it composes a message, sends it, and appends
  the sender's log record to `notifications_sent`. The first error stops the
  call, and the records already appended stay.
- **Report generation** (`ejercicio2/ejercicio2_corregido.py`), module
  `Reports`. `ReportFactory` resolves a content generator, with no fallback
  (`None`), a formatter (falling back to HTML) and a delivery channel (falling
  back to download). `ReportSystem.generate_report` runs
  resolve → generate → format → deliver → record. An unknown report type
  returns `None` and records nothing. A missing payload key raises before
  anything is recorded. Otherwise one entry with the caller's raw tags is
  appended.

Shared modules: `Wrappers` (`Option`, `Result`) and `Rendering` (how integers
and amounts are written into text, and `Contains`, Python's `in` on strings).

How the source's constructs are represented:

- The closed tag sets (channels, senders, strategies, generators, formatters,
  delivery channels) are datatypes. The factory lookups are functions from the
  tag string.
- Dictionaries whose keys may be missing (the customer record, the report
  payload) are datatypes with `Option` fields. A `KeyError` is an `Error`
  value in a `Result`.
- Amounts of money are whole numbers of cents. `f"{x:.2f}"` is
  `Rendering.FixedText`, and the `${total}` of a float is `Rendering.ReprText`.
- Clock readings are parameters. A notification run takes a clock
  `nat -> Timestamp`, and its k-th send reads `clock(k)`. A report run takes
  one reading.
- The two orchestrators are classes with a `seq` field for the history. Their
  methods state the whole new history in terms of a specification function:
  `OrderRun` for `process_order` and `ReportOutcome` for `generate_report`.
- A generator's output is a structured value, `RawContent`: its aggregates and
  its detail lines. `Text` renders it for the formatter, without the banner.
  The detail lines keep the source's format. They are built by loops
  (`BuildSaleLines`, `BuildItemLines`) proved against `DetailLines`.

Besides its own contract, `CreateMessage` is described by `MessageMentionsOrder`,
and `Format` by `UnwrapFormat` and `FormatsDistinct`. `SalesTotal` and
`UnitsTotal` are covered by their `...Append` lemmas and by `Content`.

One consequence of the code that is easy to miss: `process_order` reads `customer['name']` when it prints the
order header (line 129), before the loop. So a customer without a name makes
the whole call raise before any channel is tried (`OrderRun`).

## Model

| member | source | states |
|---|---|---|
| `Notifications.ChannelTag` | ejercicio1/ejercicio1_corregido.py:8-11 | each channel's tag is one of the three supported tags, and parsing it gives the channel back |
| `Notifications.ParseChannel` | ejercicio1/ejercicio1_corregido.py:93 | `NotificationType(tag)` succeeds exactly for `email`, `sms` and `push` |
| `Notifications.Send` | ejercicio1/ejercicio1_corregido.py:20-65 | a sender succeeds iff its channel's customer field (`email`, `phone`, `device_id`) is present; otherwise it raises the missing-field error for that key. The record's `type` is its own channel, `to` is that field, and `message` is the message body |
| `Notifications.CreateMessage` | ejercicio1/ejercicio1_corregido.py:74-85 | the email strategy's message has a subject and the short message has none; what the body says is stated by `MessageMentionsOrder` |
| `Notifications.MessageMentionsOrder` | ejercicio1/ejercicio1_corregido.py:74-85 | both strategies put the order id and the rendered total in the body; only the email strategy gives a subject, and it names the order id |
| `Notifications.GetSender` | ejercicio1/ejercicio1_corregido.py:90-101 | succeeds exactly for the three tags, with the sender whose channel has that tag; every other tag raises the unsupported-type error naming the tag |
| `Notifications.GetStrategy` | ejercicio1/ejercicio1_corregido.py:103-114 | never fails; the email strategy exactly for `email`, the short message for `sms`, `push` and every unknown tag |
| `Notifications.NotifyOne` | ejercicio1/ejercicio1_corregido.py:133-139 | one channel succeeds iff its tag is supported and the customer has its field. An unsupported tag raises before the field is read. The record carries the tag as given, the contact value and the strategy's body |
| `Notifications.Dispatch` | ejercicio1/ejercicio1_corregido.py:133-140 | the entries of a run are exactly the successful sends of tags 0..n-1, in order, for some n; with no error n is every tag; otherwise tag n's error is the one raised |
| `Notifications.DispatchFailureSticks` | ejercicio1/ejercicio1_corregido.py:133-140 | once a prefix of the tags has raised, later tags change neither the entries nor the error |
| `Notifications.DispatchAllDelivered` | ejercicio1/ejercicio1_corregido.py:133-140 | when every tag is supported and has its contact field, the run raises nothing and appends one entry per tag, with the tag's type and recipient, in input order |
| `Notifications.DispatchStopsAtFirstFailure` | ejercicio1/ejercicio1_corregido.py:133-140 | if tag k is the first that cannot be sent, exactly the entries for tags 0..k-1 are kept; the error is unsupported-type for an unknown tag, else missing-field for its contact key |
| `Notifications.AllChannelsScenario` | ejercicio1/ejercicio1_corregido.py:150-163 | the first demonstration order, sent on email, sms and push to a customer with every field gives three entries in that order, to the three contact values; the email body names `ORD-001` and `150.5` |
| `Notifications.OrderRun` | ejercicio1/ejercicio1_corregido.py:122-140 | a customer without a name raises the missing-`name` error before any channel, with nothing sent; otherwise the call raises nothing iff every requested tag is supported and has its contact field. There are never more entries than tags, and the i-th entry's type is the i-th tag |
| `Notifications.OrderNotificationSystem.constructor` | ejercicio1/ejercicio1_corregido.py:119-120 | a new system has an empty history |
| `Notifications.OrderNotificationSystem.ProcessOrder` | ejercicio1/ejercicio1_corregido.py:122-140 | the new history is the old one followed by the run's entries, so the old history is always a prefix; the error returned is the run's (a missing name first, then the first failing channel) |
| `Notifications.OrderNotificationSystem.GetNotificationHistory` | ejercicio1/ejercicio1_corregido.py:142-143 | returns the entries recorded so far |
| `Rendering.NatText` | ejercicio2/ejercicio2_corregido.py:37 | `str(n)` of a count is a non-empty string of decimal digits |
| `Rendering.NatTextRoundTrip` | ejercicio2/ejercicio2_corregido.py:37 | reading back the digits of `str(n)` gives `n` |
| `Rendering.IntText` | ejercicio2/ejercicio2_corregido.py:54 | `str(n)` of an integer is non-empty and starts with `-` iff it is negative |
| `Rendering.FixedText` | ejercicio2/ejercicio2_corregido.py:36 | `f"{x:.2f}"` ends in a point and two digits, starts with `-` iff the amount is negative, and every other character is a digit |
| `Rendering.FixedTextValue` | ejercicio2/ejercicio2_corregido.py:36 | with the sign and the point dropped, the digits of `f"{x:.2f}"` read back as the amount's magnitude in cents |
| `Rendering.ReprText` | ejercicio1/ejercicio1_corregido.py:78 | the `${total}` rendering of an amount is at least three characters and starts with `-` iff the amount is negative |
| `Reports.SalesTotalAppend` | ejercicio2/ejercicio2_corregido.py:35 | the sales total is additive: the total of two runs of sales is the sum of their totals |
| `Reports.UnitsTotalAppend` | ejercicio2/ejercicio2_corregido.py:53 | the unit count is additive over runs of items |
| `Reports.Categories` | ejercicio2/ejercicio2_corregido.py:57 | a label is a category iff some item has it, with an absent category counted as `General` |
| `Reports.CategoryCountBounds` | ejercicio2/ejercicio2_corregido.py:57-58 | there are never more categories than items, and at least one when there are items |
| `Reports.DetailLines` | ejercicio2/ejercicio2_corregido.py:41-42 | one detail line per record, the i-th line rendering the i-th record, in input order |
| `Reports.SaleLine` | ejercicio2/ejercicio2_corregido.py:42 | a sale's detail line names its product and its amount with two decimals, and ends the line |
| `Reports.ItemLine` | ejercicio2/ejercicio2_corregido.py:63 | an item's detail line names the item, its category (`General` when absent) and its quantity, and ends the line |
| `Reports.BuildSaleLines` | ejercicio2/ejercicio2_corregido.py:41-42 | the loop over the sales yields exactly one line per sale, in input order |
| `Reports.BuildItemLines` | ejercicio2/ejercicio2_corregido.py:62-63 | the loop over the items yields exactly one line per item, in input order, with the category defaulted |
| `Reports.Content` | ejercicio2/ejercicio2_corregido.py:24-79 | fails iff a required key is absent (`sales`; `items`; `income`, then `expenses`), naming the first absent one. Sales: total is the sum of amounts, transaction count is the number of sales, one line per sale. Inventory: units is the sum of quantities, category count is the number of distinct defaulted labels, one line per item. Financial: balance is income minus expenses |
| `Reports.Generate` | ejercicio2/ejercicio2_corregido.py:24-79 | the generator, with its loops, computes exactly `Content` |
| `Reports.SalesText` | ejercicio2/ejercicio2_corregido.py:32-42 | the sales text shows the total with two decimals and the transaction count, and ends with the detail lines |
| `Reports.InventoryText` | ejercicio2/ejercicio2_corregido.py:53-63 | the inventory text shows the unit total and the category count, and ends with the detail lines |
| `Reports.FinancialText` | ejercicio2/ejercicio2_corregido.py:76-78 | the financial text shows income and expenses with two decimals, and its last line is the balance with two decimals |
| `Reports.Text` | ejercicio2/ejercicio2_corregido.py:32-78 | a generator's report text ends with its detail lines (sales, inventory) or the balance line (financial), and shows the aggregates of its kind |
| `Reports.Format` | ejercicio2/ejercicio2_corregido.py:82-95 | a formatted document is the formatter's opening marker, then the text unchanged, then its closing marker |
| `Reports.UnwrapFormat` | ejercicio2/ejercicio2_corregido.py:82-95 | every formatter keeps its text unchanged between its two markers: unwrapping the formatted document gives the text back |
| `Reports.FormatsDistinct` | ejercicio2/ejercicio2_corregido.py:82-95 | a document formatted by one formatter is not in the envelope of any other |
| `Reports.GetGenerator` | ejercicio2/ejercicio2_corregido.py:116-124 | a generator exactly for `sales`, `inventory` and `financial`, the one with that tag; `None` for every other tag |
| `Reports.GetFormatter` | ejercicio2/ejercicio2_corregido.py:126-134 | the formatter named by `pdf`, `excel` or `html`; HTML for every other tag |
| `Reports.GetDelivery` | ejercicio2/ejercicio2_corregido.py:136-144 | the channel named by `email`, `download` or `cloud`; download for every other tag |
| `Reports.LookupsInvertTags` | ejercicio2/ejercicio2_corregido.py:116-144 | each lookup maps every variant's own tag back to that variant |
| `Reports.ReportOutcome` | ejercicio2/ejercicio2_corregido.py:154-181 | an unknown report type gives `None` without error; for a known one the call raises iff a required key is absent, and the error names the first absent key; a document is returned only for a known type |
| `Reports.ReportInRequestedEnvelope` | ejercicio2/ejercicio2_corregido.py:163-164 | with a known type and its keys present, the result is the generated text, unchanged, in the envelope of the requested format (HTML when unknown) and of no other |
| `Reports.ReportSystem.constructor` | ejercicio2/ejercicio2_corregido.py:150-152 | a new system has an empty history |
| `Reports.ReportSystem.GenerateReport` | ejercicio2/ejercicio2_corregido.py:154-181 | returns `ReportOutcome`. When a document is returned, exactly one entry is appended, holding the caller's raw report type, format and delivery tags even where a fallback was used. Otherwise (unknown type, or missing key) the history is unchanged |
| `Reports.ReportSystem.GetReportHistory` | ejercicio2/ejercicio2_corregido.py:183-184 | returns the entries recorded so far |

## Left out

- Console output: every `print` in the senders, formatters, delivery channels and orchestrators. It has no bearing on the results.
- Clock reads (`datetime.now()`): they are parameters. Each log record carries the reading it is given.
- Floating point: amounts are whole cents. `ReprText` and `FixedText` match Python's `str` and `:.2f` of a float only for amounts with at most two decimals whose magnitude is below 2^46 (about 7.04·10^13). Above that bound, neighbouring doubles are more than a cent apart, so the float itself is no longer the amount in cents. Still larger floats switch to exponent notation in `str`, which is not modelled.
- Integers that Python would print as `75` rather than `75.0` (a `total` given as an `int`): the total is always a float amount in cents.
- The report banner: the lines of `=` and `-`, the Spanish title and the generation timestamp. `Text` keeps the aggregate lines and the detail lines.
- Delivery channel bodies (`EmailDelivery`, `DownloadDelivery`, `CloudDelivery`, lines 97-110 of `ejercicio2/ejercicio2_corregido.py`): they only print, and the file name built by `DownloadDelivery` is only printed. `GenerateReport` resolves the channel and the delivery step itself is a no-op that cannot fail.
- Notifications.Order: the order's `order_id`, `customer` and `total` keys are always present. The `KeyError` that `process_order` would raise for a missing one at lines 123-125 is not modelled.
- Reports.Sale and Reports.Item: the inner keys `product`, `amount`, `name` and `quantity` are always present. A missing one would raise inside the generator; this is not modelled.
- The `subject` fallback `'Notificación'` in `EmailSender.send`: it is read only to be printed.
- Notifications.OrderNotificationSystem.GetNotificationHistory: returns the history as a value. The source returns the live list, which a caller could then change; that aliasing is not modelled. The same holds for `Reports.ReportSystem.GetReportHistory`.
- The `ReportFactory` instance kept by `ReportSystem`: it holds no state, so the lookups are plain functions.
- The abstract base classes, `json.dumps`, and the `if __name__ == "__main__"` demonstration blocks. `AllChannelsScenario` restates the first demonstration order, with the amount 150.50.
