/**
 * Report generation: a factory keyed by tags picks a content generator, a
 * formatter and a delivery channel, and `ReportSystem` runs them in a fixed
 * pipeline, recording each completed report in its history. Amounts are
 * whole cents; the clock reading is a parameter.
 */
module Reports {
  import opened Wrappers
  import opened Rendering

  /** A clock reading, as `strftime("%Y-%m-%d %H:%M:%S")` gives it. */
  type Timestamp = string

  /** The one error the pipeline raises: a payload field that is read is absent. */
  datatype Error = MissingField(field: string)

  /** One sale: product name and amount in cents. */
  datatype Sale = Sale(product: string, amount: int)

  /** One inventory item; the category may be absent. */
  datatype Item = Item(name: string, quantity: int, category: Option<string>)

  /** The payload dictionary: each key may be absent. */
  datatype ReportData = ReportData(
    period: Option<string>,
    sales: Option<seq<Sale>>,
    items: Option<seq<Item>>,
    income: Option<int>,
    expenses: Option<int>)

  // ---------------------------------------------------------------------------
  // Aggregates

  /** `sum(item['amount'] for item in sales)`. */
  function SalesTotal(sales: seq<Sale>): int
  {
    if sales == [] then 0 else sales[0].amount + SalesTotal(sales[1..])
  }

  /** The total of two runs of sales is the sum of their totals. */
  lemma {:induction false} SalesTotalAppend(a: seq<Sale>, b: seq<Sale>)
    ensures SalesTotal(a + b) == SalesTotal(a) + SalesTotal(b)
  {
    if a != [] {
      assert (a + b)[1..] == a[1..] + b;
      SalesTotalAppend(a[1..], b);
    } else {
      assert a + b == b;
    }
  }

  /** `sum(item['quantity'] for item in items)`. */
  function UnitsTotal(items: seq<Item>): int
  {
    if items == [] then 0 else items[0].quantity + UnitsTotal(items[1..])
  }

  /** The units of two runs of items add up. */
  lemma {:induction false} UnitsTotalAppend(a: seq<Item>, b: seq<Item>)
    ensures UnitsTotal(a + b) == UnitsTotal(a) + UnitsTotal(b)
  {
    if a != [] {
      assert (a + b)[1..] == a[1..] + b;
      UnitsTotalAppend(a[1..], b);
    } else {
      assert a + b == b;
    }
  }

  /** `item.get('category', 'General')`. */
  function CategoryOf(item: Item): string
  {
    if item.category.Some? then item.category.value else "General"
  }

  /** `set(item.get('category', 'General') for item in items)`. */
  function Categories(items: seq<Item>): (cats: set<string>)
    ensures forall c :: c in cats <==> exists i :: 0 <= i < |items| && CategoryOf(items[i]) == c
  {
    if items == [] then {}
    else
      var rest := Categories(items[..|items| - 1]);
      assert forall i :: 0 <= i < |items| - 1 ==> items[..|items| - 1][i] == items[i];
      rest + {CategoryOf(items[|items| - 1])}
  }

  /** There are never more categories than items, and at least one when there are items. */
  lemma {:induction false} CategoryCountBounds(items: seq<Item>)
    ensures |Categories(items)| <= |items|
    ensures items != [] ==> |Categories(items)| >= 1
  {
    if items != [] {
      var init := items[..|items| - 1];
      CategoryCountBounds(init);
      assert CategoryOf(items[|items| - 1]) in Categories(items);
      assert Categories(items) <= Categories(init) + {CategoryOf(items[|items| - 1])};
    }
  }

  // ---------------------------------------------------------------------------
  // Detail lines

  /** The detail lines of a report: one line per record, in input order. */
  function DetailLines<T>(records: seq<T>, line: T -> string): (lines: seq<string>)
    ensures |lines| == |records|
    ensures forall i :: 0 <= i < |records| ==> lines[i] == line(records[i])
  {
    if records == [] then []
    else DetailLines(records[..|records| - 1], line) + [line(records[|records| - 1])]
  }

  /** The detail line of one sale. */
  function SaleLine(sale: Sale): (line: string)
    ensures Contains(line, sale.product) && Contains(line, FixedText(sale.amount))
    ensures line[|line| - 1] == '\n'
  {
    var amount := FixedText(sale.amount);
    var line := "  • Producto: " + sale.product + " - $" + amount + "\n";
    assert line == "  • Producto: " + sale.product + (" - $" + amount + "\n");
    ContainsBetween("  • Producto: ", sale.product, " - $" + amount + "\n");
    ContainsBetween("  • Producto: " + sale.product + " - $", amount, "\n");
    line
  }

  /** The loop of `SalesGenerator.generate` that adds one line per sale. */
  method BuildSaleLines(sales: seq<Sale>) returns (lines: seq<string>)
    ensures lines == DetailLines(sales, SaleLine)
  {
    lines := [];
    var i := 0;
    while i < |sales|
      invariant 0 <= i <= |sales|
      invariant lines == DetailLines(sales[..i], SaleLine)
    {
      assert sales[..i + 1][..i] == sales[..i];
      lines := lines + [SaleLine(sales[i])];
      i := i + 1;
    }
    assert sales[..i] == sales;
  }

  /** The detail line of one item, with its category defaulted. */
  function ItemLine(item: Item): (line: string)
    ensures Contains(line, item.name) && Contains(line, CategoryOf(item)) && Contains(line, IntText(item.quantity))
    ensures line[|line| - 1] == '\n'
  {
    var category, units := CategoryOf(item), IntText(item.quantity);
    var line := "  • " + item.name + " (" + category + "): " + units + " unidades\n";
    assert line == "  • " + item.name + (" (" + category + "): " + units + " unidades\n");
    ContainsBetween("  • ", item.name, " (" + category + "): " + units + " unidades\n");
    assert line == ("  • " + item.name + " (") + category + ("): " + units + " unidades\n");
    ContainsBetween("  • " + item.name + " (", category, "): " + units + " unidades\n");
    ContainsBetween("  • " + item.name + " (" + category + "): ", units, " unidades\n");
    line
  }

  /** The loop of `InventoryGenerator.generate` that adds one line per item. */
  method BuildItemLines(items: seq<Item>) returns (lines: seq<string>)
    ensures lines == DetailLines(items, ItemLine)
  {
    lines := [];
    var i := 0;
    while i < |items|
      invariant 0 <= i <= |items|
      invariant lines == DetailLines(items[..i], ItemLine)
    {
      assert items[..i + 1][..i] == items[..i];
      lines := lines + [ItemLine(items[i])];
      i := i + 1;
    }
    assert items[..i] == items;
  }

  // ---------------------------------------------------------------------------
  // Content generators

  /** `SalesGenerator`, `InventoryGenerator`, `FinancialGenerator`. */
  datatype Generator = SalesGenerator | InventoryGenerator | FinancialGenerator

  /** What a generator produces: its aggregates and its detail lines. */
  datatype RawContent =
    | SalesContent(period: Option<string>, total: int, transactions: nat, details: seq<string>)
    | InventoryContent(totalUnits: int, categoryCount: nat, details: seq<string>)
    | FinancialContent(income: int, expenses: int, balance: int)

  /** The generator each kind of content comes from. */
  function SourceOf(c: RawContent): Generator
  {
    match c
    case SalesContent(_, _, _, _) => SalesGenerator
    case InventoryContent(_, _, _) => InventoryGenerator
    case FinancialContent(_, _, _) => FinancialGenerator
  }

  /** The payload key a generator finds absent first, if any. */
  function MissingFieldOf(g: Generator, data: ReportData): Option<string>
  {
    match g
    case SalesGenerator => if data.sales.None? then Some("sales") else None
    case InventoryGenerator => if data.items.None? then Some("items") else None
    case FinancialGenerator =>
      if data.income.None? then Some("income")
      else if data.expenses.None? then Some("expenses")
      else None
  }

  /**
   * `generate`, as a specification: the generator's aggregates over the
   * payload, or the error for the first required key that is absent.
   */
  function Content(g: Generator, data: ReportData): (r: Result<RawContent, Error>)
    ensures r.Failure? <==> MissingFieldOf(g, data).Some?
    ensures r.Failure? ==> r.error == MissingField(MissingFieldOf(g, data).value)
    ensures r.Success? ==> SourceOf(r.value) == g
    ensures r.Success? && g == SalesGenerator ==>
      && r.value.period == data.period
      && r.value.total == SalesTotal(data.sales.value)
      && r.value.transactions == |data.sales.value|
      && |r.value.details| == |data.sales.value|
      && forall i :: 0 <= i < |data.sales.value| ==> r.value.details[i] == SaleLine(data.sales.value[i])
    ensures r.Success? && g == InventoryGenerator ==>
      && r.value.totalUnits == UnitsTotal(data.items.value)
      && r.value.categoryCount == |Categories(data.items.value)|
      && |r.value.details| == |data.items.value|
      && forall i :: 0 <= i < |data.items.value| ==> r.value.details[i] == ItemLine(data.items.value[i])
    ensures r.Success? && g == FinancialGenerator ==>
      r.value.balance == data.income.value - data.expenses.value
  {
    match g
    case SalesGenerator =>
      if data.sales.None? then Failure(MissingField("sales"))
      else
        var sales := data.sales.value;
        Success(SalesContent(data.period, SalesTotal(sales), |sales|, DetailLines(sales, SaleLine)))
    case InventoryGenerator =>
      if data.items.None? then Failure(MissingField("items"))
      else
        var items := data.items.value;
        Success(InventoryContent(UnitsTotal(items), |Categories(items)|, DetailLines(items, ItemLine)))
    case FinancialGenerator =>
      if data.income.None? then Failure(MissingField("income"))
      else if data.expenses.None? then Failure(MissingField("expenses"))
      else
        var income, expenses := data.income.value, data.expenses.value;
        Success(FinancialContent(income, expenses, income - expenses))
  }

  /** `generate`: reads the payload keys in the source's order and builds the detail lines with a loop. */
  method Generate(g: Generator, data: ReportData) returns (r: Result<RawContent, Error>)
    ensures r == Content(g, data)
  {
    match g {
      case SalesGenerator =>
        if data.sales.None? {
          return Failure(MissingField("sales"));
        }
        var sales := data.sales.value;
        var lines := BuildSaleLines(sales);
        r := Success(SalesContent(data.period, SalesTotal(sales), |sales|, lines));
      case InventoryGenerator =>
        if data.items.None? {
          return Failure(MissingField("items"));
        }
        var items := data.items.value;
        var lines := BuildItemLines(items);
        r := Success(InventoryContent(UnitsTotal(items), |Categories(items)|, lines));
      case FinancialGenerator =>
        if data.income.None? {
          return Failure(MissingField("income"));
        }
        if data.expenses.None? {
          return Failure(MissingField("expenses"));
        }
        var income, expenses := data.income.value, data.expenses.value;
        r := Success(FinancialContent(income, expenses, income - expenses));
    }
  }

  /** The lines joined into one text. */
  function Concat(lines: seq<string>): string
  {
    if lines == [] then "" else lines[0] + Concat(lines[1..])
  }

  /** The sales generator's lines: optional period, total with two decimals, count, then the details. */
  function SalesText(period: Option<string>, total: int, transactions: nat, details: seq<string>): (text: string)
    ensures Contains(text, FixedText(total)) && Contains(text, NatText(transactions))
    ensures |Concat(details)| <= |text| && text[|text| - |Concat(details)|..] == Concat(details)
  {
    var header := if period.Some? then "Periodo: " + period.value + "\n" else "";
    var amount, count := FixedText(total), NatText(transactions);
    var head := header + "Total de ventas: $";
    var middle := "\nNúmero de transacciones: ";
    var tail := "\n\nDetalle de ventas:\n" + Concat(details);
    var text := head + amount + middle + count + tail;
    assert text == head + amount + (middle + count + tail);
    ContainsBetween(head, amount, middle + count + tail);
    ContainsBetween(head + amount + middle, count, tail);
    text
  }

  /** The inventory generator's lines: unit total, category count, then the details. */
  function InventoryText(totalUnits: int, categoryCount: nat, details: seq<string>): (text: string)
    ensures Contains(text, IntText(totalUnits)) && Contains(text, NatText(categoryCount))
    ensures |Concat(details)| <= |text| && text[|text| - |Concat(details)|..] == Concat(details)
  {
    var units, count := IntText(totalUnits), NatText(categoryCount);
    var middle := "\nCategorías: ";
    var tail := "\n\nInventario actual:\n" + Concat(details);
    var text := "Total de productos: " + units + middle + count + tail;
    assert text == "Total de productos: " + units + (middle + count + tail);
    ContainsBetween("Total de productos: ", units, middle + count + tail);
    ContainsBetween("Total de productos: " + units + middle, count, tail);
    text
  }

  /** The financial generator's lines: income, expenses and, last, the balance, all with two decimals. */
  function FinancialText(income: int, expenses: int, balance: int): (text: string)
    ensures Contains(text, FixedText(income)) && Contains(text, FixedText(expenses))
    ensures |FixedText(balance)| < |text| && text[|text| - |FixedText(balance)| - 1..] == FixedText(balance) + "\n"
  {
    var earned, spent, last := FixedText(income), FixedText(expenses), FixedText(balance) + "\n";
    var middle := "\nGastos: $";
    var tail := "\nBalance: $" + last;
    var text := "Ingresos: $" + earned + middle + spent + tail;
    assert text == "Ingresos: $" + earned + (middle + spent + tail);
    ContainsBetween("Ingresos: $", earned, middle + spent + tail);
    ContainsBetween("Ingresos: $" + earned + middle, spent, tail);
    assert text == ("Ingresos: $" + earned + middle + spent + "\nBalance: $") + last;
    text
  }

  /** The report text: the aggregate lines, then the detail lines, without the banner. */
  function Text(c: RawContent): (text: string)
    ensures !c.FinancialContent? ==>
      |Concat(c.details)| <= |text| && text[|text| - |Concat(c.details)|..] == Concat(c.details)
    ensures c.SalesContent? ==> Contains(text, FixedText(c.total)) && Contains(text, NatText(c.transactions))
    ensures c.InventoryContent? ==> Contains(text, IntText(c.totalUnits)) && Contains(text, NatText(c.categoryCount))
    ensures c.FinancialContent? ==>
      && Contains(text, FixedText(c.income)) && Contains(text, FixedText(c.expenses))
      && |FixedText(c.balance)| < |text|
      && text[|text| - |FixedText(c.balance)| - 1..] == FixedText(c.balance) + "\n"
  {
    match c
    case SalesContent(period, total, transactions, details) => SalesText(period, total, transactions, details)
    case InventoryContent(totalUnits, categoryCount, details) => InventoryText(totalUnits, categoryCount, details)
    case FinancialContent(income, expenses, balance) => FinancialText(income, expenses, balance)
  }


  // ---------------------------------------------------------------------------
  // Formatters

  /** `PdfFormatter`, `ExcelFormatter`, `HtmlFormatter`. */
  datatype Formatter = PdfFormatter | ExcelFormatter | HtmlFormatter

  /** The marker each formatter puts before the text. */
  function Opening(f: Formatter): string
  {
    match f
    case PdfFormatter => "[PDF FORMAT]\n"
    case ExcelFormatter => "[EXCEL FORMAT]\n"
    case HtmlFormatter => "<html><body><pre>"
  }

  /** The marker each formatter puts after the text. */
  function Closing(f: Formatter): string
  {
    match f
    case PdfFormatter => "\n[END PDF]"
    case ExcelFormatter => "\n[END EXCEL]"
    case HtmlFormatter => "</pre></body></html>"
  }

  /** `format`: the text, unchanged, between the formatter's two markers. */
  function Format(f: Formatter, text: string): (document: string)
    ensures |document| == |Opening(f)| + |text| + |Closing(f)|
    ensures document[..|Opening(f)|] == Opening(f)
    ensures document[|Opening(f)|..|Opening(f)| + |text|] == text
    ensures document[|Opening(f)| + |text|..] == Closing(f)
  {
    Opening(f) + text + Closing(f)
  }

  /** The text inside a document in the envelope of `f`, or None when the document is not in that envelope. */
  function Unwrap(f: Formatter, document: string): Option<string>
  {
    var opening, closing := Opening(f), Closing(f);
    if |document| >= |opening| + |closing|
       && document[..|opening|] == opening
       && document[|document| - |closing|..] == closing
    then Some(document[|opening|..|document| - |closing|])
    else None
  }

  /** Every formatter keeps the text it wraps: unwrapping gives it back. */
  lemma UnwrapFormat(f: Formatter, text: string)
    ensures Unwrap(f, Format(f, text)) == Some(text)
  {
  }

  /** The envelopes differ: a document formatted by one formatter is not in another's envelope. */
  lemma FormatsDistinct(f: Formatter, g: Formatter, text: string)
    requires f != g
    ensures Unwrap(g, Format(f, text)).None?
  {
    var document, opening := Format(f, text), Opening(g);
    if |document| >= |opening| + |Closing(g)| {
      assert document[..|opening|][1] == Opening(f)[1];
      assert Opening(f)[1] != opening[1];
    }
  }

  // ---------------------------------------------------------------------------
  // Delivery channels

  /** `EmailDelivery`, `DownloadDelivery`, `CloudDelivery`. */
  datatype Delivery = EmailDelivery | DownloadDelivery | CloudDelivery

  // ---------------------------------------------------------------------------
  // Factory

  /** The report types `ReportFactory.get_generator` knows. */
  const ReportTypes: set<string> := {"sales", "inventory", "financial"}

  /** The output formats `ReportFactory.get_formatter` names. */
  const FormatTags: set<string> := {"pdf", "excel", "html"}

  /** The delivery methods `ReportFactory.get_delivery` names. */
  const DeliveryTags: set<string> := {"email", "download", "cloud"}

  function GeneratorTag(g: Generator): string
  {
    match g
    case SalesGenerator => "sales"
    case InventoryGenerator => "inventory"
    case FinancialGenerator => "financial"
  }

  function FormatterTag(f: Formatter): string
  {
    match f
    case PdfFormatter => "pdf"
    case ExcelFormatter => "excel"
    case HtmlFormatter => "html"
  }

  function DeliveryTag(d: Delivery): string
  {
    match d
    case EmailDelivery => "email"
    case DownloadDelivery => "download"
    case CloudDelivery => "cloud"
  }

  /** `get_generator`: the generator for the three known types, and None for every other tag. */
  function GetGenerator(reportType: string): (r: Option<Generator>)
    ensures r.Some? <==> reportType in ReportTypes
    ensures r.Some? ==> GeneratorTag(r.value) == reportType
  {
    if reportType == "sales" then Some(SalesGenerator)
    else if reportType == "inventory" then Some(InventoryGenerator)
    else if reportType == "financial" then Some(FinancialGenerator)
    else None
  }

  /** `get_formatter`: the named formatter, falling back to HTML. */
  function GetFormatter(outputFormat: string): (r: Formatter)
    ensures outputFormat in FormatTags ==> FormatterTag(r) == outputFormat
    ensures outputFormat !in FormatTags ==> r == HtmlFormatter
  {
    if outputFormat == "pdf" then PdfFormatter
    else if outputFormat == "excel" then ExcelFormatter
    else if outputFormat == "html" then HtmlFormatter
    else HtmlFormatter
  }

  /** `get_delivery`: the named channel, falling back to download. */
  function GetDelivery(deliveryMethod: string): (r: Delivery)
    ensures deliveryMethod in DeliveryTags ==> DeliveryTag(r) == deliveryMethod
    ensures deliveryMethod !in DeliveryTags ==> r == DownloadDelivery
  {
    if deliveryMethod == "email" then EmailDelivery
    else if deliveryMethod == "download" then DownloadDelivery
    else if deliveryMethod == "cloud" then CloudDelivery
    else DownloadDelivery
  }

  /** Each lookup maps the tag of every variant back to that variant. */
  lemma LookupsInvertTags(g: Generator, f: Formatter, d: Delivery)
    ensures GetGenerator(GeneratorTag(g)) == Some(g)
    ensures GetFormatter(FormatterTag(f)) == f
    ensures GetDelivery(DeliveryTag(d)) == d
  {
  }

  // ---------------------------------------------------------------------------
  // Orchestration

  /** One entry of the report history: the caller's three tags, as given, and the time. */
  datatype ReportLog = ReportLog(kind: string, format: string, delivery: string, timestamp: Timestamp)

  /**
   * What `generate_report` returns: None for an unknown report type, the
   * generator's error, or the generated text in the chosen envelope.
   */
  function ReportOutcome(reportType: string, data: ReportData, outputFormat: string): (r: Result<Option<string>, Error>)
    ensures reportType !in ReportTypes ==> r == Success(None)
    ensures reportType in ReportTypes ==>
      (r.Failure? <==> MissingFieldOf(GetGenerator(reportType).value, data).Some?)
    ensures r.Success? && r.value.Some? ==> reportType in ReportTypes
    ensures reportType in ReportTypes && r.Failure? ==>
      r.error == MissingField(MissingFieldOf(GetGenerator(reportType).value, data).value)
  {
    match GetGenerator(reportType)
    case None => Success(None)
    case Some(g) =>
      match Content(g, data)
      case Failure(e) => Failure(e)
      case Success(c) => Success(Some(Format(GetFormatter(outputFormat), Text(c))))
  }

  /**
   * With a known report type and every required key present, the report is
   * the generated text, unchanged, in the envelope of the requested format
   * (HTML for an unknown one), and in no other envelope.
   */
  lemma ReportInRequestedEnvelope(reportType: string, data: ReportData, outputFormat: string)
    requires reportType in ReportTypes
    requires MissingFieldOf(GetGenerator(reportType).value, data).None?
    ensures var r := ReportOutcome(reportType, data, outputFormat);
      && r.Success? && r.value.Some?
      && Unwrap(GetFormatter(outputFormat), r.value.value)
           == Some(Text(Content(GetGenerator(reportType).value, data).value))
      && forall f :: f != GetFormatter(outputFormat) ==> Unwrap(f, r.value.value).None?
  {
    var content := Text(Content(GetGenerator(reportType).value, data).value);
    var chosen := GetFormatter(outputFormat);
    UnwrapFormat(chosen, content);
    forall f | f != chosen
      ensures Unwrap(f, Format(chosen, content)).None?
    {
      FormatsDistinct(chosen, f, content);
    }
  }

  /** `ReportSystem`: owns the append-only list of reports generated. */
  class ReportSystem {
    var reportsGenerated: seq<ReportLog>

    constructor ()
      ensures reportsGenerated == []
    {
      reportsGenerated := [];
    }

    /**
     * `generate_report`: resolve, generate, format, deliver, record. An
     * unknown report type returns None and records nothing; a missing
     * payload key raises before anything is recorded; otherwise exactly one
     * entry, holding the caller's raw tags, is appended.
     */
    method GenerateReport(reportType: string, data: ReportData, outputFormat: string, deliveryMethod: string, now: Timestamp)
      returns (r: Result<Option<string>, Error>)
      modifies this
      ensures r == ReportOutcome(reportType, data, outputFormat)
      ensures r.Success? && r.value.Some? ==>
        reportsGenerated == old(reportsGenerated) + [ReportLog(reportType, outputFormat, deliveryMethod, now)]
      ensures !(r.Success? && r.value.Some?) ==> reportsGenerated == old(reportsGenerated)
    {
      var generator := GetGenerator(reportType);
      var formatter := GetFormatter(outputFormat);
      var delivery := GetDelivery(deliveryMethod);
      if generator.None? {
        return Success(None);
      }
      var raw := Generate(generator.value, data);
      if raw.Failure? {
        return Failure(raw.error);
      }
      var document := Format(formatter, Text(raw.value));
      reportsGenerated := reportsGenerated + [ReportLog(reportType, outputFormat, deliveryMethod, now)];
      return Success(Some(document));
    }

    /** `get_report_history`: the entries recorded so far. */
    method GetReportHistory() returns (history: seq<ReportLog>)
      ensures history == reportsGenerated
    {
      history := reportsGenerated;
    }
  }
}
