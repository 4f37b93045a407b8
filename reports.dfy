/**
 * The reports page: which report each tab loads, the CSV export, the
 * payment-method percentages and the profit-margin indicator.
 */
module Reports {
  import opened Wrappers
  import opened Text
  import Seqs

  // ------------------------------------------------------------------ tabs

  datatype Report = Dashboard | Sales | TopProducts | InventoryReport | Movements | Payments | ProfitLoss

  function TabName(r: Report): string {
    match r
    case Dashboard => "dashboard"
    case Sales => "sales"
    case TopProducts => "products"
    case InventoryReport => "inventory"
    case Movements => "movements"
    case Payments => "payments"
    case ProfitLoss => "profit-loss"
  }

  /** The `switch (activeTab)` of `loadReports`. */
  function ReportFor(tab: string): Option<Report> {
    if tab == "dashboard" then Some(Dashboard)
    else if tab == "sales" then Some(Sales)
    else if tab == "products" then Some(TopProducts)
    else if tab == "inventory" then Some(InventoryReport)
    else if tab == "movements" then Some(Movements)
    else if tab == "payments" then Some(Payments)
    else if tab == "profit-loss" then Some(ProfitLoss)
    else None
  }

  /** The url (with query string) each loader requests for a date range. */
  function ReportUrl(r: Report, startDate: string, endDate: string): string {
    var range := "?start_date=" + startDate + "&end_date=" + endDate;
    match r
    case Dashboard => "/reports/dashboard" + range
    case Sales => "/reports/sales" + range
    case TopProducts => "/reports/top-products" + range + "&limit=10"
    case InventoryReport => "/reports/inventory"
    case Movements => "/reports/stock-movements" + range
    case Payments => "/reports/payment-methods" + range
    case ProfitLoss => "/reports/profit-loss" + range
  }

  /** `loadReports()`: the requests it makes for the active tab. */
  function LoadReports(tab: string, startDate: string, endDate: string): seq<string> {
    match ReportFor(tab)
    case None => []
    case Some(r) => [ReportUrl(r, startDate, endDate)]
  }

  /** Each tab loads its own report and exactly one; any other tab loads nothing. */
  lemma LoadReportsSpec(tab: string, startDate: string, endDate: string)
    ensures |LoadReports(tab, startDate, endDate)| <= 1
    ensures (exists r :: TabName(r) == tab) <==> |LoadReports(tab, startDate, endDate)| == 1
    ensures forall r :: TabName(r) == tab ==> LoadReports(tab, startDate, endDate) == [ReportUrl(r, startDate, endDate)]
  {
    if ReportFor(tab).Some? {
      assert TabName(ReportFor(tab).value) == tab;
    }
  }

  // ------------------------------------------------------------------ JSON strings

  function HexDigit(d: nat): (c: char)
    requires d < 16
  {
    if d < 10 then ('0' as int + d) as char else ('a' as int + d - 10) as char
  }

  function HexValue(c: char): Option<nat> {
    if '0' <= c <= '9' then Some(c as int - '0' as int)
    else if 'a' <= c <= 'f' then Some(c as int - 'a' as int + 10)
    else if 'A' <= c <= 'F' then Some(c as int - 'A' as int + 10)
    else None
  }

  lemma HexRoundTrip(d: nat)
    requires d < 16
    ensures HexValue(HexDigit(d)) == Some(d)
  {
  }

  /** How `JSON.stringify` writes one character inside a string. */
  function EscapeChar(c: char): string {
    if c == '"' then "\\\""
    else if c == '\\' then "\\\\"
    else if c == '\U{8}' then "\\b"
    else if c == '\U{C}' then "\\f"
    else if c == '\n' then "\\n"
    else if c == '\r' then "\\r"
    else if c == '\t' then "\\t"
    else if c as int < 0x20 then "\\u00" + [HexDigit(c as int / 16), HexDigit(c as int % 16)]
    else [c]
  }

  function Escape(s: string): string {
    if s == [] then [] else EscapeChar(s[0]) + Escape(s[1..])
  }

  /** `JSON.stringify(s)` for a string. */
  function Quote(s: string): string {
    "\"" + Escape(s) + "\""
  }

  function Prepend(c: char, rest: Option<string>): Option<string> {
    if rest.Some? then Some([c] + rest.value) else None
  }

  /**
   * A reference decoder for the inside of a JSON string: the two-character
   * escapes and `\uXXXX` outside the surrogate range; raw quotes and control
   * characters are refused.
   */
  function Unescape(s: string): Option<string>
    decreases |s|
  {
    if s == [] then Some([])
    else if s[0] == '"' || s[0] as int < 0x20 then None
    else if s[0] != '\\' then Prepend(s[0], Unescape(s[1..]))
    else if |s| < 2 then None
    else if s[1] == '"' then Prepend('"', Unescape(s[2..]))
    else if s[1] == '\\' then Prepend('\\', Unescape(s[2..]))
    else if s[1] == '/' then Prepend('/', Unescape(s[2..]))
    else if s[1] == 'b' then Prepend('\U{8}', Unescape(s[2..]))
    else if s[1] == 'f' then Prepend('\U{C}', Unescape(s[2..]))
    else if s[1] == 'n' then Prepend('\n', Unescape(s[2..]))
    else if s[1] == 'r' then Prepend('\r', Unescape(s[2..]))
    else if s[1] == 't' then Prepend('\t', Unescape(s[2..]))
    else if s[1] == 'u' && |s| >= 6 then
      match (HexValue(s[2]), HexValue(s[3]), HexValue(s[4]), HexValue(s[5]))
      case (Some(a), Some(b), Some(c), Some(d)) =>
        var code := ((a * 16 + b) * 16 + c) * 16 + d;
        if 0xD800 <= code < 0xE000 then None else Prepend(code as char, Unescape(s[6..]))
      case _ => None
    else None
  }

  /** `JSON.parse` of a string literal. */
  function Unquote(t: string): Option<string> {
    if |t| >= 2 && t[0] == '"' && t[|t| - 1] == '"' then Unescape(t[1..|t| - 1]) else None
  }

  lemma UnescapeChar(c: char, rest: string)
    ensures Unescape(EscapeChar(c) + rest) == Prepend(c, Unescape(rest))
  {
    var s := EscapeChar(c) + rest;
    if c == '"' || c == '\\' || c == '\U{8}' || c == '\U{C}' || c == '\n' || c == '\r' || c == '\t' {
      assert s[2..] == rest;
    } else if c as int < 0x20 {
      var hi, lo := c as int / 16, c as int % 16;
      assert s[..6] == ['\\', 'u', '0', '0', HexDigit(hi), HexDigit(lo)];
      assert s[6..] == rest;
      HexRoundTrip(hi);
      HexRoundTrip(lo);
      assert ((0 * 16 + 0) * 16 + hi) * 16 + lo == c as int;
    } else {
      assert s[1..] == rest;
    }
  }

  /** Decoding what `JSON.stringify` wrote gives the string back. */
  lemma {:induction false} EscapeRoundTrip(s: string)
    ensures Unescape(Escape(s)) == Some(s)
  {
    if s != [] {
      EscapeRoundTrip(s[1..]);
      UnescapeChar(s[0], Escape(s[1..]));
      assert [s[0]] + s[1..] == s;
    }
  }

  lemma QuoteRoundTrip(s: string)
    ensures Unquote(Quote(s)) == Some(s)
  {
    var t := Quote(s);
    assert t[1..|t| - 1] == Escape(s);
    EscapeRoundTrip(s);
  }

  lemma EscapeCharPrintable(c: char)
    ensures forall i :: 0 <= i < |EscapeChar(c)| ==> EscapeChar(c)[i] as int >= 0x20
  {
    if c as int < 0x20 && !(c == '\U{8}' || c == '\U{C}' || c == '\n' || c == '\r' || c == '\t') {
      assert HexDigit(c as int / 16) as int >= 0x20;
      assert HexDigit(c as int % 16) as int >= 0x20;
    }
  }

  /** `JSON.stringify` writes no control character, so no line break, inside a string. */
  lemma {:induction false} EscapePrintable(s: string)
    ensures forall i :: 0 <= i < |Escape(s)| ==> Escape(s)[i] as int >= 0x20
  {
    if s != [] {
      EscapeCharPrintable(s[0]);
      EscapePrintable(s[1..]);
      var e, r := EscapeChar(s[0]), Escape(s[1..]);
      assert forall i :: |e| <= i < |e| + |r| ==> (e + r)[i] == r[i - |e|];
    }
  }

  // ------------------------------------------------------------------ CSV

  /** A cell value as the report endpoints send them. */
  datatype Value = Str(s: string) | Num(n: int) | Bool(b: bool) | Null

  /** A row: its properties in `Object.keys` order. */
  type Row = seq<(string, Value)>

  function Keys(row: Row): seq<string> {
    seq(|row|, i requires 0 <= i < |row| => row[i].0)
  }

  /** `row[key]`, `None` standing for `undefined`. */
  function Lookup(row: Row, key: string): Option<Value> {
    if row == [] then None else if row[0].0 == key then Some(row[0].1) else Lookup(row[1..], key)
  }

  predicate Falsy(v: Value) {
    v == Str("") || v == Num(0) || v == Bool(false) || v == Null
  }

  /** `JSON.stringify(v)`. */
  function Stringify(v: Value): string {
    match v
    case Str(s) => Quote(s)
    case Num(n) => IntToString(n)
    case Bool(b) => if b then "true" else "false"
    case Null => "null"
  }

  /** `JSON.stringify(row[header] || '')`. */
  function Cell(row: Row, header: string): string {
    var v := Lookup(row, header);
    if v.None? || Falsy(v.value) then Stringify(Str("")) else Stringify(v.value)
  }

  function RowLine(row: Row, headers: seq<string>): string {
    Join(seq(|headers|, j requires 0 <= j < |headers| => Cell(row, headers[j])), ",")
  }

  function RowLines(rows: seq<Row>, headers: seq<string>): seq<string> {
    seq(|rows|, i requires 0 <= i < |rows| => RowLine(rows[i], headers))
  }

  /** `convertToCSV(data)`, `None` standing for a missing `data`. */
  function ConvertToCsv(data: Option<seq<Row>>): string {
    if data.None? || data.value == [] then ""
    else
      var headers := Keys(data.value[0]);
      Join([Join(headers, ",")] + RowLines(data.value, headers), "\n")
  }

  /** Missing or empty data exports as the empty text. */
  lemma ConvertEmpty(data: Option<seq<Row>>)
    requires data.None? || data.value == []
    ensures ConvertToCsv(data) == ""
  {
  }

  /** A missing key or a falsy value becomes `""`; a present string becomes its JSON text, which parses back to it. */
  lemma CellSpec(row: Row, header: string)
    ensures Lookup(row, header).None? || Falsy(Lookup(row, header).value) ==> Cell(row, header) == "\"\""
    ensures Lookup(row, header).Some? && Lookup(row, header).value.Str? && Lookup(row, header).value.s != "" ==>
      Unquote(Cell(row, header)) == Some(Lookup(row, header).value.s)
  {
    assert Escape("") == "";
    var v := Lookup(row, header);
    if v.Some? && v.value.Str? {
      QuoteRoundTrip(v.value.s);
    }
  }

  lemma StringifyOneLine(v: Value)
    ensures '\n' !in Stringify(v)
  {
    match v
    case Str(s) =>
      EscapePrintable(s);
      assert forall i :: 0 <= i < |Escape(s)| ==> Escape(s)[i] != '\n';
    case Num(n) =>
      var d := NatToString(if n < 0 then -n else n);
      assert forall i :: 0 <= i < |d| ==> d[i] != '\n';
    case Bool(_) =>
    case Null =>
  }

  lemma RowLineOneLine(row: Row, headers: seq<string>)
    ensures '\n' !in RowLine(row, headers)
  {
    var cells := seq(|headers|, j requires 0 <= j < |headers| => Cell(row, headers[j]));
    forall j | 0 <= j < |cells|
      ensures '\n' !in cells[j]
    {
      var v := Lookup(row, headers[j]);
      if v.None? || Falsy(v.value) {
        StringifyOneLine(Str(""));
      } else {
        StringifyOneLine(v.value);
      }
    }
    JoinAvoids(cells, ",", '\n');
  }

  /**
   * The export has one line per row after the header line. The header line is
   * the first row's keys joined by ','; line `i + 1` holds row `i`'s cells in
   * that header order. This assumes no key contains a line break; cell values
   * never add one.
   */
  lemma ConvertLines(rows: seq<Row>)
    requires |rows| > 0
    requires forall k :: 0 <= k < |rows[0]| ==> '\n' !in rows[0][k].0
    ensures var headers := Keys(rows[0]);
      var lines := Split(ConvertToCsv(Some(rows)), '\n');
      && |lines| == 1 + |rows|
      && lines[0] == Join(headers, ",")
      && forall i :: 0 <= i < |rows| ==> lines[i + 1] == RowLine(rows[i], headers)
  {
    var headers := Keys(rows[0]);
    var parts := [Join(headers, ",")] + RowLines(rows, headers);
    JoinAvoids(headers, ",", '\n');
    forall i | 0 <= i < |parts|
      ensures '\n' !in parts[i]
    {
      if i > 0 {
        RowLineOneLine(rows[i - 1], headers);
      }
    }
    SplitJoin(parts, '\n');
  }

  // ------------------------------------------------------------------ payment methods

  datatype PaymentRow = PaymentRow(methodName: string, count: nat, total: real)

  function RowTotal(m: PaymentRow): real { m.total }

  /** The share of one method in the grand total, in percent (before `toFixed(1)`); 0 when the grand total is not positive. */
  function PaymentPercentage(m: PaymentRow, grandTotal: real): real {
    if grandTotal > 0.0 then m.total / grandTotal * 100.0 else 0.0
  }

  function Shares(data: seq<PaymentRow>, grandTotal: real): seq<real> {
    seq(|data|, i requires 0 <= i < |data| => PaymentPercentage(data[i], grandTotal))
  }

  function SumReals(xs: seq<real>): real {
    if xs == [] then 0.0 else xs[0] + SumReals(xs[1..])
  }

  lemma {:induction false} SharesSum(data: seq<PaymentRow>, grandTotal: real)
    requires grandTotal > 0.0
    ensures SumReals(Shares(data, grandTotal)) == Seqs.Sum(data, RowTotal) / grandTotal * 100.0
  {
    if data != [] {
      SharesSum(data[1..], grandTotal);
      assert Shares(data, grandTotal)[1..] == Shares(data[1..], grandTotal);
    }
  }

  /**
   * With a zero grand total every share is 0; otherwise, with no negative
   * totals, each share is in [0, 100] and the shares add up to 100.
   */
  lemma PaymentSharesSpec(data: seq<PaymentRow>)
    ensures var total := Seqs.Sum(data, RowTotal);
      && (total == 0.0 ==> forall i :: 0 <= i < |data| ==> PaymentPercentage(data[i], total) == 0.0)
      && (total > 0.0 ==> SumReals(Shares(data, total)) == 100.0)
  {
    var total := Seqs.Sum(data, RowTotal);
    if total > 0.0 {
      SharesSum(data, total);
    }
  }

  lemma {:induction false} ShareBounded(data: seq<PaymentRow>, i: int)
    requires 0 <= i < |data|
    requires forall j :: 0 <= j < |data| ==> data[j].total >= 0.0
    ensures 0.0 <= PaymentPercentage(data[i], Seqs.Sum(data, RowTotal)) <= 100.0
  {
    var total := Seqs.Sum(data, RowTotal);
    PartBelowSum(data, i);
    if total > 0.0 {
      RatioBounded(data[i].total, total);
    }
  }

  lemma RatioBounded(x: real, t: real)
    requires t > 0.0 && 0.0 <= x <= t
    ensures 0.0 <= x / t <= 1.0
  {
    assert x / t * t == x;
  }

  lemma {:induction false} PartBelowSum(data: seq<PaymentRow>, i: int)
    requires 0 <= i < |data|
    requires forall j :: 0 <= j < |data| ==> data[j].total >= 0.0
    ensures 0.0 <= data[i].total <= Seqs.Sum(data, RowTotal)
  {
    NonNegativeSum(data[1..]);
    if i > 0 {
      PartBelowSum(data[1..], i - 1);
    }
  }

  lemma {:induction false} NonNegativeSum(data: seq<PaymentRow>)
    requires forall j :: 0 <= j < |data| ==> data[j].total >= 0.0
    ensures Seqs.Sum(data, RowTotal) >= 0.0
  {
    if data != [] {
      NonNegativeSum(data[1..]);
    }
  }

  // ------------------------------------------------------------------ profit margin

  /** `parseFloat(data.profitMargin) >= 30 ? 'Excellent' : >= 15 ? 'Good' : 'Needs Improvement'`; `None` is `NaN`. */
  function ProfitRating(margin: Option<real>): string {
    if margin.Some? && margin.value >= 30.0 then "Excellent"
    else if margin.Some? && margin.value >= 15.0 then "Good"
    else "Needs Improvement"
  }

  /** `Math.min(margin * 2, 100)`, the bar width in percent; `None` for `NaN`. */
  function BarWidth(margin: Option<real>): Option<real> {
    if margin.None? then None
    else if margin.value * 2.0 < 100.0 then Some(margin.value * 2.0) else Some(100.0)
  }

  /**
   * The rating is 'Excellent' from a margin of 30, 'Good' from 15 below that,
   * and 'Needs Improvement' below 15, so it never decreases with the margin;
   * the bar is twice the margin below 50 and full from 50, never above 100 %;
   * 'Excellent' is a bar of at least 60 % and 'Good' one of at least 30 %.
   */
  lemma ProfitIndicatorSpec(m: real, n: real)
    ensures BarWidth(Some(m)).Some? && BarWidth(Some(m)).value <= 100.0
    ensures BarWidth(Some(m)).value == 100.0 <==> m >= 50.0
    ensures ProfitRating(Some(m)) == "Excellent" <==> BarWidth(Some(m)).value >= 60.0
    ensures ProfitRating(Some(m)) == "Good" <==> 30.0 <= BarWidth(Some(m)).value < 60.0
    ensures m <= n && ProfitRating(Some(m)) == "Excellent" ==> ProfitRating(Some(n)) == "Excellent"
    ensures m <= n && ProfitRating(Some(m)) == "Good" ==> ProfitRating(Some(n)) != "Needs Improvement"
    ensures ProfitRating(None) == "Needs Improvement" && BarWidth(None).None?
    ensures ProfitRating(Some(m)) == "Excellent" <==> m >= 30.0
    ensures ProfitRating(Some(m)) == "Good" <==> 15.0 <= m < 30.0
    ensures ProfitRating(Some(m)) == "Needs Improvement" <==> m < 15.0
    ensures m < 50.0 ==> BarWidth(Some(m)) == Some(2.0 * m)
  {
  }
}
