/**
  Prices, discounts and totals of commercial documents, in exact real arithmetic:
  amounts are rounded to four decimals, halves upwards, once per line and once more per
  document.
 */
module Commercial {
  import opened Wrappers

  // ----------------------------------------------------------------- rounding

  function Money(x: real): real { (x * 10000.0 + 0.5).Floor as real / 10000.0 }

  predicate FourDecimals(x: real) { (x * 10000.0).Floor as real == x * 10000.0 }

  lemma WholeFloor(x: real, n: int)
    requires n as real <= x < n as real + 1.0
    ensures x.Floor == n
  {
  }

  lemma FourDecimalsIs(x: real, n: int)
    requires x * 10000.0 == n as real
    ensures FourDecimals(x)
  {
    WholeFloor(x * 10000.0, n);
  }

  /** Rounding moves an amount by at most half of a ten-thousandth. */
  lemma MoneyIsNear(x: real)
    ensures FourDecimals(Money(x))
    ensures -0.00005 <= Money(x) - x <= 0.00005
  {
    FourDecimalsIs(Money(x), (x * 10000.0 + 0.5).Floor);
  }

  /** Rounding moves along with amounts that need none. */
  lemma MoneyShift(x: real, y: real)
    requires FourDecimals(y)
    ensures Money(x + y) == Money(x) + y
  {
    var n := (y * 10000.0).Floor;
    WholeFloor((x + y) * 10000.0 + 0.5, (x * 10000.0 + 0.5).Floor + n);
  }

  lemma MoneyIsExact(x: real)
    requires FourDecimals(x)
    ensures Money(x) == x
  {
    MoneyShift(0.0, x);
  }

  lemma FloorIsMonotone(a: real, b: real)
    requires a <= b
    ensures a.Floor <= b.Floor
  {
  }

  lemma MoneyIsMonotone(x: real, y: real)
    requires x <= y
    ensures Money(x) <= Money(y)
  {
    var m, n := (x * 10000.0 + 0.5).Floor, (y * 10000.0 + 0.5).Floor;
    FloorIsMonotone(x * 10000.0 + 0.5, y * 10000.0 + 0.5);
    assert Money(x) == m as real / 10000.0 && Money(y) == n as real / 10000.0;
  }

  lemma FourDecimalsAdd(x: real, y: real)
    requires FourDecimals(x) && FourDecimals(y)
    ensures FourDecimals(x + y) && FourDecimals(x - y)
  {
    var m, n := (x * 10000.0).Floor, (y * 10000.0).Floor;
    FourDecimalsIs(x + y, m + n);
    FourDecimalsIs(x - y, m - n);
  }

  lemma FourDecimalsTimes(k: int, q: real, x: real)
    requires FourDecimals(x) && q == k as real
    ensures FourDecimals(q * x)
  {
    var n := (x * 10000.0).Floor;
    assert (q * x) * 10000.0 == q * (x * 10000.0);
    assert (k * n) as real == q * n as real;
    FourDecimalsIs(q * x, k * n);
  }

  // -------------------------------------------------------------------- lines

  datatype CommercialError = QuantityNotPositive | PriceNegative | DiscountOutOfRange | NoPublishedPrice

  datatype Line = Line(
    unitPrice: real, discountPercentage: real, discountAmount: real, lineTotal: real, grossTotal: real)

  datatype Totals = Totals(subtotal: real, discountTotal: real, total: real)

  function CalculateLine(quantity: real, unitPrice: real, discount: real): Result<Line, CommercialError> {
    if quantity <= 0.0 then Err(QuantityNotPositive)
    else if unitPrice < 0.0 then Err(PriceNegative)
    else if discount < 0.0 || discount > 100.0 then Err(DiscountOutOfRange)
    else Ok(LineOf(Money(quantity * unitPrice), unitPrice, discount))
  }

  function DiscountOf(gross: real, discount: real): real { Money(gross * (discount / 100.0)) }

  function LineOf(gross: real, unitPrice: real, discount: real): Line {
    Line(Money(unitPrice), discount, DiscountOf(gross, discount), Money(gross - DiscountOf(gross, discount)), gross)
  }

  function SumGross(lines: seq<Line>): real {
    if lines == [] then 0.0 else SumGross(lines[..|lines| - 1]) + lines[|lines| - 1].grossTotal
  }

  function SumDiscount(lines: seq<Line>): real {
    if lines == [] then 0.0 else SumDiscount(lines[..|lines| - 1]) + lines[|lines| - 1].discountAmount
  }

  function SumLineTotal(lines: seq<Line>): real {
    if lines == [] then 0.0 else SumLineTotal(lines[..|lines| - 1]) + lines[|lines| - 1].lineTotal
  }

  function CalculateTotals(lines: seq<Line>): Totals {
    var subtotal := Money(SumGross(lines));
    var discountTotal := Money(SumDiscount(lines));
    Totals(subtotal, discountTotal, Money(subtotal - discountTotal))
  }

  /** What a calculated line satisfies exactly. */
  predicate LineOk(line: Line) {
    && FourDecimals(line.unitPrice) && FourDecimals(line.grossTotal) && FourDecimals(line.discountAmount)
    && 0.0 <= line.discountAmount <= line.grossTotal
    && line.lineTotal == line.grossTotal - line.discountAmount
  }

  lemma PartOf(gross: real, part: real)
    requires gross >= 0.0 && 0.0 <= part <= 1.0
    ensures 0.0 <= gross * part <= gross
  {
  }

  lemma ProductNotNegative(a: real, b: real)
    requires a >= 0.0 && b >= 0.0
    ensures a * b >= 0.0
  {
  }

  /** The rounding of a part of an amount stays a part of it, and what remains needs no rounding. */
  lemma RoundedPart(gross: real, part: real)
    requires FourDecimals(gross) && 0.0 <= part <= gross
    ensures FourDecimals(Money(part)) && 0.0 <= Money(part) <= gross
    ensures Money(gross - Money(part)) == gross - Money(part)
  {
    FourDecimalsIs(0.0, 0);
    MoneyIsExact(0.0);
    MoneyIsExact(gross);
    MoneyIsMonotone(0.0, part);
    MoneyIsMonotone(part, gross);
    MoneyIsNear(part);
    FourDecimalsAdd(gross, Money(part));
    MoneyIsExact(gross - Money(part));
  }

  lemma RoundedAmount(amount: real)
    requires amount >= 0.0
    ensures FourDecimals(Money(amount)) && Money(amount) >= 0.0
    ensures -0.00005 <= Money(amount) - amount <= 0.00005
  {
    FourDecimalsIs(0.0, 0);
    MoneyIsExact(0.0);
    MoneyIsMonotone(0.0, amount);
    MoneyIsNear(amount);
  }

  /** What rounding did to a line's price and gross amount. */
  predicate Close(quantity: real, price: real, line: Line) {
    && quantity > 0.0
    && -0.00005 <= line.unitPrice - price <= 0.00005
    && -0.00005 <= line.grossTotal - quantity * price <= 0.00005
  }

  lemma DiscountIsPart(gross: real, discount: real)
    requires FourDecimals(gross) && gross >= 0.0 && 0.0 <= discount <= 100.0
    ensures var d := DiscountOf(gross, discount);
            FourDecimals(d) && 0.0 <= d <= gross && Money(gross - d) == gross - d
  {
    PartOf(gross, discount / 100.0);
    RoundedPart(gross, gross * (discount / 100.0));
  }

  lemma LineOfIsOk(gross: real, unitPrice: real, discount: real)
    requires FourDecimals(gross) && gross >= 0.0 && unitPrice >= 0.0 && 0.0 <= discount <= 100.0
    ensures var line := LineOf(gross, unitPrice, discount);
            LineOk(line) && line.lineTotal >= 0.0 && -0.00005 <= line.unitPrice - unitPrice <= 0.00005
  {
    DiscountIsPart(gross, discount);
    RoundedAmount(unitPrice);
  }

  /** A line's discount lies between zero and its gross amount and its total is the exact difference. */
  lemma CalculatedLineIsOk(quantity: real, unitPrice: real, discount: real)
    requires CalculateLine(quantity, unitPrice, discount).Ok?
    ensures var line := CalculateLine(quantity, unitPrice, discount).value;
            LineOk(line) && line.lineTotal >= 0.0 && Close(quantity, unitPrice, line)
  {
    ProductNotNegative(quantity, unitPrice);
    RoundedAmount(quantity * unitPrice);
    LineOfIsOk(Money(quantity * unitPrice), unitPrice, discount);
  }

  ghost predicate LinesOk(lines: seq<Line>) {
    forall i :: 0 <= i < |lines| ==> LineOk(lines[i])
  }

  lemma {:induction false} SumsAreExact(lines: seq<Line>)
    requires LinesOk(lines)
    ensures FourDecimals(SumGross(lines)) && FourDecimals(SumDiscount(lines))
    ensures 0.0 <= SumDiscount(lines) <= SumGross(lines)
    ensures SumLineTotal(lines) == SumGross(lines) - SumDiscount(lines)
  {
    if lines == [] {
      FourDecimalsIs(0.0, 0);
    } else {
      var n := |lines| - 1;
      SumsAreExact(lines[..n]);
      FourDecimalsAdd(SumGross(lines[..n]), lines[n].grossTotal);
      FourDecimalsAdd(SumDiscount(lines[..n]), lines[n].discountAmount);
    }
  }

  /** Totals of calculated lines lose nothing: the total is the sum of the line totals. */
  lemma TotalsAreExact(lines: seq<Line>)
    requires LinesOk(lines)
    ensures CalculateTotals(lines) == Totals(SumGross(lines), SumDiscount(lines), SumLineTotal(lines))
    ensures SumLineTotal(lines) >= 0.0
  {
    SumsAreExact(lines);
    MoneyIsExact(SumGross(lines));
    MoneyIsExact(SumDiscount(lines));
    FourDecimalsAdd(SumGross(lines), SumDiscount(lines));
    MoneyIsExact(SumGross(lines) - SumDiscount(lines));
  }

  // ---------------------------------------------------------------- documents

  datatype Item = Item(itemCode: Option<string>, unitOfMeasure: string, quantity: real, unitPrice: real)

  datatype Price = Price(priceListId: nat, price: real)

  datatype Discount = Discount(id: nat, percentage: real)

  type Pricing = (string, string) -> Option<Price>

  datatype ResolvedLine = ResolvedLine(
    unitPrice: real, discountPercentage: real, discountAmount: real, lineTotal: real,
    priceListId: Option<nat>, discountRuleId: Option<nat>)

  datatype Document = Document(lines: seq<ResolvedLine>, totals: Totals)

  /** An absent and an empty item code both mean that no price is looked up. */
  predicate Coded(item: Item) { item.itemCode.Some? && item.itemCode.value != "" }

  function LookUp(item: Item, pricing: Option<Pricing>): Option<Price> {
    if Coded(item) && pricing.Some? then (pricing.value)(item.itemCode.value, item.unitOfMeasure) else None
  }

  function UnitPrice(item: Item, pricing: Option<Pricing>): real {
    var price := LookUp(item, pricing);
    if price.Some? then price.value.price else item.unitPrice
  }

  function Percentage(discount: Option<Discount>): real {
    if discount.Some? then discount.value.percentage else 0.0
  }

  function Calculated(item: Item, pricing: Option<Pricing>, discount: Option<Discount>): Result<Line, CommercialError> {
    if Coded(item) && pricing.Some? && LookUp(item, pricing).None? then Err(NoPublishedPrice)
    else CalculateLine(item.quantity, UnitPrice(item, pricing), Percentage(discount))
  }

  function Resolved(item: Item, line: Line, pricing: Option<Pricing>, discount: Option<Discount>): ResolvedLine {
    var price := LookUp(item, pricing);
    ResolvedLine(
      line.unitPrice, line.discountPercentage, line.discountAmount, line.lineTotal,
      if price.Some? then Some(price.value.priceListId) else None,
      if discount.Some? then Some(discount.value.id) else None)
  }

  ghost predicate AllCalculate(items: seq<Item>, pricing: Option<Pricing>, discount: Option<Discount>) {
    forall i :: 0 <= i < |items| ==> Calculated(items[i], pricing, discount).Ok?
  }

  /** The lines as calculated, with the gross amounts they were calculated from. */
  ghost predicate AreCalculated(
    items: seq<Item>, lines: seq<Line>, pricing: Option<Pricing>, discount: Option<Discount>) {
    && |lines| == |items|
    && forall i :: 0 <= i < |items| ==> Calculated(items[i], pricing, discount) == Ok(lines[i])
  }

  function ResolvedLines(
    items: seq<Item>, lines: seq<Line>, pricing: Option<Pricing>, discount: Option<Discount>): seq<ResolvedLine>
    requires |items| == |lines|
  {
    seq(|items|, i requires 0 <= i < |items| => Resolved(items[i], lines[i], pricing, discount))
  }

  /** The gross amount the document's totals use: quantity times the already rounded price. */
  function Regrossed(item: Item, line: Line): Line {
    line.(grossTotal := item.quantity * line.unitPrice)
  }

  function Regross(items: seq<Item>, lines: seq<Line>): (r: seq<Line>)
    requires |items| == |lines|
    ensures |r| == |lines|
    ensures forall i :: 0 <= i < |r| ==> r[i] == Regrossed(items[i], lines[i])
  {
    seq(|lines|, i requires 0 <= i < |lines| => Regrossed(items[i], lines[i]))
  }

  /** The loop stops at the first line that throws; otherwise it gives the whole document. */
  method ResolveCommercialLines(items: seq<Item>, pricing: Option<Pricing>, discount: Option<Discount>)
    returns (answer: Result<Document, CommercialError>, ghost calculated: seq<Line>)
    ensures answer.Ok? <==> AllCalculate(items, pricing, discount)
    ensures answer.Ok? ==>
      && AreCalculated(items, calculated, pricing, discount)
      && answer.value.lines == ResolvedLines(items, calculated, pricing, discount)
      && answer.value.totals == CalculateTotals(Regross(items, calculated))
    ensures answer.Err? ==>
      && |calculated| < |items| && AreCalculated(items[..|calculated|], calculated, pricing, discount)
      && Calculated(items[|calculated|], pricing, discount) == Err(answer.error)
  {
    var lines: seq<ResolvedLine> := [];
    var grossed: seq<Line> := [];
    calculated := [];
    for i := 0 to |items|
      invariant |calculated| == i && AreCalculated(items[..i], calculated, pricing, discount)
      invariant lines == ResolvedLines(items[..i], calculated, pricing, discount)
      invariant grossed == Regross(items[..i], calculated)
    {
      var line := Calculated(items[i], pricing, discount);
      if line.Err? {
        NotAllCalculate(items, pricing, discount, i);
        return Err(line.error), calculated;
      }
      OneMoreLine(items, calculated, line.value, pricing, discount);
      lines := lines + [Resolved(items[i], line.value, pricing, discount)];
      grossed := grossed + [Regrossed(items[i], line.value)];
      calculated := calculated + [line.value];
    }
    assert items[..|items|] == items;
    CalculatedAll(items, calculated, pricing, discount);
    return Ok(Document(lines, CalculateTotals(grossed))), calculated;
  }

  lemma NotAllCalculate(items: seq<Item>, pricing: Option<Pricing>, discount: Option<Discount>, i: nat)
    requires i < |items| && Calculated(items[i], pricing, discount).Err?
    ensures !AllCalculate(items, pricing, discount)
  {
  }

  lemma CalculatedAll(items: seq<Item>, lines: seq<Line>, pricing: Option<Pricing>, discount: Option<Discount>)
    requires AreCalculated(items, lines, pricing, discount)
    ensures AllCalculate(items, pricing, discount)
  {
  }

  lemma OneMoreLine(
    items: seq<Item>, lines: seq<Line>, line: Line, pricing: Option<Pricing>, discount: Option<Discount>)
    requires |lines| < |items| && AreCalculated(items[..|lines|], lines, pricing, discount)
    requires Calculated(items[|lines|], pricing, discount) == Ok(line)
    ensures var i := |lines|;
            && AreCalculated(items[..i + 1], lines + [line], pricing, discount)
            && ResolvedLines(items[..i + 1], lines + [line], pricing, discount)
               == ResolvedLines(items[..i], lines, pricing, discount) + [Resolved(items[i], line, pricing, discount)]
            && Regross(items[..i + 1], lines + [line])
               == Regross(items[..i], lines) + [Regrossed(items[i], line)]
  {
    var more, i := items[..|lines| + 1], |lines|;
    forall j | 0 <= j < |more| ensures Calculated(more[j], pricing, discount) == Ok((lines + [line])[j]) {
      assert j < i ==> Calculated(items[..i][j], pricing, discount) == Ok(lines[j]);
    }
  }

  // ---------------------------------- the document total and the line totals

  function SumQuantity(items: seq<Item>): real {
    if items == [] then 0.0 else SumQuantity(items[..|items| - 1]) + items[|items| - 1].quantity
  }

  /** How far the recomputed gross amounts are from the lines' own. */
  function Drift(items: seq<Item>, lines: seq<Line>): real
    requires |items| == |lines|
  {
    SumGross(Regross(items, lines)) - SumGross(lines)
  }

  lemma CalculatedAreOk(items: seq<Item>, lines: seq<Line>, pricing: Option<Pricing>, discount: Option<Discount>)
    requires AreCalculated(items, lines, pricing, discount)
    ensures LinesOk(lines)
    ensures forall i :: 0 <= i < |items| ==> Close(items[i].quantity, UnitPrice(items[i], pricing), lines[i])
  {
    forall i | 0 <= i < |lines|
      ensures LineOk(lines[i]) && Close(items[i].quantity, UnitPrice(items[i], pricing), lines[i])
    {
      assert Calculated(items[i], pricing, discount) == Ok(lines[i]);
      CalculatedLineIsOk(items[i].quantity, UnitPrice(items[i], pricing), Percentage(discount));
    }
  }

  lemma {:induction false} RegrossKeepsDiscounts(items: seq<Item>, lines: seq<Line>)
    requires |items| == |lines|
    ensures SumDiscount(Regross(items, lines)) == SumDiscount(lines)
  {
    if lines != [] {
      var n := |lines| - 1;
      RegrossPrefix(items, lines);
      RegrossKeepsDiscounts(items[..n], lines[..n]);
    }
  }

  lemma RegrossPrefix(items: seq<Item>, lines: seq<Line>)
    requires |items| == |lines| && items != []
    ensures var n := |items| - 1; Regross(items, lines)[..n] == Regross(items[..n], lines[..n])
  {
    var n := |items| - 1;
    var a, b := Regross(items, lines)[..n], Regross(items[..n], lines[..n]);
    forall i | 0 <= i < n ensures a[i] == b[i] {
      assert items[..n][i] == items[i] && lines[..n][i] == lines[i];
    }
  }

  lemma TotalOfSums(again: real, gross: real, discount: real)
    requires FourDecimals(gross) && FourDecimals(discount)
    ensures Money(Money(again) - Money(discount)) == gross - discount + Money(again - gross)
  {
    MoneyIsExact(discount);
    MoneyIsNear(again);
    FourDecimalsAdd(Money(again), discount);
    MoneyIsExact(Money(again) - discount);
    MoneyShift(again - gross, gross);
  }

  /** The document total minus the sum of the line totals is exactly the rounded drift. */
  lemma TotalDiffersByDrift(items: seq<Item>, lines: seq<Line>)
    requires |items| == |lines| && LinesOk(lines)
    ensures CalculateTotals(Regross(items, lines)).total == SumLineTotal(lines) + Money(Drift(items, lines))
  {
    SumsAreExact(lines);
    RegrossKeepsDiscounts(items, lines);
    TotalOfSums(SumGross(Regross(items, lines)), SumGross(lines), SumDiscount(lines));
  }

  lemma RoundsToZero(x: real)
    ensures Money(x) == 0.0 <==> -0.00005 <= x < 0.00005
  {
    assert Money(x) == 0.0 <==> (x * 10000.0 + 0.5).Floor == 0;
  }

  /** One line's part of the drift: its price was rounded, and so was its gross amount. */
  lemma LineDrift(quantity: real, price: real, line: Line)
    requires Close(quantity, price, line)
    ensures Within(quantity * line.unitPrice - line.grossTotal, 0.00005 * (1.0 + quantity))
    ensures line.unitPrice == price ==> Within(quantity * line.unitPrice - line.grossTotal, 0.00005)
  {
    var e := line.unitPrice - price;
    Distributes(quantity, price, e);
    assert line.unitPrice == price + e;
    Scaled(quantity, e);
    SumOfErrors(quantity * price, quantity * e, line.grossTotal, quantity);
  }

  lemma Distributes(q: real, p: real, e: real)
    ensures q * (p + e) == q * p + q * e
  {
  }

  lemma SumOfErrors(product: real, error: real, gross: real, q: real)
    requires -0.00005 <= gross - product <= 0.00005 && -0.00005 * q <= error <= 0.00005 * q
    ensures -0.00005 * (1.0 + q) <= product + error - gross <= 0.00005 * (1.0 + q)
  {
  }

  lemma Scaled(q: real, e: real)
    requires q > 0.0 && -0.00005 <= e <= 0.00005
    ensures -0.00005 * q <= q * e <= 0.00005 * q
  {
  }

  function Share(item: Item, line: Line): real { Regrossed(item, line).grossTotal - line.grossTotal }

  function Sum(xs: seq<real>): real {
    if xs == [] then 0.0 else Sum(xs[..|xs| - 1]) + xs[|xs| - 1]
  }

  function Shares(items: seq<Item>, lines: seq<Line>): (r: seq<real>)
    requires |items| == |lines|
    ensures |r| == |items| && forall i :: 0 <= i < |r| ==> r[i] == Share(items[i], lines[i])
  {
    seq(|items|, i requires 0 <= i < |items| => Share(items[i], lines[i]))
  }

  lemma {:induction false} DriftIsSum(items: seq<Item>, lines: seq<Line>)
    requires |items| == |lines|
    ensures Drift(items, lines) == Sum(Shares(items, lines))
    decreases |items|
  {
    if items != [] {
      var n := |items| - 1;
      RegrossPrefix(items, lines);
      DriftIsSum(items[..n], lines[..n]);
      var fewer := Shares(items[..n], lines[..n]);
      forall i | 0 <= i < n ensures Shares(items, lines)[..n][i] == fewer[i] {
        assert items[..n][i] == items[i] && lines[..n][i] == lines[i];
      }
      assert Shares(items, lines)[..n] == fewer;
    }
  }

  /** An item's part of the drift: the quantity times the rounded price, less the rounded product. */
  function PriceDrift(quantity: real, price: real): real { quantity * Money(price) - Money(quantity * price) }

  function ItemDrift(item: Item, pricing: Option<Pricing>): real {
    PriceDrift(item.quantity, UnitPrice(item, pricing))
  }

  function ItemsDrift(items: seq<Item>, pricing: Option<Pricing>): real {
    if items == [] then 0.0
    else ItemsDrift(items[..|items| - 1], pricing) + ItemDrift(items[|items| - 1], pricing)
  }

  lemma LineShare(quantity: real, price: real, discount: real)
    requires CalculateLine(quantity, price, discount).Ok?
    ensures var line := CalculateLine(quantity, price, discount).value;
            quantity * line.unitPrice - line.grossTotal == PriceDrift(quantity, price)
  {
  }

  lemma ShareOfItem(item: Item, line: Line, pricing: Option<Pricing>, discount: Option<Discount>)
    requires Calculated(item, pricing, discount) == Ok(line)
    ensures Share(item, line) == ItemDrift(item, pricing)
  {
    LineShare(item.quantity, UnitPrice(item, pricing), Percentage(discount));
  }

  /** The drift can be computed before any line is. */
  lemma {:induction false} DriftOfItems(
    items: seq<Item>, lines: seq<Line>, pricing: Option<Pricing>, discount: Option<Discount>)
    requires AreCalculated(items, lines, pricing, discount)
    ensures Drift(items, lines) == ItemsDrift(items, pricing)
    decreases |items|
  {
    DriftIsSum(items, lines);
    if items != [] {
      var n := |items| - 1;
      DriftOfItems(items[..n], lines[..n], pricing, discount);
      DriftIsSum(items[..n], lines[..n]);
      assert Shares(items, lines)[..n] == Shares(items[..n], lines[..n]);
      ShareOfItem(items[n], lines[n], pricing, discount);
    }
  }

  /** The total and the sum of the line totals are equal exactly when the items' drift rounds to zero. */
  lemma TotalAgreesExactly(items: seq<Item>, lines: seq<Line>, pricing: Option<Pricing>, discount: Option<Discount>)
    requires AreCalculated(items, lines, pricing, discount)
    ensures CalculateTotals(Regross(items, lines)).total == SumLineTotal(lines)
       <==> -0.00005 <= ItemsDrift(items, pricing) < 0.00005
  {
    CalculatedAreOk(items, lines, pricing, discount);
    TotalDiffersByDrift(items, lines);
    DriftOfItems(items, lines, pricing, discount);
    RoundsToZero(Drift(items, lines));
  }

  predicate Within(x: real, bound: real) { -bound <= x <= bound }

  lemma {:induction false} SumIsBounded(xs: seq<real>, items: seq<Item>)
    requires |xs| == |items|
    requires forall i :: 0 <= i < |xs| ==> Within(xs[i], 0.00005 * (1.0 + items[i].quantity))
    ensures Within(Sum(xs), 0.00005 * (|xs| as real + SumQuantity(items)))
    decreases |xs|
  {
    if xs != [] {
      var n := |xs| - 1;
      SumIsBounded(xs[..n], items[..n]);
      assert Within(xs[n], 0.00005 * (1.0 + items[n].quantity));
    }
  }

  lemma {:induction false} SumIsSmall(xs: seq<real>)
    requires forall i :: 0 <= i < |xs| ==> Within(xs[i], 0.00005)
    ensures Within(Sum(xs), 0.00005 * |xs| as real)
    decreases |xs|
  {
    if xs != [] {
      SumIsSmall(xs[..|xs| - 1]);
      assert Within(xs[|xs| - 1], 0.00005);
    }
  }

  lemma {:induction false} SumIsZero(xs: seq<real>)
    requires forall i :: 0 <= i < |xs| ==> xs[i] == 0.0
    ensures Sum(xs) == 0.0
    decreases |xs|
  {
    if xs != [] {
      SumIsZero(xs[..|xs| - 1]);
    }
  }

  lemma ShareIsBounded(item: Item, price: real, line: Line)
    requires Close(item.quantity, price, line)
    ensures Within(Share(item, line), 0.00005 * (1.0 + item.quantity))
    ensures line.unitPrice == price ==> Within(Share(item, line), 0.00005)
  {
    LineDrift(item.quantity, price, line);
  }

  lemma DriftIsBounded(items: seq<Item>, lines: seq<Line>, pricing: Option<Pricing>, discount: Option<Discount>)
    requires AreCalculated(items, lines, pricing, discount)
    ensures Within(Drift(items, lines), 0.00005 * (|items| as real + SumQuantity(items)))
  {
    CalculatedAreOk(items, lines, pricing, discount);
    DriftIsSum(items, lines);
    forall i | 0 <= i < |items| ensures Within(Shares(items, lines)[i], 0.00005 * (1.0 + items[i].quantity)) {
      ShareIsBounded(items[i], UnitPrice(items[i], pricing), lines[i]);
    }
    SumIsBounded(Shares(items, lines), items);
  }

  ghost predicate FourDecimalPrices(items: seq<Item>, pricing: Option<Pricing>) {
    forall i :: 0 <= i < |items| ==> FourDecimals(UnitPrice(items[i], pricing))
  }

  lemma ExactPriceStays(quantity: real, price: real, discount: real)
    requires CalculateLine(quantity, price, discount).Ok? && FourDecimals(price)
    ensures var line := CalculateLine(quantity, price, discount).value;
            line.unitPrice == price && line.grossTotal == Money(quantity * price)
  {
    MoneyIsExact(price);
  }

  lemma WholeProductIsExact(q: real, p: real)
    requires FourDecimals(p) && q.Floor as real == q
    ensures Money(q * p) == q * p
  {
    FourDecimalsTimes(q.Floor, q, p);
    MoneyIsExact(q * p);
  }

  lemma ExactShare(quantity: real, price: real, discount: real, item: Item)
    requires CalculateLine(quantity, price, discount).Ok? && FourDecimals(price) && item.quantity == quantity
    ensures Within(Share(item, CalculateLine(quantity, price, discount).value), 0.00005)
    ensures quantity.Floor as real == quantity ==> Share(item, CalculateLine(quantity, price, discount).value) == 0.0
  {
    var line := CalculateLine(quantity, price, discount).value;
    assert Within(Share(item, line), 0.00005) by {
      CalculatedLineIsOk(quantity, price, discount);
      ExactPriceStays(quantity, price, discount);
      ShareIsBounded(item, price, line);
    }
    if quantity.Floor as real == quantity {
      ExactPriceStays(quantity, price, discount);
      WholeProductIsExact(quantity, price);
    }
  }

  lemma ExactPriceShare(item: Item, line: Line, pricing: Option<Pricing>, discount: Option<Discount>)
    requires Calculated(item, pricing, discount) == Ok(line) && FourDecimals(UnitPrice(item, pricing))
    ensures Within(Share(item, line), 0.00005)
    ensures item.quantity.Floor as real == item.quantity ==> Share(item, line) == 0.0
  {
    ExactShare(item.quantity, UnitPrice(item, pricing), Percentage(discount), item);
  }

  /** The document total stays within a known distance of the sum of the line totals. */
  lemma TotalIsNear(items: seq<Item>, lines: seq<Line>, pricing: Option<Pricing>, discount: Option<Discount>)
    requires AreCalculated(items, lines, pricing, discount)
    ensures Within(CalculateTotals(Regross(items, lines)).total - SumLineTotal(lines),
                   0.00005 * (1.0 + |items| as real + SumQuantity(items)))
    ensures FourDecimalPrices(items, pricing) ==>
              Within(CalculateTotals(Regross(items, lines)).total - SumLineTotal(lines),
                0.00005 * (1.0 + |items| as real))
  {
    CalculatedAreOk(items, lines, pricing, discount);
    TotalDiffersByDrift(items, lines);
    MoneyIsNear(Drift(items, lines));
    DriftIsBounded(items, lines, pricing, discount);
    if FourDecimalPrices(items, pricing) {
      DriftIsSum(items, lines);
      forall i | 0 <= i < |items| ensures Within(Shares(items, lines)[i], 0.00005) {
        ExactPriceShare(items[i], lines[i], pricing, discount);
      }
      SumIsSmall(Shares(items, lines));
    }
  }

  ghost predicate WholeQuantities(items: seq<Item>) {
    forall i :: 0 <= i < |items| ==> items[i].quantity.Floor as real == items[i].quantity
  }

  /** With whole quantities and prices of four decimals there is no drift at all. */
  lemma WholeQuantitiesAgree(items: seq<Item>, lines: seq<Line>, pricing: Option<Pricing>, discount: Option<Discount>)
    requires AreCalculated(items, lines, pricing, discount)
    requires FourDecimalPrices(items, pricing) && WholeQuantities(items)
    ensures CalculateTotals(Regross(items, lines)).total == SumLineTotal(lines)
  {
    DriftIsSum(items, lines);
    forall i | 0 <= i < |items| ensures Shares(items, lines)[i] == 0.0 {
      ExactPriceShare(items[i], lines[i], pricing, discount);
    }
    SumIsZero(Shares(items, lines));
    DriftOfItems(items, lines, pricing, discount);
    TotalAgreesExactly(items, lines, pricing, discount);
  }

  // ----------------------------------------------------- where they disagree

  /** One line of a thousand at a price that rounds to nothing, wholly discounted. */
  function TinyPrice(): Item { Item(None, "unit", 1000.0, 0.00004) }

  lemma TinyLine()
    ensures Calculated(TinyPrice(), None, Some(Discount(1, 100.0))) == Ok(Line(0.0, 100.0, 0.04, 0.0, 0.04))
  {
    FourDecimalsIs(0.04, 400);
    MoneyIsExact(0.04);
    RoundsToZero(0.00004);
    RoundsToZero(0.0);
    assert 1000.0 * 0.00004 == 0.04 && 0.04 * (100.0 / 100.0) == 0.04;
  }

  /** Its document total is negative while its line total is zero. */
  lemma TotalCanBeNegative()
    ensures var items, line, discount := [TinyPrice()], Line(0.0, 100.0, 0.04, 0.0, 0.04), Some(Discount(1, 100.0));
            && AreCalculated(items, [line], None, discount)
            && SumLineTotal([line]) == 0.0
            && CalculateTotals(Regross(items, [line])).total == -0.04
  {
    var items, lines := [TinyPrice()], [Line(0.0, 100.0, 0.04, 0.0, 0.04)];
    TinyLine();
    CalculatedAreOk(items, lines, None, Some(Discount(1, 100.0)));
    DriftIsSum(items, lines);
    assert Shares(items, lines) == [-0.04];
    assert [-0.04][..0] == [] && lines[..0] == [];
    TotalDiffersByDrift(items, lines);
    FourDecimalsIs(-0.04, -400);
    MoneyIsExact(-0.04);
  }
}
