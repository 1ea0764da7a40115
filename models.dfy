/**
 * The entities of the cash-flow (ДДС) application and the rules attached to
 * them at model level: the consistency check of `CashFlowRecord.clean`, the
 * validators of the `amount` field, the default ordering of records and the
 * `__str__` forms. Foreign keys are held as the referenced row's id.
 */
module Models {
  import opened Wrappers
  import opened Text
  import opened Ordering

  // ---------------------------------------------------------------------------
  // Entities
  // ---------------------------------------------------------------------------

  datatype Status = Status(id: nat, name: string, description: string)

  /** The `Type` model (income, expense, ...). */
  datatype FlowType = FlowType(id: nat, name: string, description: string)

  datatype Category = Category(id: nat, name: string, typeId: nat, description: string)

  datatype Subcategory = Subcategory(id: nat, name: string, categoryId: nat, description: string)

  datatype Date = Date(year: nat, month: nat, day: nat)

  /** A cash-flow record; `cents` is the 2-place decimal amount times 100 and
      `createdAt` the creation time stamp, as a number that grows with time. */
  datatype CashFlowRecord = CashFlowRecord(
    id: nat, date: Date, statusId: nat, typeId: nat, categoryId: nat, subcategoryId: nat,
    cents: nat, comment: string, createdAt: nat)

  function DateKey(d: Date): seq<int> {
    [d.year, d.month, d.day]
  }

  /** Calendar order of dates. */
  predicate DateLe(a: Date, b: Date) {
    LexLe(DateKey(a), DateKey(b))
  }

  // ---------------------------------------------------------------------------
  // CashFlowRecord.clean
  // ---------------------------------------------------------------------------

  datatype LinkError = SubcategoryOutsideCategory | CategoryOutsideType

  function LinkMessage(e: LinkError): string {
    match e
    case SubcategoryOutsideCategory => "Выбранная подкатегория не принадлежит выбранной категории."
    case CategoryOutsideType => "Выбранная категория не относится к выбранному типу."
  }

  /** The subcategory, when both are given, lies in the category. */
  predicate SubcategoryFits(subcategory: Option<Subcategory>, category: Option<Category>) {
    subcategory.Some? && category.Some? ==> subcategory.value.categoryId == category.value.id
  }

  /** The category, when both are given, is of the type. */
  predicate CategoryFits(category: Option<Category>, flowType: Option<FlowType>) {
    category.Some? && flowType.Some? ==> category.value.typeId == flowType.value.id
  }

  /** The two checks of `clean`, in order; an unset link skips its check.
      Only the first violation is reported, so a record broken at both links
      is rejected for its subcategory. */
  function CheckLinks(subcategory: Option<Subcategory>, category: Option<Category>, flowType: Option<FlowType>)
    : (r: Option<LinkError>)
    ensures r == None <==> SubcategoryFits(subcategory, category) && CategoryFits(category, flowType)
    ensures r == Some(SubcategoryOutsideCategory) <==> !SubcategoryFits(subcategory, category)
    ensures r == Some(CategoryOutsideType) <==>
              SubcategoryFits(subcategory, category) && !CategoryFits(category, flowType)
  {
    if subcategory.Some? && category.Some? && subcategory.value.categoryId != category.value.id then
      Some(SubcategoryOutsideCategory)
    else if category.Some? && flowType.Some? && category.value.typeId != flowType.value.id then
      Some(CategoryOutsideType)
    else None
  }

  // ---------------------------------------------------------------------------
  // The amount field: DecimalField(max_digits=12, decimal_places=2) with
  // MinValueValidator(0.01)
  // ---------------------------------------------------------------------------

  /** A Python `Decimal` as `as_tuple()` shows it: sign, coefficient, exponent. */
  datatype Decimal = Decimal(negative: bool, coefficient: nat, exponent: int)

  datatype AmountError = BelowMinimum | TooManyDigits | TooManyDecimalPlaces | TooManyWholeDigits

  const MaxDigits: nat := 12
  const DecimalPlaces: nat := 2

  /** Length of the digit tuple (a zero coefficient has the one digit 0). */
  function DigitCount(d: Decimal): nat {
    |NatToString(d.coefficient)|
  }

  /** Django's `DecimalValidator(12, 2)`: the first limit the value breaks. */
  function DecimalValidatorError(d: Decimal): Option<AmountError> {
    var k := DigitCount(d);
    var digits: int :=
      if d.exponent >= 0 then (if d.coefficient != 0 then k + d.exponent else k)
      else if -d.exponent > k then -d.exponent
      else k;
    var decimals: int := if d.exponent >= 0 then 0 else -d.exponent;
    var whole := digits - decimals;
    if digits > MaxDigits then Some(TooManyDigits)
    else if decimals > DecimalPlaces then Some(TooManyDecimalPlaces)
    else if whole > MaxDigits - DecimalPlaces then Some(TooManyWholeDigits)
    else None
  }

  /** The amount in cents of a decimal with at most two places. */
  function Cents(d: Decimal): nat
    requires d.exponent >= -2
  {
    d.coefficient * Pow10(d.exponent + 2)
  }

  /** `value < 0.01`, compared exactly. */
  predicate BelowOneCent(d: Decimal) {
    || d.negative
    || (if d.exponent >= -2 then Cents(d) < 1 else d.coefficient < Pow10(-(d.exponent + 2)))
  }

  /** The double nearest to 0.01 is 5764607523034235 / 2^59, slightly above 0.01. */
  const FloatCentNumerator: nat := 5764607523034235
  const FloatCentDenominator: nat := 576460752303423488

  /** `value < 0.01` where 0.01 is the float literal of the validator; Python
      compares a Decimal with a float exactly. */
  predicate BelowFloatCent(d: Decimal) {
    || d.negative
    || (if d.exponent >= 0 then d.coefficient * Pow10(d.exponent) * FloatCentDenominator < FloatCentNumerator
        else d.coefficient * FloatCentDenominator < FloatCentNumerator * Pow10(-d.exponent))
  }

  function ValidatorErrors(below: bool, d: Decimal): seq<AmountError> {
    (if below then [BelowMinimum] else [])
    + (match DecimalValidatorError(d) case Some(e) => [e] case None => [])
  }

  /** The errors `full_clean` collects for the amount as the field is written:
      the minimum validator (float bound), then the decimal validator. */
  function AmountErrorsAsWritten(d: Decimal): seq<AmountError> {
    ValidatorErrors(BelowFloatCent(d), d)
  }

  /** The same with the bound meant by the field, one cent. */
  function AmountErrors(d: Decimal): seq<AmountError> {
    ValidatorErrors(BelowOneCent(d), d)
  }

  lemma MulMonotone(a: nat, b: nat, p: nat)
    requires a <= b
    ensures a * p <= b * p
  {
  }

  lemma MulStrict(a: nat, b: nat, p: nat)
    requires a < b && p >= 1
    ensures a * p < b * p
  {
    MulMonotone(a + 1, b, p);
  }

  /** `c * 10^s` against `10^12` for a coefficient of `k` digits. */
  lemma ScaledBound(c: nat, k: nat, s: nat)
    requires c < Pow10(k)
    requires c > 0 ==> k >= 1 && Pow10(k - 1) <= c
    ensures k + s <= 12 ==> c * Pow10(s) < Pow10(12)
    ensures c > 0 && k + s > 12 ==> c * Pow10(s) >= Pow10(12)
  {
    var p := Pow10(s);
    Pow10Add(k, s);
    MulStrict(c, Pow10(k), p);
    if k + s <= 12 {
      Pow10Monotone(k + s, 12);
    }
    if c > 0 && k + s > 12 {
      Pow10Add(k - 1, s);
      MulMonotone(Pow10(k - 1), c, p);
      Pow10Monotone(12, k - 1 + s);
    }
  }

  /** The decimal validator accepts exactly the values with at most two places
      whose amount in cents stays below 10^12 (ten whole digits). */
  lemma DecimalValidatorAccepts(d: Decimal)
    ensures DecimalValidatorError(d) == None <==> d.exponent >= -2 && Cents(d) < Pow10(12)
  {
    NatToStringLength(d.coefficient);
    if d.exponent >= 0 {
      WholeDecimalAccepts(d);
    } else if d.exponent >= -2 {
      FractionDecimalAccepts(d);
    }
  }

  /** The decimal validator on a value without places. */
  lemma WholeDecimalAccepts(d: Decimal)
    requires d.exponent >= 0
    requires d.coefficient < Pow10(DigitCount(d))
    requires d.coefficient > 0 ==> Pow10(DigitCount(d) - 1) <= d.coefficient
    ensures DecimalValidatorError(d) == None <==> Cents(d) < Pow10(12)
  {
    if d.coefficient != 0 {
      ScaledBound(d.coefficient, DigitCount(d), d.exponent + 2);
    }
  }

  /** The decimal validator on a value with one or two places. */
  lemma FractionDecimalAccepts(d: Decimal)
    requires -2 <= d.exponent < 0
    requires d.coefficient < Pow10(DigitCount(d))
    requires d.coefficient > 0 ==> Pow10(DigitCount(d) - 1) <= d.coefficient
    requires d.coefficient == 0 ==> DigitCount(d) == 1
    ensures DecimalValidatorError(d) == None <==> Cents(d) < Pow10(12)
  {
    var k := DigitCount(d);
    var s: nat := d.exponent + 2;
    if -d.exponent > k {
      assert k == 1 && s == 0;
    } else {
      ScaledBound(d.coefficient, k, s);
    }
  }

  /** An amount passes `full_clean` exactly when it is non-negative, has at
      most two places and lies between one cent and 10^12 - 1 cents. */
  lemma AmountAccepted(d: Decimal)
    ensures AmountErrors(d) == [] <==>
              !d.negative && d.exponent >= -2 && 1 <= Cents(d) < Pow10(12)
  {
    DecimalValidatorAccepts(d);
  }

  /** Zero is refused by the minimum validator alone. */
  lemma ZeroAmountRejected()
    ensures AmountErrors(Decimal(false, 0, -2)) == [BelowMinimum]
    ensures AmountErrorsAsWritten(Decimal(false, 0, -2)) == [BelowMinimum]
  {
    DecimalValidatorAccepts(Decimal(false, 0, -2));
  }

  /** For a two-place amount the float bound refuses every amount below two
      cents, where the one-cent bound refuses only zero. */
  lemma FloatBoundOnTwoPlaces(d: Decimal)
    requires !d.negative && d.exponent == -2
    ensures BelowFloatCent(d) <==> d.coefficient < 2
    ensures BelowOneCent(d) <==> d.coefficient < 1
  {
    assert Pow10(2) == 100;
  }

  /** The amount 0.01 is refused as written and accepted with the meant bound. */
  lemma OneCentRefusedAsWritten()
    ensures AmountErrorsAsWritten(Decimal(false, 1, -2)) == [BelowMinimum]
    ensures AmountErrors(Decimal(false, 1, -2)) == []
  {
    FloatBoundOnTwoPlaces(Decimal(false, 1, -2));
    AmountAccepted(Decimal(false, 1, -2));
  }

  // ---------------------------------------------------------------------------
  // __str__ forms
  // ---------------------------------------------------------------------------

  /** `str(date)`: `YYYY-MM-DD`. */
  function DateToString(d: Date): string {
    PadZeros(NatToString(d.year), 4) + "-" + PadZeros(NatToString(d.month), 2) + "-"
    + PadZeros(NatToString(d.day), 2)
  }

  /** A number below `10^w` has at most `w` digits. */
  lemma DigitsFit(n: nat, w: nat)
    requires w >= 1 && n < Pow10(w)
    ensures |NatToString(n)| <= w
  {
    NatToStringLength(n);
    if |NatToString(n)| > w && n > 0 {
      Pow10Monotone(w, |NatToString(n)| - 1);
    }
  }

  /** A zero-padded field of width `w` for a number below `10^w`: exactly `w`
      digits denoting the number. */
  lemma PaddedField(n: nat, w: nat)
    requires w >= 1 && n < Pow10(w)
    ensures |PadZeros(NatToString(n), w)| == w
    ensures AllDigits(PadZeros(NatToString(n), w))
    ensures DigitsValue(PadZeros(NatToString(n), w)) == n
  {
    DigitsFit(n, w);
    PadZerosValue(NatToString(n), w);
    NatToStringRoundTrip(n);
  }

  /** A date of the calendar prints as ten characters from which year, month
      and day are read back. */
  lemma DateToStringParts(d: Date)
    requires d.year < 10000 && d.month < 100 && d.day < 100
    ensures var s := DateToString(d);
      && |s| == 10 && s[4] == '-' && s[7] == '-'
      && AllDigits(s[..4]) && AllDigits(s[5..7]) && AllDigits(s[8..])
      && DigitsValue(s[..4]) == d.year && DigitsValue(s[5..7]) == d.month && DigitsValue(s[8..]) == d.day
  {
    assert Pow10(2) == 100 && Pow10(4) == 10000;
    PaddedField(d.year, 4);
    PaddedField(d.month, 2);
    PaddedField(d.day, 2);
    DateFields(PadZeros(NatToString(d.year), 4), PadZeros(NatToString(d.month), 2),
               PadZeros(NatToString(d.day), 2));
  }

  lemma DateFields(y: string, m: string, d: string)
    requires |y| == 4 && |m| == 2 && |d| == 2
    ensures var s := y + "-" + m + "-" + d;
      |s| == 10 && s[4] == '-' && s[7] == '-' && s[..4] == y && s[5..7] == m && s[8..] == d
  {
  }

  /** `str(Decimal)` of an amount with two places, e.g. `1500.50`. */
  function AmountToString(cents: nat): string {
    NatToString(cents / 100) + "." + PadZeros(NatToString(cents % 100), 2)
  }

  /** The printed amount is whole units, a point and exactly two digits, and
      it reads back as the amount. */
  lemma AmountToStringValue(cents: nat)
    ensures var s := AmountToString(cents);
      && |s| >= 4 && s[|s| - 3] == '.'
      && AllDigits(s[..|s| - 3]) && AllDigits(s[|s| - 2..])
      && DigitsValue(s[..|s| - 3]) * 100 + DigitsValue(s[|s| - 2..]) == cents
  {
    var units, rest := cents / 100, cents % 100;
    var w, f := NatToString(units), PadZeros(NatToString(rest), 2);
    assert Pow10(2) == 100;
    PaddedField(rest, 2);
    NatToStringRoundTrip(units);
    PointFields(w, f);
    assert AmountToString(cents) == w + "." + f;
    assert DigitsValue(w) * 100 + DigitsValue(f) == cents;
  }

  lemma PointFields(w: string, f: string)
    requires |w| >= 1 && |f| == 2
    ensures var s := w + "." + f;
      |s| >= 4 && s[|s| - 3] == '.' && s[..|s| - 3] == w && s[|s| - 2..] == f
  {
  }

  /** `CashFlowRecord.__str__`: `<date> - <type name> - <amount> руб.`. */
  function RecordLabel(date: Date, typeName: string, cents: nat): string {
    DateToString(date) + " - " + typeName + " - " + AmountToString(cents) + " руб."
  }

  lemma ExampleDate()
    ensures DateToString(Date(2025, 10, 4)) == "2025-10-04"
  {
    assert NatToString(20) == "20";
    assert NatToString(202) == "202";
    assert NatToString(2025) == "2025";
    assert NatToString(10) == "10";
    assert PadZeros("4", 2) == "04";
  }

  lemma ExampleAmount()
    ensures AmountToString(150050) == "1500.50"
  {
    assert 150050 / 100 == 1500 && 150050 % 100 == 50;
    assert NatToString(15) == "15";
    assert NatToString(150) == "150";
    assert NatToString(1500) == "1500";
    assert NatToString(50) == "50";
    assert PadZeros("50", 2) == "50";
    assert AmountToString(150050) == NatToString(1500) + "." + PadZeros(NatToString(50), 2);
  }

  /** The printed form of a 1500.50 expense on 4 October 2025. */
  lemma RecordLabelExample()
    ensures RecordLabel(Date(2025, 10, 4), "Списание", 150050) == "2025-10-04 - Списание - 1500.50 руб."
  {
    ExampleDate();
    ExampleAmount();
    RecordLabelOf(Date(2025, 10, 4), "Списание", 150050, "2025-10-04", "1500.50");
    LiteralLabel();
  }

  lemma LiteralLabel()
    ensures "2025-10-04" + " - " + "Списание" + " - " + "1500.50" + " руб." == "2025-10-04 - Списание - 1500.50 руб."
  {
  }

  lemma RecordLabelOf(date: Date, typeName: string, cents: nat, ds: string, amount: string)
    requires DateToString(date) == ds && AmountToString(cents) == amount
    ensures RecordLabel(date, typeName, cents) == ds + " - " + typeName + " - " + amount + " руб."
  {
  }

  /** `<name> (<parent>)`: `Subcategory.__str__` with the category's name, and
      the admin's category column with the type's name. */
  function Labelled(name: string, parent: string): string {
    name + " (" + parent + ")"
  }

  predicate HasNoParen(s: string) {
    forall i | 0 <= i < |s| :: s[i] != '('
  }

  /** In the label of a name without `(`, the first `(` follows the name and a space. */
  lemma FirstParen(name: string, parent: string)
    requires HasNoParen(name)
    ensures Labelled(name, parent)[|name| + 1] == '('
    ensures forall i | 0 <= i <= |name| :: Labelled(name, parent)[i] != '('
  {
  }

  /** For names without `(` the label determines both name and parent. */
  lemma LabelledInjective(a: string, b: string, c: string, d: string)
    requires HasNoParen(a) && HasNoParen(c)
    requires Labelled(a, b) == Labelled(c, d)
    ensures a == c && b == d
  {
    var s := Labelled(a, b);
    FirstParen(a, b);
    FirstParen(c, d);
    assert |a| == |c|;
    assert a == s[..|a|] == c;
    assert b == s[|a| + 2..|s| - 1] == d;
  }

  // ---------------------------------------------------------------------------
  // Meta.ordering = ['name'] of the four directories
  // ---------------------------------------------------------------------------

  function StatusOrder(s: Status): seq<int> { Codes(s.name) }
  function TypeOrder(t: FlowType): seq<int> { Codes(t.name) }
  function CategoryOrder(c: Category): seq<int> { Codes(c.name) }
  function SubcategoryOrder(s: Subcategory): seq<int> { Codes(s.name) }

  /** `max_length` of the name columns. */
  const StatusNameLength: nat := 50
  const TypeNameLength: nat := 50
  const CategoryNameLength: nat := 100
  const SubcategoryNameLength: nat := 100

  // ---------------------------------------------------------------------------
  // Meta.ordering = ['-date', '-created_at']
  // ---------------------------------------------------------------------------

  function RecordKey(r: CashFlowRecord): seq<int> {
    [-(r.date.year as int), -(r.date.month as int), -(r.date.day as int), -(r.createdAt as int)]
  }

  /** The default order of records (newest date first, then newest entry). */
  function OrderedRecords(rs: seq<CashFlowRecord>): (r: seq<CashFlowRecord>)
    ensures SortedBy(r, RecordKey) && multiset(r) == multiset(rs)
  {
    SortByKey(rs, RecordKey)
  }

  /** Lexicographic order of two keys of three components. */
  lemma LexLe3(x: seq<int>, y: seq<int>)
    requires |x| == 3 && |y| == 3
    ensures LexLe(x, y) <==>
      x[0] < y[0] || (x[0] == y[0] && (x[1] < y[1] || (x[1] == y[1] && x[2] <= y[2])))
  {
    assert x[1..][1..] == x[2..] && y[1..][1..] == y[2..];
    assert LexLe(x[1..], y[1..]) <==> x[1] < y[1] || (x[1] == y[1] && LexLe(x[2..], y[2..]));
    assert LexLe(x[2..], y[2..]) <==> x[2] < y[2] || (x[2] == y[2] && LexLe(x[3..], y[3..]));
  }

  /** Lexicographic order of two keys of four components. */
  lemma LexLe4(x: seq<int>, y: seq<int>)
    requires |x| == 4 && |y| == 4
    ensures LexLe(x, y) <==>
      x[0] < y[0] || (x[0] == y[0] && LexLe(x[1..], y[1..]))
    ensures LexLe(x[1..], y[1..]) <==>
      x[1] < y[1] || (x[1] == y[1] && (x[2] < y[2] || (x[2] == y[2] && x[3] <= y[3])))
  {
    LexLe3(x[1..], y[1..]);
  }

  lemma RecordKeyOrder(a: CashFlowRecord, b: CashFlowRecord)
    requires LexLe(RecordKey(a), RecordKey(b))
    ensures DateLe(b.date, a.date)
    ensures b.date == a.date ==> b.createdAt <= a.createdAt
  {
    LexLe4(RecordKey(a), RecordKey(b));
    LexLe3(DateKey(b.date), DateKey(a.date));
  }

  /** In the ordered records a later position never has a later date, and on
      the same date never a later creation. */
  lemma NewestFirst(rs: seq<CashFlowRecord>)
    ensures var o := OrderedRecords(rs);
      forall i, j | 0 <= i < j < |o| ::
        DateLe(o[j].date, o[i].date) && (o[j].date == o[i].date ==> o[j].createdAt <= o[i].createdAt)
  {
    var o := OrderedRecords(rs);
    forall i, j | 0 <= i < j < |o|
      ensures DateLe(o[j].date, o[i].date) && (o[j].date == o[i].date ==> o[j].createdAt <= o[i].createdAt)
    {
      RecordKeyOrder(o[i], o[j]);
    }
  }
}
