/**
 * The display helpers of core/admin.py: the Russian plural of the
 * subcategory count, the "category (type)" column of two admin classes, the
 * amount with thousands separators and the shortened comment. Each is a
 * pure function of a row (and, for the columns that follow a foreign key,
 * of the tables it points into).
 */
module Admin {
  import opened Wrappers
  import opened Text
  import opened Ordering
  import opened Models
  import opened Store

  // ---------------------------------------------------------------------------
  // CategoryAdmin.subcategories_count
  // ---------------------------------------------------------------------------

  const OneSubcategory: string := "подкатегория"
  const FewSubcategories: string := "подкатегории"
  const ManySubcategories: string := "подкатегорий"

  lemma WordsDistinct()
    ensures OneSubcategory != FewSubcategories
    ensures OneSubcategory != ManySubcategories
    ensures FewSubcategories != ManySubcategories
  {
    assert OneSubcategory[11] == 'я' && FewSubcategories[11] == 'и' && ManySubcategories[11] == 'й';
  }

  /** The noun after the count: singular for 1, the "few" form for 2, 3 and
      4, the genitive plural for every other count. */
  function PluralWord(count: nat): (w: string)
    ensures w == OneSubcategory <==> count == 1
    ensures w == FewSubcategories <==> 2 <= count <= 4
    ensures w == ManySubcategories <==> count == 0 || count >= 5
  {
    WordsDistinct();
    if count == 1 then OneSubcategory
    else if count in {2, 3, 4} then FewSubcategories
    else ManySubcategories
  }

  /** `f"{count} <noun>"`: the count in decimal, a space, the noun. */
  function PluralLabel(count: nat): (r: string)
    ensures var k := |NatToString(count)|;
      && |r| > k + 1 && AllDigits(r[..k]) && DigitsValue(r[..k]) == count
      && r[k] == ' ' && r[k + 1..] == PluralWord(count)
  {
    var digits := NatToString(count);
    var r := digits + " " + PluralWord(count);
    NatToStringRoundTrip(count);
    assert r[..|digits|] == digits;
    assert r[|digits| + 1..] == PluralWord(count);
    r
  }

  /** The subcategories pointing at a category (`obj.subcategories`). */
  function InCategory(categoryId: nat): Subcategory -> bool {
    (s: Subcategory) => s.categoryId == categoryId
  }

  /** `subcategories_count(obj)`. */
  function SubcategoriesCount(db: Db, category: Category): string {
    PluralLabel(|Filter(db.subcategories, InCategory(category.id))|)
  }

  /** A category without subcategories shows "0 подкатегорий". */
  lemma EmptyCategoryCount(db: Db, category: Category)
    requires forall s | s in db.subcategories :: s.categoryId != category.id
    ensures SubcategoriesCount(db, category) == "0 " + ManySubcategories
  {
    FilterNone(db.subcategories, InCategory(category.id));
    assert NatToString(0) == "0";
    assert "0" + " " == "0 ";
  }

  /** The standard Russian rule for the form of a noun after a number: by the
      last digit, with 11 to 14 taking the genitive plural. */
  function RussianPlural(count: nat): string {
    if count % 10 == 1 && count % 100 != 11 then OneSubcategory
    else if 2 <= count % 10 <= 4 && !(12 <= count % 100 <= 14) then FewSubcategories
    else ManySubcategories
  }

  /** The admin's choice agrees with the grammatical rule for every count up
      to 20. */
  lemma PluralAgreesBelowTwentyOne(count: nat)
    requires count <= 20
    ensures PluralWord(count) == RussianPlural(count)
  {
  }

  /** From 21 on they part: 21 takes the genitive plural in the admin, the
      singular in the grammar. */
  lemma PluralDiffersAtTwentyOne()
    ensures PluralWord(21) == ManySubcategories && RussianPlural(21) == OneSubcategory
    ensures PluralWord(21) != RussianPlural(21)
  {
    WordsDistinct();
  }

  // ---------------------------------------------------------------------------
  // category_with_type (SubcategoryAdmin and CashFlowRecordAdmin)
  // ---------------------------------------------------------------------------

  /** `f"{obj.category.name} ({obj.category.type.name})"` for the category
      with the given key; `None` where the lookup would fail. */
  function CategoryWithType(db: Db, categoryId: nat): (r: Option<string>)
    ensures r.Some? ==> exists c, t | c in db.categories && t in db.types ::
      c.id == categoryId && t.id == c.typeId && r.value == Labelled(c.name, t.name)
    ensures r.None? <==> match Find(db.categories, CategoryId, categoryId)
      case None => true
      case Some(c) => forall t | t in db.types :: t.id != c.typeId
  {
    match Find(db.categories, CategoryId, categoryId)
    case None => None
    case Some(c) =>
      match Find(db.types, TypeId, c.typeId)
      case None => None
      case Some(t) => Some(Labelled(c.name, t.name))
  }

  /** `SubcategoryAdmin.category_with_type`. */
  function SubcategoryCategoryWithType(db: Db, s: Subcategory): Option<string> {
    CategoryWithType(db, s.categoryId)
  }

  /** `CashFlowRecordAdmin.category_with_type`. */
  function RecordCategoryWithType(db: Db, r: CashFlowRecord): Option<string> {
    CategoryWithType(db, r.categoryId)
  }

  /** In a consistent store every subcategory row shows its category's name
      and that category's type name. */
  lemma SubcategoryColumn(db: Db, s: Subcategory, c: Category, t: FlowType)
    requires ValidDb(db) && s in db.subcategories
    requires c in db.categories && c.id == s.categoryId && t in db.types && t.id == c.typeId
    ensures SubcategoryCategoryWithType(db, s) == Some(Labelled(c.name, t.name))
  {
    FindUnique(db.categories, CategoryId, c);
    FindUnique(db.types, TypeId, t);
  }

  /** In a consistent store every record row shows its category's name and
      the name of the record's own type (the category belongs to it). */
  lemma RecordColumn(db: Db, r: CashFlowRecord, c: Category, t: FlowType)
    requires ValidDb(db) && r in db.records
    requires c in db.categories && c.id == r.categoryId && t in db.types && t.id == r.typeId
    ensures RecordCategoryWithType(db, r) == Some(Labelled(c.name, t.name))
  {
    assert RecordLinked(db, r);
    FindUnique(db.categories, CategoryId, c);
    FindUnique(db.types, TypeId, t);
  }

  /** Every stored row has the column. */
  lemma ColumnsDefined(db: Db)
    requires ValidDb(db)
    ensures forall s | s in db.subcategories :: SubcategoryCategoryWithType(db, s).Some?
    ensures forall r | r in db.records :: RecordCategoryWithType(db, r).Some?
  {
    forall c | c in db.categories ensures CategoryWithType(db, c.id).Some? {
      FindUnique(db.categories, CategoryId, c);
      assert c.typeId in TypeIds(db);
    }
    forall s | s in db.subcategories ensures SubcategoryCategoryWithType(db, s).Some? {
      assert s.categoryId in CategoryIds(db);
    }
    forall r | r in db.records ensures RecordCategoryWithType(db, r).Some? {
      assert RecordRefersTo(db, r);
    }
  }

  // ---------------------------------------------------------------------------
  // CashFlowRecordAdmin.amount_display
  // ---------------------------------------------------------------------------

  /** The `,` option of a format spec: a comma before every group of three
      digits counted from the right. */
  function GroupThousands(digits: string): string
    decreases |digits|
  {
    if |digits| <= 3 then digits
    else GroupThousands(digits[..|digits| - 3]) + "," + digits[|digits| - 3..]
  }

  /** The string without its commas. */
  function RemoveCommas(s: string): string {
    if s == [] then [] else (if s[0] == ',' then "" else [s[0]]) + RemoveCommas(s[1..])
  }

  lemma {:induction false} RemoveCommasConcat(a: string, b: string)
    ensures RemoveCommas(a + b) == RemoveCommas(a) + RemoveCommas(b)
  {
    if a == [] {
      assert a + b == b;
    } else {
      assert (a + b)[0] == a[0] && (a + b)[1..] == a[1..] + b;
      RemoveCommasConcat(a[1..], b);
    }
  }

  lemma {:induction false} RemoveCommasOfDigits(s: string)
    requires AllDigits(s)
    ensures RemoveCommas(s) == s
  {
    if s != [] {
      assert IsDigit(s[0]);
      RemoveCommasOfDigits(s[1..]);
      assert s == [s[0]] + s[1..];
    }
  }

  /** Dropping the separators gives the digits back. */
  lemma {:induction false} GroupThousandsRoundTrip(digits: string)
    requires AllDigits(digits)
    ensures RemoveCommas(GroupThousands(digits)) == digits
    decreases |digits|
  {
    if |digits| > 3 {
      var head, tail := digits[..|digits| - 3], digits[|digits| - 3..];
      GroupThousandsRoundTrip(head);
      RemoveCommasConcat(GroupThousands(head) + ",", tail);
      RemoveCommasConcat(GroupThousands(head), ",");
      assert RemoveCommas(",") == "";
      RemoveCommasOfDigits(tail);
      assert head + tail == digits;
    } else {
      RemoveCommasOfDigits(digits);
    }
  }

  /** Where the separators fall: a character is a comma exactly when a
      multiple of four characters, counting it, remains to the end; every
      other character is a digit. */
  predicate GroupedShape(r: string) {
    forall i | 0 <= i < |r| :: (r[i] == ',' <==> (|r| - i) % 4 == 0) && (r[i] != ',' ==> IsDigit(r[i]))
  }

  lemma {:induction false} GroupThousandsShape(digits: string)
    requires AllDigits(digits)
    ensures GroupedShape(GroupThousands(digits))
    ensures |digits| >= 1 ==> |GroupThousands(digits)| >= 1
    decreases |digits|
  {
    var r := GroupThousands(digits);
    if |digits| > 3 {
      var head := digits[..|digits| - 3];
      var g := GroupThousands(head);
      GroupThousandsShape(head);
      assert r == g + "," + digits[|digits| - 3..];
      forall i | 0 <= i < |r| ensures (r[i] == ',' <==> (|r| - i) % 4 == 0) && (r[i] != ',' ==> IsDigit(r[i])) {
        if i < |g| {
          assert r[i] == g[i];
          assert |r| - i == (|g| - i) + 4;
        } else if i > |g| {
          assert r[i] == digits[|digits| - 3 + (i - |g| - 1)];
          assert 1 <= |r| - i <= 3;
        }
      }
    } else {
      forall i | 0 <= i < |r| ensures (r[i] == ',' <==> (|r| - i) % 4 == 0) && (r[i] != ',' ==> IsDigit(r[i])) {
        assert IsDigit(r[i]);
      }
    }
  }

  const RubleSuffix: string := " руб."

  /** `f"{obj.amount:,.2f} руб."` for a stored amount in cents. */
  function AmountDisplay(cents: nat): string {
    GroupThousands(NatToString(cents / 100)) + "." + PadZeros(NatToString(cents % 100), 2) + RubleSuffix
  }

  /** The layout of `<grouped units>.<two digits> руб.`. */
  lemma DisplayLayout(g: string, f: string)
    requires |g| >= 1 && GroupedShape(g) && |f| == 2 && AllDigits(f)
    ensures var r := g + "." + f + RubleSuffix;
      && |r| >= 9 && r[|r| - 5..] == RubleSuffix
      && RemoveCommas(r[..|r| - 5]) == RemoveCommas(g) + "." + f
      && (forall i | 0 <= i < |r| - 8 :: r[i] == ',' <==> (|r| - 8 - i) % 4 == 0)
      && (forall i | |r| - 8 <= i < |r| - 5 :: r[i] != ',')
  {
    var r := g + "." + f + RubleSuffix;
    assert |RubleSuffix| == 5;
    assert r[..|r| - 5] == g + ("." + f);
    RemoveCommasConcat(g, "." + f);
    RemoveCommasOfDigits(f);
    assert ("." + f)[1..] == f;
    assert forall i | 0 <= i < |g| :: r[i] == g[i];
    assert r[|g|] == '.' && r[|g| + 1] == f[0] && r[|g| + 2] == f[1];
    assert IsDigit(f[0]) && IsDigit(f[1]);
  }

  /** The display ends in " руб."; before it come the amount's grouped whole
      units, a point and two digits, with commas exactly every three digits
      of the whole part; without the commas it is the plain two-place form
      of the amount, which reads back as the amount. */
  lemma AmountDisplayMeaning(cents: nat)
    ensures var r := AmountDisplay(cents);
      && |r| >= 9 && r[|r| - 5..] == RubleSuffix
      && RemoveCommas(r[..|r| - 5]) == AmountToString(cents)
      && (forall i | 0 <= i < |r| - 8 :: r[i] == ',' <==> (|r| - 8 - i) % 4 == 0)
      && (forall i | |r| - 8 <= i < |r| - 5 :: r[i] != ',')
  {
    var units := NatToString(cents / 100);
    var f := PadZeros(NatToString(cents % 100), 2);
    assert Pow10(2) == 100;
    DigitsFit(cents % 100, 2);
    PadZerosValue(NatToString(cents % 100), 2);
    GroupThousandsRoundTrip(units);
    GroupThousandsShape(units);
    var g := GroupThousands(units);
    assert AmountDisplay(cents) == g + "." + f + RubleSuffix;
    assert AmountToString(cents) == units + "." + f;
    DisplayLayout(g, f);
  }

  // ---------------------------------------------------------------------------
  // CashFlowRecordAdmin.comment_short
  // ---------------------------------------------------------------------------

  const ShortLength: nat := 50
  const Ellipsis: string := "..."

  /** `obj.comment[:50] + '...' if len(obj.comment) > 50 else obj.comment`. */
  function CommentShort(comment: string): (r: string)
    ensures |r| <= ShortLength + |Ellipsis|
    ensures |comment| <= ShortLength ==> r == comment
    ensures |comment| > ShortLength ==> |r| == ShortLength + |Ellipsis| && r[ShortLength..] == Ellipsis
    ensures var k := if |comment| < ShortLength then |comment| else ShortLength;
      k <= |r| && r[..k] == comment[..k]
  {
    if |comment| > ShortLength then comment[..ShortLength] + Ellipsis else comment
  }

  /** A comment is shown as it is exactly when it fits, or when it is 53
      characters long and already ends in "..." (which the display cannot
      tell from a shortened one). */
  lemma CommentShownUnchanged(comment: string)
    ensures CommentShort(comment) == comment <==>
      |comment| <= ShortLength || (|comment| == ShortLength + |Ellipsis| && comment[ShortLength..] == Ellipsis)
  {
    if |comment| == ShortLength + |Ellipsis| && comment[ShortLength..] == Ellipsis {
      assert comment == comment[..ShortLength] + comment[ShortLength..];
    }
  }

  /** Shortening a shortened comment changes nothing. */
  lemma CommentShortIdempotent(comment: string)
    ensures CommentShort(CommentShort(comment)) == CommentShort(comment)
  {
    CommentShownUnchanged(CommentShort(comment));
  }
}
