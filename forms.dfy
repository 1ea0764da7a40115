/**
 * The forms of core/forms.py.
 *
 * `validate_no_sql_injection` and `sanitize_input` guard every free-text
 * field: a value is first checked against six regular expressions (the
 * first six of the middleware's SQL group) and, when it passes, HTML-escaped
 * and stripped. The record form narrows its category and subcategory
 * choices and checks that the chosen subcategory, category and type fit
 * together; the filter form narrows its choices the same way and checks the
 * date range; the directory forms clean their name and description.
 *
 * A submitted form is modelled after Django's field cleaning: a text field
 * arrives already stripped, a date field as absent, malformed or a date, a
 * choice field as the raw string of its key, resolved against the field's
 * choices as `ModelChoiceField` does.
 */
module Forms {
  import opened Wrappers
  import opened Text
  import opened Ordering
  import opened Patterns
  import opened Models
  import opened Store
  import Middleware

  // ---------------------------------------------------------------------------
  // validate_no_sql_injection
  // ---------------------------------------------------------------------------

  /** The six `dangerous_patterns` (core/forms.py:17-24), in order. */
  const FormPatterns: seq<Pattern> :=
    [StatementKeywords, NumericTautology, WordTautology, QuotesAndComments, ScriptKeywords, AngleBrackets]

  /** The validator raises for a non-empty value whose lower-cased form some
      pattern matches. */
  predicate Rejected(value: string) {
    value != "" && AnyMatch(FormPatterns, Lower(value))
  }

  function InjectionMessage(value: string): string {
    "Обнаружены потенциально опасные символы или SQL-команды в поле: " + value
  }

  /** `validate_no_sql_injection(value)`: `Ok` is the returned value, `Err`
      the raised `ValidationError`. */
  method ValidateNoSqlInjection(value: string) returns (r: Result<string, string>)
    ensures r.Ok? <==> !Rejected(value)
    ensures r.Ok? ==> r.value == value
    ensures r.Err? ==> r.error == InjectionMessage(value)
  {
    if value == "" {
      return Ok(value);
    }
    var lowered := Lower(value);
    var k := 0;
    while k < |FormPatterns|
      invariant 0 <= k <= |FormPatterns|
      invariant forall j | 0 <= j < k :: !Search(FormPatterns[j], lowered)
    {
      if Search(FormPatterns[k], lowered) {
        return Err(InjectionMessage(value));
      }
      k := k + 1;
    }
    return Ok(value);
  }

  /** The validator's patterns are the first six of the middleware's SQL
      group, so every value the validator rejects the middleware would
      already have refused. */
  lemma RejectedIsFlagged(value: string)
    requires Rejected(value)
    ensures Middleware.Flagged(value)
  {
    var lowered := Lower(value);
    var p :| p in FormPatterns && Search(p, lowered);
    var j :| 0 <= j < 6 && FormPatterns[j] == p;
    assert SqlPatterns[j] == FormPatterns[j];
  }

  /** The middleware flags `load_file`, which the validator lets through:
      the validator is strictly weaker. */
  lemma FormNarrowerThanMiddleware()
    ensures !Rejected("load_file") && Middleware.Flagged("load_file")
  {
    LoadFileAccepted();
    LoadFileFlagged();
  }

  lemma LoadFileAccepted()
    ensures !Rejected("load_file")
  {
    assert AllWordChars("load_file");
    WordValueRejected("load_file");
    LowerOfLowercase("load_file");
  }

  lemma LoadFileFlagged()
    ensures Middleware.Flagged("load_file")
  {
    assert AllWordChars("load_file");
    Middleware.WordValueFlagged("load_file");
    LowerOfLowercase("load_file");
  }

  /** A value that contains a quote, `;`, a comment marker, an angle bracket
      or an escaped angle bracket is rejected (core/forms.py:21, 23). */
  lemma DelimiterRejected(value: string, d: string)
    requires d in Delimiters && Contains(value, d)
    ensures Rejected(value)
  {
    var i :| 0 <= i <= |value| - |d| && LiteralAt(value, i, d);
    assert HasNoUpper(d);
    LiteralAtLower(value, i, d);
    DelimiterFoundByGroup(Lower(value), d);
    assert FormPatterns[3] == QuotesAndComments && FormPatterns[5] == AngleBrackets;
  }

  /** A value of word characters is rejected exactly when, lower-cased, it is
      one of the statement or script keywords. */
  lemma WordValueRejected(value: string)
    requires AllWordChars(value)
    ensures Rejected(value) <==> Lower(value) in StatementWords + ScriptWords
  {
    var v := Lower(value);
    assert AllWordChars(v);
    StatementKeywordsOnWord(v);
    NumericTautologyOnWord(v);
    WordTautologyOnWord(v);
    QuotesAndCommentsOnWord(v);
    ScriptKeywordsOnWord(v);
    AngleBracketsOnWord(v);
    forall k | 0 <= k < |FormPatterns| ensures Search(FormPatterns[k], v) ==> v in StatementWords + ScriptWords {
      if k == 0 { assert FormPatterns[0] == StatementKeywords; }
      else if k == 1 { assert FormPatterns[1] == NumericTautology; }
      else if k == 2 { assert FormPatterns[2] == WordTautology; }
      else if k == 3 { assert FormPatterns[3] == QuotesAndComments; }
      else if k == 4 { assert FormPatterns[4] == ScriptKeywords; }
      else { assert FormPatterns[5] == AngleBrackets; }
    }
    if v in StatementWords { assert Search(FormPatterns[0], v); }
    else if v in ScriptWords { assert Search(FormPatterns[4], v); }
    assert "" !in StatementWords + ScriptWords;
  }

  // ---------------------------------------------------------------------------
  // HTML escaping
  // ---------------------------------------------------------------------------

  /** Django's `escape` on one character. */
  function EscapeChar(c: char): string {
    if c == '&' then "&amp;"
    else if c == '<' then "&lt;"
    else if c == '>' then "&gt;"
    else if c == '"' then "&quot;"
    else if c == '\'' then "&#x27;"
    else [c]
  }

  /** Django's `escape`: the five replacements, character by character. */
  function Escape(s: string): string {
    if s == [] then [] else EscapeChar(s[0]) + Escape(s[1..])
  }

  /** The characters `escape` never leaves in its output. */
  predicate IsMarkupChar(c: char) {
    c == '<' || c == '>' || c == '"' || c == '\''
  }

  predicate NoRawSpecials(s: string) {
    forall i | 0 <= i < |s| :: !IsMarkupChar(s[i])
  }

  /** The entity `escape` writes, recognised at the start of a text: the
      character it stands for and its length. */
  function EntityAt(s: string): (r: Option<(char, nat)>)
    ensures r.Some? ==> 0 < r.value.1 <= |s|
  {
    if StartsWith(s, "&amp;") then Some(('&', 5))
    else if StartsWith(s, "&lt;") then Some(('<', 4))
    else if StartsWith(s, "&gt;") then Some(('>', 4))
    else if StartsWith(s, "&quot;") then Some(('"', 6))
    else if StartsWith(s, "&#x27;") then Some(('\'', 6))
    else None
  }

  /** Decodes the five entities `escape` produces; any other text is kept. */
  function Unescape(s: string): string
    decreases |s|
  {
    if s == [] then []
    else match EntityAt(s)
      case Some((c, n)) => [c] + Unescape(s[n..])
      case None => [s[0]] + Unescape(s[1..])
  }

  /** The entity of `c` is recognised, whatever follows it. */
  lemma EntityOfChar(c: char, rest: string)
    requires c == '&' || IsMarkupChar(c)
    ensures EntityAt(EscapeChar(c) + rest) == Some((c, |EscapeChar(c)|))
  {
    var e := EscapeChar(c);
    var s := e + rest;
    assert s[..|e|] == e;
    if c != '&' {
      assert s[1] == e[1] && e[1] != 'a';
      assert !StartsWith(s, "&amp;");
    }
    if c != '&' && c != '<' {
      assert !StartsWith(s, "&lt;");
    }
    if c == '"' || c == '\'' {
      assert !StartsWith(s, "&gt;");
    }
    if c == '\'' {
      assert !StartsWith(s, "&quot;");
    }
  }

  lemma UnescapeStep(c: char, rest: string)
    ensures Unescape(EscapeChar(c) + rest) == [c] + Unescape(rest)
  {
    var s := EscapeChar(c) + rest;
    assert s[|EscapeChar(c)|..] == rest;
    if c == '&' || IsMarkupChar(c) {
      EntityOfChar(c, rest);
    } else {
      assert s[0] == c && c != '&';
      assert EntityAt(s) == None;
    }
  }

  /** Escaping loses nothing: unescaping gives the text back. */
  lemma {:induction false} UnescapeEscape(s: string)
    ensures Unescape(Escape(s)) == s
  {
    if s != [] {
      UnescapeStep(s[0], Escape(s[1..]));
      UnescapeEscape(s[1..]);
      assert s == [s[0]] + s[1..];
    }
  }

  /** Escaped text contains no raw `<`, `>` or quote. */
  lemma {:induction false} EscapeHasNoRawSpecials(s: string)
    ensures NoRawSpecials(Escape(s))
  {
    if s != [] {
      EscapeHasNoRawSpecials(s[1..]);
      var e := EscapeChar(s[0]);
      assert NoRawSpecials(e);
      assert forall i | |e| <= i < |Escape(s)| :: Escape(s)[i] == Escape(s[1..])[i - |e|];
    }
  }

  lemma {:induction false} EscapeConcat(a: string, b: string)
    ensures Escape(a + b) == Escape(a) + Escape(b)
  {
    if a == [] {
      assert a + b == b;
    } else {
      assert (a + b)[0] == a[0];
      assert (a + b)[1..] == a[1..] + b;
      EscapeConcat(a[1..], b);
    }
  }

  /** Text without any of the five special characters is left as it is. */
  lemma {:induction false} EscapePlain(s: string)
    requires forall i | 0 <= i < |s| :: !IsMarkupChar(s[i]) && s[i] != '&'
    ensures Escape(s) == s
  {
    if s != [] {
      EscapePlain(s[1..]);
      assert s == [s[0]] + s[1..];
    }
  }

  /** Escaping never shortens a text, and each `&` lengthens it by four. */
  lemma {:induction false} EscapeLength(s: string)
    ensures |Escape(s)| >= |s|
    ensures (exists i | 0 <= i < |s| :: s[i] == '&') ==> |Escape(s)| >= |s| + 4
  {
    if s != [] {
      EscapeLength(s[1..]);
      if exists i | 0 <= i < |s| :: s[i] == '&' {
        var i :| 0 <= i < |s| && s[i] == '&';
        if i > 0 {
          assert s[1..][i - 1] == '&';
        }
      }
    }
  }

  /** The first character of an escaped text comes from the first character
      of the text, the last from its last; `&` and `;` are not whitespace. */
  lemma EscapeEdges(m: string)
    requires m != [] && !IsSpace(m[0]) && !IsSpace(m[|m| - 1])
    ensures Escape(m) != [] && !IsSpace(Escape(m)[0]) && !IsSpace(Escape(m)[|Escape(m)| - 1])
  {
    var last := m[|m| - 1];
    var init := m[..|m| - 1];
    assert m == init + [last];
    EscapeConcat(init, [last]);
    assert Escape([last]) == EscapeChar(last);
    EscapeCharEdges(m[0]);
    EscapeCharEdges(last);
    var e := Escape(m);
    var head := EscapeChar(m[0]);
    var tail := EscapeChar(last);
    assert e == head + Escape(m[1..]);
    assert e[0] == head[0];
    assert e == Escape(init) + tail;
    assert e[|e| - 1] == tail[|tail| - 1];
  }

  /** Escaping a character that is not whitespace gives a text that neither
      starts nor ends with whitespace. */
  lemma EscapeCharEdges(c: char)
    requires !IsSpace(c)
    ensures EscapeChar(c) != [] && !IsSpace(EscapeChar(c)[0]) && !IsSpace(EscapeChar(c)[|EscapeChar(c)| - 1])
  {
  }

  lemma EscapeSpaces(s: string)
    requires forall k | 0 <= k < |s| :: IsSpace(s[k])
    ensures Escape(s) == s
  {
    EscapePlain(s);
  }

  lemma EscapePadded(lead: string, m: string, trail: string)
    requires forall k | 0 <= k < |lead| :: IsSpace(lead[k])
    requires forall k | 0 <= k < |trail| :: IsSpace(trail[k])
    ensures Escape(lead + m + trail) == lead + Escape(m) + trail
  {
    EscapeConcat(lead + m, trail);
    EscapeConcat(lead, m);
    EscapeSpaces(lead);
    EscapeSpaces(trail);
  }

  /** A text is its stripped part with the cut-off whitespace around it. */
  lemma StripSplit(s: string) returns (lead: string, trail: string)
    ensures s == lead + Strip(s) + trail
    ensures forall k | 0 <= k < |lead| :: IsSpace(lead[k])
    ensures forall k | 0 <= k < |trail| :: IsSpace(trail[k])
  {
    var r := Strip(s);
    var a :| 0 <= a <= |s| - |r| && StripsTo(s, a, r);
    lead := s[..a];
    trail := s[a + |r|..];
    assert s == lead + s[a..a + |r|] + trail;
  }

  /** Escaping and stripping commute: `&` and `;` are not whitespace and
      whitespace is not escaped. */
  lemma EscapeStripCommute(s: string)
    ensures Strip(Escape(s)) == Escape(Strip(s))
  {
    var r := Strip(s);
    var lead, trail := StripSplit(s);
    EscapePadded(lead, r, trail);
    if r != [] {
      EscapeEdges(r);
    }
    StripOfPadded(lead, Escape(r), trail);
  }

  // ---------------------------------------------------------------------------
  // sanitize_input and the clean_* hooks
  // ---------------------------------------------------------------------------

  /** `sanitize_input(value)`: the stripped text, escaped. The result holds no
      raw markup character and unescapes to the stripped text. */
  function Sanitize(value: string): (r: string)
    ensures r == Escape(Strip(value))
    ensures NoRawSpecials(r)
    ensures Unescape(r) == Strip(value)
  {
    EscapeStripCommute(value);
    EscapeHasNoRawSpecials(Strip(value));
    UnescapeEscape(Strip(value));
    if value == "" then value else Strip(Escape(value))
  }

  /** `sanitize_input` step by step: escape, then strip. */
  method SanitizeInput(value: string) returns (r: string)
    ensures r == Sanitize(value)
  {
    if value == "" {
      return value;
    }
    r := Escape(value);
    r := Strip(r);
  }

  /** `clean_comment`, `clean_name` and `clean_description` on the field's
      (already stripped) value: an empty value passes as it is; otherwise the
      validator runs first and only a value it accepts is sanitised. */
  function CleanText(value: string): (r: Result<string, string>)
    ensures r.Err? <==> Rejected(value)
    ensures r.Err? ==> r.error == InjectionMessage(value)
    ensures r.Ok? ==> r.value == Sanitize(value)
  {
    if value == "" then Ok(value)
    else if Rejected(value) then Err(InjectionMessage(value))
    else Ok(Sanitize(value))
  }

  /** A value the validator accepts holds no raw markup character, so
      sanitising it only turns `&` into `&amp;` and strips it. */
  lemma AcceptedTextHasNoMarkup(value: string)
    requires !Rejected(value)
    ensures NoRawSpecials(value)
  {
    forall i | 0 <= i < |value| ensures !IsMarkupChar(value[i]) {
      var c := value[i];
      if IsMarkupChar(c) {
        var d := [c];
        assert d in Delimiters;
        assert LiteralAt(value, i, d);
        DelimiterRejected(value, d);
      }
    }
  }

  // ---------------------------------------------------------------------------
  // Submitted data and errors
  // ---------------------------------------------------------------------------

  /** A `DateField` value: absent (or empty), not in `%Y-%m-%d` form, or a date. */
  datatype DateInput = NoDate | BadDate | GivenDate(date: Date)

  /** A `DecimalField` value: absent, not a finite number, or a decimal. */
  datatype AmountInput = NoAmount | BadNumber | Number(value: Decimal)

  datatype Field =
    | DateField | DateFromField | DateToField
    | StatusField | TypeField | CategoryField | SubcategoryField
    | AmountField | CommentField | NameField | DescriptionField

  datatype FormError =
    | Required(field: Field)
    | InvalidDate(field: Field)
    | InvalidChoice(field: Field)
    | InvalidNumber
    | AmountRefused(refusal: AmountError)
    | TextRefused(field: Field, message: string)
    | NullCharacter(field: Field)
    | TooLong(field: Field, length: nat)
    | Links(link: LinkError)
    | DateRange

  /** Django's `ProhibitNullCharactersValidator`, which every form `CharField` runs. */
  predicate HasNull(v: string) {
    '\0' in v
  }

  function DateErrors(field: Field, required: bool, d: DateInput): set<FormError> {
    match d
    case NoDate => if required then {Required(field)} else {}
    case BadDate => {InvalidDate(field)}
    case GivenDate(_) => {}
  }

  function DateValue(d: DateInput): Option<Date> {
    if d.GivenDate? then Some(d.date) else None
  }

  // ---------------------------------------------------------------------------
  // Choice fields
  // ---------------------------------------------------------------------------

  /** A submitted choice as `ModelChoiceField.clean` sees it: empty, a row of
      the field's choices, or a value naming none of them. */
  datatype Choice<T> = NoChoice | Chosen(value: T) | NotAChoice

  /** `ModelChoiceField.clean`: an empty value is no choice; otherwise the
      value is converted with `int()` and looked up among the choices by
      primary key. */
  function ResolveChoice<T>(keys: map<string, string>, name: string, options: seq<T>, id: T -> nat): (r: Choice<T>)
    ensures r == NoChoice <==> name !in keys || keys[name] == ""
    ensures r.Chosen? ==> r.value in options && ParseInt(keys[name]) == Some(id(r.value) as int)
    ensures r == NotAChoice <==>
      name in keys && keys[name] != "" && forall x | x in options :: ParseInt(keys[name]) != Some(id(x) as int)
  {
    if name !in keys || keys[name] == "" then NoChoice
    else match ParseInt(keys[name])
      case None => NotAChoice
      case Some(k) =>
        if k < 0 then NotAChoice
        else match Find(options, id, k as nat)
          case Some(x) => Chosen(x)
          case None => NotAChoice
  }

  function Value<T>(c: Choice<T>): Option<T> {
    if c.Chosen? then Some(c.value) else None
  }

  function ChoiceErrors<T>(field: Field, required: bool, c: Choice<T>): set<FormError> {
    match c
    case NoChoice => if required then {Required(field)} else {}
    case NotAChoice => {InvalidChoice(field)}
    case Chosen(_) => {}
  }

  /** `self.is_bound and name in self.data` followed by `int(self.data.get(name))`;
      `None` when the form is unbound, the key is missing or `int()` fails. */
  function ChoiceKey(data: Option<map<string, string>>, name: string): Option<int> {
    if data.Some? && name in data.value then ParseInt(data.value[name]) else None
  }

  /** `Category.objects.filter(type_id=k).order_by('name')`. */
  function CategoriesForType(db: Db, k: int): (r: seq<Category>)
    ensures forall c | c in r :: c in db.categories && c.typeId == k
    ensures forall c | c in db.categories && c.typeId == k :: c in r
    ensures SortedBy(r, CategoryOrder)
  {
    var p := (c: Category) => c.typeId == k;
    FilterSubset(db.categories, p);
    SortByKeyMembers(Filter(db.categories, p), CategoryOrder);
    SortByKey(Filter(db.categories, p), CategoryOrder)
  }

  /** `Subcategory.objects.filter(category_id=k).order_by('name')`. */
  function SubcategoriesForCategory(db: Db, k: int): (r: seq<Subcategory>)
    ensures forall s | s in r :: s in db.subcategories && s.categoryId == k
    ensures forall s | s in db.subcategories && s.categoryId == k :: s in r
    ensures SortedBy(r, SubcategoryOrder)
  {
    var p := (s: Subcategory) => s.categoryId == k;
    FilterSubset(db.subcategories, p);
    SortByKeyMembers(Filter(db.subcategories, p), SubcategoryOrder);
    SortByKey(Filter(db.subcategories, p), SubcategoryOrder)
  }

  /** The querysets of the four choice fields. */
  datatype Choices = Choices(
    statuses: seq<Status>, types: seq<FlowType>, categories: seq<Category>, subcategories: seq<Subcategory>)

  // ---------------------------------------------------------------------------
  // CashFlowRecordForm
  // ---------------------------------------------------------------------------

  /** The record form's category choices: every category, or, when editing,
      the categories of the record's type. */
  function RecordCategoryChoices(db: Db, instance: Option<CashFlowRecord>): seq<Category> {
    match instance
    case None => SortByKey(db.categories, CategoryOrder)
    case Some(r) => CategoriesForType(db, r.typeId)
  }

  /** The record form's subcategory choices: those of the submitted category
      when it is an integer, else those of the edited record's category,
      else none. */
  function RecordSubcategoryChoices(db: Db, instance: Option<CashFlowRecord>, data: Option<map<string, string>>)
    : seq<Subcategory>
  {
    match ChoiceKey(data, "category")
    case Some(k) => SubcategoriesForCategory(db, k)
    case None => if instance.Some? then SubcategoriesForCategory(db, instance.value.categoryId) else []
  }

  function RecordChoices(db: Db, instance: Option<CashFlowRecord>, data: Option<map<string, string>>): Choices {
    Choices(
      SortByKey(db.statuses, StatusOrder), SortByKey(db.types, TypeOrder),
      RecordCategoryChoices(db, instance), RecordSubcategoryChoices(db, instance, data))
  }

  /** Subcategory choices are empty unless the form edits a record or the
      data carries an integer category; a category that is not an integer
      is ignored; the choices are exactly the subcategories of the governing
      category, by name. */
  lemma RecordSubcategoryNarrowing(db: Db, instance: Option<CashFlowRecord>, data: Option<map<string, string>>)
    ensures var r := RecordSubcategoryChoices(db, instance, data);
      && (r != [] ==> instance.Some? || ChoiceKey(data, "category").Some?)
      && (ChoiceKey(data, "category").None? ==> r == RecordSubcategoryChoices(db, instance, None))
      && (forall k | ChoiceKey(data, "category") == Some(k) ::
            forall s :: s in r <==> s in db.subcategories && s.categoryId == k)
      && (ChoiceKey(data, "category").None? && instance.Some? ==>
            forall s :: s in r <==> s in db.subcategories && s.categoryId == instance.value.categoryId)
      && SortedBy(r, SubcategoryOrder)
  {
  }

  /** Editing a record narrows the category choices to the record's type;
      a new record may pick any category. */
  lemma RecordCategoryNarrowing(db: Db, instance: Option<CashFlowRecord>)
    ensures var r := RecordCategoryChoices(db, instance);
      && (instance.None? ==> forall c :: c in r <==> c in db.categories)
      && (instance.Some? ==> forall c :: c in r <==> c in db.categories && c.typeId == instance.value.typeId)
      && SortedBy(r, CategoryOrder)
  {
    SortByKeyMembers(db.categories, CategoryOrder);
  }

  /** The form object: `__init__` overwrites the four querysets in turn. */
  class RecordForm {
    var statusChoices: seq<Status>
    var typeChoices: seq<FlowType>
    var categoryChoices: seq<Category>
    var subcategoryChoices: seq<Subcategory>

    function Current(): Choices
      reads this
    {
      Choices(statusChoices, typeChoices, categoryChoices, subcategoryChoices)
    }

    constructor(db: Db, instance: Option<CashFlowRecord>, data: Option<map<string, string>>)
      ensures Current() == RecordChoices(db, instance, data)
    {
      statusChoices := SortByKey(db.statuses, StatusOrder);
      typeChoices := SortByKey(db.types, TypeOrder);
      categoryChoices := SortByKey(db.categories, CategoryOrder);
      subcategoryChoices := [];
      if instance.Some? {
        subcategoryChoices := SubcategoriesForCategory(db, instance.value.categoryId);
        categoryChoices := CategoriesForType(db, instance.value.typeId);
      }
      var key := ChoiceKey(data, "category");
      if key.Some? {
        subcategoryChoices := SubcategoriesForCategory(db, key.value);
      }
    }
  }

  /** The POST data of the record form: the date, the raw keys of the four
      choice fields, the amount and the raw comment. */
  datatype RecordData = RecordData(date: DateInput, keys: map<string, string>, amount: AmountInput, comment: string)

  datatype Selection = Selection(
    status: Choice<Status>, flowType: Choice<FlowType>, category: Choice<Category>, subcategory: Choice<Subcategory>)

  function Select(choices: Choices, keys: map<string, string>): Selection {
    Selection(
      ResolveChoice(keys, "status", choices.statuses, StatusId),
      ResolveChoice(keys, "type", choices.types, TypeId),
      ResolveChoice(keys, "category", choices.categories, CategoryId),
      ResolveChoice(keys, "subcategory", choices.subcategories, SubcategoryId))
  }

  /** The amount field: `DecimalField(max_digits=12, decimal_places=2)` in the
      form; when that passes, the model's validators in `_post_clean`. */
  function AmountFieldErrors(a: AmountInput): set<FormError> {
    match a
    case NoAmount => {Required(AmountField)}
    case BadNumber => {InvalidNumber}
    case Number(d) =>
      match DecimalValidatorError(d)
      case Some(e) => {AmountRefused(e)}
      case None => set e | e in AmountErrors(d) :: AmountRefused(e)
  }

  /** A free-text field: the `CharField` strips the value and refuses a
      U+0000 character; only then does the `clean_<field>` hook run. */
  function TextErrors(field: Field, raw: string): set<FormError> {
    if HasNull(Strip(raw)) then {NullCharacter(field)}
    else match CleanText(Strip(raw))
      case Err(m) => {TextRefused(field, m)}
      case Ok(_) => {}
  }

  function LinkErrors(e: Option<LinkError>): set<FormError> {
    if e.Some? then {Links(e.value)} else {}
  }

  /** `CashFlowRecord.clean` as `_post_clean` runs it: a field that failed
      keeps the edited record's stored value and is unset on a new record. */
  function ModelLinks(db: Db, instance: Option<CashFlowRecord>, f: Selection): Option<LinkError> {
    match instance
    case None => CheckLinks(Value(f.subcategory), Value(f.category), Value(f.flowType))
    case Some(r) =>
      CheckLinks(
        if f.subcategory.Chosen? then Some(f.subcategory.value) else Find(db.subcategories, SubcategoryId, r.subcategoryId),
        if f.category.Chosen? then Some(f.category.value) else Find(db.categories, CategoryId, r.categoryId),
        if f.flowType.Chosen? then Some(f.flowType.value) else Find(db.types, TypeId, r.typeId))
  }

  /** Every error `is_valid()` collects, by field, plus the non-field errors
      of the form's `clean` and the model's `clean`. */
  function RecordErrors(db: Db, instance: Option<CashFlowRecord>, choices: Choices, data: RecordData): set<FormError> {
    var f := Select(choices, data.keys);
    DateErrors(DateField, true, data.date)
    + ChoiceErrors(StatusField, true, f.status)
    + ChoiceErrors(TypeField, true, f.flowType)
    + ChoiceErrors(CategoryField, true, f.category)
    + ChoiceErrors(SubcategoryField, true, f.subcategory)
    + AmountFieldErrors(data.amount)
    + TextErrors(CommentField, data.comment)
    + LinkErrors(CheckLinks(Value(f.subcategory), Value(f.category), Value(f.flowType)))
    + LinkErrors(ModelLinks(db, instance, f))
  }

  /** The cleaned values a valid record form saves. */
  datatype RecordValues = RecordValues(
    date: Date, statusId: nat, typeId: nat, categoryId: nat, subcategoryId: nat, cents: nat, comment: string)

  function RecordOf(v: RecordValues, id: nat, createdAt: nat): CashFlowRecord {
    CashFlowRecord(id, v.date, v.statusId, v.typeId, v.categoryId, v.subcategoryId, v.cents, v.comment, createdAt)
  }

  /** The form is valid when every field and both `clean`s pass. */
  predicate RecordFormPasses(choices: Choices, data: RecordData) {
    var f := Select(choices, data.keys);
    && data.date.GivenDate?
    && f.status.Chosen? && f.flowType.Chosen? && f.category.Chosen? && f.subcategory.Chosen?
    && SubcategoryFits(Value(f.subcategory), Value(f.category))
    && CategoryFits(Value(f.category), Value(f.flowType))
    && data.amount.Number? && AmountErrors(data.amount.value) == []
    && !HasNull(Strip(data.comment)) && !Rejected(Strip(data.comment))
  }

  lemma AmountFieldAccepts(a: AmountInput)
    ensures AmountFieldErrors(a) == {} <==> a.Number? && AmountErrors(a.value) == []
  {
    if a.Number? {
      var d := a.value;
      if DecimalValidatorError(d).None? && AmountErrors(d) != [] {
        assert AmountRefused(AmountErrors(d)[0]) in AmountFieldErrors(a);
      }
    }
  }

  lemma TextAccepts(field: Field, raw: string)
    ensures TextErrors(field, raw) == {} <==> !HasNull(Strip(raw)) && !Rejected(Strip(raw))
  {
    if !HasNull(Strip(raw)) && Rejected(Strip(raw)) {
      assert TextRefused(field, InjectionMessage(Strip(raw))) in TextErrors(field, raw);
    }
  }

  lemma ChoiceAccepts<T>(field: Field, c: Choice<T>)
    ensures ChoiceErrors(field, true, c) == {} <==> c.Chosen?
  {
    if c.NoChoice? { assert Required(field) in ChoiceErrors(field, true, c); }
  }

  /** A union of error sets is empty exactly when each part is, so the form
      passes exactly when each part's condition holds. */
  lemma PartsAccept(e1: set<FormError>, e2: set<FormError>, e3: set<FormError>, e4: set<FormError>,
                    e5: set<FormError>, e6: set<FormError>, e7: set<FormError>,
                    b1: bool, b2: bool, b3: bool, b4: bool, b5: bool, b6: bool, b7: bool)
    requires (e1 == {} <==> b1) && (e2 == {} <==> b2) && (e3 == {} <==> b3) && (e4 == {} <==> b4)
    requires (e5 == {} <==> b5) && (e6 == {} <==> b6) && (e7 == {} <==> b7)
    ensures e1 + e2 + e3 + e4 + e5 + e6 + e7 == {} <==> b1 && b2 && b3 && b4 && b5 && b6 && b7
  {
  }

  /** The field-level checks of the record form pass exactly when the date
      is given, the four choices resolve, the amount passes its validators
      and the comment passes the injection check. */
  lemma FieldsAccept(choices: Choices, data: RecordData)
    ensures var f := Select(choices, data.keys);
      (DateErrors(DateField, true, data.date)
       + ChoiceErrors(StatusField, true, f.status)
       + ChoiceErrors(TypeField, true, f.flowType)
       + ChoiceErrors(CategoryField, true, f.category)
       + ChoiceErrors(SubcategoryField, true, f.subcategory)
       + AmountFieldErrors(data.amount)
       + TextErrors(CommentField, data.comment)) == {}
      <==>
      && data.date.GivenDate?
      && f.status.Chosen? && f.flowType.Chosen? && f.category.Chosen? && f.subcategory.Chosen?
      && data.amount.Number? && AmountErrors(data.amount.value) == []
      && !HasNull(Strip(data.comment)) && !Rejected(Strip(data.comment))
  {
    var f := Select(choices, data.keys);
    assert DateErrors(DateField, true, data.date) == {} <==> data.date.GivenDate?;
    ChoiceAccepts(StatusField, f.status);
    ChoiceAccepts(TypeField, f.flowType);
    ChoiceAccepts(CategoryField, f.category);
    ChoiceAccepts(SubcategoryField, f.subcategory);
    AmountFieldAccepts(data.amount);
    TextAccepts(CommentField, data.comment);
    PartsAccept(
      DateErrors(DateField, true, data.date),
      ChoiceErrors(StatusField, true, f.status),
      ChoiceErrors(TypeField, true, f.flowType),
      ChoiceErrors(CategoryField, true, f.category),
      ChoiceErrors(SubcategoryField, true, f.subcategory),
      AmountFieldErrors(data.amount),
      TextErrors(CommentField, data.comment),
      data.date.GivenDate?, f.status.Chosen?, f.flowType.Chosen?, f.category.Chosen?, f.subcategory.Chosen?,
      data.amount.Number? && AmountErrors(data.amount.value) == [],
      !HasNull(Strip(data.comment)) && !Rejected(Strip(data.comment)));
  }

  /** `is_valid()` holds exactly when every field resolves, the subcategory
      lies in the category, the category is of the type, the amount passes
      its validators and the comment passes the injection check. */
  lemma RecordFormValid(db: Db, instance: Option<CashFlowRecord>, choices: Choices, data: RecordData)
    ensures RecordErrors(db, instance, choices, data) == {} <==> RecordFormPasses(choices, data)
  {
    var f := Select(choices, data.keys);
    var links := CheckLinks(Value(f.subcategory), Value(f.category), Value(f.flowType));
    FieldsAccept(choices, data);
    assert LinkErrors(links) == {} <==> links.None?;
    if f.status.Chosen? && f.flowType.Chosen? && f.category.Chosen? && f.subcategory.Chosen? {
      assert ModelLinks(db, instance, f) == links;
    }
  }

  /** `is_valid()` followed by `cleaned_data`. */
  function RecordFormResult(db: Db, instance: Option<CashFlowRecord>, choices: Choices, data: RecordData)
    : (r: Result<RecordValues, set<FormError>>)
    ensures r.Err? <==> !RecordFormPasses(choices, data)
    ensures r.Err? ==> r.error == RecordErrors(db, instance, choices, data) && r.error != {}
    ensures r.Ok? ==>
      var f := Select(choices, data.keys);
      && r.value.date == data.date.date
      && r.value.statusId == f.status.value.id && r.value.typeId == f.flowType.value.id
      && r.value.categoryId == f.category.value.id && r.value.subcategoryId == f.subcategory.value.id
      && data.amount.value.exponent >= -2 && r.value.cents == Cents(data.amount.value)
      && r.value.comment == (if Strip(data.comment) == "" then "" else Sanitize(Strip(data.comment)))
  {
    RecordFormValid(db, instance, choices, data);
    if !RecordFormPasses(choices, data) then Err(RecordErrors(db, instance, choices, data))
    else
      var f := Select(choices, data.keys);
      AmountAccepted(data.amount.value);
      Ok(RecordValues(
        data.date.date, f.status.value.id, f.flowType.value.id, f.category.value.id, f.subcategory.value.id,
        Cents(data.amount.value), CleanText(Strip(data.comment)).value))
  }

  /** A mismatch between chosen subcategory and category is reported as a
      non-field error, and so is one between chosen category and type once
      the subcategory fits; an unchosen field skips its check. */
  lemma LinkMismatchReported(db: Db, instance: Option<CashFlowRecord>, choices: Choices, data: RecordData)
    ensures var f := Select(choices, data.keys);
      var errors := RecordErrors(db, instance, choices, data);
      && ((f.subcategory.Chosen? && f.category.Chosen? && f.subcategory.value.categoryId != f.category.value.id)
          ==> Links(SubcategoryOutsideCategory) in errors)
      && ((SubcategoryFits(Value(f.subcategory), Value(f.category)) && f.category.Chosen? && f.flowType.Chosen?
           && f.category.value.typeId != f.flowType.value.id)
          ==> Links(CategoryOutsideType) in errors)
  {
  }

  /** A valid form describes a record the store may hold: its references
      resolve, its links agree and its amount is in range. */
  lemma ValidRecordFormAdmissible(db: Db, instance: Option<CashFlowRecord>, data: RecordData, id: nat, createdAt: nat)
    requires ValidDb(db)
    requires RecordFormResult(db, instance, RecordChoices(db, instance, Some(data.keys)), data).Ok?
    ensures Admissible(db, RecordOf(RecordFormResult(db, instance, RecordChoices(db, instance, Some(data.keys)), data).value, id, createdAt))
  {
    var choices := RecordChoices(db, instance, Some(data.keys));
    var v := RecordFormResult(db, instance, choices, data).value;
    var r := RecordOf(v, id, createdAt);
    var f := Select(choices, data.keys);
    assert RecordFormPasses(choices, data);
    var st, t, c, s := f.status.value, f.flowType.value, f.category.value, f.subcategory.value;
    assert r.statusId == st.id && r.typeId == t.id && r.categoryId == c.id && r.subcategoryId == s.id;
    assert s.categoryId == c.id by {
      assert SubcategoryFits(Value(f.subcategory), Value(f.category));
    }
    assert c.typeId == t.id by {
      assert CategoryFits(Value(f.category), Value(f.flowType));
    }
    ChosenFromDb(db, instance, data);
    AmountAccepted(data.amount.value);
    AdmissibleFromParts(db, r, st, t, c, s);
  }

  /** Every option of the record form's four choice lists comes from the store. */
  lemma ChosenFromDb(db: Db, instance: Option<CashFlowRecord>, data: RecordData)
    ensures var choices := RecordChoices(db, instance, Some(data.keys));
      && (forall x | x in choices.statuses :: x in db.statuses)
      && (forall x | x in choices.types :: x in db.types)
      && (forall x | x in choices.categories :: x in db.categories)
      && (forall x | x in choices.subcategories :: x in db.subcategories)
  {
    SortByKeyMembers(db.statuses, StatusOrder);
    SortByKeyMembers(db.types, TypeOrder);
    RecordCategoryNarrowing(db, instance);
    RecordSubcategoryNarrowing(db, instance, Some(data.keys));
  }

  /** A record whose four references are rows of the store, whose
      subcategory lies in its category, whose category is of its type and
      whose amount is in range is admissible. */
  lemma AdmissibleFromParts(db: Db, r: CashFlowRecord, st: Status, t: FlowType, c: Category, s: Subcategory)
    requires ValidDb(db)
    requires st in db.statuses && t in db.types && c in db.categories && s in db.subcategories
    requires r.statusId == st.id && r.typeId == t.id && r.categoryId == c.id && r.subcategoryId == s.id
    requires s.categoryId == c.id && c.typeId == t.id && AmountInRange(r.cents)
    ensures Admissible(db, r)
  {
    assert RecordRefersTo(db, r);
    forall x | x in db.subcategories && x.id == r.subcategoryId ensures x.categoryId == r.categoryId {
      FindUnique(db.subcategories, SubcategoryId, x);
      FindUnique(db.subcategories, SubcategoryId, s);
    }
    forall x | x in db.categories && x.id == r.categoryId ensures x.typeId == r.typeId {
      FindUnique(db.categories, CategoryId, x);
      FindUnique(db.categories, CategoryId, c);
    }
  }

  /** On edit the category choices are those of the record's type and a
      valid form's category must be of the chosen type, so a valid edit
      keeps the record's type. */
  lemma TypeFixedOnEdit(db: Db, record: CashFlowRecord, data: RecordData)
    requires RecordFormResult(db, Some(record), RecordChoices(db, Some(record), Some(data.keys)), data).Ok?
    ensures RecordFormResult(db, Some(record), RecordChoices(db, Some(record), Some(data.keys)), data).value.typeId
            == record.typeId
  {
    var choices := RecordChoices(db, Some(record), Some(data.keys));
    var v := RecordFormResult(db, Some(record), choices, data).value;
    var f := Select(choices, data.keys);
    assert RecordFormPasses(choices, data);
    assert v.typeId == f.flowType.value.id;
    var category := f.category.value;
    assert category.typeId == v.typeId by {
      assert CategoryFits(Value(f.category), Value(f.flowType));
    }
    assert category in RecordCategoryChoices(db, Some(record));
    RecordCategoryNarrowing(db, Some(record));
  }

  /** A comment the validator rejects makes the form invalid and is never
      saved. */
  lemma RejectedCommentRefused(db: Db, instance: Option<CashFlowRecord>, choices: Choices, data: RecordData)
    requires Rejected(Strip(data.comment))
    ensures !HasNull(Strip(data.comment)) ==>
      TextRefused(CommentField, InjectionMessage(Strip(data.comment))) in RecordErrors(db, instance, choices, data)
    ensures RecordFormResult(db, instance, choices, data).Err?
  {
  }

  /** A comment holding U+0000 is refused by the field itself, before the
      injection check, and is never saved. */
  lemma NullCommentRefused(db: Db, instance: Option<CashFlowRecord>, choices: Choices, data: RecordData)
    requires HasNull(Strip(data.comment))
    ensures NullCharacter(CommentField) in RecordErrors(db, instance, choices, data)
    ensures RecordFormResult(db, instance, choices, data).Err?
  {
    assert TextErrors(CommentField, data.comment) == {NullCharacter(CommentField)};
    assert !RecordFormPasses(choices, data);
  }

  // ---------------------------------------------------------------------------
  // CashFlowFilterForm
  // ---------------------------------------------------------------------------

  /** Category choices of the filter form: all by name, or those of the
      submitted type when it is an integer. */
  function FilterCategoryChoices(db: Db, data: Option<map<string, string>>): seq<Category> {
    match ChoiceKey(data, "type")
    case Some(k) => CategoriesForType(db, k)
    case None => SortByKey(db.categories, CategoryOrder)
  }

  /** Subcategory choices of the filter form: none, or those of the
      submitted category when it is an integer. */
  function FilterSubcategoryChoices(db: Db, data: Option<map<string, string>>): seq<Subcategory> {
    match ChoiceKey(data, "category")
    case Some(k) => SubcategoriesForCategory(db, k)
    case None => []
  }

  function FilterChoices(db: Db, data: Option<map<string, string>>): Choices {
    Choices(
      SortByKey(db.statuses, StatusOrder), SortByKey(db.types, TypeOrder),
      FilterCategoryChoices(db, data), FilterSubcategoryChoices(db, data))
  }

  /** The filter form's category choices narrow to the submitted type and
      its subcategory choices to the submitted category, when these are
      integers; every list is in name order. */
  lemma FilterChoiceNarrowing(db: Db, data: Option<map<string, string>>)
    ensures var c := FilterChoices(db, data);
      && (forall k | ChoiceKey(data, "type") == Some(k) ::
            forall x :: x in c.categories <==> x in db.categories && x.typeId == k)
      && (ChoiceKey(data, "type").None? ==> forall x :: x in c.categories <==> x in db.categories)
      && (forall k | ChoiceKey(data, "category") == Some(k) ::
            forall x :: x in c.subcategories <==> x in db.subcategories && x.categoryId == k)
      && (ChoiceKey(data, "category").None? ==> c.subcategories == [])
      && SortedBy(c.statuses, StatusOrder) && SortedBy(c.types, TypeOrder)
      && SortedBy(c.categories, CategoryOrder) && SortedBy(c.subcategories, SubcategoryOrder)
  {
    SortByKeyMembers(db.categories, CategoryOrder);
  }

  class FilterForm {
    var statusChoices: seq<Status>
    var typeChoices: seq<FlowType>
    var categoryChoices: seq<Category>
    var subcategoryChoices: seq<Subcategory>

    function Current(): Choices
      reads this
    {
      Choices(statusChoices, typeChoices, categoryChoices, subcategoryChoices)
    }

    constructor(db: Db, data: Option<map<string, string>>)
      ensures Current() == FilterChoices(db, data)
    {
      statusChoices := SortByKey(db.statuses, StatusOrder);
      typeChoices := SortByKey(db.types, TypeOrder);
      categoryChoices := SortByKey(db.categories, CategoryOrder);
      subcategoryChoices := [];
      var typeKey := ChoiceKey(data, "type");
      if typeKey.Some? {
        categoryChoices := CategoriesForType(db, typeKey.value);
      }
      var categoryKey := ChoiceKey(data, "category");
      if categoryKey.Some? {
        subcategoryChoices := SubcategoriesForCategory(db, categoryKey.value);
      }
    }
  }

  /** The GET data of the filter form. */
  datatype FilterData = FilterData(dateFrom: DateInput, dateTo: DateInput, keys: map<string, string>)

  /** `date_from > date_to` on the calendar. */
  lemma DateAfter(a: Date, b: Date)
    ensures !DateLe(a, b) <==> DateLe(b, a) && a != b
  {
    LexLeTotal(DateKey(a), DateKey(b));
    if DateLe(a, b) && DateLe(b, a) {
      LexLeAntisymmetric(DateKey(a), DateKey(b));
      assert DateKey(a)[0] == DateKey(b)[0] && DateKey(a)[1] == DateKey(b)[1] && DateKey(a)[2] == DateKey(b)[2];
    }
  }

  /** `CashFlowFilterForm.clean`: an error exactly when both dates are given
      and the first lies after the second; equal dates pass. */
  function DateRangeErrors(dateFrom: Option<Date>, dateTo: Option<Date>): (r: set<FormError>)
    ensures r != {} <==> dateFrom.Some? && dateTo.Some? && DateLe(dateTo.value, dateFrom.value) && dateFrom != dateTo
    ensures r != {} ==> r == {DateRange}
  {
    if dateFrom.Some? && dateTo.Some? then
      DateAfter(dateFrom.value, dateTo.value);
      if !DateLe(dateFrom.value, dateTo.value) then {DateRange} else {}
    else {}
  }

  function FilterErrors(choices: Choices, data: FilterData): set<FormError> {
    var f := Select(choices, data.keys);
    DateErrors(DateFromField, false, data.dateFrom)
    + DateErrors(DateToField, false, data.dateTo)
    + ChoiceErrors(StatusField, false, f.status)
    + ChoiceErrors(TypeField, false, f.flowType)
    + ChoiceErrors(CategoryField, false, f.category)
    + ChoiceErrors(SubcategoryField, false, f.subcategory)
    + DateRangeErrors(DateValue(data.dateFrom), DateValue(data.dateTo))
  }

  /** The criteria `index` reads from `cleaned_data`; an absent field is `None`. */
  datatype Criteria = Criteria(
    dateFrom: Option<Date>, dateTo: Option<Date>,
    statusId: Option<nat>, typeId: Option<nat>, categoryId: Option<nat>, subcategoryId: Option<nat>)

  function Unfiltered(): Criteria {
    Criteria(None, None, None, None, None, None)
  }

  function ChosenId<T>(c: Choice<T>, id: T -> nat): Option<nat> {
    if c.Chosen? then Some(id(c.value)) else None
  }

  /** `is_valid()` and `cleaned_data`: the criteria of a valid form, none at
      all for an invalid one. */
  function FilterCriteria(choices: Choices, data: FilterData): Criteria {
    var f := Select(choices, data.keys);
    if FilterErrors(choices, data) != {} then Unfiltered()
    else Criteria(
      DateValue(data.dateFrom), DateValue(data.dateTo),
      ChosenId(f.status, StatusId), ChosenId(f.flowType, TypeId),
      ChosenId(f.category, CategoryId), ChosenId(f.subcategory, SubcategoryId))
  }

  /** A subcategory submitted without an integer category names none of the
      (empty) subcategory choices, so the whole form is invalid and no
      filter applies. */
  lemma SubcategoryNeedsCategory(db: Db, data: FilterData)
    requires "subcategory" in data.keys && data.keys["subcategory"] != ""
    requires ChoiceKey(Some(data.keys), "category").None?
    ensures InvalidChoice(SubcategoryField) in FilterErrors(FilterChoices(db, Some(data.keys)), data)
    ensures FilterCriteria(FilterChoices(db, Some(data.keys)), data) == Unfiltered()
  {
  }

  /** In a valid filter the chosen category is of the submitted type and the
      chosen subcategory in the submitted category. */
  lemma ValidFilterConsistent(db: Db, data: FilterData)
    requires FilterErrors(FilterChoices(db, Some(data.keys)), data) == {}
    ensures var f := Select(FilterChoices(db, Some(data.keys)), data.keys);
      && (forall k | ChoiceKey(Some(data.keys), "type") == Some(k) :: f.category.Chosen? ==> f.category.value.typeId == k)
      && (forall k | ChoiceKey(Some(data.keys), "category") == Some(k) ::
            f.subcategory.Chosen? ==> f.subcategory.value.categoryId == k)
  {
    FilterChoiceNarrowing(db, Some(data.keys));
  }

  // ---------------------------------------------------------------------------
  // DirectoryForm.clean_name and clean_description
  // ---------------------------------------------------------------------------

  /** The `name` field: a required `CharField(max_length)` that strips and
      refuses U+0000, then `clean_name`, then the model's `max_length` check
      on the cleaned value in `_post_clean`. */
  function NameResult(raw: string, maxLength: nat): (r: Result<string, FormError>)
    ensures r.Ok? ==> 0 < |r.value| <= maxLength && NoRawSpecials(r.value) && Unescape(r.value) == Strip(raw)
    ensures r.Err? <==>
      || Strip(raw) == "" || |Strip(raw)| > maxLength || HasNull(Strip(raw))
      || Rejected(Strip(raw)) || |Escape(Strip(raw))| > maxLength
    ensures Strip(raw) != "" && |Strip(raw)| <= maxLength && HasNull(Strip(raw)) ==>
      r == Err(NullCharacter(NameField))
  {
    var v := Strip(raw);
    StripUnchanged(v);
    if v == "" then Err(Required(NameField))
    else if |v| > maxLength then Err(TooLong(NameField, |v|))
    else if HasNull(v) then Err(NullCharacter(NameField))
    else match CleanText(v)
      case Err(m) => Err(TextRefused(NameField, m))
      case Ok(s) => if |s| > maxLength then Err(TooLong(NameField, |s|)) else Ok(s)
  }

  /** Escaping happens before the model's length check, so a name that fits
      the column when typed but holds an `&` is refused. */
  lemma AmpersandNameAtLimitRefused(raw: string, maxLength: nat, i: nat)
    requires |Strip(raw)| == maxLength && i < maxLength && Strip(raw)[i] == '&'
    ensures NameResult(raw, maxLength).Err?
  {
    EscapeLength(Strip(raw));
  }

  /** The `description` field: an optional text that must not hold U+0000,
      then `clean_description`. */
  function DescriptionResult(raw: string): (r: Result<string, FormError>)
    ensures r.Err? <==> HasNull(Strip(raw)) || Rejected(Strip(raw))
    ensures HasNull(Strip(raw)) ==> r == Err(NullCharacter(DescriptionField))
    ensures !HasNull(Strip(raw)) && r.Err? ==> r.error == TextRefused(DescriptionField, InjectionMessage(Strip(raw)))
    ensures r.Ok? ==> NoRawSpecials(r.value) && Unescape(r.value) == Strip(raw)
  {
    StripUnchanged(Strip(raw));
    if HasNull(Strip(raw)) then Err(NullCharacter(DescriptionField))
    else match CleanText(Strip(raw))
      case Err(m) => Err(TextRefused(DescriptionField, m))
      case Ok(s) => Ok(s)
  }
}
