/**
 * The views of core/views.py that carry logic.
 *
 * `index` lists the records that pass the filter form, newest first, with
 * the number of records, the income and expense totals and the balance.
 * `record_create`, `record_edit` and `record_delete` change the store only
 * when the request is a POST (and, for the first two, the record form is
 * valid). The two lookup endpoints list a parent's children as id and name
 * pairs; `directory_management` lists the four directories in order.
 *
 * Requests are reduced to what the views read: the method, the parameters
 * and the primary key in the URL. Rendering, redirects, flash messages,
 * pagination and JSON serialisation become the `Page` a view returns.
 */
module Views {
  import opened Wrappers
  import opened Ordering
  import opened Models
  import opened Store
  import opened Forms

  // ---------------------------------------------------------------------------
  // index: the filters
  // ---------------------------------------------------------------------------

  /** The six filters of `index`, in the order they are applied:
      0 `date__gte`, 1 `date__lte`, 2 `status`, 3 `type`, 4 `category`,
      5 `subcategory`. A filter whose criterion is absent keeps every record. */
  predicate Holds(c: Criteria, k: nat, r: CashFlowRecord) {
    if k == 0 then c.dateFrom.Some? ==> DateLe(c.dateFrom.value, r.date)
    else if k == 1 then c.dateTo.Some? ==> DateLe(r.date, c.dateTo.value)
    else if k == 2 then c.statusId.Some? ==> r.statusId == c.statusId.value
    else if k == 3 then c.typeId.Some? ==> r.typeId == c.typeId.value
    else if k == 4 then c.categoryId.Some? ==> r.categoryId == c.categoryId.value
    else if k == 5 then c.subcategoryId.Some? ==> r.subcategoryId == c.subcategoryId.value
    else true
  }

  /** Filter `k` as a query-set condition. */
  function Criterion(c: Criteria, k: nat): CashFlowRecord -> bool {
    (r: CashFlowRecord) => Holds(c, k, r)
  }

  /** The record passes the first `n` filters. */
  predicate PassesFirst(c: Criteria, n: nat, r: CashFlowRecord) {
    forall k | 0 <= k < n :: Holds(c, k, r)
  }

  function UpTo(c: Criteria, n: nat): CashFlowRecord -> bool {
    (r: CashFlowRecord) => PassesFirst(c, n, r)
  }

  /** The records `index` lists for the given criteria: all records in their
      default order, narrowed by every filter. */
  function Selected(db: Db, c: Criteria): seq<CashFlowRecord> {
    Filter(OrderedRecords(db.records), UpTo(c, 6))
  }

  /** Applying filter `k`, or skipping it when its criterion is absent, turns
      the records passing `k` filters into those passing `k + 1`. */
  lemma Stage(s: seq<CashFlowRecord>, c: Criteria, k: nat, before: seq<CashFlowRecord>,
              applied: bool, after: seq<CashFlowRecord>)
    requires before == Filter(s, UpTo(c, k))
    requires applied ==> after == Filter(before, Criterion(c, k))
    requires !applied ==> after == before && forall r: CashFlowRecord :: Holds(c, k, r)
    ensures after == Filter(s, UpTo(c, k + 1))
  {
    forall r: CashFlowRecord ensures UpTo(c, k + 1)(r) == (UpTo(c, k)(r) && Criterion(c, k)(r)) {
      assert PassesFirst(c, k + 1, r) <==> PassesFirst(c, k, r) && Holds(c, k, r);
    }
    FilterCompose(s, UpTo(c, k), Criterion(c, k), UpTo(c, k + 1));
    if !applied {
      FilterNoop(before, Criterion(c, k));
    }
  }

  /** A listed record is a stored record meeting every present criterion,
      both date bounds inclusive, and every such record is listed; the list
      is newest first. */
  lemma SelectedMeaning(db: Db, c: Criteria)
    ensures forall r | r in Selected(db, c) :: r in db.records
    ensures forall r :: r in Selected(db, c) <==> r in db.records && Matches(c, r)
    ensures SortedBy(Selected(db, c), RecordKey)
  {
    var o := OrderedRecords(db.records);
    SortByKeyMembers(db.records, RecordKey);
    FilterSubset(o, UpTo(c, 6));
    forall r ensures PassesFirst(c, 6, r) <==> Matches(c, r) {
      if Matches(c, r) {
        forall k | 0 <= k < 6 ensures Holds(c, k, r) {
        }
      } else {
        assert !Holds(c, 0, r) || !Holds(c, 1, r) || !Holds(c, 2, r) || !Holds(c, 3, r)
          || !Holds(c, 4, r) || !Holds(c, 5, r);
      }
    }
    FilterSorted(o, UpTo(c, 6), RecordKey);
  }

  /** The conjunction of the present criteria. */
  predicate Matches(c: Criteria, r: CashFlowRecord) {
    && (c.dateFrom.Some? ==> DateLe(c.dateFrom.value, r.date))
    && (c.dateTo.Some? ==> DateLe(r.date, c.dateTo.value))
    && (c.statusId.Some? ==> r.statusId == c.statusId.value)
    && (c.typeId.Some? ==> r.typeId == c.typeId.value)
    && (c.categoryId.Some? ==> r.categoryId == c.categoryId.value)
    && (c.subcategoryId.Some? ==> r.subcategoryId == c.subcategoryId.value)
  }

  /** An invalid filter form filters nothing: every record is listed in the
      default order. */
  lemma InvalidFilterListsAll(db: Db, query: FilterData)
    requires FilterErrors(FilterChoices(db, Some(query.keys)), query) != {}
    ensures Selected(db, FilterCriteria(FilterChoices(db, Some(query.keys)), query)) == OrderedRecords(db.records)
  {
    UnfilteredKeepsAll(OrderedRecords(db.records));
  }

  /** Without criteria all six filters keep every record. */
  lemma UnfilteredKeepsAll(all: seq<CashFlowRecord>)
    ensures Filter(all, UpTo(Unfiltered(), 6)) == all
  {
    forall r | r in all ensures UpTo(Unfiltered(), 6)(r) {
      forall k | 0 <= k < 6 ensures Holds(Unfiltered(), k, r) {
      }
      assert PassesFirst(Unfiltered(), 6, r);
    }
    FilterNoop(all, UpTo(Unfiltered(), 6));
  }

  // ---------------------------------------------------------------------------
  // index: the totals
  // ---------------------------------------------------------------------------

  const IncomeNames: seq<string> := ["Пополнение", "Replenishment"]
  const ExpenseNames: seq<string> := ["Списание", "Write-off"]

  /** `type__name`: the name of the record's type. */
  function TypeNameOf(db: Db, r: CashFlowRecord): Option<string> {
    match Find(db.types, TypeId, r.typeId)
    case Some(t) => Some(t.name)
    case None => None
  }

  /** `filter(type__name__in=names)`. */
  function OfTypes(db: Db, names: seq<string>): CashFlowRecord -> bool {
    (r: CashFlowRecord) => TypeNameOf(db, r).Some? && TypeNameOf(db, r).value in names
  }

  /** Records of neither kind. */
  function OfOtherTypes(db: Db): CashFlowRecord -> bool {
    (r: CashFlowRecord) => !OfTypes(db, IncomeNames)(r) && !OfTypes(db, ExpenseNames)(r)
  }

  /** `aggregate(total=Sum('amount'))['total'] or 0`, in cents. */
  function SumAmounts(rs: seq<CashFlowRecord>): int {
    if rs == [] then 0 else rs[0].cents + SumAmounts(rs[1..])
  }

  lemma {:induction false} SumSplit(s: seq<CashFlowRecord>, p: CashFlowRecord -> bool, q: CashFlowRecord -> bool,
                                    rest: CashFlowRecord -> bool)
    requires forall x :: !(p(x) && q(x))
    requires forall x :: rest(x) == (!p(x) && !q(x))
    ensures SumAmounts(s) == SumAmounts(Filter(s, p)) + SumAmounts(Filter(s, q)) + SumAmounts(Filter(s, rest))
  {
    if s != [] {
      SumSplit(s[1..], p, q, rest);
    }
  }

  /** Every listed record counts towards exactly one of income, expenses and
      the records of other types. */
  lemma TotalsPartition(db: Db, records: seq<CashFlowRecord>)
    ensures SumAmounts(records) ==
      SumAmounts(Filter(records, OfTypes(db, IncomeNames)))
      + SumAmounts(Filter(records, OfTypes(db, ExpenseNames)))
      + SumAmounts(Filter(records, OfOtherTypes(db)))
  {
    SumSplit(records, OfTypes(db, IncomeNames), OfTypes(db, ExpenseNames), OfOtherTypes(db));
  }

  /** A record counts as income exactly when its type is called
      'Пополнение' or 'Replenishment', as expense exactly when its type is
      called 'Списание' or 'Write-off'. */
  lemma TotalsByTypeName(db: Db, records: seq<CashFlowRecord>)
    requires ValidDb(db) && forall r | r in records :: r in db.records
    ensures forall r | r in Filter(records, OfTypes(db, IncomeNames)) ::
      r in records && exists t | t in db.types :: t.id == r.typeId && t.name in IncomeNames
    ensures forall r | r in records && (exists t | t in db.types :: t.id == r.typeId && t.name in IncomeNames) ::
      r in Filter(records, OfTypes(db, IncomeNames))
    ensures forall r | r in Filter(records, OfTypes(db, ExpenseNames)) ::
      r in records && exists t | t in db.types :: t.id == r.typeId && t.name in ExpenseNames
    ensures forall r | r in records && (exists t | t in db.types :: t.id == r.typeId && t.name in ExpenseNames) ::
      r in Filter(records, OfTypes(db, ExpenseNames))
  {
    FilterSubset(records, OfTypes(db, IncomeNames));
    FilterSubset(records, OfTypes(db, ExpenseNames));
    forall r, t | r in records && t in db.types && t.id == r.typeId ensures TypeNameOf(db, r) == Some(t.name) {
      FindUnique(db.types, TypeId, t);
    }
    forall r | r in records ensures TypeNameOf(db, r).Some? {
      assert RecordRefersTo(db, r);
    }
  }

  /** What `index` puts in its context. */
  datatype IndexPage = IndexPage(
    choices: Choices, records: seq<CashFlowRecord>,
    totalRecords: nat, totalIncome: int, totalExpenses: int, balance: int)

  /** Whether the criterion of filter `k` was given. */
  predicate Present(c: Criteria, k: nat) {
    if k == 0 then c.dateFrom.Some?
    else if k == 1 then c.dateTo.Some?
    else if k == 2 then c.statusId.Some?
    else if k == 3 then c.typeId.Some?
    else if k == 4 then c.categoryId.Some?
    else if k == 5 then c.subcategoryId.Some?
    else false
  }

  /** One `if value: records = records.filter(...)` step of `index`. */
  method FilterStep(all: seq<CashFlowRecord>, c: Criteria, k: nat, records: seq<CashFlowRecord>)
    returns (after: seq<CashFlowRecord>)
    requires records == Filter(all, UpTo(c, k))
    ensures after == Filter(all, UpTo(c, k + 1))
  {
    after := records;
    if Present(c, k) {
      after := Filter(records, Criterion(c, k));
    }
    Stage(all, c, k, records, Present(c, k), after);
  }

  /** Before the first step every record is kept. */
  lemma NoFilterYet(all: seq<CashFlowRecord>, c: Criteria)
    ensures Filter(all, UpTo(c, 0)) == all
  {
    forall r | r in all ensures UpTo(c, 0)(r) {
      assert PassesFirst(c, 0, r);
    }
    FilterNoop(all, UpTo(c, 0));
  }

  /** The date-bound steps of `index`: `date__gte`, then `date__lte`. */
  method ApplyDateFilters(all: seq<CashFlowRecord>, c: Criteria) returns (records: seq<CashFlowRecord>)
    ensures records == Filter(all, UpTo(c, 2))
  {
    NoFilterYet(all, c);
    records := FilterStep(all, c, 0, all);
    records := FilterStep(all, c, 1, records);
  }

  /** The choice steps of `index`: status, type, category, subcategory. */
  method ApplyChoiceFilters(all: seq<CashFlowRecord>, c: Criteria, dated: seq<CashFlowRecord>)
    returns (records: seq<CashFlowRecord>)
    requires dated == Filter(all, UpTo(c, 2))
    ensures records == Filter(all, UpTo(c, 6))
  {
    records := FilterStep(all, c, 2, dated);
    records := FilterStep(all, c, 3, records);
    records := FilterStep(all, c, 4, records);
    records := FilterStep(all, c, 5, records);
  }

  /** The six filter steps of `index`, date bounds first. */
  method ApplyFilters(all: seq<CashFlowRecord>, c: Criteria) returns (records: seq<CashFlowRecord>)
    ensures records == Filter(all, UpTo(c, 6))
  {
    records := ApplyDateFilters(all, c);
    records := ApplyChoiceFilters(all, c, records);
  }

  /** `index(request)` on the GET parameters: the bound filter form, its
      filters when it is valid, then the totals. */
  method Index(db: Db, query: FilterData) returns (page: IndexPage)
    ensures page.choices == FilterChoices(db, Some(query.keys))
    ensures page.records == Selected(db, FilterCriteria(page.choices, query))
    ensures page.totalRecords == |page.records|
    ensures page.totalIncome == SumAmounts(Filter(page.records, OfTypes(db, IncomeNames)))
    ensures page.totalExpenses == SumAmounts(Filter(page.records, OfTypes(db, ExpenseNames)))
    ensures page.balance == page.totalIncome - page.totalExpenses
  {
    var form := new FilterForm(db, Some(query.keys));
    var choices := form.Current();
    var c := FilterCriteria(choices, query);
    var all := OrderedRecords(db.records);
    var records := all;
    if FilterErrors(choices, query) == {} {
      records := ApplyFilters(all, c);
    } else {
      assert c == Unfiltered();
      UnfilteredKeepsAll(all);
    }
    var income := SumAmounts(Filter(records, OfTypes(db, IncomeNames)));
    var expenses := SumAmounts(Filter(records, OfTypes(db, ExpenseNames)));
    page := IndexPage(choices, records, |records|, income, expenses, income - expenses);
  }

  // ---------------------------------------------------------------------------
  // record_create, record_edit, record_delete
  // ---------------------------------------------------------------------------

  datatype RequestMethod = Get | Post

  datatype Page =
    | Redirect
    | RecordFormPage(choices: Choices, errors: set<FormError>)
    | ConfirmDeletePage(record: CashFlowRecord)
    | NotFound

  /** `record_create`: a valid POST stores a new record and redirects; any
      other request renders the form and changes nothing. */
  method RecordCreate(store: CashFlowStore, request: RequestMethod, data: RecordData) returns (page: Page)
    requires store.Valid()
    modifies store
    ensures store.Valid()
    ensures var db := old(store.Snapshot());
      var result := RecordFormResult(db, None, RecordChoices(db, None, Some(data.keys)), data);
      if request == Post && result.Ok? then
        && page == Redirect
        && store.Snapshot() == InsertRecord(db, RecordOf(result.value, old(store.nextId), old(store.clock)))
      else
        && store.Snapshot() == db && store.nextId == old(store.nextId) && store.clock == old(store.clock)
        && page.RecordFormPage?
        && page.errors == (if request == Post then result.error else {})
  {
    var db := store.Snapshot();
    if request == Post {
      var form := new RecordForm(db, None, Some(data.keys));
      var result := RecordFormResult(db, None, form.Current(), data);
      if result.Ok? {
        ValidRecordFormAdmissible(db, None, data, 0, 0);
        var v := result.value;
        var id := store.SaveNewRecord(v.date, v.statusId, v.typeId, v.categoryId, v.subcategoryId, v.cents, v.comment);
        return Redirect;
      }
      return RecordFormPage(form.Current(), result.error);
    }
    var form := new RecordForm(db, None, None);
    return RecordFormPage(form.Current(), {});
  }

  /** `record_edit`: an unknown key is a 404; a valid POST replaces the
      record (same id and creation stamp) and redirects; any other request
      renders the form and changes nothing. */
  method RecordEdit(store: CashFlowStore, pk: nat, request: RequestMethod, data: RecordData) returns (page: Page)
    requires store.Valid()
    modifies store
    ensures store.Valid()
    ensures var db := old(store.Snapshot());
      match Find(db.records, RecordId, pk)
      case None => page == NotFound && store.Snapshot() == db
      case Some(record) =>
        var result := RecordFormResult(db, Some(record), RecordChoices(db, Some(record), Some(data.keys)), data);
        if request == Post && result.Ok? then
          && page == Redirect
          && store.Snapshot() == UpdateRecord(db, RecordOf(result.value, pk, record.createdAt))
        else
          && store.Snapshot() == db
          && page.RecordFormPage?
          && page.errors == (if request == Post then result.error else {})
    ensures store.nextId == old(store.nextId) && store.clock == old(store.clock)
  {
    var db := store.Snapshot();
    var found := Find(db.records, RecordId, pk);
    if found.None? {
      return NotFound;
    }
    var record := found.value;
    if request == Post {
      var form := new RecordForm(db, Some(record), Some(data.keys));
      var result := RecordFormResult(db, Some(record), form.Current(), data);
      if result.Ok? {
        ValidRecordFormAdmissible(db, Some(record), data, pk, record.createdAt);
        store.SaveRecord(RecordOf(result.value, pk, record.createdAt));
        return Redirect;
      }
      return RecordFormPage(form.Current(), result.error);
    }
    var form := new RecordForm(db, Some(record), None);
    return RecordFormPage(form.Current(), {});
  }

  /** An edit leaves every other record as it was and keeps the record's
      place, id, creation stamp and type. */
  lemma EditTouchesOneRecord(db: Db, record: CashFlowRecord, data: RecordData, v: RecordValues)
    requires RecordFormResult(db, Some(record), RecordChoices(db, Some(record), Some(data.keys)), data) == Ok(v)
    ensures var after := UpdateRecord(db, RecordOf(v, record.id, record.createdAt)).records;
      && |after| == |db.records|
      && (forall i | 0 <= i < |after| && db.records[i].id != record.id :: after[i] == db.records[i])
      && (forall i | 0 <= i < |after| && db.records[i].id == record.id ::
            after[i].id == record.id && after[i].createdAt == record.createdAt && after[i].typeId == record.typeId)
  {
    TypeFixedOnEdit(db, record, data);
  }

  /** `record_delete`: an unknown key is a 404; a POST deletes the record and
      redirects; a GET shows the confirmation and changes nothing. */
  method RecordDelete(store: CashFlowStore, pk: nat, request: RequestMethod) returns (page: Page)
    requires store.Valid()
    modifies store
    ensures store.Valid()
    ensures var db := old(store.Snapshot());
      match Find(db.records, RecordId, pk)
      case None => page == NotFound && store.Snapshot() == db
      case Some(record) =>
        if request == Post then page == Redirect && store.Snapshot() == DeleteRecord(db, pk)
        else page == ConfirmDeletePage(record) && store.Snapshot() == db
    ensures store.nextId == old(store.nextId) && store.clock == old(store.clock)
  {
    var found := Find(store.records, RecordId, pk);
    if found.None? {
      return NotFound;
    }
    if request == Post {
      store.RemoveRecord(pk);
      return Redirect;
    }
    return ConfirmDeletePage(found.value);
  }

  // ---------------------------------------------------------------------------
  // get_categories_by_type, get_subcategories_by_category
  // ---------------------------------------------------------------------------

  /** One `{'id': ..., 'name': ...}` entry of the JSON list. */
  datatype Entry = Entry(id: nat, name: string)

  function CategoryEntry(c: Category): Entry { Entry(c.id, c.name) }
  function SubcategoryEntry(s: Subcategory): Entry { Entry(s.id, s.name) }

  function EntryOrder(e: Entry): seq<int> { Codes(e.name) }

  /** `get_categories_by_type`: the categories of the type as entries, by
      name. */
  function CategoriesByType(db: Db, typeId: nat): (r: seq<Entry>)
    ensures forall c | c in db.categories && c.typeId == typeId :: CategoryEntry(c) in r
    ensures forall e | e in r :: exists c | c in db.categories :: c.typeId == typeId && CategoryEntry(c) == e
    ensures (forall c | c in db.categories :: c.typeId != typeId) ==> r == []
    ensures SortedBy(r, EntryOrder)
  {
    var cs := CategoriesForType(db, typeId);
    var r := MapSeq(cs, CategoryEntry);
    forall c | c in cs ensures CategoryEntry(c) in r {
      var i :| 0 <= i < |cs| && cs[i] == c;
      assert r[i] == CategoryEntry(c);
    }
    forall e | e in r ensures exists c | c in db.categories :: c.typeId == typeId && CategoryEntry(c) == e {
      var i :| 0 <= i < |r| && r[i] == e;
      assert cs[i] in cs;
    }
    assert cs != [] ==> cs[0] in cs;
    r
  }

  /** `get_subcategories_by_category`: the subcategories of the category as
      entries, by name. */
  function SubcategoriesByCategory(db: Db, categoryId: nat): (r: seq<Entry>)
    ensures forall s | s in db.subcategories && s.categoryId == categoryId :: SubcategoryEntry(s) in r
    ensures forall e | e in r :: exists s | s in db.subcategories :: s.categoryId == categoryId && SubcategoryEntry(s) == e
    ensures (forall s | s in db.subcategories :: s.categoryId != categoryId) ==> r == []
    ensures SortedBy(r, EntryOrder)
  {
    var ss := SubcategoriesForCategory(db, categoryId);
    var r := MapSeq(ss, SubcategoryEntry);
    forall s | s in ss ensures SubcategoryEntry(s) in r {
      var i :| 0 <= i < |ss| && ss[i] == s;
      assert r[i] == SubcategoryEntry(s);
    }
    forall e | e in r ensures exists s | s in db.subcategories :: s.categoryId == categoryId && SubcategoryEntry(s) == e {
      var i :| 0 <= i < |r| && r[i] == e;
      assert ss[i] in ss;
    }
    assert ss != [] ==> ss[0] in ss;
    r
  }

  // ---------------------------------------------------------------------------
  // directory_management
  // ---------------------------------------------------------------------------

  /** `category__name` of a subcategory. */
  function CategoryNameOf(db: Db, s: Subcategory): string {
    match Find(db.categories, CategoryId, s.categoryId)
    case Some(c) => c.name
    case None => ""
  }

  /** The key of `order_by('category__name', 'name')`. */
  function ByCategoryThenName(db: Db): Subcategory -> seq<int> {
    (s: Subcategory) => Codes(CategoryNameOf(db, s)) + [-1] + Codes(s.name)
  }

  datatype Directories = Directories(
    statuses: seq<Status>, types: seq<FlowType>, categories: seq<Category>, subcategories: seq<Subcategory>)

  /** `directory_management`: every row of the four directories, statuses,
      types and categories by name, subcategories by their category's name
      and then by name. */
  function DirectoryManagement(db: Db): (r: Directories)
    ensures multiset(r.statuses) == multiset(db.statuses) && SortedBy(r.statuses, StatusOrder)
    ensures multiset(r.types) == multiset(db.types) && SortedBy(r.types, TypeOrder)
    ensures multiset(r.categories) == multiset(db.categories) && SortedBy(r.categories, CategoryOrder)
    ensures multiset(r.subcategories) == multiset(db.subcategories)
    ensures forall i, j | 0 <= i < j < |r.subcategories| ::
      var a, b := r.subcategories[i], r.subcategories[j];
      LexLe(Codes(CategoryNameOf(db, a)), Codes(CategoryNameOf(db, b)))
      && (CategoryNameOf(db, a) == CategoryNameOf(db, b) ==> LexLe(Codes(a.name), Codes(b.name)))
  {
    var subs := SortByKey(db.subcategories, ByCategoryThenName(db));
    forall i, j | 0 <= i < j < |subs|
      ensures LexLe(Codes(CategoryNameOf(db, subs[i])), Codes(CategoryNameOf(db, subs[j])))
      ensures CategoryNameOf(db, subs[i]) == CategoryNameOf(db, subs[j]) ==> LexLe(Codes(subs[i].name), Codes(subs[j].name))
    {
      var a, b := subs[i], subs[j];
      PairKeyOrder(Codes(CategoryNameOf(db, a)), Codes(a.name), Codes(CategoryNameOf(db, b)), Codes(b.name));
    }
    Directories(
      SortByKey(db.statuses, StatusOrder), SortByKey(db.types, TypeOrder),
      SortByKey(db.categories, CategoryOrder), subs)
  }
}
