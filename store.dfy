/**
 * The database behind the models: five tables, the constraints the schema
 * declares (unique names, unique (name, category) for subcategories,
 * foreign keys with ON DELETE CASCADE) and the link rule of
 * `CashFlowRecord.clean`, kept as one invariant. Deletes are pure functions
 * on a snapshot of the tables; the `CashFlowStore` class applies them in place.
 */
module Store {
  import opened Wrappers
  import opened Text
  import opened Ordering
  import opened Models

  datatype Db = Db(
    statuses: seq<Status>, types: seq<FlowType>, categories: seq<Category>,
    subcategories: seq<Subcategory>, records: seq<CashFlowRecord>)

  // ---------------------------------------------------------------------------
  // Keys
  // ---------------------------------------------------------------------------

  function StatusId(s: Status): nat { s.id }
  function StatusName(s: Status): string { s.name }
  function TypeId(t: FlowType): nat { t.id }
  function TypeName(t: FlowType): string { t.name }
  function CategoryId(c: Category): nat { c.id }
  function CategoryName(c: Category): string { c.name }
  function SubcategoryId(s: Subcategory): nat { s.id }
  /** The `unique_together = ['name', 'category']` key. */
  function SubcategoryKey(s: Subcategory): (string, nat) { (s.name, s.categoryId) }
  function RecordId(r: CashFlowRecord): nat { r.id }

  function StatusIds(db: Db): set<nat> { set s | s in db.statuses :: s.id }
  function TypeIds(db: Db): set<nat> { set t | t in db.types :: t.id }
  function CategoryIds(db: Db): set<nat> { set c | c in db.categories :: c.id }
  function SubcategoryIds(db: Db): set<nat> { set s | s in db.subcategories :: s.id }
  function RecordIds(db: Db): set<nat> { set r | r in db.records :: r.id }

  // ---------------------------------------------------------------------------
  // The invariant
  // ---------------------------------------------------------------------------

  /** Primary keys, the unique names and the unique subcategory pairs. */
  predicate UniqueKeys(db: Db) {
    && DistinctBy(db.statuses, StatusId) && DistinctBy(db.statuses, StatusName)
    && DistinctBy(db.types, TypeId) && DistinctBy(db.types, TypeName)
    && DistinctBy(db.categories, CategoryId) && DistinctBy(db.categories, CategoryName)
    && DistinctBy(db.subcategories, SubcategoryId) && DistinctBy(db.subcategories, SubcategoryKey)
    && DistinctBy(db.records, RecordId)
  }

  /** Every record references an existing status, type, category and subcategory. */
  predicate RecordRefersTo(db: Db, r: CashFlowRecord) {
    && r.statusId in StatusIds(db) && r.typeId in TypeIds(db)
    && r.categoryId in CategoryIds(db) && r.subcategoryId in SubcategoryIds(db)
  }

  /** No row references a missing parent. */
  predicate ReferencesResolve(db: Db) {
    && (forall c | c in db.categories :: c.typeId in TypeIds(db))
    && (forall s | s in db.subcategories :: s.categoryId in CategoryIds(db))
    && (forall r | r in db.records :: RecordRefersTo(db, r))
  }

  /** A record's subcategory lies in its category and its category is of its type. */
  predicate RecordLinked(db: Db, r: CashFlowRecord) {
    && (forall s | s in db.subcategories && s.id == r.subcategoryId :: s.categoryId == r.categoryId)
    && (forall c | c in db.categories && c.id == r.categoryId :: c.typeId == r.typeId)
  }

  /** A stored amount is one the amount validators accept. */
  predicate AmountInRange(cents: nat) {
    1 <= cents < Pow10(12)
  }

  predicate ValidDb(db: Db) {
    && UniqueKeys(db)
    && ReferencesResolve(db)
    && (forall r | r in db.records :: RecordLinked(db, r) && AmountInRange(r.cents))
  }

  // ---------------------------------------------------------------------------
  // Lookups by primary key
  // ---------------------------------------------------------------------------

  /** `objects.filter(pk=k).first()`. */
  function Find<T>(s: seq<T>, id: T -> nat, k: nat): (r: Option<T>)
    ensures r.Some? ==> r.value in s && id(r.value) == k
    ensures r.None? <==> forall x | x in s :: id(x) != k
  {
    if s == [] then None
    else if id(s[0]) == k then Some(s[0])
    else
      var r := Find(s[1..], id, k);
      assert forall x | x in s :: x == s[0] || x in s[1..];
      r
  }

  /** With a unique key the found row is the only row with that key. */
  lemma FindUnique<T>(s: seq<T>, id: T -> nat, x: T)
    requires DistinctBy(s, id) && x in s
    ensures Find(s, id, id(x)) == Some(x)
  {
    var y := Find(s, id, id(x)).value;
    var i :| 0 <= i < |s| && s[i] == x;
    var j :| 0 <= j < |s| && s[j] == y;
    assert i == j;
  }

  /** The objects `clean` sees for a record: its subcategory, category and type. */
  function RecordLinks(db: Db, r: CashFlowRecord): Option<LinkError> {
    CheckLinks(
      Find(db.subcategories, SubcategoryId, r.subcategoryId),
      Find(db.categories, CategoryId, r.categoryId),
      Find(db.types, TypeId, r.typeId))
  }

  /** Every stored record passes `CashFlowRecord.clean` and refers to rows
      that exist. */
  lemma StoredRecordsPassClean(db: Db, r: CashFlowRecord)
    requires ValidDb(db) && r in db.records
    ensures RecordLinks(db, r) == None
    ensures Find(db.subcategories, SubcategoryId, r.subcategoryId).Some?
    ensures Find(db.categories, CategoryId, r.categoryId).Some?
    ensures Find(db.types, TypeId, r.typeId).Some?
  {
    assert RecordRefersTo(db, r);
    var s :| s in db.subcategories && s.id == r.subcategoryId;
    var c :| c in db.categories && c.id == r.categoryId;
    var t :| t in db.types && t.id == r.typeId;
    FindUnique(db.subcategories, SubcategoryId, s);
    FindUnique(db.categories, CategoryId, c);
    FindUnique(db.types, TypeId, t);
  }

  // ---------------------------------------------------------------------------
  // Cascading deletes
  // ---------------------------------------------------------------------------

  /** Deleting a status removes it and its records. */
  function DeleteStatus(db: Db, id: nat): Db {
    db.(statuses := Filter(db.statuses, (s: Status) => s.id != id),
        records := Filter(db.records, (r: CashFlowRecord) => r.statusId != id))
  }

  /** Ids of the categories of type `id`. */
  function CategoriesOfType(db: Db, id: nat): set<nat> {
    set c | c in db.categories && c.typeId == id :: c.id
  }

  /** Ids of the subcategories whose category is among `cats`. */
  function SubcategoriesIn(db: Db, cats: set<nat>): set<nat> {
    set s | s in db.subcategories && s.categoryId in cats :: s.id
  }

  /** Deleting a type removes it, its categories, their subcategories, and
      every record that references any of them. */
  function DeleteType(db: Db, id: nat): Db {
    var cats := CategoriesOfType(db, id);
    var subs := SubcategoriesIn(db, cats);
    Db(db.statuses,
       Filter(db.types, (t: FlowType) => t.id != id),
       Filter(db.categories, (c: Category) => c.typeId != id),
       Filter(db.subcategories, (s: Subcategory) => s.categoryId !in cats),
       Filter(db.records, (r: CashFlowRecord) => r.typeId != id && r.categoryId !in cats && r.subcategoryId !in subs))
  }

  /** Deleting a category removes it, its subcategories and every record that
      references either. */
  function DeleteCategory(db: Db, id: nat): Db {
    var subs := SubcategoriesIn(db, {id});
    db.(categories := Filter(db.categories, (c: Category) => c.id != id),
        subcategories := Filter(db.subcategories, (s: Subcategory) => s.categoryId != id),
        records := Filter(db.records, (r: CashFlowRecord) => r.categoryId != id && r.subcategoryId !in subs))
  }

  /** Deleting a subcategory removes it and its records. */
  function DeleteSubcategory(db: Db, id: nat): Db {
    db.(subcategories := Filter(db.subcategories, (s: Subcategory) => s.id != id),
        records := Filter(db.records, (r: CashFlowRecord) => r.subcategoryId != id))
  }

  function DeleteRecord(db: Db, id: nat): Db {
    db.(records := Filter(db.records, (r: CashFlowRecord) => r.id != id))
  }

  /** Every table of `small` holds only rows of the same table of `db`. */
  predicate Within(small: Db, db: Db) {
    && (forall x | x in small.statuses :: x in db.statuses)
    && (forall x | x in small.types :: x in db.types)
    && (forall x | x in small.categories :: x in db.categories)
    && (forall x | x in small.subcategories :: x in db.subcategories)
    && (forall x | x in small.records :: x in db.records)
  }

  /** Link rules and amounts only speak of rows that are present, so they
      survive the loss of rows. */
  lemma LinkedShrink(db: Db, small: Db)
    requires forall r | r in db.records :: RecordLinked(db, r) && AmountInRange(r.cents)
    requires Within(small, db)
    ensures forall r | r in small.records :: RecordLinked(small, r) && AmountInRange(r.cents)
  {
  }

  lemma DeleteStatusValid(db: Db, id: nat)
    requires ValidDb(db)
    ensures ValidDb(DeleteStatus(db, id)) && Within(DeleteStatus(db, id), db)
  {
    var sp := (s: Status) => s.id != id;
    var rp := (r: CashFlowRecord) => r.statusId != id;
    var small := DeleteStatus(db, id);
    FilterDistinct(db.statuses, sp, StatusId);
    FilterDistinct(db.statuses, sp, StatusName);
    FilterDistinct(db.records, rp, RecordId);
    FilterSubset(db.statuses, sp);
    FilterSubset(db.records, rp);
    forall r | r in small.records ensures RecordRefersTo(small, r) {
      assert RecordRefersTo(db, r);
      var s :| s in db.statuses && s.id == r.statusId;
      assert s in small.statuses;
    }
    LinkedShrink(db, small);
  }

  lemma DeleteTypeValid(db: Db, id: nat)
    requires ValidDb(db)
    ensures ValidDb(DeleteType(db, id)) && Within(DeleteType(db, id), db)
  {
    var cats := CategoriesOfType(db, id);
    var subs := SubcategoriesIn(db, cats);
    var tp := (t: FlowType) => t.id != id;
    var cp := (c: Category) => c.typeId != id;
    var subp := (s: Subcategory) => s.categoryId !in cats;
    var rp := (r: CashFlowRecord) => r.typeId != id && r.categoryId !in cats && r.subcategoryId !in subs;
    var small := DeleteType(db, id);
    FilterDistinct(db.types, tp, TypeId);
    FilterDistinct(db.types, tp, TypeName);
    FilterDistinct(db.categories, cp, CategoryId);
    FilterDistinct(db.categories, cp, CategoryName);
    FilterDistinct(db.subcategories, subp, SubcategoryId);
    FilterDistinct(db.subcategories, subp, SubcategoryKey);
    FilterDistinct(db.records, rp, RecordId);
    FilterSubset(db.types, tp);
    FilterSubset(db.categories, cp);
    FilterSubset(db.subcategories, subp);
    FilterSubset(db.records, rp);
    forall c | c in small.categories ensures c.typeId in TypeIds(small) {
      var t :| t in db.types && t.id == c.typeId;
      assert t in small.types;
    }
    forall s | s in small.subcategories ensures s.categoryId in CategoryIds(small) {
      var c :| c in db.categories && c.id == s.categoryId;
      assert c.typeId != id;
      assert c in small.categories;
    }
    forall r | r in small.records ensures RecordRefersTo(small, r) {
      assert RecordRefersTo(db, r);
      var t :| t in db.types && t.id == r.typeId;
      var c :| c in db.categories && c.id == r.categoryId;
      var s :| s in db.subcategories && s.id == r.subcategoryId;
      assert t in small.types;
      assert c in small.categories;
      assert s in small.subcategories;
    }
    LinkedShrink(db, small);
  }

  lemma DeleteCategoryValid(db: Db, id: nat)
    requires ValidDb(db)
    ensures ValidDb(DeleteCategory(db, id)) && Within(DeleteCategory(db, id), db)
  {
    var subs := SubcategoriesIn(db, {id});
    var cp := (c: Category) => c.id != id;
    var subp := (s: Subcategory) => s.categoryId != id;
    var rp := (r: CashFlowRecord) => r.categoryId != id && r.subcategoryId !in subs;
    var small := DeleteCategory(db, id);
    FilterDistinct(db.categories, cp, CategoryId);
    FilterDistinct(db.categories, cp, CategoryName);
    FilterDistinct(db.subcategories, subp, SubcategoryId);
    FilterDistinct(db.subcategories, subp, SubcategoryKey);
    FilterDistinct(db.records, rp, RecordId);
    FilterSubset(db.categories, cp);
    FilterSubset(db.subcategories, subp);
    FilterSubset(db.records, rp);
    forall s | s in small.subcategories ensures s.categoryId in CategoryIds(small) {
      var c :| c in db.categories && c.id == s.categoryId;
      assert c in small.categories;
    }
    forall r | r in small.records ensures RecordRefersTo(small, r) {
      assert RecordRefersTo(db, r);
      var c :| c in db.categories && c.id == r.categoryId;
      var s :| s in db.subcategories && s.id == r.subcategoryId;
      assert c in small.categories;
      assert s in small.subcategories;
    }
    LinkedShrink(db, small);
  }

  lemma DeleteSubcategoryValid(db: Db, id: nat)
    requires ValidDb(db)
    ensures ValidDb(DeleteSubcategory(db, id)) && Within(DeleteSubcategory(db, id), db)
  {
    var subp := (s: Subcategory) => s.id != id;
    var rp := (r: CashFlowRecord) => r.subcategoryId != id;
    var small := DeleteSubcategory(db, id);
    FilterDistinct(db.subcategories, subp, SubcategoryId);
    FilterDistinct(db.subcategories, subp, SubcategoryKey);
    FilterDistinct(db.records, rp, RecordId);
    FilterSubset(db.subcategories, subp);
    FilterSubset(db.records, rp);
    forall r | r in small.records ensures RecordRefersTo(small, r) {
      assert RecordRefersTo(db, r);
      var s :| s in db.subcategories && s.id == r.subcategoryId;
      assert s in small.subcategories;
    }
    LinkedShrink(db, small);
  }

  lemma DeleteRecordValid(db: Db, id: nat)
    requires ValidDb(db)
    ensures ValidDb(DeleteRecord(db, id)) && Within(DeleteRecord(db, id), db)
  {
    var rp := (r: CashFlowRecord) => r.id != id;
    FilterDistinct(db.records, rp, RecordId);
    FilterSubset(db.records, rp);
    LinkedShrink(db, DeleteRecord(db, id));
  }

  /** Ids in use stay below the counter, and creation stamps below the clock,
      when rows are removed. */
  lemma Shrunk(small: Db, db: Db, n: nat, clock: nat)
    requires Within(small, db) && IdsBelow(db, n)
    requires forall r | r in db.records :: r.createdAt < clock
    ensures IdsBelow(small, n)
    ensures forall r | r in small.records :: r.createdAt < clock
  {
  }

  /** Replacing a record by one with the same id and stamp keeps ids below
      the counter and stamps below the clock. */
  lemma Replaced(db: Db, r: CashFlowRecord, n: nat, clock: nat)
    requires IdsBelow(db, n) && forall x | x in db.records :: x.createdAt < clock
    requires exists x | x in db.records :: x.id == r.id && x.createdAt == r.createdAt
    ensures IdsBelow(UpdateRecord(db, r), n)
    ensures forall y | y in UpdateRecord(db, r).records :: y.createdAt < clock
  {
    var out := UpdateRecord(db, r).records;
    forall y | y in out ensures y.id < n && y.createdAt < clock {
      var i :| 0 <= i < |out| && out[i] == y;
      assert db.records[i] in db.records;
    }
  }

  /** In a valid database, deleting a type removes exactly the records of that
      type, the categories of that type and the subcategories of those
      categories; other tables keep their rows. */
  lemma DeleteTypeEffect(db: Db, id: nat)
    requires ValidDb(db)
    ensures var small := DeleteType(db, id);
      && small.statuses == db.statuses
      && (forall r :: r in small.records <==> r in db.records && r.typeId != id)
      && (forall c :: c in small.categories <==> c in db.categories && c.typeId != id)
      && (forall s :: s in small.subcategories <==> s in db.subcategories && s.categoryId !in CategoriesOfType(db, id))
      && (forall t :: t in small.types <==> t in db.types && t.id != id)
  {
    var cats := CategoriesOfType(db, id);
    var subs := SubcategoriesIn(db, cats);
    var rp := (r: CashFlowRecord) => r.typeId != id && r.categoryId !in cats && r.subcategoryId !in subs;
    FilterSubset(db.types, (t: FlowType) => t.id != id);
    FilterSubset(db.categories, (c: Category) => c.typeId != id);
    FilterSubset(db.subcategories, (s: Subcategory) => s.categoryId !in cats);
    FilterSubset(db.records, rp);
    forall r | r in db.records && r.typeId != id ensures rp(r) {
      assert RecordLinked(db, r);
    }
  }

  /** In a valid database, deleting a status removes exactly its records. */
  lemma DeleteStatusEffect(db: Db, id: nat)
    ensures var small := DeleteStatus(db, id);
      && small.types == db.types && small.categories == db.categories
      && small.subcategories == db.subcategories
      && (forall r :: r in small.records <==> r in db.records && r.statusId != id)
      && (forall s :: s in small.statuses <==> s in db.statuses && s.id != id)
  {
    FilterSubset(db.statuses, (s: Status) => s.id != id);
    FilterSubset(db.records, (r: CashFlowRecord) => r.statusId != id);
  }

  /** In a valid database, deleting a category removes exactly the records of
      that category, the category and its subcategories. */
  lemma DeleteCategoryEffect(db: Db, id: nat)
    requires ValidDb(db)
    ensures var small := DeleteCategory(db, id);
      && small.statuses == db.statuses && small.types == db.types
      && (forall r :: r in small.records <==> r in db.records && r.categoryId != id)
      && (forall c :: c in small.categories <==> c in db.categories && c.id != id)
      && (forall s :: s in small.subcategories <==> s in db.subcategories && s.categoryId != id)
  {
    var subs := SubcategoriesIn(db, {id});
    var rp := (r: CashFlowRecord) => r.categoryId != id && r.subcategoryId !in subs;
    FilterSubset(db.categories, (c: Category) => c.id != id);
    FilterSubset(db.subcategories, (s: Subcategory) => s.categoryId != id);
    FilterSubset(db.records, rp);
    forall r | r in db.records && r.categoryId != id ensures rp(r) {
      assert RecordLinked(db, r);
    }
  }

  // ---------------------------------------------------------------------------
  // Inserting rows
  // ---------------------------------------------------------------------------

  /** The database refuses a row that breaks a unique or foreign-key constraint. */
  datatype IntegrityError = DuplicateName | MissingParent

  function AddStatus(db: Db, id: nat, name: string, description: string): (r: Result<Db, IntegrityError>)
    ensures r.Err? <==> exists s | s in db.statuses :: s.name == name
  {
    if exists s | s in db.statuses :: s.name == name then Err(DuplicateName)
    else Ok(db.(statuses := db.statuses + [Status(id, name, description)]))
  }

  function AddType(db: Db, id: nat, name: string, description: string): (r: Result<Db, IntegrityError>)
    ensures r.Err? <==> exists t | t in db.types :: t.name == name
  {
    if exists t | t in db.types :: t.name == name then Err(DuplicateName)
    else Ok(db.(types := db.types + [FlowType(id, name, description)]))
  }

  function AddCategory(db: Db, id: nat, name: string, typeId: nat, description: string)
    : (r: Result<Db, IntegrityError>)
    ensures r == Err(DuplicateName) <==> exists c | c in db.categories :: c.name == name
    ensures r == Err(MissingParent) <==>
              (forall c | c in db.categories :: c.name != name) && typeId !in TypeIds(db)
  {
    if exists c | c in db.categories :: c.name == name then Err(DuplicateName)
    else if typeId !in TypeIds(db) then Err(MissingParent)
    else Ok(db.(categories := db.categories + [Category(id, name, typeId, description)]))
  }

  /** A subcategory is refused only when its category already has one of that
      name; the same name under another category is accepted. */
  function AddSubcategory(db: Db, id: nat, name: string, categoryId: nat, description: string)
    : (r: Result<Db, IntegrityError>)
    ensures r == Err(DuplicateName) <==>
              exists s | s in db.subcategories :: s.name == name && s.categoryId == categoryId
    ensures r == Err(MissingParent) <==>
              (forall s | s in db.subcategories :: s.name != name || s.categoryId != categoryId)
              && categoryId !in CategoryIds(db)
  {
    if exists s | s in db.subcategories :: s.name == name && s.categoryId == categoryId then Err(DuplicateName)
    else if categoryId !in CategoryIds(db) then Err(MissingParent)
    else Ok(db.(subcategories := db.subcategories + [Subcategory(id, name, categoryId, description)]))
  }

  /** Appending a row whose key is new keeps the keys distinct. */
  lemma AppendDistinct<T, K>(s: seq<T>, x: T, key: T -> K)
    requires DistinctBy(s, key) && forall y | y in s :: key(y) != key(x)
    ensures DistinctBy(s + [x], key)
  {
    forall i, j | 0 <= i < j < |s + [x]| ensures key((s + [x])[i]) != key((s + [x])[j]) {
      if j == |s| {
        assert (s + [x])[i] == s[i];
      } else {
        assert (s + [x])[i] == s[i] && (s + [x])[j] == s[j];
      }
    }
  }

  /** Adding a row with a fresh id keeps the database valid. */
  lemma AddSubcategoryValid(db: Db, id: nat, name: string, categoryId: nat, description: string)
    requires ValidDb(db) && id !in SubcategoryIds(db)
    requires AddSubcategory(db, id, name, categoryId, description).Ok?
    ensures ValidDb(AddSubcategory(db, id, name, categoryId, description).value)
  {
    var x := Subcategory(id, name, categoryId, description);
    AppendDistinct(db.subcategories, x, SubcategoryId);
    AppendDistinct(db.subcategories, x, SubcategoryKey);
    var big := AddSubcategory(db, id, name, categoryId, description).value;
    assert forall r | r in big.records :: RecordRefersTo(big, r) by {
      assert SubcategoryIds(db) <= SubcategoryIds(big);
    }
  }

  lemma AddCategoryValid(db: Db, id: nat, name: string, typeId: nat, description: string)
    requires ValidDb(db) && id !in CategoryIds(db)
    requires AddCategory(db, id, name, typeId, description).Ok?
    ensures ValidDb(AddCategory(db, id, name, typeId, description).value)
  {
    var x := Category(id, name, typeId, description);
    AppendDistinct(db.categories, x, CategoryId);
    AppendDistinct(db.categories, x, CategoryName);
    var big := AddCategory(db, id, name, typeId, description).value;
    assert CategoryIds(db) <= CategoryIds(big);
  }

  lemma AddTypeValid(db: Db, id: nat, name: string, description: string)
    requires ValidDb(db) && id !in TypeIds(db)
    requires AddType(db, id, name, description).Ok?
    ensures ValidDb(AddType(db, id, name, description).value)
  {
    var x := FlowType(id, name, description);
    AppendDistinct(db.types, x, TypeId);
    AppendDistinct(db.types, x, TypeName);
    var big := AddType(db, id, name, description).value;
    assert TypeIds(db) <= TypeIds(big);
  }

  lemma AddStatusValid(db: Db, id: nat, name: string, description: string)
    requires ValidDb(db) && id !in StatusIds(db)
    requires AddStatus(db, id, name, description).Ok?
    ensures ValidDb(AddStatus(db, id, name, description).value)
  {
    var x := Status(id, name, description);
    AppendDistinct(db.statuses, x, StatusId);
    AppendDistinct(db.statuses, x, StatusName);
    var big := AddStatus(db, id, name, description).value;
    assert StatusIds(db) <= StatusIds(big);
  }

  /** What a record must satisfy to be stored: its references resolve, its
      links pass `clean` and its amount passes the validators. */
  predicate Admissible(db: Db, r: CashFlowRecord) {
    RecordRefersTo(db, r) && RecordLinked(db, r) && AmountInRange(r.cents)
  }

  /** `save()` of a new record. */
  function InsertRecord(db: Db, r: CashFlowRecord): Db {
    db.(records := db.records + [r])
  }

  function ReplaceById(rs: seq<CashFlowRecord>, r: CashFlowRecord): (out: seq<CashFlowRecord>)
    ensures |out| == |rs|
    ensures forall i | 0 <= i < |rs| :: out[i] == if rs[i].id == r.id then r else rs[i]
  {
    if rs == [] then [] else [if rs[0].id == r.id then r else rs[0]] + ReplaceById(rs[1..], r)
  }

  /** `save()` of an edited record: the row with its id is replaced in place. */
  function UpdateRecord(db: Db, r: CashFlowRecord): Db {
    db.(records := ReplaceById(db.records, r))
  }

  lemma InsertRecordValid(db: Db, r: CashFlowRecord)
    requires ValidDb(db) && Admissible(db, r) && r.id !in RecordIds(db)
    ensures ValidDb(InsertRecord(db, r))
  {
    AppendDistinct(db.records, r, RecordId);
  }

  lemma UpdateRecordValid(db: Db, r: CashFlowRecord)
    requires ValidDb(db) && Admissible(db, r)
    ensures ValidDb(UpdateRecord(db, r))
  {
    var out := ReplaceById(db.records, r);
    forall i, j | 0 <= i < j < |out| ensures out[i].id != out[j].id {
      assert db.records[i].id != db.records[j].id;
    }
    assert DistinctBy(out, RecordId);
    forall x | x in out ensures Admissible(db, x) {
      var i :| 0 <= i < |out| && out[i] == x;
      assert db.records[i] in db.records;
    }
    RecordsReplacedValid(db, out);
  }

  /** Replacing the records by admissible ones with distinct ids keeps the
      store valid. */
  lemma RecordsReplacedValid(db: Db, records: seq<CashFlowRecord>)
    requires ValidDb(db) && DistinctBy(records, RecordId)
    requires forall x | x in records :: Admissible(db, x)
    ensures ValidDb(db.(records := records))
  {
    var db' := db.(records := records);
    assert StatusIds(db') == StatusIds(db) && TypeIds(db') == TypeIds(db);
    assert CategoryIds(db') == CategoryIds(db) && SubcategoryIds(db') == SubcategoryIds(db);
  }

  /** Every id in use is below `n`, so `n` and above are free. */
  predicate IdsBelow(db: Db, n: nat) {
    && (forall x | x in db.statuses :: x.id < n)
    && (forall x | x in db.types :: x.id < n)
    && (forall x | x in db.categories :: x.id < n)
    && (forall x | x in db.subcategories :: x.id < n)
    && (forall x | x in db.records :: x.id < n)
  }

  // ---------------------------------------------------------------------------
  // Re-parenting edits
  // ---------------------------------------------------------------------------

  /** Saving `CategoryForm` in `category_edit` (or the admin change form) with
      another type: the category's row is changed, its records are not. */
  function RetypeCategory(db: Db, id: nat, typeId: nat): (r: Db)
    ensures |r.categories| == |db.categories|
    ensures forall i | 0 <= i < |db.categories| ::
      r.categories[i] == if db.categories[i].id == id then db.categories[i].(typeId := typeId) else db.categories[i]
    ensures r.(categories := db.categories) == db
  {
    db.(categories := MapSeq(db.categories, (c: Category) => if c.id == id then c.(typeId := typeId) else c))
  }

  /** After such an edit a record of that category no longer has its
      category's type, so it fails `CashFlowRecord.clean`: the source does
      not keep the store consistent. */
  lemma RetypeCategoryUnlinks(db: Db, id: nat, typeId: nat, r: CashFlowRecord)
    requires id in CategoryIds(db) && r.categoryId == id && r.typeId != typeId
    ensures !RecordLinked(RetypeCategory(db, id, typeId), r)
  {
    var c :| c in db.categories && c.id == id;
    var i :| 0 <= i < |db.categories| && db.categories[i] == c;
    var after := RetypeCategory(db, id, typeId).categories[i];
    assert after in RetypeCategory(db, id, typeId).categories && after.id == id && after.typeId == typeId;
  }

  /** Saving `SubcategoryForm` in `subcategory_edit` with another category. */
  function MoveSubcategory(db: Db, id: nat, categoryId: nat): (r: Db)
    ensures |r.subcategories| == |db.subcategories|
    ensures forall i | 0 <= i < |db.subcategories| ::
      r.subcategories[i] ==
        if db.subcategories[i].id == id then db.subcategories[i].(categoryId := categoryId) else db.subcategories[i]
    ensures r.(subcategories := db.subcategories) == db
  {
    db.(subcategories := MapSeq(db.subcategories,
      (s: Subcategory) => if s.id == id then s.(categoryId := categoryId) else s))
  }

  /** After such an edit a record of that subcategory no longer lies in its
      subcategory's category. */
  lemma MoveSubcategoryUnlinks(db: Db, id: nat, categoryId: nat, r: CashFlowRecord)
    requires id in SubcategoryIds(db) && r.subcategoryId == id && r.categoryId != categoryId
    ensures !RecordLinked(MoveSubcategory(db, id, categoryId), r)
  {
    var s :| s in db.subcategories && s.id == id;
    var i :| 0 <= i < |db.subcategories| && db.subcategories[i] == s;
    var after := MoveSubcategory(db, id, categoryId).subcategories[i];
    assert after in MoveSubcategory(db, id, categoryId).subcategories && after.id == id && after.categoryId == categoryId;
  }

  // ---------------------------------------------------------------------------
  // The store
  // ---------------------------------------------------------------------------

  /** The tables as mutable state. Ids come from one counter and the
      creation stamp of records from a clock that only moves forward. */
  class CashFlowStore {
    var statuses: seq<Status>
    var types: seq<FlowType>
    var categories: seq<Category>
    var subcategories: seq<Subcategory>
    var records: seq<CashFlowRecord>
    var nextId: nat
    var clock: nat

    function Snapshot(): Db
      reads this
    {
      Db(statuses, types, categories, subcategories, records)
    }

    predicate Valid()
      reads this
    {
      && ValidDb(Snapshot())
      && IdsBelow(Snapshot(), nextId)
      && (forall r | r in records :: r.createdAt < clock)
    }

    constructor()
      ensures Valid() && Snapshot() == Db([], [], [], [], [])
    {
      statuses, types, categories, subcategories, records := [], [], [], [], [];
      nextId, clock := 0, 0;
    }

    method CreateStatus(name: string, description: string) returns (r: Result<nat, IntegrityError>)
      requires Valid()
      modifies this
      ensures Valid()
      ensures match AddStatus(old(Snapshot()), old(nextId), name, description)
        case Ok(db) => r == Ok(old(nextId)) && Snapshot() == db && nextId == old(nextId) + 1
        case Err(e) => r == Err(e) && Snapshot() == old(Snapshot()) && nextId == old(nextId)
      ensures clock == old(clock)
    {
      match AddStatus(Snapshot(), nextId, name, description)
      case Ok(db) =>
        AddStatusValid(Snapshot(), nextId, name, description);
        statuses := db.statuses;
        r := Ok(nextId);
        nextId := nextId + 1;
      case Err(e) =>
        r := Err(e);
    }

    method CreateType(name: string, description: string) returns (r: Result<nat, IntegrityError>)
      requires Valid()
      modifies this
      ensures Valid()
      ensures match AddType(old(Snapshot()), old(nextId), name, description)
        case Ok(db) => r == Ok(old(nextId)) && Snapshot() == db && nextId == old(nextId) + 1
        case Err(e) => r == Err(e) && Snapshot() == old(Snapshot()) && nextId == old(nextId)
      ensures clock == old(clock)
    {
      match AddType(Snapshot(), nextId, name, description)
      case Ok(db) =>
        AddTypeValid(Snapshot(), nextId, name, description);
        types := db.types;
        r := Ok(nextId);
        nextId := nextId + 1;
      case Err(e) =>
        r := Err(e);
    }

    method CreateCategory(name: string, typeId: nat, description: string) returns (r: Result<nat, IntegrityError>)
      requires Valid()
      modifies this
      ensures Valid()
      ensures match AddCategory(old(Snapshot()), old(nextId), name, typeId, description)
        case Ok(db) => r == Ok(old(nextId)) && Snapshot() == db && nextId == old(nextId) + 1
        case Err(e) => r == Err(e) && Snapshot() == old(Snapshot()) && nextId == old(nextId)
      ensures clock == old(clock)
    {
      match AddCategory(Snapshot(), nextId, name, typeId, description)
      case Ok(db) =>
        AddCategoryValid(Snapshot(), nextId, name, typeId, description);
        categories := db.categories;
        r := Ok(nextId);
        nextId := nextId + 1;
      case Err(e) =>
        r := Err(e);
    }

    method CreateSubcategory(name: string, categoryId: nat, description: string)
      returns (r: Result<nat, IntegrityError>)
      requires Valid()
      modifies this
      ensures Valid()
      ensures match AddSubcategory(old(Snapshot()), old(nextId), name, categoryId, description)
        case Ok(db) => r == Ok(old(nextId)) && Snapshot() == db && nextId == old(nextId) + 1
        case Err(e) => r == Err(e) && Snapshot() == old(Snapshot()) && nextId == old(nextId)
      ensures clock == old(clock)
    {
      match AddSubcategory(Snapshot(), nextId, name, categoryId, description)
      case Ok(db) =>
        AddSubcategoryValid(Snapshot(), nextId, name, categoryId, description);
        subcategories := db.subcategories;
        r := Ok(nextId);
        nextId := nextId + 1;
      case Err(e) =>
        r := Err(e);
    }

    /** Stores a new record under a fresh id and the current time stamp. */
    method SaveNewRecord(date: Date, statusId: nat, typeId: nat, categoryId: nat, subcategoryId: nat,
                         cents: nat, comment: string) returns (id: nat)
      requires Valid()
      requires Admissible(Snapshot(), CashFlowRecord(0, date, statusId, typeId, categoryId, subcategoryId, cents, comment, 0))
      modifies this
      ensures Valid() && id == old(nextId)
      ensures Snapshot() == InsertRecord(old(Snapshot()),
        CashFlowRecord(id, date, statusId, typeId, categoryId, subcategoryId, cents, comment, old(clock)))
    {
      id := nextId;
      var r := CashFlowRecord(id, date, statusId, typeId, categoryId, subcategoryId, cents, comment, clock);
      InsertRecordValid(Snapshot(), r);
      records := records + [r];
      nextId := nextId + 1;
      clock := clock + 1;
    }

    /** Stores the edited fields of an existing record; id and creation stamp stay. */
    method SaveRecord(r: CashFlowRecord)
      requires Valid()
      requires exists x | x in records :: x.id == r.id && x.createdAt == r.createdAt
      requires Admissible(Snapshot(), r)
      modifies this
      ensures Valid() && Snapshot() == UpdateRecord(old(Snapshot()), r)
      ensures nextId == old(nextId) && clock == old(clock)
    {
      var before := Snapshot();
      UpdateRecordValid(before, r);
      Replaced(before, r, nextId, clock);
      Load(UpdateRecord(before, r));
    }

    method RemoveStatus(id: nat)
      requires Valid()
      modifies this
      ensures Valid() && Snapshot() == DeleteStatus(old(Snapshot()), id)
      ensures nextId == old(nextId) && clock == old(clock)
    {
      var before := Snapshot();
      DeleteStatusValid(before, id);
      Shrunk(DeleteStatus(before, id), before, nextId, clock);
      Load(DeleteStatus(before, id));
    }

    method RemoveType(id: nat)
      requires Valid()
      modifies this
      ensures Valid() && Snapshot() == DeleteType(old(Snapshot()), id)
      ensures nextId == old(nextId) && clock == old(clock)
    {
      var before := Snapshot();
      DeleteTypeValid(before, id);
      Shrunk(DeleteType(before, id), before, nextId, clock);
      Load(DeleteType(before, id));
    }

    /** Replaces the tables; counter and clock stay. */
    method Load(db: Db)
      modifies this
      ensures Snapshot() == db && nextId == old(nextId) && clock == old(clock)
    {
      statuses, types, categories, subcategories, records :=
        db.statuses, db.types, db.categories, db.subcategories, db.records;
    }

    method RemoveCategory(id: nat)
      requires Valid()
      modifies this
      ensures Valid() && Snapshot() == DeleteCategory(old(Snapshot()), id)
      ensures nextId == old(nextId) && clock == old(clock)
    {
      var before := Snapshot();
      DeleteCategoryValid(before, id);
      Shrunk(DeleteCategory(before, id), before, nextId, clock);
      Load(DeleteCategory(before, id));
    }

    method RemoveSubcategory(id: nat)
      requires Valid()
      modifies this
      ensures Valid() && Snapshot() == DeleteSubcategory(old(Snapshot()), id)
      ensures nextId == old(nextId) && clock == old(clock)
    {
      var before := Snapshot();
      DeleteSubcategoryValid(before, id);
      Shrunk(DeleteSubcategory(before, id), before, nextId, clock);
      Load(DeleteSubcategory(before, id));
    }

    method RemoveRecord(id: nat)
      requires Valid()
      modifies this
      ensures Valid() && Snapshot() == DeleteRecord(old(Snapshot()), id)
      ensures nextId == old(nextId) && clock == old(clock)
    {
      var before := Snapshot();
      DeleteRecordValid(before, id);
      Shrunk(DeleteRecord(before, id), before, nextId, clock);
      Load(DeleteRecord(before, id));
    }
  }
}
