# dds_manager core, modelled in Dafny

dds_manager is a Django application for keeping a cash-flow ledger ("ДДС"):
records of money coming in and going out, each tagged with a status, a
flow type, a category of that type and a subcategory of that category. This
project models the parts of its `core` application that carry logic and
proves what they promise:

- **Request threat filter** (`SQLInjectionProtectionMiddleware`). The GET and
  POST parameters are merged, every value is checked in order against three
  groups of patterns, and the first suspicious value gives a 403 and one
  audit event. Each regular expression is written out as a predicate over
  strings (literal needles, keywords between word boundaries, a keyword
  followed by optional spaces and a quote or operator). There is no regex
  engine.
- **Security headers** (`SecurityHeadersMiddleware`). The header map of a
  response is updated in place.
- **Taxonomy rules** (`models.py`). The link checks of `CashFlowRecord.clean`,
  the amount validators on two-place decimals held as integer cents, the
  unique names, the default orderings and the string forms. The database
  is a store class whose inserts and cascading deletes keep one invariant:
  keys are unique, every reference resolves, stored records pass `clean`,
  and amounts are in range.
- **Forms** (`forms.py`):
  - the injection validator and the escape-then-strip sanitiser;
  - the record form: its narrowed choices, its field checks and its link check;
  - the filter form: its narrowed choices and its date-range check;
  - the name and description hooks of the directory forms.
- **Views** (`views.py`):
  - the index page: the successive optional filters, the record count, the
    income and expense totals and the balance;
  - the create, edit and delete views, which write only on a valid POST;
  - the two lookup endpoints;
  - the ordering of the directory page.
- **Admin columns** (`admin.py`). Russian plural of the subcategory count,
  "category (type)", the amount with thousands separators, and the shortened
  comment.

Modules follow the source files: `Middleware`, `Models` with `Store`,
`Forms`, `Views` and `Admin`. Helper modules:
- `Wrappers` (Option, Result);
- `Text` (characters, ASCII lowercasing, `str.strip`, `str(n)`, `int(s)`);
- `Ordering` (lexicographic keys, `order_by`, `filter`);
- `Patterns` (the pattern tables and what each pattern matches).

Where the code and its documentation disagree, the model follows the code:
- `clean` reports only the first broken link, not a list of them;
- the float comparison of the minimum amount is modelled as written (`Models.AmountErrorsAsWritten`) and shown to refuse one cent (see Findings); the record form uses the intended one-cent bound (see Left out).

## Model

| member | source | states |
|---|---|---|
| Middleware.CheckForAttacks | core/middleware.py:112-136 | the verdict is false for the empty value, and otherwise true exactly when some pattern of the SQL, XSS or authentication group matches the lowercased value |
| Middleware.SearchGroup | core/middleware.py:122-124 | one pattern loop returns true exactly when some pattern of the group matches |
| Middleware.FlaggedAsOneGroup | core/middleware.py:121-136 | any rearrangement of the three lists into one list gives the same verdict: list order only decides which loop returns |
| Middleware.XssGroupRedundant | core/middleware.py:38-49 | the verdict is the same with the XSS group removed, because every XSS pattern begins with `<`, which the SQL group already flags |
| Patterns.XssCoveredBySql | core/middleware.py:30 | whatever an XSS pattern matches, the angle-bracket pattern matches too |
| Middleware.DelimiterFlagged | core/middleware.py:28-30 | a value containing `'`, `"`, `;`, `--`, `/*`, `*/`, `<`, `>`, `&lt;` or `&gt;` is flagged |
| Middleware.WordValueFlagged | core/middleware.py:25-34 | a value made only of word characters is flagged exactly when its lowercased form is one of the SQL group's single keywords |
| Patterns.SqlOnWord | core/middleware.py:24-35 | on a bare word the SQL group matches exactly the listed keywords (phrases, tautologies and delimiters cannot match) |
| Middleware.PasswordFlagging | core/middleware.py:53-60 | "password" alone is not flagged; "password=" and "password'" are |
| Patterns.ProbeFound | core/middleware.py:53-60 | a listed keyword at a word boundary, followed by optional whitespace and one of the pattern's characters, always matches |
| Middleware.PutLookup | core/middleware.py:88 | after `d[name] = values` the name maps to the values and every other name to what it mapped to before |
| Middleware.PutIsDict | core/middleware.py:88 | assigning a key keeps the keys pairwise different |
| Middleware.UpdateLookup | core/middleware.py:84-92 | after `d.update(e)` a name has its values from `e` when `e` has it, else from `d` |
| Middleware.UpdateAppends | core/middleware.py:84-88 | updating with a dictionary whose keys are all new appends its entries in order, so `{}.update(GET)` is GET itself |
| Middleware.MergedParamsLookup | core/middleware.py:84-92 | after the two `update`s a name's values are POST's when POST has the name, else GET's; names stay distinct and GET's names come first |
| Middleware.AttackEventLogged | core/middleware.py:138-149 | the logged value is the whole value when it has at most 100 characters, and exactly its first 100 characters otherwise; address and user agent come from META, with "Unknown" when absent; URL and parameter name are recorded |
| Middleware.InspectValues | core/middleware.py:96-101 | the values of one parameter are inspected in order up to the first flagged one, which gives Forbid naming that value; with none flagged all are inspected and the request passes |
| Middleware.InspectParams | core/middleware.py:95-108 | values are inspected in order until the first flagged one; that one gives Forbid with its event, and nothing after it is inspected; with none flagged the request is allowed after inspecting all |
| Middleware.ProcessRequest | core/middleware.py:62-110 | when disabled or on an excluded path prefix the request is allowed and no value is inspected; otherwise the decision is the first flagged value of the merged parameters |
| Middleware.MiddlewareResponse | core/middleware.py:100-110 | an allowed request gets no response of the middleware, so the view runs; a refused one gets status 403 with the refusal message |
| Middleware.DropTableRefused | core/middleware.py:28 | a `search` parameter with the value `; DROP TABLE records; --` is the first flagged value |
| Middleware.SecuredHeaders | core/middleware.py:157-182 | the five fixed headers hold their values; HSTS is set on secure requests only; every other header is kept as it was |
| Middleware.SecuredHeadersIdempotent | core/middleware.py:157-182 | applying the header update twice gives the same headers as once |
| Middleware.Response.ProcessResponse | core/middleware.py:157-182 | the response's headers become the secured form of its old headers |
| Models.CheckLinks | core/models.py:98-112 | no error exactly when both links fit; the subcategory error exactly when the subcategory is outside the category; the type error exactly when only the category is outside the type; an unset link skips its check |
| Models.DecimalValidatorAccepts | core/models.py:80-82 | the decimal validator accepts exactly the amounts with at most two places and at most twelve digits |
| Models.AmountAccepted | core/models.py:80-85 | an amount passes exactly when it is non-negative, has at most two places and lies from one cent up to 10^12 - 1 cents |
| Models.ZeroAmountRejected | core/models.py:83 | 0.00 is refused by the minimum validator alone |
| Models.FloatBoundOnTwoPlaces | core/models.py:83 | for a two-place amount, the float bound refuses coefficients below 2, the intended bound those below 1 |
| Models.OneCentRefusedAsWritten | core/models.py:83 | 0.01 is refused as written and accepted with the intended bound |
| Models.DateToStringParts | core/models.py:96 | a date prints as ten characters `YYYY-MM-DD` from which year, month and day read back |
| Models.AmountToStringValue | core/models.py:96 | the printed amount is whole units, a point and two digits, and reads back as the amount |
| Models.RecordLabelExample | core/models.py:95-96 | a 1500.50 expense of 4 October 2025 prints as "2025-10-04 - Списание - 1500.50 руб." |
| Models.LabelledInjective | core/models.py:69-70 | for names without `(`, the label "name (parent)" determines both name and parent |
| Models.NewestFirst | core/models.py:93 | in the ordered records a later position never has a later date, nor on the same date a later creation stamp |
| Models.OrderedRecords | core/models.py:93 | the default order is a sorted permutation of the records |
| Store.Find | core/views.py:94 | a key lookup finds a row with the key, and finds nothing exactly when no row has it |
| Store.StoredRecordsPassClean | core/models.py:98-112 | a stored record passes `clean` and all four of its references resolve, as long as no category or subcategory is re-parented (see Left out) |
| Store.DeleteTypeEffect | core/models.py:41 | deleting a type leaves exactly the records, categories and subcategories not under it, and the statuses unchanged |
| Store.DeleteCategoryEffect | core/models.py:58 | deleting a category leaves exactly the records and subcategories not under it |
| Store.DeleteStatusEffect | core/models.py:76 | deleting a status removes exactly its records and touches no other table |
| Store.DeleteTypeValid | core/models.py:41 | the cascade from a type keeps the store consistent: no row refers to a missing parent |
| Store.DeleteCategoryValid | core/models.py:58 | the cascade from a category keeps the store consistent |
| Store.DeleteSubcategoryValid | core/models.py:79 | the cascade from a subcategory keeps the store consistent |
| Store.DeleteStatusValid | core/models.py:76 | the cascade from a status keeps the store consistent |
| Store.DeleteRecordValid | core/models.py:73-93 | deleting a record keeps the store consistent |
| Store.AddStatus | core/models.py:8 | a status is refused exactly when its name is taken |
| Store.AddType | core/models.py:24 | a type is refused exactly when its name is taken |
| Store.AddCategory | core/models.py:40-41 | a category is refused for a taken name, and otherwise for a missing type |
| Store.AddSubcategory | core/models.py:57-67 | a subcategory is refused only when its category already has that name (the same name elsewhere is fine), and otherwise for a missing category |
| Store.AddStatusValid | core/models.py:8 | an accepted status keeps the store consistent, its names unique |
| Store.AddTypeValid | core/models.py:24 | an accepted type keeps the store consistent, its names unique |
| Store.AddCategoryValid | core/models.py:40-41 | an accepted category keeps the store consistent, its names unique and its type present |
| Store.AddSubcategoryValid | core/models.py:67 | an accepted subcategory keeps the store consistent |
| Store.UpdateRecordValid | core/models.py:73-112 | replacing a record with an admissible one keeps the store consistent |
| Store.RetypeCategoryUnlinks | core/views.py:303-323 | saving a category under another type leaves each of its records with a type other than its category's, so the record no longer passes `clean` |
| Store.MoveSubcategoryUnlinks | core/views.py:363-383 | saving a subcategory under another category leaves each of its records outside the subcategory's category |
| Store.CashFlowStore.CreateStatus | core/models.py:6-11 | the store becomes the accepted insert under the next id, which advances, or is unchanged on refusal; the clock stays; the store stays consistent |
| Store.CashFlowStore.CreateType | core/models.py:22-27 | the store becomes the accepted insert under the next id, which advances, or is unchanged on refusal; the clock stays; the store stays consistent |
| Store.CashFlowStore.CreateCategory | core/models.py:38-44 | the store becomes the accepted insert under the next id, which advances, or is unchanged on refusal; the clock stays; the store stays consistent |
| Store.CashFlowStore.CreateSubcategory | core/models.py:55-67 | the store becomes the accepted insert, or is unchanged on refusal, and stays consistent |
| Store.CashFlowStore.RemoveType | core/models.py:41 | the store becomes the cascade delete of the type and stays consistent |
| Store.CashFlowStore.RemoveSubcategory | core/models.py:79 | the store becomes the cascade delete of the subcategory, counter and clock kept, and stays consistent |
| Store.CashFlowStore.RemoveCategory | core/models.py:58 | the store becomes the cascade delete of the category and stays consistent |
| Store.CashFlowStore.RemoveStatus | core/models.py:76 | the store becomes the cascade delete of the status and stays consistent |
| Store.CashFlowStore.RemoveRecord | core/views.py:132 | the store loses exactly that record and stays consistent |
| Store.CashFlowStore.SaveNewRecord | core/views.py:72 | the store gains the record with a fresh id and stays consistent |
| Store.CashFlowStore.SaveRecord | core/views.py:101 | the record with that id is replaced in place and the store stays consistent |
| Forms.ValidateNoSqlInjection | core/forms.py:11-32 | the value comes back unchanged exactly when none of the six patterns matches its lowercased form (the empty value always passes); otherwise the error names the value |
| Forms.RejectedIsFlagged | core/forms.py:17-24 | the six patterns are the first six of the middleware's, so whatever the validator refuses the middleware flags |
| Forms.FormNarrowerThanMiddleware | core/forms.py:17-24 | "load_file" passes the validator but is flagged by the middleware |
| Forms.DelimiterRejected | core/forms.py:21-23 | a value containing any of the ten delimiters is refused |
| Forms.WordValueRejected | core/forms.py:18-22 | a bare word is refused exactly when it is one of the statement or script keywords |
| Forms.UnescapeEscape | core/forms.py:41 | escaping is undone by reading the entities back, so nothing is lost |
| Forms.EscapeHasNoRawSpecials | core/forms.py:41 | an escaped string holds no raw `<`, `>`, `"` or `'` |
| Forms.EscapeStripCommute | core/forms.py:41-44 | stripping after escaping equals escaping after stripping |
| Forms.Sanitize | core/forms.py:35-46 | the result is the escaped, stripped value; it holds no raw markup character and reads back as the stripped input |
| Forms.SanitizeInput | core/forms.py:35-46 | the step-by-step method computes the sanitised value |
| Forms.CleanText | core/forms.py:102-110 | a refused value is never sanitised or returned; an accepted one comes back sanitised |
| Forms.AcceptedTextHasNoMarkup | core/forms.py:23 | a value the validator accepts already holds no `<`, `>` or quote |
| Forms.ResolveChoice | core/forms.py:78-81 | an empty or missing value is no choice; a value naming a choice's key selects it; any other value is an invalid choice |
| Forms.RecordSubcategoryNarrowing | core/forms.py:81-100 | the subcategory choices are empty unless the form edits a record or the data holds an integer category; a non-integer category is ignored; the choices are exactly the governing category's subcategories, by name |
| Forms.RecordCategoryNarrowing | core/forms.py:80-92 | a new record may pick any category; an edit offers exactly the categories of the record's type |
| Forms.RecordForm.constructor | core/forms.py:74-100 | the form's querysets are the narrowed choices |
| Forms.RecordFormValid | core/forms.py:112-133 | the form has no errors exactly when every field passes (the comment holding no U+0000 and passing the injection check) and both links fit |
| Forms.RecordFormResult | core/forms.py:102-133 | the form fails exactly when some check fails, a U+0000 in the comment included, with a non-empty error set; on success it yields the chosen rows, the amount in cents and the sanitised comment |
| Forms.LinkMismatchReported | core/forms.py:120-126 | a subcategory outside the chosen category, and a category outside the chosen type once the subcategory fits, are each reported as a form-wide error |
| Forms.ValidRecordFormAdmissible | core/forms.py:112-133 | a valid form describes a record the store may hold |
| Forms.TypeFixedOnEdit | core/forms.py:91-92 | a valid edit never changes the record's type |
| Forms.RejectedCommentRefused | core/forms.py:102-110 | a refused comment makes the form invalid, with the validator's message when the field's own null-character check has passed |
| Forms.NullCommentRefused | core/forms.py:102-110 | a comment holding U+0000 is refused by the field before `clean_comment` runs, and the form is invalid |
| Forms.FilterChoiceNarrowing | core/forms.py:201-225 | category choices narrow to an integer type and subcategory choices to an integer category; without an integer category there are no subcategory choices; every list is by name |
| Forms.FilterForm.constructor | core/forms.py:191-225 | the form's querysets are the narrowed choices |
| Forms.DateRangeErrors | core/forms.py:227-241 | the range error occurs exactly when both dates are given and the start is after the end; equal dates pass |
| Forms.SubcategoryNeedsCategory | core/forms.py:205 | a subcategory chosen without an integer category is an invalid choice, and the list is then not filtered |
| Forms.ValidFilterConsistent | core/forms.py:211-225 | in a valid filter the chosen category is of the submitted type and the chosen subcategory in the submitted category |
| Forms.NameResult | core/forms.py:269-277 | a name is refused exactly when it is empty or too long once stripped, holds U+0000 (with that error when it is otherwise within length), is refused by the validator, or is too long once escaped; an accepted name is non-empty, fits, holds no raw markup and reads back as the stripped input |
| Forms.AmpersandNameAtLimitRefused | core/forms.py:276 | a name that exactly fills the column and holds an `&` is refused after escaping |
| Forms.DescriptionResult | core/forms.py:279-287 | a description is refused exactly when it holds U+0000 (with that error) or the validator refuses it; an accepted one holds no raw markup and reads back as the stripped input |
| Views.SelectedMeaning | core/views.py:19-35 | a listed record is exactly a stored record meeting every given criterion, with both dates inclusive; the list is newest first |
| Views.ApplyFilters | core/views.py:24-35 | the six conditional filter steps together keep exactly the records passing all six filters |
| Views.InvalidFilterListsAll | core/views.py:23 | an invalid filter form filters nothing |
| Views.Index | core/views.py:15-64 | the page lists the selected records with their count, the sums of the income and expense types, and the balance as income minus expenses |
| Views.TotalsPartition | core/views.py:38-49 | every listed amount counts towards income, expenses or neither, in exactly one place |
| Views.TotalsByTypeName | core/views.py:41-46 | a record counts as income exactly when its type is named 'Пополнение' or 'Replenishment', as expense exactly when named 'Списание' or 'Write-off' |
| Views.RecordCreate | core/views.py:67-83 | a valid POST stores the new record; any other request leaves the store unchanged and shows the form, with errors on a POST |
| Views.RecordEdit | core/views.py:86-117 | an unknown key is a 404; a valid POST replaces the record, keeping its id and creation stamp; any other request changes nothing |
| Views.EditTouchesOneRecord | core/views.py:96-101 | an edit keeps every other record, the record's place, its id, its creation stamp and its type |
| Views.RecordDelete | core/views.py:120-143 | an unknown key is a 404; a POST deletes the record; a GET shows it and changes nothing |
| Views.CategoriesByType | core/views.py:405-416 | the list holds an entry for exactly the categories of the type, by name; an unknown type gives an empty list |
| Views.SubcategoriesByCategory | core/views.py:420-431 | the list holds an entry for exactly the subcategories of the category, by name; an unknown category gives an empty list |
| Views.DirectoryManagement | core/views.py:146-160 | each directory lists all its rows; statuses, types and categories are by name, subcategories by category name and then by name |
| Admin.PluralWord | core/admin.py:62-68 | the singular for 1, the "few" form for 2 to 4, the genitive plural for every other count |
| Admin.PluralLabel | core/admin.py:62-68 | the label is the count in decimal, a space and the noun, and the count reads back |
| Admin.EmptyCategoryCount | core/admin.py:62-68 | a category without subcategories shows "0 подкатегорий" |
| Admin.PluralAgreesBelowTwentyOne | core/admin.py:64-68 | up to 20 the admin's choice agrees with the Russian rule of the last digit |
| Admin.PluralDiffersAtTwentyOne | core/admin.py:64-68 | at 21 the admin shows the genitive plural where the Russian rule takes the singular |
| Admin.CategoryWithType | core/admin.py:90-92 | the column is "category name (type name)" of the linked rows, and undefined exactly when a link is missing |
| Admin.SubcategoryColumn | core/admin.py:90-92 | in a consistent store a subcategory row shows its category and that category's type |
| Admin.RecordColumn | core/admin.py:136-142 | in a consistent store a record row shows its category and the record's own type (see Left out for when the source leaves the store inconsistent) |
| Admin.ColumnsDefined | core/admin.py:136-142 | every stored subcategory and record has the column |
| Admin.GroupThousandsRoundTrip | core/admin.py:152 | removing the separators gives the digits back |
| Admin.GroupThousandsShape | core/admin.py:152 | a comma stands exactly where a multiple of four characters remains to the end; every other character is a digit |
| Admin.AmountDisplayMeaning | core/admin.py:146-152 | the display is the grouped whole part, a point, two digits and " руб."; without commas it is the plain two-place amount, which reads back as the amount |
| Admin.CommentShort | core/admin.py:156-163 | the result has at most 53 characters; a short comment is unchanged; a long one is cut to 50 and marked "..."; it always begins with the first min(50, length) characters |
| Admin.CommentShownUnchanged | core/admin.py:163 | a comment is shown as it is exactly when it fits, or when it already has 53 characters ending in "..." |
| Admin.CommentShortIdempotent | core/admin.py:163 | shortening a shortened comment changes nothing |

## Left out

- Logging, the `settings` lookup, `request.is_secure()` and the META headers are inputs. The log line is returned as an event rather than written.
- `dict(request.GET)` of a QueryDict always maps to lists, so the non-list branch of `process_request` (core/middleware.py:103-108) cannot occur and is not modelled.
- Lowercasing is ASCII only. Python's `str.lower()` on other scripts is not modelled. In the patterns, word characters are ASCII letters and digits, `_` and Cyrillic, and `\d` is an ASCII digit: Python's `\d` also matches other Unicode decimal digits, so a value such as `or ٣=٣` is flagged by the tautology pattern (core/middleware.py:26, core/forms.py:19) in the source and not in the model.
- Integer parsing (`int()` in core/forms.py:97, 214 and 222, and the integer key lookup of `ModelChoiceField`) accepts ASCII digits only. Python also accepts other Unicode decimal digits, such as the fullwidth `５`; with such a key the source narrows the choices and selects the row, while the model ignores the key or reports an invalid choice.
- Django's `escape` is modelled by its documented five-character replacement, and `mark_safe` types are not modelled.
- Forms.RecordFormResult: checks the amount against the intended one-cent bound (`Models.AmountErrors`), not against the float bound of `MinValueValidator(0.01)` that `_post_clean` runs (core/models.py:83). So an amount of exactly 0.01 is accepted and stored by `Views.RecordCreate` and `Views.RecordEdit`, where the source reports the min-value error and stores nothing. The as-written bound and its refusal of one cent are modelled and proved separately (`Models.AmountErrorsAsWritten`, `Models.OneCentRefusedAsWritten`, `Models.FloatBoundOnTwoPlaces`).
- Forms.RecordFormValid: the same one-cent bound, so it calls an amount of 0.01 valid where the source does not.
- Date parsing (`%Y-%m-%d`) is left out: a date field is given as absent, malformed or a date.
- Decimal parsing is left out: an amount field is given as absent, not a number or a decimal value.
- Django collects each field's messages into lists. The model keeps error sets, so two equal messages are one.
- Forms.NameResult: a stripped name that is both too long and holds U+0000 gets both messages of the field's validators in the source; the model reports the length error alone.
- Sorting is stable insertion sort by code point. The database's order of rows with equal keys is not modelled.
- Pagination, `messages`, templates, redirects and JSON serialisation are left out. Views return a page value.
- `auto_now`, `auto_now_add` and `timezone.now` are not modelled. The store's creation stamp is a counter its methods advance.
- The store uses one id counter for all tables. The database's per-table sequences are not modelled.
- Description fields and `updated_at` are kept as data only, with no rules about them.
- The directory create, edit and delete views other than `directory_management` are not modelled as views. Only the `name` and `description` fields of their forms are modelled (`Forms.NameResult`, `Forms.DescriptionResult`). The `type` choice of `CategoryForm` and the `category` choice of `SubcategoryForm` (core/forms.py:321-330, core/forms.py:343-352) are not. The saves of `category_edit` and `subcategory_edit` (core/views.py:303-323, core/views.py:363-383), and the admin change forms, are modelled only as `Store.RetypeCategory` and `Store.MoveSubcategory`, with the lemmas below.
- Store.StoredRecordsPassClean: holds only for the store operations modelled as methods. `category_edit` and `subcategory_edit` re-parent a category or subcategory without looking at its records, so in the source a stored record can fail `CashFlowRecord.clean` (core/models.py:109-112). `Store.RetypeCategoryUnlinks` and `Store.MoveSubcategoryUnlinks` prove this. `ValidDb` is therefore an invariant of the modelled operations, not of the source.
- Admin.RecordColumn: after such an edit the record admin column (core/admin.py:142) shows the category's new type, not the record's own type. The lemma covers consistent stores only.
- The admin classes' `list_display`, `list_filter`, `search_fields` and `ordering` declarations are configuration and are not modelled.
- core/urls.py, core/management/commands/load_initial_data.py, the migrations and core/tests.py are not part of this model.

## Findings

| source | as written | input that shows it | evidently intended | confidence | as-written member | corrected member |
|---|---|---|---|---|---|---|
| core/models.py:83 | `MinValueValidator(0.01)` compares the Decimal amount with the binary float 0.01, which is slightly above one cent | amount 0.01: Decimal('0.01') < 0.01 holds, so one cent is refused and the least accepted amount is 0.02 | the least accepted amount is one cent, 0.01 | not executed | Models.OneCentRefusedAsWritten | Models.AmountAccepted |

The model records two further consequences of the code as lemmas rather than
as findings:
- `Forms.TypeFixedOnEdit`: the edit form offers only the categories of the
  record's current type, while `clean` requires the category to match the
  submitted type, so an edit cannot change a record's type.
- `Admin.PluralDiffersAtTwentyOne`: counts such as 21 take the genitive plural.
