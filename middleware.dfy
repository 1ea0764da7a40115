/**
 * The two middleware classes of core/middleware.py.
 *
 * `SQLInjectionProtectionMiddleware.process_request` decides whether a
 * request may reach the views: it merges the GET and POST parameters into
 * one dictionary, checks every value with `_check_for_attacks` and answers
 * 403 at the first value that looks like an attack, after logging it.
 * `SecurityHeadersMiddleware.process_response` adds the security headers
 * to every response.
 *
 * Settings, the request's META dictionary and `request.is_secure()` are
 * inputs; the log line becomes an `AuditEvent` returned with the verdict.
 */
module Middleware {
  import opened Wrappers
  import opened Text
  import opened Patterns

  // ---------------------------------------------------------------------------
  // _check_for_attacks
  // ---------------------------------------------------------------------------

  /** The verdict of `_check_for_attacks`: an empty value is never an attack;
      any other value is one when some pattern of some group finds a match
      in its lower-cased form. */
  predicate Flagged(value: string) {
    var lowered := Lower(value);
    value != "" &&
    (AnyMatch(SqlPatterns, lowered) || AnyMatch(XssPatterns, lowered) || AnyMatch(AuthPatterns, lowered))
  }

  /** One `for pattern in ...: if re.search(...): return True` loop. */
  method SearchGroup(patterns: seq<Pattern>, lowered: string) returns (found: bool)
    ensures found == AnyMatch(patterns, lowered)
  {
    var k := 0;
    while k < |patterns|
      invariant 0 <= k <= |patterns|
      invariant forall j | 0 <= j < k :: !Search(patterns[j], lowered)
    {
      if Search(patterns[k], lowered) {
        return true;
      }
      k := k + 1;
    }
    return false;
  }

  /** `_check_for_attacks(value)`. */
  method CheckForAttacks(value: string) returns (attack: bool)
    ensures attack == Flagged(value)
  {
    if value == "" {
      return false;
    }
    var lowered := Lower(value);
    attack := SearchGroup(SqlPatterns, lowered);
    if attack {
      return;
    }
    attack := SearchGroup(XssPatterns, lowered);
    if attack {
      return;
    }
    attack := SearchGroup(AuthPatterns, lowered);
  }

  /** The order of the patterns, inside a group or across groups, does not
      change the verdict: only which loop returns. */
  lemma AnyMatchReordered(ps: seq<Pattern>, qs: seq<Pattern>, v: string)
    requires multiset(ps) == multiset(qs)
    ensures AnyMatch(ps, v) == AnyMatch(qs, v)
  {
    forall p | p in ps ensures p in qs {
      assert p in multiset(ps);
    }
    forall p | p in qs ensures p in ps {
      assert p in multiset(qs);
    }
  }

  lemma AnyMatchConcat(ps: seq<Pattern>, qs: seq<Pattern>, v: string)
    ensures AnyMatch(ps + qs, v) == (AnyMatch(ps, v) || AnyMatch(qs, v))
  {
    forall p | p in ps + qs ensures p in ps || p in qs {
    }
  }

  /** The verdict is that of one search over all patterns, in any order (core/middleware.py:116-136). */
  lemma FlaggedAsOneGroup(value: string, all: seq<Pattern>)
    requires multiset(all) == multiset(SqlPatterns + XssPatterns + AuthPatterns)
    ensures Flagged(value) <==> value != "" && AnyMatch(all, Lower(value))
  {
    var lowered := Lower(value);
    AnyMatchReordered(all, SqlPatterns + XssPatterns + AuthPatterns, lowered);
    AnyMatchConcat(SqlPatterns + XssPatterns, AuthPatterns, lowered);
    AnyMatchConcat(SqlPatterns, XssPatterns, lowered);
  }

  /** The XSS group never changes the verdict: whatever it matches, the
      angle-bracket pattern of the SQL group matches too (core/middleware.py:30, 38-49). */
  lemma XssGroupRedundant(value: string)
    ensures Flagged(value) <==>
      value != "" && (AnyMatch(SqlPatterns, Lower(value)) || AnyMatch(AuthPatterns, Lower(value)))
  {
    var lowered := Lower(value);
    if AnyMatch(XssPatterns, lowered) {
      XssCoveredBySql(lowered);
      assert SqlPatterns[5] == AngleBrackets;
      assert SqlPatterns[5] in SqlPatterns;
    }
  }

  /** Any value containing a quote, `;`, `--`, `/*`, `*/`, `<`, `>`, `&lt;` or
      `&gt;` is flagged (core/middleware.py:28, 30). */
  lemma DelimiterFlagged(value: string, d: string)
    requires d in Delimiters && Contains(value, d)
    ensures Flagged(value)
  {
    var i :| 0 <= i <= |value| - |d| && LiteralAt(value, i, d);
    assert HasNoUpper(d);
    LiteralAtLower(value, i, d);
    DelimiterFound(Lower(value), d);
  }

  /** A value of word characters (letters, digits, `_`) is flagged exactly
      when, lower-cased, it is one of the SQL group's single keywords
      (core/middleware.py:24-60). */
  lemma WordValueFlagged(value: string)
    requires AllWordChars(value)
    ensures Flagged(value) <==> Lower(value) in SqlWords
  {
    var lowered := Lower(value);
    assert AllWordChars(lowered);
    SqlOnWord(lowered);
    OtherGroupsOnWord(lowered);
    assert "" !in SqlWords;
  }

  /** "password" alone passes, "password=" and "password'" are attacks
      (core/middleware.py:53-60). */
  lemma PasswordFlagging()
    ensures !Flagged("password")
    ensures Flagged("password=") && Flagged("password'")
  {
    LowerOfLowercase("password");
    LowerOfLowercase("password=");
    LowerOfLowercase("password'");
    PasswordAlone();
    PasswordWithOperatorOrQuote();
  }

  // ---------------------------------------------------------------------------
  // Parameter dictionaries
  // ---------------------------------------------------------------------------

  /** A dictionary from parameter names to value lists, in insertion order
      (`dict(request.GET)` of a QueryDict). */
  type Params = seq<(string, seq<string>)>

  predicate IsDict(d: Params) {
    forall i, j | 0 <= i < j < |d| :: d[i].0 != d[j].0
  }

  function Lookup(d: Params, name: string): Option<seq<string>> {
    if d == [] then None
    else if d[0].0 == name then Some(d[0].1)
    else Lookup(d[1..], name)
  }

  lemma {:induction false} LookupMissing(d: Params, name: string)
    requires forall i | 0 <= i < |d| :: d[i].0 != name
    ensures Lookup(d, name) == None
  {
    if d != [] {
      LookupMissing(d[1..], name);
    }
  }

  /** `d[name] = values`: an existing key keeps its place, a new key goes last. */
  function Put(d: Params, name: string, values: seq<string>): Params {
    if d == [] then [(name, values)]
    else if d[0].0 == name then [(name, values)] + d[1..]
    else [d[0]] + Put(d[1..], name, values)
  }

  /** `Put` keeps every key in its place and adds at most the new one, last. */
  lemma {:induction false} PutShape(d: Params, name: string, values: seq<string>)
    ensures var r := Put(d, name, values);
      (|r| == |d| || (|r| == |d| + 1 && r[|d|] == (name, values))) &&
      forall i | 0 <= i < |d| :: r[i].0 == d[i].0
  {
    if d != [] && d[0].0 != name {
      PutShape(d[1..], name, values);
      var rest := Put(d[1..], name, values);
      assert Put(d, name, values) == [d[0]] + rest;
      assert forall i | 1 <= i < |d| :: d[i] == d[1..][i - 1];
    }
  }

  /** After `d[name] = values`, `name` maps to `values` and every other name
      to what it mapped to before. */
  lemma {:induction false} PutLookup(d: Params, name: string, values: seq<string>, other: string)
    ensures Lookup(Put(d, name, values), other) == if other == name then Some(values) else Lookup(d, other)
  {
    if d != [] {
      var r := Put(d, name, values);
      if d[0].0 == name {
        assert r[1..] == d[1..];
      } else {
        PutLookup(d[1..], name, values, other);
        assert r[1..] == Put(d[1..], name, values);
      }
    }
  }

  /** `d[name] = values` keeps the keys pairwise different. */
  lemma {:induction false} PutIsDict(d: Params, name: string, values: seq<string>)
    requires IsDict(d)
    ensures IsDict(Put(d, name, values))
  {
    var r := Put(d, name, values);
    if d != [] && d[0].0 == name {
      assert forall i | 0 <= i < |d| :: r[i].0 == d[i].0;
    } else if d != [] {
      assert IsDict(d[1..]);
      PutIsDict(d[1..], name, values);
      PutShape(d[1..], name, values);
      var rest := Put(d[1..], name, values);
      assert r == [d[0]] + rest;
      forall j | 0 <= j < |rest| ensures rest[j].0 != d[0].0 {
        if j < |d| - 1 {
          assert rest[j].0 == d[1..][j].0 == d[j + 1].0;
        }
      }
      forall i, j | 0 <= i < j < |r| ensures r[i].0 != r[j].0 {
        if i > 0 {
          assert r[i] == rest[i - 1] && r[j] == rest[j - 1];
        } else {
          assert r[j] == rest[j - 1];
        }
      }
    }
  }

  /** Putting a name that is not yet a key appends it. */
  lemma {:induction false} PutNewKey(d: Params, name: string, values: seq<string>)
    requires forall i | 0 <= i < |d| :: d[i].0 != name
    ensures Put(d, name, values) == d + [(name, values)]
  {
    if d != [] {
      assert forall i | 0 <= i < |d| - 1 :: d[1..][i] == d[i + 1];
      PutNewKey(d[1..], name, values);
      assert d == [d[0]] + d[1..];
    }
  }

  /** `d.update(e)`. */
  function Update(d: Params, e: Params): Params
    decreases |e|
  {
    if e == [] then d else Update(Put(d, e[0].0, e[0].1), e[1..])
  }

  /** After `d.update(e)` a name has its value from `e` if `e` has it, else from `d`. */
  lemma {:induction false} UpdateLookup(d: Params, e: Params, name: string)
    requires IsDict(e)
    ensures Lookup(Update(d, e), name) ==
      if Lookup(e, name).Some? then Lookup(e, name) else Lookup(d, name)
    decreases |e|
  {
    if e != [] {
      assert IsDict(e[1..]);
      UpdateLookup(Put(d, e[0].0, e[0].1), e[1..], name);
      PutLookup(d, e[0].0, e[0].1, name);
      if e[0].0 == name {
        assert forall i | 0 <= i < |e| - 1 :: e[1..][i] == e[i + 1];
        LookupMissing(e[1..], name);
      }
    }
  }

  /** `d.update(e)` keeps the keys pairwise different. */
  lemma {:induction false} UpdateIsDict(d: Params, e: Params)
    requires IsDict(d)
    ensures IsDict(Update(d, e))
    decreases |e|
  {
    if e != [] {
      PutIsDict(d, e[0].0, e[0].1);
      UpdateIsDict(Put(d, e[0].0, e[0].1), e[1..]);
    }
  }

  /** `d.update(e)` keeps the keys of `d` in their places. */
  lemma {:induction false} UpdateKeepsKeys(d: Params, e: Params)
    ensures |Update(d, e)| >= |d|
    ensures forall i | 0 <= i < |d| :: Update(d, e)[i].0 == d[i].0
    decreases |e|
  {
    if e != [] {
      PutShape(d, e[0].0, e[0].1);
      UpdateKeepsKeys(Put(d, e[0].0, e[0].1), e[1..]);
    }
  }

  /** Updating with a dictionary whose keys are all new appends it. */
  lemma {:induction false} UpdateAppends(d: Params, e: Params)
    requires IsDict(e) && forall i, j | 0 <= i < |d| && 0 <= j < |e| :: d[i].0 != e[j].0
    ensures Update(d, e) == d + e
    decreases |e|
  {
    if e != [] {
      PutNewKey(d, e[0].0, e[0].1);
      var d' := d + [e[0]];
      forall i, j | 0 <= i < |d'| && 0 <= j < |e| - 1 ensures d'[i].0 != e[1..][j].0 {
        assert e[1..][j] == e[j + 1];
      }
      assert IsDict(e[1..]);
      UpdateAppends(d', e[1..]);
      assert d' + e[1..] == d + e;
    }
  }

  /** `all_params` of `process_request`: GET merged first, then POST. */
  function MergedParams(get: Params, post: Params): Params {
    var afterGet := if get != [] then Update([], get) else [];
    if post != [] then Update(afterGet, post) else afterGet
  }

  /** A POST parameter replaces a GET parameter of the same name; the GET
      parameters keep their order at the front (core/middleware.py:84-92). */
  lemma MergedParamsLookup(get: Params, post: Params, name: string)
    requires IsDict(get) && IsDict(post)
    ensures Lookup(MergedParams(get, post), name) ==
      if Lookup(post, name).Some? then Lookup(post, name) else Lookup(get, name)
    ensures IsDict(MergedParams(get, post))
    ensures |MergedParams(get, post)| >= |get|
    ensures forall i | 0 <= i < |get| :: MergedParams(get, post)[i].0 == get[i].0
  {
    if get != [] {
      UpdateAppends([], get);
      assert [] + get == get;
    }
    UpdateLookup(get, post, name);
    UpdateIsDict(get, post);
    UpdateKeepsKeys(get, post);
  }

  // ---------------------------------------------------------------------------
  // process_request
  // ---------------------------------------------------------------------------

  datatype Request = Request(
    path: string,
    fullPath: string,
    get: Params,
    post: Params,
    meta: map<string, string>)

  /** The content of the warning logged by `_log_attack_attempt`. */
  datatype AuditEvent = AuditEvent(
    ip: string,
    userAgent: string,
    url: string,
    parameter: string,
    value: string)

  datatype Decision =
    | Allow                    // process_request returns None
    | Forbid(event: AuditEvent) // HttpResponseForbidden, after one log call

  /** The body of the 403 response. */
  const ForbiddenMessage: string := "Доступ запрещен: обнаружена попытка атаки"

  /** What `process_request` returns: nothing for an allowed request, so the
      view runs, or a 403 response with the refusal message. */
  function MiddlewareResponse(d: Decision): (r: Option<(nat, string)>)
    ensures r.None? <==> d.Allow?
    ensures d.Forbid? ==> r == Some((403, ForbiddenMessage))
  {
    match d
    case Allow => None
    case Forbid(_) => Some((403, ForbiddenMessage))
  }
  const ExcludedPaths: seq<string> := ["/static/", "/media/", "/favicon.ico", "/robots.txt"]
  const LoggedValueLength: nat := 100

  predicate Excluded(path: string) {
    exists p | p in ExcludedPaths :: StartsWith(path, p)
  }

  function MetaOr(meta: map<string, string>, key: string): string {
    if key in meta then meta[key] else "Unknown"
  }

  /** `_log_attack_attempt(request, name, value)`: the event a refused value is logged with. */
  function AttackEvent(req: Request, name: string, value: string): AuditEvent {
    var cut := if |value| <= LoggedValueLength then value else value[..LoggedValueLength];
    AuditEvent(MetaOr(req.meta, "REMOTE_ADDR"), MetaOr(req.meta, "HTTP_USER_AGENT"), req.fullPath, name, cut)
  }

  /** The logged value is cut to 100 characters. */
  lemma AttackEventLogged(req: Request, name: string, value: string)
    ensures var e := AttackEvent(req, name, value);
      && |e.value| <= LoggedValueLength && StartsWith(value, e.value)
      && (|value| <= LoggedValueLength ==> e.value == value)
      && (|value| > LoggedValueLength ==> e.value == value[..LoggedValueLength])
      && e.ip == MetaOr(req.meta, "REMOTE_ADDR") && e.userAgent == MetaOr(req.meta, "HTTP_USER_AGENT")
      && e.url == req.fullPath && e.parameter == name
  {
  }

  /** The (name, value) pairs in the order the nested loops visit them. */
  function Entries(d: Params): seq<(string, string)> {
    if d == [] then [] else Entries(d[..|d| - 1]) + Row(d[|d| - 1].0, d[|d| - 1].1)
  }

  /** The pairs of one parameter: its name with each of its values. */
  function Row(name: string, values: seq<string>): (r: seq<(string, string)>)
    ensures |r| == |values|
    ensures forall k | 0 <= k < |values| :: r[k] == (name, values[k])
  {
    seq(|values|, k requires 0 <= k < |values| => (name, values[k]))
  }

  /** Every value of every parameter is visited. */
  lemma {:induction false} EntriesComplete(d: Params, i: nat, k: nat)
    requires i < |d| && k < |d[i].1|
    ensures (d[i].0, d[i].1[k]) in Entries(d)
  {
    if i < |d| - 1 {
      EntriesComplete(d[..|d| - 1], i, k);
    } else {
      assert Row(d[i].0, d[i].1)[k] == (d[i].0, d[i].1[k]);
    }
  }

  /** The entries of the first `i` parameters come first. */
  lemma {:induction false} EntriesPrefix(d: Params, i: nat)
    requires i <= |d|
    ensures Entries(d[..i]) <= Entries(d)
    decreases |d|
  {
    if i < |d| {
      EntriesPrefix(d[..|d| - 1], i);
      assert d[..|d| - 1][..i] == d[..i];
    } else {
      assert d[..i] == d;
    }
  }

  /** One more parameter visited adds its row of pairs. */
  lemma EntriesStep(d: Params, i: nat)
    requires i < |d|
    ensures Entries(d[..i + 1]) == Entries(d[..i]) + Row(d[i].0, d[i].1)
    ensures Entries(d[..i]) + Row(d[i].0, d[i].1) <= Entries(d)
  {
    assert d[..i + 1][..i] == d[..i];
    EntriesPrefix(d, i + 1);
  }

  /** The index of the first pair whose value is `flagged`, if any. */
  function FirstWhere(es: seq<(string, string)>, flagged: string -> bool): (r: Option<nat>)
    ensures r.Some? ==> r.value < |es| && flagged(es[r.value].1)
    ensures r.Some? ==> forall j | 0 <= j < r.value :: !flagged(es[j].1)
    ensures r.None? ==> forall j | 0 <= j < |es| :: !flagged(es[j].1)
  {
    if es == [] then None
    else if flagged(es[0].1) then Some(0)
    else match FirstWhere(es[1..], flagged)
      case None => None
      case Some(n) => Some(n + 1)
  }

  /** The index of the first value `_check_for_attacks` flags, if any. */
  function FirstFlagged(es: seq<(string, string)>): Option<nat> {
    FirstWhere(es, Flagged)
  }

  /** The first flagged value is the one the loops stop at. */
  lemma {:induction false} FirstWhereAt(es: seq<(string, string)>, flagged: string -> bool, n: nat)
    requires n < |es| && flagged(es[n].1) && forall j | 0 <= j < n :: !flagged(es[j].1)
    ensures FirstWhere(es, flagged) == Some(n)
  {
    if n > 0 {
      forall j | 0 <= j < n - 1 ensures !flagged(es[1..][j].1) {
        assert es[1..][j] == es[j + 1];
      }
      assert es[1..][n - 1] == es[n];
      FirstWhereAt(es[1..], flagged, n - 1);
    }
  }

  /** With no flagged value the loops run to the end. */
  lemma NoneWhere(es: seq<(string, string)>, flagged: string -> bool)
    requires forall j | 0 <= j < |es| :: !flagged(es[j].1)
    ensures FirstWhere(es, flagged) == None
  {
  }

  /** No value among the first `k` pairs is `flagged`. */
  predicate CleanUpTo(es: seq<(string, string)>, flagged: string -> bool, k: nat)
    requires k <= |es|
  {
    forall j | 0 <= j < k :: !flagged(es[j].1)
  }

  lemma CleanStep(es: seq<(string, string)>, flagged: string -> bool, k: nat)
    requires k < |es| && CleanUpTo(es, flagged, k) && !flagged(es[k].1)
    ensures CleanUpTo(es, flagged, k + 1)
  {
  }

  /** The inner loop of `process_request` over the values of one parameter;
      `seen` are the pairs inspected before, none of them flagged. */
  method InspectValues(req: Request, seen: seq<(string, string)>, name: string, values: seq<string>)
    returns (d: Decision, inspected: seq<(string, string)>)
    requires CleanUpTo(seen, Flagged, |seen|)
    ensures match FirstFlagged(Row(name, values))
      case None => d == Allow && inspected == seen + Row(name, values)
      case Some(n) => d == Forbid(AttackEvent(req, name, values[n])) && inspected == seen + Row(name, values)[..n + 1]
  {
    ghost var row := Row(name, values);
    inspected := seen;
    var k := 0;
    while k < |values|
      invariant 0 <= k <= |values|
      invariant inspected == seen + row[..k]
      invariant CleanUpTo(row, Flagged, k)
    {
      var value := values[k];
      assert row[k] == (name, value);
      inspected := inspected + [(name, value)];
      assert row[..k + 1] == row[..k] + [row[k]];
      var attack := CheckForAttacks(value);
      if attack {
        FirstWhereAt(row, Flagged, k);
        return Forbid(AttackEvent(req, name, value)), inspected;
      }
      CleanStep(row, Flagged, k);
      k := k + 1;
    }
    assert row[..k] == row;
    NoneWhere(row, Flagged);
    d := Allow;
  }

  /** The outer loop of `process_request` over the merged parameters. */
  method InspectParams(req: Request, allParams: Params) returns (d: Decision, inspected: seq<(string, string)>)
    ensures var es := Entries(allParams);
      match FirstFlagged(es)
      case None => d == Allow && inspected == es
      case Some(n) => d == Forbid(AttackEvent(req, es[n].0, es[n].1)) && inspected == es[..n + 1]
  {
    ghost var es := Entries(allParams);
    inspected := [];
    var i := 0;
    while i < |allParams|
      invariant 0 <= i <= |allParams|
      invariant inspected == Entries(allParams[..i])
      invariant CleanUpTo(inspected, Flagged, |inspected|)
    {
      var (name, values) := allParams[i];
      ghost var before := Entries(allParams[..i]);
      EntriesStep(allParams, i);
      d, inspected := InspectValues(req, inspected, name, values);
      if d.Forbid? {
        assert FirstFlagged(Row(name, values)).Some?;
        RowForbids(req, es, before, name, values, FirstFlagged(Row(name, values)).value);
        return;
      }
      i := i + 1;
    }
    assert allParams[..i] == allParams;
    NoneWhere(es, Flagged);
    d := Allow;
  }

  /** The refusal of a parameter's row is the refusal of the whole request
      when every pair before that row is clean. */
  lemma RowForbids(req: Request, es: seq<(string, string)>, before: seq<(string, string)>,
                   name: string, values: seq<string>, n: nat)
    requires before + Row(name, values) <= es
    requires CleanUpTo(before, Flagged, |before|)
    requires FirstFlagged(Row(name, values)) == Some(n)
    ensures var m := |before| + n;
      && FirstFlagged(es) == Some(m)
      && Forbid(AttackEvent(req, name, values[n])) == Forbid(AttackEvent(req, es[m].0, es[m].1))
      && before + Row(name, values)[..n + 1] == es[..m + 1]
  {
    FlaggedAfterClean(es, before, Row(name, values), Flagged, n);
  }

  /** When a clean prefix is followed by a row whose first flagged pair is
      at `n`, the first flagged pair of the whole is right after the prefix. */
  lemma FlaggedAfterClean(es: seq<(string, string)>, before: seq<(string, string)>, row: seq<(string, string)>,
                          flagged: string -> bool, n: nat)
    requires before + row <= es
    requires CleanUpTo(before, flagged, |before|)
    requires FirstWhere(row, flagged) == Some(n)
    ensures FirstWhere(es, flagged) == Some(|before| + n)
    ensures es[|before| + n] == row[n]
    ensures es[..|before| + n + 1] == before + row[..n + 1]
  {
    var m := |before| + n;
    assert es[m] == (before + row)[m];
    forall j | 0 <= j < m ensures !flagged(es[j].1) {
      assert es[j] == (before + row)[j];
      if j >= |before| {
        assert es[j] == row[j - |before|];
      }
    }
    FirstWhereAt(es, flagged, m);
    assert es[..m + 1] == (before + row)[..m + 1];
  }

  /** `SQLInjectionProtectionMiddleware.process_request`. `inspected` lists
      the (name, value) pairs passed to `_check_for_attacks`, in order. */
  method ProcessRequest(disabled: bool, req: Request) returns (d: Decision, inspected: seq<(string, string)>)
    ensures disabled || Excluded(req.path) ==> d == Allow && inspected == []
    ensures !disabled && !Excluded(req.path) ==>
      var es := Entries(MergedParams(req.get, req.post));
      match FirstFlagged(es)
      case None => d == Allow && inspected == es
      case Some(n) => d == Forbid(AttackEvent(req, es[n].0, es[n].1)) && inspected == es[..n + 1]
  {
    inspected := [];
    if disabled {
      return Allow, inspected;
    }
    var e := 0;
    while e < |ExcludedPaths|
      invariant 0 <= e <= |ExcludedPaths|
      invariant forall j | 0 <= j < e :: !StartsWith(req.path, ExcludedPaths[j])
    {
      if StartsWith(req.path, ExcludedPaths[e]) {
        return Allow, inspected;
      }
      e := e + 1;
    }

    var allParams: Params := [];
    if req.get != [] {
      allParams := Update(allParams, req.get);
    }
    if req.post != [] {
      allParams := Update(allParams, req.post);
    }
    d, inspected := InspectParams(req, allParams);
  }

  /** The attack described in the module's documentation is refused, and the
      event names the parameter and the value. */
  lemma DropTableRefused(req: Request)
    requires req.path == "/records/" && req.get == [("search", ["; DROP TABLE records; --"])] && req.post == []
    ensures var es := Entries(MergedParams(req.get, req.post));
      FirstFlagged(es) == Some(0) && es[0] == ("search", "; DROP TABLE records; --")
  {
    var value := "; DROP TABLE records; --";
    SingleGetEntries("search", value);
    assert LiteralAt(value, 0, ";");
    DelimiterFlagged(value, ";");
    FirstWhereAt([("search", value)], Flagged, 0);
  }

  /** A request with one GET parameter of one value and no POST data is
      inspected as that single pair. */
  lemma SingleGetEntries(name: string, value: string)
    ensures Entries(MergedParams([(name, [value])], [])) == [(name, value)]
  {
    var get: Params := [(name, [value])];
    UpdateAppends([], get);
    assert [] + get == get;
    assert MergedParams(get, []) == get;
    assert get[..0] == [];
    assert Entries(get) == Entries([]) + Row(name, [value]);
  }

  // ---------------------------------------------------------------------------
  // SecurityHeadersMiddleware
  // ---------------------------------------------------------------------------

  const ContentTypeOptions: string := "X-Content-Type-Options"
  const FrameOptions: string := "X-Frame-Options"
  const XssProtection: string := "X-XSS-Protection"
  const TransportSecurity: string := "Strict-Transport-Security"
  const ReferrerPolicy: string := "Referrer-Policy"
  const PermissionsPolicy: string := "Permissions-Policy"

  const NoSniff: string := "nosniff"
  const Deny: string := "DENY"
  const BlockMode: string := "1; mode=block"
  const OneYearWithSubdomains: string := "max-age=31536000; includeSubDomains"
  const StrictOriginWhenCrossOrigin: string := "strict-origin-when-cross-origin"
  const NoDevicePermissions: string := "geolocation=(), microphone=(), camera=()"

  /** Header names are case-insensitive: a header is stored under its lower-case name. */
  function HeaderKey(name: string): string {
    Lower(name)
  }

  const ContentTypeOptionsKey: string := "x-content-type-options"
  const FrameOptionsKey: string := "x-frame-options"
  const XssProtectionKey: string := "x-xss-protection"
  const TransportSecurityKey: string := "strict-transport-security"
  const ReferrerPolicyKey: string := "referrer-policy"
  const PermissionsPolicyKey: string := "permissions-policy"

  /** The keys the six header names are stored under. */
  lemma HeaderKeysLowered()
    ensures HeaderKey(ContentTypeOptions) == ContentTypeOptionsKey
    ensures HeaderKey(FrameOptions) == FrameOptionsKey
    ensures HeaderKey(XssProtection) == XssProtectionKey
    ensures HeaderKey(TransportSecurity) == TransportSecurityKey
    ensures HeaderKey(ReferrerPolicy) == ReferrerPolicyKey
    ensures HeaderKey(PermissionsPolicy) == PermissionsPolicyKey
  {
    FixedKeysLowered();
    PolicyKeysLowered();
  }

  lemma FixedKeysLowered()
    ensures HeaderKey(ContentTypeOptions) == ContentTypeOptionsKey
    ensures HeaderKey(FrameOptions) == FrameOptionsKey
    ensures HeaderKey(XssProtection) == XssProtectionKey
  {
    LoweredKey(ContentTypeOptions, ContentTypeOptionsKey);
    LoweredKey(FrameOptions, FrameOptionsKey);
    LoweredKey(XssProtection, XssProtectionKey);
  }

  lemma PolicyKeysLowered()
    ensures HeaderKey(TransportSecurity) == TransportSecurityKey
    ensures HeaderKey(ReferrerPolicy) == ReferrerPolicyKey
    ensures HeaderKey(PermissionsPolicy) == PermissionsPolicyKey
  {
    LoweredKey(TransportSecurity, TransportSecurityKey);
    LoweredKey(ReferrerPolicy, ReferrerPolicyKey);
    LoweredKey(PermissionsPolicy, PermissionsPolicyKey);
  }

  lemma LoweredKey(name: string, key: string)
    requires |name| == |key| && forall i | 0 <= i < |name| :: LowerChar(name[i]) == key[i]
    ensures HeaderKey(name) == key
  {
  }

  /** The headers that `process_response` always sets, by key. */
  function FixedHeaders(): seq<(string, string)> {
    [(ContentTypeOptionsKey, NoSniff), (FrameOptionsKey, Deny), (XssProtectionKey, BlockMode),
     (ReferrerPolicyKey, StrictOriginWhenCrossOrigin), (PermissionsPolicyKey, NoDevicePermissions)]
  }

  /** The keys of every header `process_response` may set. */
  function ManagedKeys(): seq<string> {
    [ContentTypeOptionsKey, FrameOptionsKey, XssProtectionKey,
     TransportSecurityKey, ReferrerPolicyKey, PermissionsPolicyKey]
  }

  /** The header values `process_response` sets under the keys `ct` to `pp`,
      in the order it sets them. */
  function ManagedFor(ct: string, fo: string, xss: string, ts: string, rp: string, pp: string, secure: bool):
    map<string, string>
  {
    var fixed := map[ct := NoSniff, fo := Deny, xss := BlockMode];
    var policies := map[rp := StrictOriginWhenCrossOrigin, pp := NoDevicePermissions];
    if secure then fixed + map[ts := OneYearWithSubdomains] + policies
    else fixed + policies
  }

  /** The header values `process_response` sets, by key. */
  function ManagedHeaders(secure: bool): map<string, string> {
    ManagedFor(ContentTypeOptionsKey, FrameOptionsKey, XssProtectionKey,
      TransportSecurityKey, ReferrerPolicyKey, PermissionsPolicyKey, secure)
  }

  /** Setting the headers one after another, the repeated ones included,
      overrides them all at once. */
  lemma SetInOrder(h: map<string, string>, ct: string, fo: string, xss: string, ts: string, rp: string, pp: string,
                   secure: bool)
    requires xss != ct && xss != fo
    ensures var h2 := h[ct := NoSniff][fo := Deny][xss := BlockMode][ct := NoSniff][fo := Deny];
      var h3 := if secure then h2[ts := OneYearWithSubdomains] else h2;
      h3[rp := StrictOriginWhenCrossOrigin][pp := NoDevicePermissions] == h + ManagedFor(ct, fo, xss, ts, rp, pp, secure)
  {
  }

  /** The headers after `process_response`: the five fixed headers have their
      values, HSTS is set on secure requests only, every other header is kept. */
  function SecuredHeaders(h: map<string, string>, secure: bool): (r: map<string, string>)
    ensures forall f | f in FixedHeaders() :: f.0 in r && r[f.0] == f.1
    ensures secure ==> TransportSecurityKey in r && r[TransportSecurityKey] == OneYearWithSubdomains
    ensures !secure ==> (TransportSecurityKey in r <==> TransportSecurityKey in h)
    ensures !secure && TransportSecurityKey in h ==> r[TransportSecurityKey] == h[TransportSecurityKey]
    ensures forall k | k in h :: k in r
    ensures forall k | k in r && k !in h :: k in ManagedKeys()
    ensures forall k | k in h && k !in ManagedKeys() :: r[k] == h[k]
  {
    h + ManagedHeaders(secure)
  }

  /** Applying `process_response` twice gives the headers of applying it once
      (core/middleware.py:162-182). */
  lemma SecuredHeadersIdempotent(h: map<string, string>, secure: bool)
    ensures SecuredHeaders(SecuredHeaders(h, secure), secure) == SecuredHeaders(h, secure)
  {
    var m := ManagedHeaders(secure);
    assert (h + m) + m == h + m;
  }

  /** An HTTP response whose header map `process_response` updates in place. */
  class Response {
    var headers: map<string, string>

    constructor(headers: map<string, string>)
      ensures this.headers == headers
    {
      this.headers := headers;
    }

    /** `response[name] = value`. */
    method SetHeader(name: string, value: string)
      modifies this
      ensures headers == old(headers)[HeaderKey(name) := value]
    {
      headers := headers[HeaderKey(name) := value];
    }

    /** `SecurityHeadersMiddleware.process_response(request, response)`. */
    method ProcessResponse(secure: bool)
      modifies this
      ensures headers == SecuredHeaders(old(headers), secure)
    {
      HeaderKeysLowered();
      SetInOrder(headers, ContentTypeOptionsKey, FrameOptionsKey, XssProtectionKey,
        TransportSecurityKey, ReferrerPolicyKey, PermissionsPolicyKey, secure);
      SetHeader(ContentTypeOptions, NoSniff);
      SetHeader(FrameOptions, Deny);
      SetHeader(XssProtection, BlockMode);
      SetHeader(ContentTypeOptions, NoSniff);
      SetHeader(FrameOptions, Deny);
      if secure {
        SetHeader(TransportSecurity, OneYearWithSubdomains);
      }
      SetHeader(ReferrerPolicy, StrictOriginWhenCrossOrigin);
      SetHeader(PermissionsPolicy, NoDevicePermissions);
    }
  }
}
