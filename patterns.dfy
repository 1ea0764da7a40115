/**
 * The detection rules of the request filter (core/middleware.py:24-60).
 *
 * Each regular expression of the three rule groups has one of five shapes;
 * a `Pattern` names the shape and its words, and `Search` says when
 * `re.search` finds the pattern somewhere in a (lower-cased) value. The
 * shapes are matched by hand-written predicates that follow the regex
 * semantics: `\b` is a change between word and non-word characters, a
 * greedy run of one character class followed by a character outside it
 * ends where that class ends, and `.` is any character but a newline.
 */
module Patterns {
  import opened Text

  /** What separates the two words of a phrase. */
  datatype Gap =
    | Spaces            // \s+
    | SpacesAnySpaces   // \s+.*\s+

  /** One alternative inside `\b( ... )\b`. */
  datatype Alternative =
    | Word(w: string)
    | Pair(first: string, gap: Gap, second: string)

  /** The operand class of a tautology `x = y`. */
  datatype Operand = Digits | WordChars

  datatype Pattern =
    /** `(n1|n2|...)` with literal needles. */
    | AnyOf(needles: seq<string>)
    /** `\b(a1|a2|...)\b`. */
    | Bounded(alternatives: seq<Alternative>)
    /** `\b(c1|c2)\s+X+\s*=\s*X+` with X = `\d` or `\w`. */
    | Comparison(connectives: seq<string>, operand: Operand)
    /** `<name\b[^>]*>`, followed by `.*?</name>` when `paired`. */
    | Tag(name: string, paired: bool)
    /** `\b(k1|k2|...)\s*[f1f2...]`. */
    | Probe(keywords: seq<string>, followers: seq<char>)

  // ---------------------------------------------------------------------------
  // The rule tables, in the order the middleware tries them
  // ---------------------------------------------------------------------------

  const Quote: char := '\''
  const DoubleQuote: char := '"'

  const StatementKeywords: Pattern :=
    Bounded([Word("union"), Word("select"), Word("insert"), Word("update"), Word("delete"),
             Word("drop"), Word("create"), Word("alter"), Word("exec"), Word("execute")])
  const NumericTautology: Pattern := Comparison(["or", "and"], Digits)
  const WordTautology: Pattern := Comparison(["or", "and"], WordChars)
  const QuotesAndComments: Pattern := AnyOf(["'", "\"", ";", "--", "/*", "*/"])
  const ScriptKeywords: Pattern :=
    Bounded([Word("script"), Word("javascript"), Word("vbscript"), Word("onload"), Word("onerror")])
  const AngleBrackets: Pattern := AnyOf(["<", ">", "&lt;", "&gt;"])
  const StatementPhrases: Pattern :=
    Bounded([Pair("union", Spaces, "select"), Pair("select", SpacesAnySpaces, "from"),
             Pair("insert", Spaces, "into"), Pair("update", SpacesAnySpaces, "set"),
             Pair("delete", Spaces, "from")])
  const FileAccess: Pattern :=
    Bounded([Word("load_file"), Pair("into", Spaces, "outfile"), Pair("into", Spaces, "dumpfile")])
  const StringFunctions: Pattern :=
    Bounded([Word("concat"), Word("substring"), Word("ascii"), Word("char"), Word("hex"), Word("unhex")])
  const SchemaProbes: Pattern :=
    Bounded([Word("version"), Word("user"), Word("database"), Word("schema"),
             Word("table_name"), Word("column_name")])

  const SqlPatterns: seq<Pattern> := [
    StatementKeywords, NumericTautology, WordTautology, QuotesAndComments, ScriptKeywords,
    AngleBrackets, StatementPhrases, FileAccess, StringFunctions, SchemaProbes
  ]

  const XssPatterns: seq<Pattern> := [
    Tag("script", true), Tag("iframe", true), Tag("object", true), Tag("embed", false),
    Tag("link", false), Tag("meta", false), Tag("style", true), Tag("link", false),
    Tag("img", false), Tag("svg", true)
  ]

  const PrivilegedAccounts: seq<string> := ["admin", "administrator", "root", "sa", "guest", "test", "demo"]
  const CredentialWords: seq<string> := ["password", "passwd", "pwd", "secret", "key", "token"]
  const QuoteChars: seq<char> := [Quote, DoubleQuote]
  const OperatorChars: seq<char> := ['=', '<', '>']

  const AuthPatterns: seq<Pattern> := [
    Probe(PrivilegedAccounts, QuoteChars),
    Probe(CredentialWords, QuoteChars),
    Probe(["login", "logon", "signin", "signon"], QuoteChars),
    Probe(["auth", "authentication", "authorization"], QuoteChars),
    Probe(PrivilegedAccounts, OperatorChars),
    Probe(CredentialWords, OperatorChars)
  ]

  /** The statement delimiters, comment markers and angle brackets of the SQL group. */
  const Delimiters: seq<string> := ["'", "\"", ";", "--", "/*", "*/", "<", ">", "&lt;", "&gt;"]

  const StatementWords: seq<string> :=
    ["union", "select", "insert", "update", "delete", "drop", "create", "alter", "exec", "execute"]
  const ScriptWords: seq<string> := ["script", "javascript", "vbscript", "onload", "onerror"]
  const FunctionWords: seq<string> := ["concat", "substring", "ascii", "char", "hex", "unhex"]
  const SchemaWords: seq<string> := ["version", "user", "database", "schema", "table_name", "column_name"]

  /** Every single word that the SQL group flags when it stands alone. */
  const SqlWords: seq<string> := StatementWords + ScriptWords + ["load_file"] + FunctionWords + SchemaWords

  // ---------------------------------------------------------------------------
  // Matching
  // ---------------------------------------------------------------------------

  /** `\b` at index `i`: exactly one of the characters around `i` is a word character. */
  predicate Boundary(v: string, i: int)
    requires 0 <= i <= |v|
  {
    (i > 0 && IsWordChar(v[i - 1])) != (i < |v| && IsWordChar(v[i]))
  }

  predicate OperandChar(op: Operand, c: char) {
    match op
    case Digits => IsDigit(c)
    case WordChars => IsWordChar(c)
  }

  /** The end of the longest run of whitespace starting at `i`. */
  function SkipSpaces(v: string, i: int): (j: int)
    requires 0 <= i <= |v|
    ensures i <= j <= |v|
    ensures forall k | i <= k < j :: IsSpace(v[k])
    ensures j == |v| || !IsSpace(v[j])
    decreases |v| - i
  {
    if i < |v| && IsSpace(v[i]) then SkipSpaces(v, i + 1) else i
  }

  /** The end of the longest run of operand characters starting at `i`. */
  function SkipOperand(v: string, i: int, op: Operand): (j: int)
    requires 0 <= i <= |v|
    ensures i <= j <= |v|
    ensures forall k | i <= k < j :: OperandChar(op, v[k])
    ensures j == |v| || !OperandChar(op, v[j])
    decreases |v| - i
  {
    if i < |v| && OperandChar(op, v[i]) then SkipOperand(v, i + 1, op) else i
  }

  /** The index of the first `>` at or after `i`, or `|v|` when there is none (`[^>]*`). */
  function SkipToGreater(v: string, i: int): (j: int)
    requires 0 <= i <= |v|
    ensures i <= j <= |v|
    ensures forall k | i <= k < j :: v[k] != '>'
    ensures j == |v| || v[j] == '>'
    decreases |v| - i
  {
    if i < |v| && v[i] != '>' then SkipToGreater(v, i + 1) else i
  }

  predicate AllSpaces(v: string, a: int, b: int)
    requires 0 <= a <= b <= |v|
  {
    forall k | a <= k < b :: IsSpace(v[k])
  }

  predicate NoNewline(v: string, a: int, b: int)
    requires 0 <= a <= b <= |v|
  {
    forall k | a <= k < b :: v[k] != '\n'
  }

  /** `\s+.*\s+` matches exactly `v[a..j]`. */
  predicate GapSpansTo(v: string, a: int, j: int)
    requires 0 <= a <= j <= |v|
  {
    exists m, n | a < m <= |v| && m <= n <= |v| && n < j ::
      AllSpaces(v, a, m) && NoNewline(v, m, n) && AllSpaces(v, n, j)
  }

  /** The alternative matches at `i` and is followed by `\b`. */
  predicate AlternativeAt(v: string, i: int, alt: Alternative)
    requires 0 <= i <= |v|
  {
    match alt
    case Word(w) =>
      LiteralAt(v, i, w) && Boundary(v, i + |w|)
    case Pair(f, Spaces, s) =>
      && LiteralAt(v, i, f)
      && var j := SkipSpaces(v, i + |f|);
      && j > i + |f| && LiteralAt(v, j, s) && Boundary(v, j + |s|)
    case Pair(f, SpacesAnySpaces, s) =>
      && LiteralAt(v, i, f)
      && exists j | i + |f| < j <= |v| ::
           GapSpansTo(v, i + |f|, j) && LiteralAt(v, j, s) && Boundary(v, j + |s|)
  }

  /** `\s+X+\s*=\s*X` starting at `a`. */
  predicate ComparisonFrom(v: string, a: int, op: Operand)
    requires 0 <= a <= |v|
  {
    var b := SkipSpaces(v, a);
    && b > a
    && var c := SkipOperand(v, b, op);
    && c > b
    && var d := SkipSpaces(v, c);
    && d < |v| && v[d] == '='
    && var e := SkipSpaces(v, d + 1);
    && e < |v| && OperandChar(op, v[e])
  }

  /** The pattern matches the part of `v` that starts at index `i`. */
  predicate MatchAt(p: Pattern, v: string, i: int)
    requires 0 <= i <= |v|
  {
    match p
    case AnyOf(needles) =>
      exists k | 0 <= k < |needles| :: LiteralAt(v, i, needles[k])
    case Bounded(alts) =>
      Boundary(v, i) && exists k | 0 <= k < |alts| :: AlternativeAt(v, i, alts[k])
    case Comparison(conns, op) =>
      && Boundary(v, i)
      && exists k | 0 <= k < |conns| ::
           LiteralAt(v, i, conns[k]) && ComparisonFrom(v, i + |conns[k]|, op)
    case Tag(name, paired) =>
      && LiteralAt(v, i, "<" + name)
      && Boundary(v, i + 1 + |name|)
      && var g := SkipToGreater(v, i + 1 + |name|);
      && g < |v|
      && (!paired || exists k | g + 1 <= k <= |v| ::
                       NoNewline(v, g + 1, k) && LiteralAt(v, k, "</" + name + ">"))
    case Probe(words, followers) =>
      && Boundary(v, i)
      && exists k | 0 <= k < |words| ::
           && LiteralAt(v, i, words[k])
           && var j := SkipSpaces(v, i + |words[k]|);
           && j < |v| && v[j] in followers
  }

  /** `re.search(p, v)` finds a match. */
  predicate Search(p: Pattern, v: string) {
    exists i | 0 <= i <= |v| :: MatchAt(p, v, i)
  }

  /** Some pattern of the group finds a match. */
  predicate AnyMatch(ps: seq<Pattern>, v: string) {
    exists p | p in ps :: Search(p, v)
  }

  // ---------------------------------------------------------------------------
  // Properties of the rule tables
  // ---------------------------------------------------------------------------

  /** A needle occurring anywhere is found by its `AnyOf` pattern. */
  lemma NeedleFound(v: string, needles: seq<string>, k: nat, i: int)
    requires k < |needles| && LiteralAt(v, i, needles[k])
    ensures Search(AnyOf(needles), v)
  {
    assert MatchAt(AnyOf(needles), v, i);
  }

  /** Any occurrence of a statement delimiter, comment marker, angle bracket or
      escaped angle bracket is found by the SQL group (core/middleware.py:28,30). */
  lemma DelimiterFound(v: string, d: string)
    requires d in Delimiters && Contains(v, d)
    ensures AnyMatch(SqlPatterns, v)
  {
    DelimiterFoundByGroup(v, d);
    assert SqlPatterns[3] == QuotesAndComments && SqlPatterns[5] == AngleBrackets;
  }

  /** The delimiters are exactly the needles of the quote-and-comment and the
      angle-bracket patterns. */
  lemma DelimiterFoundByGroup(v: string, d: string)
    requires d in Delimiters && Contains(v, d)
    ensures Search(QuotesAndComments, v) || Search(AngleBrackets, v)
  {
    var i :| 0 <= i <= |v| - |d| && LiteralAt(v, i, d);
    var k :| 0 <= k < |Delimiters| && Delimiters[k] == d;
    if k < 6 {
      assert QuotesAndComments.needles[k] == d;
      NeedleFound(v, QuotesAndComments.needles, k, i);
    } else {
      assert AngleBrackets.needles[k - 6] == d;
      NeedleFound(v, AngleBrackets.needles, k - 6, i);
    }
  }

  /** A tag pattern matches only where a `<` stands. */
  lemma TagStartsWithLess(name: string, paired: bool, v: string, i: int)
    requires 0 <= i <= |v| && MatchAt(Tag(name, paired), v, i)
    ensures LiteralAt(v, i, "<")
  {
    assert v[i..i + 1] == v[i..i + 1 + |name|][..1];
  }

  /** Every XSS pattern begins with `<`, so a value it matches is already
      matched by the angle-bracket pattern of the SQL group
      (core/middleware.py:30, core/middleware.py:38-49). */
  lemma XssCoveredBySql(v: string)
    requires AnyMatch(XssPatterns, v)
    ensures Search(AngleBrackets, v)
  {
    var k :| 0 <= k < |XssPatterns| && Search(XssPatterns[k], v);
    var p := XssPatterns[k];
    assert p.Tag? && p == Tag(p.name, p.paired);
    var i :| 0 <= i <= |v| && MatchAt(p, v, i);
    TagStartsWithLess(p.name, p.paired, v, i);
    NeedleFound(v, AngleBrackets.needles, 0, i);
  }

  lemma {:induction false} SkipSpacesStopsAt(v: string, a: int, j: int)
    requires 0 <= a <= j < |v| && AllSpaces(v, a, j) && !IsSpace(v[j])
    ensures SkipSpaces(v, a) == j
    decreases j - a
  {
    if a < j {
      SkipSpacesStopsAt(v, a + 1, j);
    }
  }

  /** A keyword of an auth-probe group that starts at a word boundary and is
      followed by optional whitespace and one of the group's characters is
      always found (core/middleware.py:53-60). */
  lemma ProbeFound(v: string, i: int, words: seq<string>, followers: seq<char>, k: nat, j: int)
    requires forall c | c in followers :: !IsSpace(c)
    requires 0 <= i <= |v| && Boundary(v, i)
    requires k < |words| && LiteralAt(v, i, words[k])
    requires i + |words[k]| <= j < |v| && AllSpaces(v, i + |words[k]|, j) && v[j] in followers
    ensures Search(Probe(words, followers), v)
  {
    SkipSpacesStopsAt(v, i + |words[k]|, j);
    assert MatchAt(Probe(words, followers), v, i);
  }

  // ---------------------------------------------------------------------------
  // Values made of word characters only
  // ---------------------------------------------------------------------------

  predicate AllWordChars(v: string) {
    forall i | 0 <= i < |v| :: IsWordChar(v[i])
  }

  lemma NoSpaceInWord(v: string)
    requires AllWordChars(v)
    ensures forall i | 0 <= i < |v| :: !IsSpace(v[i])
  {
  }

  /** The conditions under which a pattern behaves on a value of word
      characters as its stand-alone words say: literal needles start with a
      non-word character, bounded words and phrases are not empty, and an
      auth probe needs a non-word character after its keyword. */
  predicate WordSafe(p: Pattern) {
    match p
    case AnyOf(ns) => forall n | n in ns :: |n| > 0 && !IsWordChar(n[0])
    case Bounded(alts) =>
      forall a | a in alts :: (a.Word? ==> |a.w| > 0) && (a.Pair? ==> |a.first| > 0)
    case Comparison(_, _) => true
    case Tag(_, _) => true
    case Probe(_, fs) => forall c | c in fs :: !IsWordChar(c)
  }

  /** `v` is one of the single words of a bounded pattern. */
  predicate StandsAlone(p: Pattern, v: string) {
    p.Bounded? && Word(v) in p.alternatives
  }

  /** In a value of word characters, `\b` holds only at its two ends. */
  lemma BoundaryInWord(v: string, i: int)
    requires AllWordChars(v) && 0 <= i <= |v| && Boundary(v, i)
    ensures |v| > 0 && (i == 0 || i == |v|)
  {
  }

  lemma GapStartsWithSpace(v: string, a: int, j: int)
    requires 0 <= a <= j <= |v| && GapSpansTo(v, a, j)
    ensures a < |v| && IsSpace(v[a])
  {
    var m, n :| a < m <= |v| && m <= n <= |v| && n < j &&
      AllSpaces(v, a, m) && NoNewline(v, m, n) && AllSpaces(v, n, j);
  }

  /** A bounded alternative matches a value of word characters only if it is
      the single word that makes up the whole value. */
  lemma AlternativeOnWord(v: string, i: int, alt: Alternative)
    requires AllWordChars(v) && 0 <= i <= |v| && Boundary(v, i)
    requires alt.Word? ==> |alt.w| > 0
    requires alt.Pair? ==> |alt.first| > 0
    requires AlternativeAt(v, i, alt)
    ensures alt == Word(v) && i == 0
  {
    NoSpaceInWord(v);
    BoundaryInWord(v, i);
    match alt
    case Word(w) =>
      BoundaryInWord(v, i + |w|);
      assert v[0..|v|] == v;
    case Pair(f, gap, s) =>
      if gap == SpacesAnySpaces {
        var j :| i + |f| < j <= |v| && GapSpansTo(v, i + |f|, j);
        GapStartsWithSpace(v, i + |f|, j);
        assert false;
      } else {
        assert false;
      }
  }

  /** On a value of word characters a pattern finds a match exactly when the
      value is one of its stand-alone words. */
  lemma SearchOnWord(p: Pattern, v: string)
    requires AllWordChars(v) && WordSafe(p)
    ensures Search(p, v) <==> StandsAlone(p, v)
  {
    NoSpaceInWord(v);
    match p
    case AnyOf(ns) =>
    case Bounded(alts) =>
      if Word(v) in alts {
        var k :| 0 <= k < |alts| && alts[k] == Word(v);
        assert v[0..|v|] == v;
        assert MatchAt(p, v, 0);
      }
      forall i, k | 0 <= i <= |v| && 0 <= k < |alts| && Boundary(v, i) && AlternativeAt(v, i, alts[k])
        ensures Word(v) in alts
      {
        assert alts[k] in alts;
        AlternativeOnWord(v, i, alts[k]);
      }
    case Comparison(_, _) =>
    case Tag(name, paired) =>
      if i :| 0 <= i <= |v| && MatchAt(p, v, i) {
        TagStartsWithLess(name, paired, v, i);
      }
    case Probe(_, _) =>
  }

  lemma StatementKeywordsOnWord(v: string)
    requires AllWordChars(v)
    ensures Search(StatementKeywords, v) <==> v in StatementWords
  {
    assert WordSafe(StatementKeywords);
    SearchOnWord(StatementKeywords, v);
  }

  lemma NumericTautologyOnWord(v: string)
    requires AllWordChars(v)
    ensures !Search(NumericTautology, v)
  {
    assert WordSafe(NumericTautology);
    SearchOnWord(NumericTautology, v);
  }

  lemma WordTautologyOnWord(v: string)
    requires AllWordChars(v)
    ensures !Search(WordTautology, v)
  {
    assert WordSafe(WordTautology);
    SearchOnWord(WordTautology, v);
  }

  lemma QuotesAndCommentsOnWord(v: string)
    requires AllWordChars(v)
    ensures !Search(QuotesAndComments, v)
  {
    assert WordSafe(QuotesAndComments);
    SearchOnWord(QuotesAndComments, v);
  }

  lemma ScriptKeywordsOnWord(v: string)
    requires AllWordChars(v)
    ensures Search(ScriptKeywords, v) <==> v in ScriptWords
  {
    assert WordSafe(ScriptKeywords);
    SearchOnWord(ScriptKeywords, v);
  }

  lemma AngleBracketsOnWord(v: string)
    requires AllWordChars(v)
    ensures !Search(AngleBrackets, v)
  {
    assert WordSafe(AngleBrackets);
    SearchOnWord(AngleBrackets, v);
  }

  lemma StatementPhrasesOnWord(v: string)
    requires AllWordChars(v)
    ensures !Search(StatementPhrases, v)
  {
    assert WordSafe(StatementPhrases);
    SearchOnWord(StatementPhrases, v);
  }

  lemma FileAccessOnWord(v: string)
    requires AllWordChars(v)
    ensures Search(FileAccess, v) <==> v in ["load_file"]
  {
    assert WordSafe(FileAccess);
    SearchOnWord(FileAccess, v);
  }

  lemma StringFunctionsOnWord(v: string)
    requires AllWordChars(v)
    ensures Search(StringFunctions, v) <==> v in FunctionWords
  {
    assert WordSafe(StringFunctions);
    SearchOnWord(StringFunctions, v);
  }

  lemma SchemaProbesOnWord(v: string)
    requires AllWordChars(v)
    ensures Search(SchemaProbes, v) <==> v in SchemaWords
  {
    assert WordSafe(SchemaProbes);
    SearchOnWord(SchemaProbes, v);
  }

  /** The only word-character values the SQL group flags are its single
      keywords (core/middleware.py:24-35). */
  lemma SqlOnWord(v: string)
    requires AllWordChars(v)
    ensures AnyMatch(SqlPatterns, v) <==> v in SqlWords
  {
    StatementKeywordsOnWord(v);
    NumericTautologyOnWord(v);
    WordTautologyOnWord(v);
    QuotesAndCommentsOnWord(v);
    ScriptKeywordsOnWord(v);
    AngleBracketsOnWord(v);
    StatementPhrasesOnWord(v);
    FileAccessOnWord(v);
    StringFunctionsOnWord(v);
    SchemaProbesOnWord(v);
    forall k | 0 <= k < |SqlPatterns| ensures Search(SqlPatterns[k], v) ==> v in SqlWords {
      if k == 0 { assert SqlPatterns[0] == StatementKeywords; }
      else if k == 1 { assert SqlPatterns[1] == NumericTautology; }
      else if k == 2 { assert SqlPatterns[2] == WordTautology; }
      else if k == 3 { assert SqlPatterns[3] == QuotesAndComments; }
      else if k == 4 { assert SqlPatterns[4] == ScriptKeywords; }
      else if k == 5 { assert SqlPatterns[5] == AngleBrackets; }
      else if k == 6 { assert SqlPatterns[6] == StatementPhrases; }
      else if k == 7 { assert SqlPatterns[7] == FileAccess; }
      else if k == 8 { assert SqlPatterns[8] == StringFunctions; }
      else { assert SqlPatterns[9] == SchemaProbes; }
    }
    if v in StatementWords { assert Search(SqlPatterns[0], v); }
    else if v in ScriptWords { assert Search(SqlPatterns[4], v); }
    else if v == "load_file" { assert Search(SqlPatterns[7], v); }
    else if v in FunctionWords { assert Search(SqlPatterns[8], v); }
    else if v in SchemaWords { assert Search(SqlPatterns[9], v); }
  }

  /** Neither the XSS group nor the auth-probe group flags a value made of
      word characters (core/middleware.py:38-60). */
  lemma OtherGroupsOnWord(v: string)
    requires AllWordChars(v)
    ensures !AnyMatch(XssPatterns, v) && !AnyMatch(AuthPatterns, v)
  {
    forall k | 0 <= k < |XssPatterns| ensures !Search(XssPatterns[k], v) {
      var p := XssPatterns[k];
      assert p.Tag? && p == Tag(p.name, p.paired);
      TagMissesWord(v, p.name, p.paired);
    }
    forall k | 0 <= k < |AuthPatterns| ensures !Search(AuthPatterns[k], v) {
      var p := AuthPatterns[k];
      assert p.Probe? && p == Probe(p.keywords, p.followers);
      assert p.followers == QuoteChars || p.followers == OperatorChars;
      ProbeMissesWord(v, p.keywords, p.followers);
    }
  }

  lemma TagMissesWord(v: string, name: string, paired: bool)
    requires AllWordChars(v)
    ensures !Search(Tag(name, paired), v)
  {
    if i :| 0 <= i <= |v| && MatchAt(Tag(name, paired), v, i) {
      TagStartsWithLess(name, paired, v, i);
    }
  }

  lemma ProbeMissesWord(v: string, words: seq<string>, followers: seq<char>)
    requires AllWordChars(v)
    requires forall c | c in followers :: !IsWordChar(c)
    ensures !Search(Probe(words, followers), v)
  {
    assert WordSafe(Probe(words, followers));
    SearchOnWord(Probe(words, followers), v);
  }

  /** The bare word "password" is flagged by no group (core/middleware.py:24-60). */
  lemma PasswordAlone()
    ensures !AnyMatch(SqlPatterns, "password")
    ensures !AnyMatch(XssPatterns, "password") && !AnyMatch(AuthPatterns, "password")
  {
    assert AllWordChars("password");
    assert "password" !in SqlWords;
    SqlOnWord("password");
    OtherGroupsOnWord("password");
  }

  /** "password=" and "password'" are flagged by the auth-probe group
      (core/middleware.py:54,59). */
  lemma PasswordWithOperatorOrQuote()
    ensures AnyMatch(AuthPatterns, "password=") && AnyMatch(AuthPatterns, "password'")
  {
    PasswordWithOperator();
    PasswordWithQuote();
  }

  /** A keyword followed directly by one of its group's characters is found. */
  lemma ProbeAtStart(w: string, c: char, words: seq<string>, followers: seq<char>, k: nat)
    requires forall d | d in followers :: !IsSpace(d)
    requires k < |words| && words[k] == w && w != [] && IsWordChar(w[0]) && c in followers
    ensures Search(Probe(words, followers), w + [c])
  {
    var v := w + [c];
    assert v[0..|w|] == w;
    ProbeFound(v, 0, words, followers, k, |w|);
  }

  lemma PasswordWithOperator()
    ensures AnyMatch(AuthPatterns, "password=")
  {
    ProbeAtStart("password", '=', CredentialWords, OperatorChars, 0);
    assert AuthPatterns[5] == Probe(CredentialWords, OperatorChars);
    assert "password=" == "password" + ['='];
  }

  lemma PasswordWithQuote()
    ensures AnyMatch(AuthPatterns, "password'")
  {
    ProbeAtStart("password", Quote, CredentialWords, QuoteChars, 0);
    assert AuthPatterns[1] == Probe(CredentialWords, QuoteChars);
    assert "password'" == "password" + [Quote];
  }
}
