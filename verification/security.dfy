/**
 * Secure-default prompt text and the quick heuristic scan that labels obvious
 * risks in a code snippet: SQL built from request input, passwords handled
 * without a slow hash, and secrets written in plain text. The scan's labels are
 * fed to the chat model as context.
 */
module Security {
  import opened Text

  const SecurityPromptBlock: string :=
    "Security (prefer secure defaults): Use parameterized queries or prepared statements—never concatenate user input into SQL. For auth use secure hashing (e.g. password_hash, bcrypt) and CSRF protection. Do not output hardcoded secrets, API keys, or passwords. Prefer secure defaults in generated code."

  const SqlHint: string := "Possible SQL injection risk: raw query with user input (e.g. $_GET/$_POST). Use prepared statements."
  const AuthHint: string := "Possible insecure auth: password stored or compared without password_hash/bcrypt."
  const SecretHint: string := "Possible hardcoded secret: API key, password, or token in plain text. Use env vars or config."

  /** A data-changing or reading SQL keyword followed by a space, in any letter case. */
  predicate HasSqlVerb(code: string) {
    var lower := ToLower(code);
    Contains(lower, "select ") || Contains(lower, "insert ") || Contains(lower, "delete ") || Contains(lower, "update ")
  }

  /** Request superglobals, or a string concatenated into a query with a WHERE clause. */
  predicate HasUserInput(code: string) {
    Contains(code, "$_GET") || Contains(code, "$_POST")
    || (Contains(code, "+") && Contains(code, "\"") && Contains(ToLower(code), "where"))
  }

  predicate SqlRisk(code: string) {
    HasSqlVerb(code) && HasUserInput(code)
  }

  /** A password assigned or hashed with md5/sha1, and no sign of `password_hash` or bcrypt. */
  predicate AuthRisk(code: string) {
    var lower := ToLower(code);
    Contains(lower, "password")
    && (Contains(lower, "=") || Contains(lower, "md5") || Contains(lower, "sha1"))
    && !Contains(lower, "password_hash") && !Contains(lower, "bcrypt")
  }

  // ---------------------------------------------------------------------------
  // the two secret regexes

  predicate IsQuote(c: char) {
    c == '\'' || c == '"'
  }

  /** The spellings of `api[_-]?key|secret|password`, lower-cased. */
  const SecretNames: seq<string> := ["api_key", "api-key", "apikey", "secret", "password"]

  /** `['"][^'"]+['"]` at the start of `v`. */
  predicate QuotedValue(v: string) {
    |v| > 0 && IsQuote(v[0]) &&
    exists k :: 2 <= k < |v| && IsQuote(v[k]) && forall m :: 1 <= m < k ==> !IsQuote(v[m])
  }

  /** `\s*=\s*` then a quoted value at the start of `t`; `\s` is the set `trim` removes. */
  predicate AssignedQuoted(t: string) {
    var u := TrimStart(t);
    |u| > 0 && u[0] == '=' && QuotedValue(TrimStart(u[1..]))
  }

  /** `/\b(api[_-]?key|secret|password)\s*=\s*['"][^'"]+['"]/i` matches at index `i`. */
  predicate SecretAssignmentAt(code: string, i: int) {
    0 <= i < |code| && (i == 0 || !IsWordChar(code[i - 1])) &&
    exists k :: 0 <= k < |SecretNames| && OccursAt(ToLower(code), SecretNames[k], i)
      && AssignedQuoted(code[i + |SecretNames[k]|..])
  }

  /** `/sk-[a-zA-Z0-9]{20,}/` matches at index `i`. */
  predicate SecretKeyAt(code: string, i: int) {
    OccursAt(code, "sk-", i) && i + 23 <= |code| && forall m :: i + 3 <= m < i + 23 ==> IsAlnum(code[m])
  }

  predicate SecretRisk(code: string) {
    (exists i :: 0 <= i < |code| && SecretAssignmentAt(code, i)) || (exists i :: 0 <= i < |code| && SecretKeyAt(code, i))
  }

  /** The three risks the scan reports, in its order. */
  datatype Risk = SqlInjection | InsecureAuth | HardcodedSecret {
    function Label(): string {
      match this
      case SqlInjection => SqlHint
      case InsecureAuth => AuthHint
      case HardcodedSecret => SecretHint
    }

    function Rank(): nat {
      match this
      case SqlInjection => 0
      case InsecureAuth => 1
      case HardcodedSecret => 2
    }
  }

  /** The risks whose flags are set, in rank order. */
  function Pick(sql: bool, auth: bool, secret: bool): (r: seq<Risk>)
    ensures |r| <= 3
    ensures SqlInjection in r <==> sql
    ensures InsecureAuth in r <==> auth
    ensures HardcodedSecret in r <==> secret
    ensures forall i, j :: 0 <= i < j < |r| ==> r[i].Rank() < r[j].Rank()
  {
    (if sql then [SqlInjection] else [])
    + (if auth then [InsecureAuth] else [])
    + (if secret then [HardcodedSecret] else [])
  }

  /** The risks found, each once, in the scan's order. */
  function Risks(code: string): (r: seq<Risk>)
    ensures |r| <= 3
    ensures SqlInjection in r <==> SqlRisk(code)
    ensures InsecureAuth in r <==> AuthRisk(code)
    ensures HardcodedSecret in r <==> SecretRisk(code)
    ensures forall i, j :: 0 <= i < j < |r| ==> r[i].Rank() < r[j].Rank()
  {
    Pick(SqlRisk(code), AuthRisk(code), SecretRisk(code))
  }

  /** `quickScan(code)`: the label of each risk found. */
  function QuickScan(code: string): (r: seq<string>)
    ensures |r| == |Risks(code)| <= 3
    ensures forall i :: 0 <= i < |r| ==> r[i] == Risks(code)[i].Label()
  {
    var risks := Risks(code);
    seq(|risks|, i requires 0 <= i < |risks| => risks[i].Label())
  }

  /** Different risks have different labels, so the labels say which risks were found. */
  lemma LabelsDistinct(a: Risk, b: Risk)
    requires a != b
    ensures a.Label() != b.Label()
  {
    assert |SqlHint| == 100 && |AuthHint| == 81 && |SecretHint| == 93;
  }

  // ---------------------------------------------------------------------------
  // properties

  /** A lower-cased occurrence of a secret name contains one of the three stems. */
  lemma SecretNameStem(lower: string, k: nat, i: int)
    requires k < |SecretNames| && OccursAt(lower, SecretNames[k], i)
    ensures Contains(lower, "api") || Contains(lower, "secret") || Contains(lower, "password")
  {
    var name := SecretNames[k];
    var stem := if k < 3 then "api" else name;
    assert name[..|stem|] == stem by {
      if k == 0 { assert name == "api_key"; }
      else if k == 1 { assert name == "api-key"; }
      else if k == 2 { assert name == "apikey"; }
    }
    assert lower[i..i + |name|] == name;
    SliceOfSlice(lower, i, i + |name|, 0, |stem|);
    assert lower[i..i + |name|][..|stem|] == lower[i..i + |name|][0..|stem|];
    assert OccursAt(lower, stem, i);
    ContainsIff(lower, stem);
  }

  /** Code that mentions none of the trigger words gets no label. */
  lemma NoTriggerWordsNoHints(code: string)
    requires var lower := ToLower(code);
      !Contains(lower, "select ") && !Contains(lower, "insert ") && !Contains(lower, "delete ")
      && !Contains(lower, "update ") && !Contains(lower, "password") && !Contains(lower, "api")
      && !Contains(lower, "secret") && !Contains(code, "sk-")
    ensures QuickScan(code) == []
  {
    NoSecretNameNoSecret(code);
  }

  lemma NoSecretNameNoSecret(code: string)
    requires !Contains(ToLower(code), "password") && !Contains(ToLower(code), "api")
      && !Contains(ToLower(code), "secret") && !Contains(code, "sk-")
    ensures !SecretRisk(code)
  {
    var lower := ToLower(code);
    forall i | 0 <= i < |code|
      ensures !SecretAssignmentAt(code, i)
    {
      if SecretAssignmentAt(code, i) {
        var k :| 0 <= k < |SecretNames| && OccursAt(lower, SecretNames[k], i)
          && AssignedQuoted(code[i + |SecretNames[k]|..]);
        SecretNameStem(lower, k, i);
      }
    }
    ContainsIff(code, "sk-");
  }

  /** Using `password_hash` or bcrypt anywhere silences the auth label. */
  lemma SafeHashingNotFlagged(code: string)
    requires Contains(ToLower(code), "password_hash") || Contains(ToLower(code), "bcrypt")
    ensures InsecureAuth !in Risks(code)
  {
  }

  /** A query without superglobals, `+` or a double quote is never labelled as SQL injection. */
  lemma PreparedQueryNotFlagged(code: string)
    requires !Contains(code, "$_GET") && !Contains(code, "$_POST") && !Contains(code, "+")
    ensures SqlInjection !in Risks(code)
  {
  }

  /** `password='…'` after a non-word character is labelled as a hardcoded secret. */
  lemma QuotedPasswordFlagged(before: string, value: string)
    requires |before| == 0 || !IsWordChar(before[|before| - 1])
    requires |value| > 0 && forall m :: 0 <= m < |value| ==> !IsQuote(value[m])
    ensures HardcodedSecret in Risks(before + "password='" + value + "'")
  {
    var tail := "=" + ("'" + value + "'");
    PasswordSplit(before, value);
    PasswordIsLowerCase();
    QuotedAssignment(value);
    NameAssignment(before, 4, tail);
    SecretFlagged(before + SecretNames[4] + tail, |before|);
  }

  lemma PasswordSplit(before: string, value: string)
    ensures before + "password='" + value + "'" == before + SecretNames[4] + ("=" + ("'" + value + "'"))
  {
    assert SecretNames[4] == "password";
    assert "password='" == "password" + "='";
  }

  lemma PasswordIsLowerCase()
    ensures forall m :: 0 <= m < |SecretNames[4]| ==> !IsUpper(SecretNames[4][m])
  {
    assert SecretNames[4] == "password";
  }

  /** A lower-case secret name after a non-word character, followed by a quoted assignment, matches there. */
  lemma NameAssignment(before: string, k: nat, tail: string)
    requires k < |SecretNames| && forall m :: 0 <= m < |SecretNames[k]| ==> !IsUpper(SecretNames[k][m])
    requires |before| == 0 || !IsWordChar(before[|before| - 1])
    requires AssignedQuoted(tail)
    ensures SecretAssignmentAt(before + SecretNames[k] + tail, |before|)
  {
    var name := SecretNames[k];
    var code := before + name + tail;
    var i := |before|;
    LowerOccurrence(before, name, tail);
    assert code[i + |name|..] == tail;
    assert i > 0 ==> code[i - 1] == before[|before| - 1];
  }

  lemma SecretFlagged(code: string, i: int)
    requires SecretAssignmentAt(code, i)
    ensures HardcodedSecret in Risks(code)
  {
  }

  /** A lower-case word keeps its place in the lower-cased text. */
  lemma LowerOccurrence(a: string, w: string, b: string)
    requires forall m :: 0 <= m < |w| ==> !IsUpper(w[m])
    ensures OccursAt(ToLower(a + w + b), w, |a|)
  {
    var s := a + w + b;
    forall m | 0 <= m < |w|
      ensures ToLower(s)[|a| + m] == w[m]
    {
      assert s[|a| + m] == w[m];
    }
  }

  /** `='…'` with a quote-free value satisfies the assignment tail. */
  lemma QuotedAssignment(value: string)
    requires |value| > 0 && forall m :: 0 <= m < |value| ==> !IsQuote(value[m])
    ensures AssignedQuoted("=" + ("'" + value + "'"))
  {
    var v := "'" + value + "'";
    var u := "=" + v;
    TrimStartUnchanged(u);
    assert u[1..] == v;
    TrimStartUnchanged(v);
    var k := |value| + 1;
    assert IsQuote(v[0]) && IsQuote(v[k]);
    assert forall m :: 1 <= m < k ==> v[m] == value[m - 1];
  }

  /** A name that merely ends in `secret` is not a secret assignment at that position. */
  lemma WordBoundaryRequired(code: string, i: int)
    requires 0 < i < |code| && IsWordChar(code[i - 1])
    ensures !SecretAssignmentAt(code, i)
  {
  }
}
