/**
 * The SQL agent's read-only guard.  The SQL parser is an oracle: for a
 * query it either fails with a message or yields the root expression's key,
 * which the parser library spells as the lower-cased class name
 * ("select", "insert", "union", ...).
 */
module SqlValidator {
  import opened Text

  datatype Parsed = ParseFailed(error: string) | Parsed(rootKey: string)

  const Banned := ["drop ", "alter ", "create ", "truncate ", "grant ", "revoke ", "insert ", "update ", "delete "]
  const BannedIssue := "Only SELECT queries are allowed."
  const RootIssue := "Root statement must be SELECT."
  const LimitIssue := "Query should include LIMIT to avoid heavy scans."
  const ParseErrorPrefix := "parse_error: "

  /** The key the parser library gives a SELECT root. */
  const SelectKey := "select"

  /** A root key as the parser library spells it: no upper-case ASCII letter. */
  predicate LowerCaseKey(k: string)
  {
    forall i | 0 <= i < |k| :: !('A' <= k[i] <= 'Z')
  }

  /** any(b in lowered for b in banned) */
  predicate HasBanned(lowered: string)
  {
    exists b | b in Banned :: Contains(lowered, b)
  }

  /** The checks after a successful parse, comparing the root key with selectKey. */
  function Issues(sql: string, rootKey: string, selectKey: string): (issues: seq<string>)
  {
    var lowered := Lower(Strip(sql));
    (if HasBanned(lowered) then [BannedIssue] else [])
    + (if rootKey != selectKey then [RootIssue] else [])
    + (if !Contains(lowered, " limit ") then [LimitIssue] else [])
  }

  function ValidateWith(sql: string, parsed: Parsed, selectKey: string): (r: (bool, seq<string>))
  {
    if parsed.ParseFailed? then (false, [ParseErrorPrefix + parsed.error])
    else var issues := Issues(sql, parsed.rootKey, selectKey); (|issues| == 0, issues)
  }

  /** validate_sql as written: the root key is compared with "Select". */
  function ValidateSqlAsWritten(sql: string, parsed: Parsed): (r: (bool, seq<string>))
    ensures r.0 <==> r.1 == []
    ensures parsed.ParseFailed? ==> r == (false, [ParseErrorPrefix + parsed.error])
    ensures parsed.Parsed? ==> (BannedIssue in r.1 <==> HasBanned(Lower(Strip(sql))))
    ensures parsed.Parsed? ==> (RootIssue in r.1 <==> parsed.rootKey != "Select")
    ensures parsed.Parsed? ==> (LimitIssue in r.1 <==> !Contains(Lower(Strip(sql)), " limit "))
  {
    IssuesDistinct();
    ValidateWith(sql, parsed, "Select")
  }

  /** validate_sql with the root check comparing against the key the parser actually produces. */
  function ValidateSql(sql: string, parsed: Parsed): (r: (bool, seq<string>))
    ensures r.0 <==> r.1 == []
    ensures parsed.ParseFailed? ==> r == (false, [ParseErrorPrefix + parsed.error])
    ensures parsed.Parsed? ==> (BannedIssue in r.1 <==> HasBanned(Lower(Strip(sql))))
    ensures parsed.Parsed? ==> (RootIssue in r.1 <==> parsed.rootKey != SelectKey)
    ensures parsed.Parsed? ==> (LimitIssue in r.1 <==> !Contains(Lower(Strip(sql)), " limit "))
    ensures parsed.Parsed? ==> |r.1| <= 3
  {
    IssuesDistinct();
    ValidateWith(sql, parsed, SelectKey)
  }

  lemma IssuesDistinct()
    ensures BannedIssue != RootIssue && BannedIssue != LimitIssue && RootIssue != LimitIssue
  {
    assert |BannedIssue| == 32 && |RootIssue| == 30 && |LimitIssue| == 48;
  }

  /** The query is accepted exactly when it parses to a SELECT root, has no banned keyword and has " limit ". */
  lemma ValidIff(sql: string, parsed: Parsed)
    ensures ValidateSql(sql, parsed).0 <==>
      parsed.Parsed? && parsed.rootKey == SelectKey &&
      !HasBanned(Lower(Strip(sql))) && Contains(Lower(Strip(sql)), " limit ")
  {
  }

  /** As written, no query the parser can produce a key for is ever accepted. */
  lemma AsWrittenRejectsAll(sql: string, parsed: Parsed)
    requires parsed.ParseFailed? || LowerCaseKey(parsed.rootKey)
    ensures !ValidateSqlAsWritten(sql, parsed).0
  {
    if parsed.Parsed? {
      assert parsed.rootKey != "Select" by {
        assert "Select"[0] == 'S';
      }
    }
  }

  /** As written, a parsed query that has " limit " is refused for its root, and for nothing else unless it holds a banned keyword. */
  lemma AsWrittenRootIssue(sql: string, parsed: Parsed)
    requires parsed.Parsed? && LowerCaseKey(parsed.rootKey) && Contains(Lower(Strip(sql)), " limit ")
    ensures RootIssue in ValidateSqlAsWritten(sql, parsed).1 && LimitIssue !in ValidateSqlAsWritten(sql, parsed).1
    ensures !HasBanned(Lower(Strip(sql))) ==> ValidateSqlAsWritten(sql, parsed).1 == [RootIssue]
  {
    assert parsed.rootKey != "Select" by {
      assert "Select"[0] == 'S';
    }
  }

  /** A query with no space character after stripping never passes the LIMIT check, e.g. one broken over lines. */
  lemma NoSpaceNoLimit(sql: string, parsed: Parsed)
    requires parsed.Parsed? && ' ' !in Lower(Strip(sql))
    ensures LimitIssue in ValidateSql(sql, parsed).1
  {
    if Contains(Lower(Strip(sql)), " limit ") {
      ContainsFirst(Lower(Strip(sql)), " limit ");
    }
  }
}
