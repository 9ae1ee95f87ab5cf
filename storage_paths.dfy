/**
 * The backend's storage-path helpers: choosing an upload path that does not
 * overwrite a listed file, and splitting a stored "bucket/path" back into
 * its bucket and the path inside it, as the two background tasks do.
 */
module StoragePaths {
  import opened Wrappers
  import opened Text

  /**
   * _ensure_unique_path: "folder/name", both stripped of '/' at the ends, with
   * "<timestamp>_" before the name when that name is already listed in the
   * folder.  The listing is None when it failed, which counts as no collision.
   */
  function EnsureUniquePath(userId: string, filename: string, listing: Option<set<string>>, timestamp: string): (r: string)
  {
    var folder := StripChar(userId, '/');
    var baseName := StripChar(filename, '/');
    var existing := if listing.Some? then listing.value else {};
    var finalName := if baseName in existing then timestamp + "_" + baseName else baseName;
    folder + "/" + finalName
  }

  /** The chosen path is the folder, a slash, and the plain or prefixed name. */
  lemma UniquePathShape(userId: string, filename: string, listing: Option<set<string>>, timestamp: string)
    ensures var folder, base := StripChar(userId, '/'), StripChar(filename, '/');
      var r := EnsureUniquePath(userId, filename, listing, timestamp);
      (listing.Some? && base in listing.value ==> r == folder + "/" + timestamp + "_" + base) &&
      (listing.None? || base !in listing.value ==> r == folder + "/" + base)
  {
  }

  /** With a timestamp whose prefixed name is not listed either, the chosen name overwrites nothing listed. */
  lemma UniquePathFresh(userId: string, filename: string, names: set<string>, timestamp: string)
    requires timestamp + "_" + StripChar(filename, '/') !in names
    ensures var folder := StripChar(userId, '/');
      var r := EnsureUniquePath(userId, filename, Some(names), timestamp);
      r[..|folder| + 1] == folder + "/" && r[|folder| + 1..] !in names
  {
    var folder, base := StripChar(userId, '/'), StripChar(filename, '/');
    var finalName := if base in names then timestamp + "_" + base else base;
    assert EnsureUniquePath(userId, filename, Some(names), timestamp) == (folder + "/") + finalName;
  }

  /** What the financial task does with a stored path. */
  datatype FinancialTarget = MissingPath | InvalidPath | Download(bucket: string, path: string)

  /**
   * run_processing_financeiro: an empty or missing path stops the task; the
   * path loses its leading '/' and is split on '/'; fewer than two parts stops
   * it too; otherwise the first part is the bucket and the rest, re-joined
   * with '/', the path inside it.
   */
  function FinancialTargetOf(storagePath: Option<string>): (r: FinancialTarget)
    ensures r.Download? ==> '/' !in r.bucket
  {
    if storagePath.None? || storagePath.value == "" then MissingPath
    else
      var parts := Split(TrimLeftChar(storagePath.value, '/'), '/');
      if |parts| < 2 then InvalidPath
      else Download(parts[0], Join(parts[1..], "/"))
  }

  /** A download target puts the stored path back together, less its leading slashes. */
  lemma FinancialTargetRoundTrip(storagePath: string)
    requires FinancialTargetOf(Some(storagePath)).Download?
    ensures var t := FinancialTargetOf(Some(storagePath));
      t.bucket + "/" + t.path == TrimLeftChar(storagePath, '/')
  {
    var clean := TrimLeftChar(storagePath, '/');
    JoinSplit(clean, '/');
  }

  /** A stored path is refused exactly when, less its leading slashes, it holds no '/'. */
  lemma FinancialTargetInvalid(storagePath: string)
    requires storagePath != ""
    ensures FinancialTargetOf(Some(storagePath)).InvalidPath? <==> '/' !in TrimLeftChar(storagePath, '/')
  {
    var clean := TrimLeftChar(storagePath, '/');
    if '/' in clean {
      var i := IndexOf(clean, '/');
      assert |Split(clean, '/')| == 1 + |Split(clean[i + 1..], '/')|;
    }
  }

  /**
   * run_processing_conciliacao: the same split, with no count check, so a
   * path without '/' gives an empty path inside the bucket.
   */
  function ConciliationTarget(storagePath: string): (r: (string, string))
    ensures '/' !in r.0
  {
    var parts := Split(TrimLeftChar(storagePath, '/'), '/');
    (parts[0], Join(parts[1..], "/"))
  }

  /** With no '/' after the leading ones, the whole path is taken as a bucket name and the path is empty. */
  lemma ConciliationTargetNoSlash(storagePath: string)
    requires '/' !in TrimLeftChar(storagePath, '/')
    ensures ConciliationTarget(storagePath) == (TrimLeftChar(storagePath, '/'), "")
  {
  }

  /** With a '/', the conciliation task agrees with the financial one. */
  lemma ConciliationAgrees(storagePath: string)
    requires storagePath != "" && '/' in TrimLeftChar(storagePath, '/')
    ensures var t := FinancialTargetOf(Some(storagePath));
      t.Download? && ConciliationTarget(storagePath) == (t.bucket, t.path)
  {
    FinancialTargetInvalid(storagePath);
  }

  /** The conciliation task's account lookup: no row or an empty account_id raises. */
  function ConciliationAccount(fileId: string, accountId: Option<string>): (r: Result<string>)
    ensures r.Ok? <==> accountId.Some? && accountId.value != ""
    ensures r.Ok? ==> r.value == accountId.value
  {
    if accountId.None? || accountId.value == "" then
      Err("Metadados (account_id) para file_id " + fileId + " não encontrados.")
    else Ok(accountId.value)
  }

  /** The error details the conciliation task writes on any failure. */
  function ConciliationErrorDetails(message: string): (r: string)
    ensures |r| > |message| && r[|r| - |message|..] == message
  {
    "Erro no orquestrador de processamento de conciliação: " + message
  }
}
