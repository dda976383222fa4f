/**
 * Reading one cookie store (`readCookies` in ClaudeUsageApp/BrowserCookieReader.swift): the
 * ordered fallback for opening the SQLite file, the loop over the rows the query returns, and
 * the classification of what the loop found into a result or an `ImportError`.
 *
 * Copying the file, SQLite itself and the temporary-file clean-up are outside the model: what
 * they produce for a path is the `StoreAccess` a `CookieDatabases` object hands out.
 */
module CookieStore {
  import opened Base
  import opened CookieDecryption

  /** `BrowserCookieReader.CookieResult`. */
  datatype CookieResult = CookieResult(sessionKey: string, organizationID: string, browser: string)

  /** `BrowserCookieReader.ImportError`, with its associated values. */
  datatype ImportError =
    | KeychainDenied(detail: string)
    | KeychainNotFound(service: string)
    | DbCopyFailed(path: string)
    | DbOpenFailed(path: string)
    | NoCookiesInDB
    | DecryptionFailed(found: int)
    | MissingCookie(hasSession: bool, hasOrg: bool)

  /** The two cookie names the query selects. */
  const SessionKeyName: string := "sessionKey"
  const OrgIdName: string := "lastActiveOrg"

  /** The detail `dbOpenFailed` carries when the query cannot be prepared. */
  const PrepareFailedDetail: string := "SQL prepare failed"

  /** One row of the query: the `name` column (None for SQL NULL) and the `encrypted_value` blob. */
  datatype Row = Row(name: Option<string>, blob: seq<byte>)

  /** The loop's variables `sessionKey`, `orgID` and `foundCount`. */
  datatype Harvest = Harvest(sessionKey: Option<string>, orgID: Option<string>, foundCount: nat)

  /** A row the loop counts: it has a name and a non-empty blob. */
  predicate Counted(row: Row) {
    row.name.Some? && |row.blob| > 0
  }

  /** The non-empty text a counted row decrypts to, if any. */
  function Plaintext(row: Row, key: AesKey, p: Primitives): (r: Option<string>)
    ensures r.Some? ==> Counted(row) && r.value != ""
  {
    if !Counted(row) then None
    else
      var d := DecryptCookieValue(row.blob, key, p);
      if d.Some? && d.value != "" then d else None
  }

  /** The row carries a usable value for the cookie called `name`. */
  predicate Supplies(row: Row, name: string, key: AesKey, p: Primitives) {
    Plaintext(row, key, p).Some? && row.name == Some(name)
  }

  /** One turn of the `while sqlite3_step(stmt) == SQLITE_ROW` loop. */
  function Absorb(h: Harvest, row: Row, key: AesKey, p: Primitives): Harvest {
    if !Counted(row) then h
    else
      var counted := h.(foundCount := h.foundCount + 1);
      var d := Plaintext(row, key, p);
      if d.None? then counted
      else if row.name.value == SessionKeyName then counted.(sessionKey := d)
      else if row.name.value == OrgIdName then counted.(orgID := d)
      else counted
  }

  /** The loop's variables after it has seen `rows`, in order. */
  function Harvested(rows: seq<Row>, key: AesKey, p: Primitives): Harvest {
    if rows == [] then Harvest(None, None, 0)
    else Absorb(Harvested(rows[..|rows| - 1], key, p), rows[|rows| - 1], key, p)
  }

  /** The variable the loop keeps for the cookie called `name`. */
  function Slot(h: Harvest, name: string): Option<string> {
    if name == SessionKeyName then h.sessionKey else h.orgID
  }

  /** The rows the loop counts, in order. */
  function CountedRows(rows: seq<Row>): (r: seq<Row>)
    ensures |r| <= |rows|
    ensures forall row :: row in r ==> row in rows && Counted(row)
  {
    if rows == [] then []
    else (if Counted(rows[0]) then [rows[0]] else []) + CountedRows(rows[1..])
  }

  lemma {:induction false} CountedRowsSnoc(rows: seq<Row>, row: Row)
    ensures CountedRows(rows + [row]) == CountedRows(rows) + (if Counted(row) then [row] else [])
  {
    var last := if Counted(row) then [row] else [];
    if rows == [] {
      assert [row][1..] == [];
      assert CountedRows([row]) == last + [];
    } else {
      var first := if Counted(rows[0]) then [rows[0]] else [];
      assert (rows + [row])[0] == rows[0];
      assert (rows + [row])[1..] == rows[1..] + [row];
      assert CountedRows(rows + [row]) == first + CountedRows(rows[1..] + [row]);
      CountedRowsSnoc(rows[1..], row);
      assert first + (CountedRows(rows[1..]) + last) == (first + CountedRows(rows[1..])) + last;
    }
  }

  lemma {:induction false} CountedRowsEmpty(rows: seq<Row>)
    ensures CountedRows(rows) == [] <==> forall i | 0 <= i < |rows| :: !Counted(rows[i])
  {
    if rows != [] {
      CountedRowsEmpty(rows[1..]);
      assert forall i | 1 <= i < |rows| :: rows[i] == rows[1..][i - 1];
    }
  }

  lemma {:induction false} CountedRowAt(rows: seq<Row>, i: nat)
    requires i < |rows| && Counted(rows[i])
    ensures rows[i] in CountedRows(rows)
  {
    if i > 0 {
      CountedRowAt(rows[1..], i - 1);
    }
  }

  /** `foundCount` is the number of rows with a name and a non-empty blob, decrypted or not. */
  lemma {:induction false} HarvestedCount(rows: seq<Row>, key: AesKey, p: Primitives)
    ensures Harvested(rows, key, p).foundCount == |CountedRows(rows)|
  {
    if rows != [] {
      var init, last := rows[..|rows| - 1], rows[|rows| - 1];
      assert rows == init + [last];
      HarvestedCount(init, key, p);
      CountedRowsSnoc(init, last);
    }
  }

  lemma AbsorbSlot(h: Harvest, row: Row, name: string, key: AesKey, p: Primitives)
    requires name == SessionKeyName || name == OrgIdName
    ensures Slot(Absorb(h, row, key, p), name) ==
      if Supplies(row, name, key, p) then Plaintext(row, key, p) else Slot(h, name)
  {
  }

  /**
   * The value kept for a cookie is missing exactly when no row supplies one, and otherwise is
   * the value of the last row that does: a later row with the same name overwrites an
   * earlier one, and a row that fails to decrypt overwrites nothing.
   */
  lemma {:induction false} HarvestedSlot(rows: seq<Row>, name: string, key: AesKey, p: Primitives)
    requires name == SessionKeyName || name == OrgIdName
    ensures Slot(Harvested(rows, key, p), name).None? <==>
      forall i | 0 <= i < |rows| :: !Supplies(rows[i], name, key, p)
    ensures forall i | 0 <= i < |rows| && Supplies(rows[i], name, key, p) &&
                       (forall j | i < j < |rows| :: !Supplies(rows[j], name, key, p)) ::
      Slot(Harvested(rows, key, p), name) == Plaintext(rows[i], key, p)
  {
    if rows != [] {
      var init, last := rows[..|rows| - 1], rows[|rows| - 1];
      var h := Harvested(init, key, p);
      assert Harvested(rows, key, p) == Absorb(h, last, key, p);
      HarvestedSlot(init, name, key, p);
      AbsorbSlot(h, last, name, key, p);
      assert forall i | 0 <= i < |init| :: init[i] == rows[i];
      if Supplies(last, name, key, p) {
        assert Slot(Harvested(rows, key, p), name) == Plaintext(last, key, p);
      } else {
        assert Slot(Harvested(rows, key, p), name) == Slot(h, name);
      }
    }
  }

  /** What the loop keeps is never the empty string. */
  lemma {:induction false} HarvestedValuesNonEmpty(rows: seq<Row>, key: AesKey, p: Primitives)
    ensures Harvested(rows, key, p).sessionKey.Some? ==> Harvested(rows, key, p).sessionKey.value != ""
    ensures Harvested(rows, key, p).orgID.Some? ==> Harvested(rows, key, p).orgID.value != ""
  {
    if rows != [] {
      HarvestedValuesNonEmpty(rows[..|rows| - 1], key, p);
    }
  }

  /** The loop of `readCookies`, over the rows the statement steps through. */
  method HarvestRows(rows: seq<Row>, key: AesKey, p: Primitives)
    returns (sessionKey: Option<string>, orgID: Option<string>, foundCount: nat)
    ensures Harvest(sessionKey, orgID, foundCount) == Harvested(rows, key, p)
  {
    sessionKey, orgID, foundCount := None, None, 0;
    var i := 0;
    while i < |rows|
      invariant 0 <= i <= |rows|
      invariant Harvest(sessionKey, orgID, foundCount) == Harvested(rows[..i], key, p)
    {
      var row := rows[i];
      assert rows[..i + 1] == rows[..i] + [row];
      if row.name.Some? && |row.blob| > 0 {
        foundCount := foundCount + 1;
        var decrypted := DecryptCookieValue(row.blob, key, p);
        if decrypted.Some? && decrypted.value != "" {
          if row.name.value == SessionKeyName {
            sessionKey := decrypted;
          } else if row.name.value == OrgIdName {
            orgID := decrypted;
          }
        }
      }
      i := i + 1;
    }
    assert rows[..i] == rows;
  }

  /** The tail of `readCookies`: what the loop found, as a result. */
  function Classify(h: Harvest, browserName: string): (r: Result<CookieResult, ImportError>)
    ensures r == Failure(NoCookiesInDB) <==> h.foundCount == 0
    ensures r == Failure(DecryptionFailed(h.foundCount)) <==>
      h.foundCount > 0 && h.sessionKey.None? && h.orgID.None?
    ensures (r.Failure? && r.error.MissingCookie?) <==>
      h.foundCount > 0 && h.sessionKey.Some? != h.orgID.Some?
    ensures r.Failure? && r.error.MissingCookie? ==>
      r.error.hasSession == h.sessionKey.Some? && r.error.hasOrg == h.orgID.Some?
    ensures r.Success? <==> h.foundCount > 0 && h.sessionKey.Some? && h.orgID.Some?
    ensures r.Success? ==> r.value == CookieResult(h.sessionKey.value, h.orgID.value, browserName)
  {
    if h.foundCount == 0 then Failure(NoCookiesInDB)
    else if h.sessionKey.None? || h.orgID.None? then
      if h.sessionKey.None? && h.orgID.None? && h.foundCount > 0 then Failure(DecryptionFailed(h.foundCount))
      else Failure(MissingCookie(h.sessionKey.Some?, h.orgID.Some?))
    else Success(CookieResult(h.sessionKey.value, h.orgID.value, browserName))
  }

  /** What opening one store and running the query on it gives. */
  datatype StoreAccess = StoreAccess(
    copied: bool,          // the main file was copied to the temporary path
    copyOpened: bool,      // the copy opened read-only
    immutableOpened: bool, // the original opened through the `immutable=1` URI
    prepared: bool,        // the query was prepared
    rows: seq<Row>)        // the rows the statement steps through, in order

  /** Copy-then-open succeeded, or else the immutable open did. */
  predicate Opened(a: StoreAccess) {
    (a.copied && a.copyOpened) || a.immutableOpened
  }

  /** The result `readCookies` returns for one store. */
  function ReadOutcome(path: string, a: StoreAccess, key: AesKey, browserName: string, p: Primitives)
    : Result<CookieResult, ImportError>
  {
    if !Opened(a) then Failure(DbOpenFailed(path))
    else if !a.prepared then Failure(DbOpenFailed(PrepareFailedDetail))
    else Classify(Harvested(a.rows, key, p), browserName)
  }

  /** Cookies come only from a store that opened and whose query prepared, and neither value is empty. */
  lemma ReadOutcomeSuccess(path: string, a: StoreAccess, key: AesKey, browserName: string, p: Primitives)
    ensures var r := ReadOutcome(path, a, key, browserName, p);
      r.Success? ==>
        Opened(a) && a.prepared && r.value.browser == browserName &&
        r.value.sessionKey != "" && r.value.organizationID != ""
  {
    HarvestedValuesNonEmpty(a.rows, key, p);
  }

  /**
   * A store that opens neither way fails with `dbOpenFailed` carrying its path, one whose query
   * does not prepare with `dbOpenFailed` carrying the prepare message; reading never reports a
   * keychain or copy error.
   */
  lemma ReadOutcomeErrors(path: string, a: StoreAccess, key: AesKey, browserName: string, p: Primitives)
    ensures ReadOutcome(path, a, key, browserName, p) == Failure(DbOpenFailed(path)) <== !Opened(a)
    ensures Opened(a) && !a.prepared ==>
      ReadOutcome(path, a, key, browserName, p) == Failure(DbOpenFailed(PrepareFailedDetail))
    ensures var r := ReadOutcome(path, a, key, browserName, p);
      r.Failure? ==> (r.error.DbOpenFailed? <==> !Opened(a) || !a.prepared)
    ensures var r := ReadOutcome(path, a, key, browserName, p);
      r.Failure? ==> !r.error.KeychainDenied? && !r.error.KeychainNotFound? && !r.error.DbCopyFailed?
  {
  }

  /** A readable store with no counted row reports `noCookiesInDB`, and only such a store does. */
  lemma NoCookiesExactly(path: string, a: StoreAccess, key: AesKey, browserName: string, p: Primitives)
    requires Opened(a) && a.prepared
    ensures ReadOutcome(path, a, key, browserName, p) == Failure(NoCookiesInDB) <==>
      forall i | 0 <= i < |a.rows| :: !Counted(a.rows[i])
  {
    HarvestedCount(a.rows, key, p);
    CountedRowsEmpty(a.rows);
  }

  /**
   * A readable store yields cookies exactly when some row supplies each of the two, and the
   * values returned are those of the last row supplying each.
   */
  lemma SuccessExactly(path: string, a: StoreAccess, key: AesKey, browserName: string, p: Primitives)
    requires Opened(a) && a.prepared
    ensures ReadOutcome(path, a, key, browserName, p).Success? <==>
      (exists i | 0 <= i < |a.rows| :: Supplies(a.rows[i], SessionKeyName, key, p)) &&
      (exists j | 0 <= j < |a.rows| :: Supplies(a.rows[j], OrgIdName, key, p))
    ensures forall i, j | 0 <= i < |a.rows| && 0 <= j < |a.rows| &&
        Supplies(a.rows[i], SessionKeyName, key, p) && Supplies(a.rows[j], OrgIdName, key, p) &&
        (forall k | i < k < |a.rows| :: !Supplies(a.rows[k], SessionKeyName, key, p)) &&
        (forall k | j < k < |a.rows| :: !Supplies(a.rows[k], OrgIdName, key, p)) ::
      ReadOutcome(path, a, key, browserName, p) ==
        Success(CookieResult(Plaintext(a.rows[i], key, p).value, Plaintext(a.rows[j], key, p).value, browserName))
  {
    var h := Harvested(a.rows, key, p);
    HarvestedSlot(a.rows, SessionKeyName, key, p);
    HarvestedSlot(a.rows, OrgIdName, key, p);
    HarvestedCount(a.rows, key, p);
    if h.sessionKey.Some? {
      var i :| 0 <= i < |a.rows| && Supplies(a.rows[i], SessionKeyName, key, p);
      CountedRowAt(a.rows, i);
    }
  }

  /**
   * Rows that are all found but none of which decrypts report `decryptionFailed` with the
   * number of rows found: two rows under a wrong key give `decryptionFailed(found: 2)`.
   */
  lemma DecryptionFailedCounts(path: string, a: StoreAccess, key: AesKey, browserName: string, p: Primitives)
    requires Opened(a) && a.prepared
    requires forall i | 0 <= i < |a.rows| :: Counted(a.rows[i]) && Plaintext(a.rows[i], key, p).None?
    requires |a.rows| > 0
    ensures ReadOutcome(path, a, key, browserName, p) == Failure(DecryptionFailed(|a.rows|))
  {
    HarvestedCount(a.rows, key, p);
    HarvestedSlot(a.rows, SessionKeyName, key, p);
    HarvestedSlot(a.rows, OrgIdName, key, p);
    AllCounted(a.rows);
  }

  lemma {:induction false} AllCounted(rows: seq<Row>)
    requires forall i | 0 <= i < |rows| :: Counted(rows[i])
    ensures CountedRows(rows) == rows
  {
    if rows != [] {
      AllCounted(rows[1..]);
    }
  }

  /** A store where only the organization cookie decrypts reports the session cookie missing. */
  lemma OnlyOrgIsMissingSession(path: string, a: StoreAccess, key: AesKey, browserName: string, p: Primitives)
    requires Opened(a) && a.prepared
    requires forall i | 0 <= i < |a.rows| :: !Supplies(a.rows[i], SessionKeyName, key, p)
    requires exists j | 0 <= j < |a.rows| :: Supplies(a.rows[j], OrgIdName, key, p)
    ensures ReadOutcome(path, a, key, browserName, p) == Failure(MissingCookie(false, true))
  {
    HarvestedSlot(a.rows, SessionKeyName, key, p);
    HarvestedSlot(a.rows, OrgIdName, key, p);
    HarvestedCount(a.rows, key, p);
    var j :| 0 <= j < |a.rows| && Supplies(a.rows[j], OrgIdName, key, p);
    CountedRowAt(a.rows, j);
  }

  /**
   * The SQLite files of the browsers, as the reader sees them: what each path gives when it
   * is opened and queried, and the paths opened so far, in order.
   */
  class CookieDatabases {
    const access: string -> StoreAccess
    var attempts: seq<string>

    constructor (access: string -> StoreAccess)
      ensures this.access == access && attempts == []
    {
      this.access := access;
      attempts := [];
    }

    /** Copy the store (falling back to the immutable URI), open it and run the query. */
    method Open(path: string) returns (a: StoreAccess)
      modifies this
      ensures a == access(path)
      ensures attempts == old(attempts) + [path]
    {
      a := access(path);
      attempts := attempts + [path];
    }
  }

  /** `readCookies`: open the store at `path`, step through the rows and classify them. */
  method ReadCookies(dbs: CookieDatabases, path: string, key: AesKey, browserName: string, p: Primitives)
    returns (r: Result<CookieResult, ImportError>)
    modifies dbs
    ensures dbs.attempts == old(dbs.attempts) + [path]
    ensures r == ReadOutcome(path, dbs.access(path), key, browserName, p)
  {
    var a := dbs.Open(path);
    var isOpen := false;
    if a.copied {
      isOpen := a.copyOpened;
    }
    if !isOpen {
      isOpen := a.immutableOpened;
    }
    if !isOpen {
      return Failure(DbOpenFailed(path));
    }
    if !a.prepared {
      return Failure(DbOpenFailed(PrepareFailedDetail));
    }
    var sessionKey, orgID, foundCount := HarvestRows(a.rows, key, p);
    if foundCount == 0 {
      return Failure(NoCookiesInDB);
    }
    if sessionKey.None? || orgID.None? {
      if sessionKey.None? && orgID.None? && foundCount > 0 {
        return Failure(DecryptionFailed(foundCount));
      }
      return Failure(MissingCookie(sessionKey.Some?, orgID.Some?));
    }
    return Success(CookieResult(sessionKey.value, orgID.value, browserName));
  }
}
