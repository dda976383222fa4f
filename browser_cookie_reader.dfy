/**
 * Finding the cookie stores of the installed Chromium browsers, deriving the cookie key from
 * the browser's keychain entry, and trying the stores of one browser in turn
 * (`detectBrowsers`, `findProfiles`, `getDecryptionKey` and `importCookies` in
 * ClaudeUsageApp/BrowserCookieReader.swift).
 *
 * The file system is a value (the paths that exist and the directory listings); the keychain
 * and the cookie stores are objects whose answers are fixed per service and per path and which
 * log the lookups made of them.
 */
module BrowserCookieReader {
  import opened Base
  import opened Text
  import opened CookieDecryption
  import opened CookieStore

  /** One entry of the registry of supported browsers. */
  datatype BrowserEntry = BrowserEntry(id: string, name: string, icon: string, pathComponent: string, keychain: string)

  /** The supported browsers, in the order they are offered. */
  const Browsers: seq<BrowserEntry> := [
    BrowserEntry("chrome", "Google Chrome", "globe", "Google/Chrome", "Chrome Safe Storage"),
    BrowserEntry("arc", "Arc", "globe", "Arc/User Data", "Arc Safe Storage"),
    BrowserEntry("brave", "Brave", "globe", "BraveSoftware/Brave-Browser", "Brave Safe Storage"),
    BrowserEntry("edge", "Microsoft Edge", "globe", "Microsoft Edge", "Microsoft Edge Safe Storage"),
    BrowserEntry("chromium", "Chromium", "globe", "Chromium", "Chromium Safe Storage")
  ]

  /** A browser with at least one cookie store. */
  datatype DetectedBrowser = DetectedBrowser(id: string, name: string, icon: string, cookiePaths: seq<string>,
                                             keychainService: string)

  /**
   * The file system as the reader queries it: the paths `fileExists` reports, and the
   * directories `contentsOfDirectory` can list, with their entries in listing order.
   */
  datatype FileSystem = FileSystem(existing: set<string>, listings: map<string, seq<string>>)

  /** `URL.appendingPathComponent`. */
  function Join(dir: string, component: string): string {
    dir + "/" + component
  }

  const DefaultCookies: string := "Default/Cookies"
  const ProfilePrefix: string := "Profile "
  const CookiesFile: string := "/Cookies"

  predicate IsProfileDir(item: string) {
    |ProfilePrefix| <= |item| && item[..|ProfilePrefix|] == ProfilePrefix
  }

  /** The cookie store of the listing entry `item`, if it is a `Profile *` entry whose store exists. */
  function ProfileStore(baseDir: string, item: string, fs: FileSystem): seq<string> {
    if IsProfileDir(item) && Join(baseDir, item + CookiesFile) in fs.existing then [Join(baseDir, item + CookiesFile)]
    else []
  }

  /** The stores of the `Profile *` entries among `items`, in listing order. */
  function ProfileStores(baseDir: string, items: seq<string>, fs: FileSystem): seq<string> {
    if items == [] then []
    else ProfileStores(baseDir, items[..|items| - 1], fs) + ProfileStore(baseDir, items[|items| - 1], fs)
  }

  /** One more listing entry adds its store, if any, at the end. */
  lemma ProfileStoresSnoc(baseDir: string, items: seq<string>, i: nat, fs: FileSystem)
    requires i < |items|
    ensures ProfileStores(baseDir, items[..i + 1], fs) ==
      ProfileStores(baseDir, items[..i], fs) + ProfileStore(baseDir, items[i], fs)
  {
    assert items[..i + 1][..i] == items[..i];
  }

  /** Every profile store found exists. */
  lemma {:induction false} ProfileStoresExist(baseDir: string, items: seq<string>, fs: FileSystem)
    ensures forall q | q in ProfileStores(baseDir, items, fs) :: q in fs.existing
  {
    if items != [] {
      ProfileStoresExist(baseDir, items[..|items| - 1], fs);
    }
  }

  /** The entries of `baseDir`, or none when it cannot be listed. */
  function Listing(baseDir: string, fs: FileSystem): seq<string> {
    if baseDir in fs.listings then fs.listings[baseDir] else []
  }

  /** What `findProfiles` returns. */
  function ProfilePaths(baseDir: string, fs: FileSystem): seq<string> {
    if baseDir !in fs.existing then []
    else
      (if Join(baseDir, DefaultCookies) in fs.existing then [Join(baseDir, DefaultCookies)] else []) +
      ProfileStores(baseDir, Listing(baseDir, fs), fs)
  }

  /** Every store `findProfiles` returns exists. */
  lemma ProfilePathsExist(baseDir: string, fs: FileSystem)
    ensures forall q | q in ProfilePaths(baseDir, fs) :: q in fs.existing
  {
    ProfileStoresExist(baseDir, Listing(baseDir, fs), fs);
  }

  /** One turn of the listing loop of `findProfiles`: append the entry's store if it is a profile's and exists. */
  method AppendProfileStore(paths: seq<string>, baseDir: string, item: string, fs: FileSystem)
    returns (extended: seq<string>)
    ensures extended == paths + ProfileStore(baseDir, item, fs)
  {
    extended := paths;
    if IsProfileDir(item) {
      var profileCookies := Join(baseDir, item + CookiesFile);
      if profileCookies in fs.existing {
        extended := extended + [profileCookies];
      }
    }
  }

  /** `findProfiles`: the default store, then the stores of the `Profile *` directories. */
  method FindProfiles(baseDir: string, fs: FileSystem) returns (paths: seq<string>)
    ensures paths == ProfilePaths(baseDir, fs)
  {
    if baseDir !in fs.existing {
      return [];
    }
    paths := [];
    var defaultCookies := Join(baseDir, DefaultCookies);
    if defaultCookies in fs.existing {
      paths := paths + [defaultCookies];
    }
    ghost var start := paths;
    if baseDir in fs.listings {
      var contents := fs.listings[baseDir];
      assert contents == Listing(baseDir, fs);
      var i := 0;
      while i < |contents|
        invariant 0 <= i <= |contents|
        invariant paths == start + ProfileStores(baseDir, contents[..i], fs)
      {
        ghost var found, step := ProfileStores(baseDir, contents[..i], fs), ProfileStore(baseDir, contents[i], fs);
        paths := AppendProfileStore(paths, baseDir, contents[i], fs);
        ProfileStoresSnoc(baseDir, contents, i, fs);
        assert paths == start + (found + step);
        i := i + 1;
      }
      assert contents[..i] == contents;
    } else {
      assert ProfileStores(baseDir, Listing(baseDir, fs), fs) == [];
      assert paths == start + [];
    }
    assert paths == start + ProfileStores(baseDir, Listing(baseDir, fs), fs);
  }

  lemma {:induction false} ProfileStoresMembers(baseDir: string, items: seq<string>, fs: FileSystem, path: string)
    ensures path in ProfileStores(baseDir, items, fs) <==>
      path in fs.existing && exists i | 0 <= i < |items| :: IsProfileDir(items[i]) && path == Join(baseDir, items[i] + CookiesFile)
  {
    if items != [] {
      var init := items[..|items| - 1];
      ProfileStoresMembers(baseDir, init, fs, path);
      assert forall i | 0 <= i < |init| :: init[i] == items[i];
    }
  }

  /**
   * A path is returned exactly when the base directory exists, the path exists, and it is
   * the default store or the store of a `Profile *` entry of the listing.
   */
  lemma ProfilePathsMembers(baseDir: string, fs: FileSystem, path: string)
    ensures path in ProfilePaths(baseDir, fs) <==>
      baseDir in fs.existing && path in fs.existing &&
      (path == Join(baseDir, DefaultCookies) ||
       exists i | 0 <= i < |Listing(baseDir, fs)| ::
         IsProfileDir(Listing(baseDir, fs)[i]) && path == Join(baseDir, Listing(baseDir, fs)[i] + CookiesFile))
  {
    ProfileStoresMembers(baseDir, Listing(baseDir, fs), fs, path);
  }

  /** The default store, when it exists, comes before every profile store. */
  lemma DefaultComesFirst(baseDir: string, fs: FileSystem)
    requires baseDir in fs.existing && Join(baseDir, DefaultCookies) in fs.existing
    ensures |ProfilePaths(baseDir, fs)| > 0 && ProfilePaths(baseDir, fs)[0] == Join(baseDir, DefaultCookies)
  {
  }

  /** The registry entries whose base directory holds at least one store, as `compactMap` builds them. */
  function Detect(entries: seq<BrowserEntry>, appSupport: string, fs: FileSystem): (r: seq<DetectedBrowser>)
    ensures forall b | b in r :: b.cookiePaths != [] && forall q | q in b.cookiePaths :: q in fs.existing
    ensures |r| <= |entries|
  {
    if entries == [] then []
    else
      var e := entries[0];
      var profiles := ProfilePaths(Join(appSupport, e.pathComponent), fs);
      ProfilePathsExist(Join(appSupport, e.pathComponent), fs);
      (if profiles == [] then [] else [DetectedBrowser(e.id, e.name, e.icon, profiles, e.keychain)]) +
      Detect(entries[1..], appSupport, fs)
  }

  /** The record `detectBrowsers` builds for a registry entry. */
  function DetectedFor(e: BrowserEntry, appSupport: string, fs: FileSystem): DetectedBrowser {
    DetectedBrowser(e.id, e.name, e.icon, ProfilePaths(Join(appSupport, e.pathComponent), fs), e.keychain)
  }

  /** `~/Library/Application Support`. */
  function AppSupport(home: string): string {
    Join(home, "Library/Application Support")
  }

  /** `detectBrowsers`, for the user whose home directory is `home`. */
  function DetectBrowsers(home: string, fs: FileSystem): (r: seq<DetectedBrowser>)
    ensures |r| <= |Browsers|
    ensures forall b | b in r :: b.cookiePaths != [] && forall q | q in b.cookiePaths :: q in fs.existing
  {
    Detect(Browsers, AppSupport(home), fs)
  }

  /** Detection keeps registry order: the browsers of a concatenation are concatenated. */
  lemma {:induction false} DetectKeepsOrder(a: seq<BrowserEntry>, b: seq<BrowserEntry>, appSupport: string, fs: FileSystem)
    ensures Detect(a + b, appSupport, fs) == Detect(a, appSupport, fs) + Detect(b, appSupport, fs)
  {
    if a == [] {
      assert a + b == b;
    } else {
      assert (a + b)[0] == a[0] && (a + b)[1..] == a[1..] + b;
      DetectKeepsOrder(a[1..], b, appSupport, fs);
    }
  }

  /** A registry entry is reported, with all its stores, exactly when it has a store. */
  lemma {:induction false} DetectMembers(entries: seq<BrowserEntry>, appSupport: string, fs: FileSystem, i: nat)
    requires i < |entries|
    ensures DetectedFor(entries[i], appSupport, fs) in Detect(entries, appSupport, fs) <==>
      ProfilePaths(Join(appSupport, entries[i].pathComponent), fs) != []
  {
    if i > 0 {
      DetectMembers(entries[1..], appSupport, fs, i - 1);
    }
  }

  // ---------------------------------------------------------------- keychain

  /** The Security framework's status codes the reader tells apart. */
  const ErrSecSuccess: int := 0
  const ErrSecItemNotFound: int := -25300
  const ErrSecAuthFailed: int := -25293
  const ErrSecUserCanceled: int := -128

  /** The key derivation's fixed parameters. */
  const Salt: string := "saltysalt"
  const Iterations: nat := 1003
  const KeyLength: nat := 16

  /** What `SecItemCopyMatching` reports: its status, and the item's bytes when it returned `Data`. */
  datatype KeychainReply = KeychainReply(status: int, data: Option<seq<byte>>)

  /** The detail of `keychainDenied` for a status the reader does not name. */
  function StatusDetail(service: string, status: int): string {
    service + " (code: " + IntToString(status) + ")"
  }

  const InvalidEncodingSuffix: string := " (encodage invalide)"
  const DerivationFailedSuffix: string := " (PBKDF2 echoue)"

  /** `getDecryptionKey` once the keychain has answered. */
  function DecryptionKey(service: string, reply: KeychainReply, p: Primitives): (r: Result<AesKey, ImportError>)
    ensures r == Failure(KeychainNotFound(service)) <==> reply.status == ErrSecItemNotFound
    ensures reply.status == ErrSecAuthFailed || reply.status == ErrSecUserCanceled ==>
      r == Failure(KeychainDenied(service))
    ensures reply.status !in {ErrSecItemNotFound, ErrSecAuthFailed, ErrSecUserCanceled} &&
            (reply.status != ErrSecSuccess || reply.data.None?) ==>
      r == Failure(KeychainDenied(StatusDetail(service, reply.status)))
    ensures r.Success? <==>
      reply.status == ErrSecSuccess && reply.data.Some? && p.utf8(reply.data.value).Some? &&
      p.pbkdf2(p.utf8(reply.data.value).value, Salt, Iterations, KeyLength).status == CryptSuccess
    ensures r.Success? ==> r.value == p.pbkdf2(p.utf8(reply.data.value).value, Salt, Iterations, KeyLength).key
    ensures reply.status == ErrSecSuccess && reply.data.Some? && p.utf8(reply.data.value).None? ==>
      r == Failure(KeychainDenied(service + InvalidEncodingSuffix))
    ensures reply.status == ErrSecSuccess && reply.data.Some? && p.utf8(reply.data.value).Some? &&
            p.pbkdf2(p.utf8(reply.data.value).value, Salt, Iterations, KeyLength).status != CryptSuccess ==>
      r == Failure(KeychainDenied(service + DerivationFailedSuffix))
    ensures r.Failure? ==> r.error.KeychainNotFound? || r.error.KeychainDenied?
  {
    if reply.status == ErrSecItemNotFound then Failure(KeychainNotFound(service))
    else if reply.status == ErrSecAuthFailed || reply.status == ErrSecUserCanceled then Failure(KeychainDenied(service))
    else if reply.status != ErrSecSuccess || reply.data.None? then
      Failure(KeychainDenied(StatusDetail(service, reply.status)))
    else
      match p.utf8(reply.data.value)
      case None => Failure(KeychainDenied(service + InvalidEncodingSuffix))
      case Some(password) =>
        var derived := p.pbkdf2(password, Salt, Iterations, KeyLength);
        if derived.status != CryptSuccess then Failure(KeychainDenied(service + DerivationFailedSuffix))
        else Success(derived.key)
  }

  /** The status in a `(code: …)` detail can be read back from it. */
  lemma StatusDetailNamesStatus(service: string, status: int)
    ensures var detail := StatusDetail(service, status);
      |service| + 8 <= |detail| && ReadInt(detail[|service| + 8..]) == Some((status, ")"))
  {
    var detail := StatusDetail(service, status);
    assert detail[|service| + 8..] == IntToString(status) + ")";
    ReadIntToString(status, ")");
  }

  /** The user's keychain: a fixed answer per service, and the services looked up so far. */
  class Keychain {
    const replies: string -> KeychainReply
    var lookups: seq<string>

    constructor (replies: string -> KeychainReply)
      ensures this.replies == replies && lookups == []
    {
      this.replies := replies;
      lookups := [];
    }

    /** `SecItemCopyMatching` for the generic password of `service`. */
    method CopyMatching(service: string) returns (reply: KeychainReply)
      modifies this
      ensures reply == replies(service)
      ensures lookups == old(lookups) + [service]
    {
      reply := replies(service);
      lookups := lookups + [service];
    }
  }

  /** `getDecryptionKey`: one keychain lookup, then the status checks and the key derivation. */
  method GetDecryptionKey(keychain: Keychain, service: string, p: Primitives) returns (r: Result<AesKey, ImportError>)
    modifies keychain
    ensures keychain.lookups == old(keychain.lookups) + [service]
    ensures r == DecryptionKey(service, keychain.replies(service), p)
  {
    var reply := keychain.CopyMatching(service);
    if reply.status == ErrSecItemNotFound {
      return Failure(KeychainNotFound(service));
    }
    if reply.status == ErrSecAuthFailed || reply.status == ErrSecUserCanceled {
      return Failure(KeychainDenied(service));
    }
    if reply.status != ErrSecSuccess || reply.data.None? {
      return Failure(KeychainDenied(StatusDetail(service, reply.status)));
    }
    var password := p.utf8(reply.data.value);
    if password.None? {
      return Failure(KeychainDenied(service + InvalidEncodingSuffix));
    }
    var derived := p.pbkdf2(password.value, Salt, Iterations, KeyLength);
    if derived.status != CryptSuccess {
      return Failure(KeychainDenied(service + DerivationFailedSuffix));
    }
    return Success(derived.key);
  }

  // ---------------------------------------------------------------- profile fallback

  /** The profile loop of `importCookies`, from `paths` on, with the error kept so far. */
  function TryProfiles(paths: seq<string>, access: string -> StoreAccess, key: AesKey, browserName: string,
                       p: Primitives, lastError: ImportError): Result<CookieResult, ImportError>
  {
    if paths == [] then Failure(lastError)
    else
      var r := ReadOutcome(paths[0], access(paths[0]), key, browserName, p);
      if r.Success? then r else TryProfiles(paths[1..], access, key, browserName, p, r.error)
  }

  /** The stores the loop opens: up to and including the first that yields cookies. */
  function ProfilesTried(paths: seq<string>, access: string -> StoreAccess, key: AesKey, browserName: string,
                         p: Primitives): (tried: seq<string>)
    ensures tried <= paths
  {
    if paths == [] then []
    else if ReadOutcome(paths[0], access(paths[0]), key, browserName, p).Success? then [paths[0]]
    else [paths[0]] + ProfilesTried(paths[1..], access, key, browserName, p)
  }

  /** What `importCookies` returns for a browser, given the keychain's answer and the stores. */
  function ImportOutcome(browser: DetectedBrowser, reply: KeychainReply, access: string -> StoreAccess,
                         p: Primitives): (r: Result<CookieResult, ImportError>)
    ensures DecryptionKey(browser.keychainService, reply, p).Failure? ==>
      r == Failure(DecryptionKey(browser.keychainService, reply, p).error)
    ensures DecryptionKey(browser.keychainService, reply, p).Success? && browser.cookiePaths == [] ==>
      r == Failure(NoCookiesInDB)
  {
    match DecryptionKey(browser.keychainService, reply, p)
    case Failure(e) => Failure(e)
    case Success(key) => TryProfiles(browser.cookiePaths, access, key, browser.name, p, NoCookiesInDB)
  }

  /** The profile loop of `importCookies`: the stores in order, until one yields cookies. */
  method ReadProfiles(dbs: CookieDatabases, paths: seq<string>, key: AesKey, browserName: string, p: Primitives)
    returns (r: Result<CookieResult, ImportError>)
    modifies dbs
    ensures r == TryProfiles(paths, dbs.access, key, browserName, p, NoCookiesInDB)
    ensures dbs.attempts == old(dbs.attempts) + ProfilesTried(paths, dbs.access, key, browserName, p)
  {
    ghost var access := dbs.access;
    ghost var goal := TryProfiles(paths, access, key, browserName, p, NoCookiesInDB);
    ghost var tried := ProfilesTried(paths, access, key, browserName, p);
    var lastError := NoCookiesInDB;
    var rest := paths;
    ghost var done: seq<string> := [];
    while rest != []
      invariant dbs.access == access
      invariant dbs.attempts == old(dbs.attempts) + done
      invariant goal == TryProfiles(rest, access, key, browserName, p, lastError)
      invariant tried == done + ProfilesTried(rest, access, key, browserName, p)
    {
      var path := rest[0];
      ghost var later := ProfilesTried(rest[1..], access, key, browserName, p);
      r := ReadCookies(dbs, path, key, browserName, p);
      if r.Success? {
        assert goal == r;
        assert tried == done + [path];
        return r;
      }
      assert tried == (done + [path]) + later by {
        assert done + ([path] + later) == (done + [path]) + later;
      }
      lastError := r.error;
      done := done + [path];
      rest := rest[1..];
    }
    assert tried == done + [];
    return Failure(lastError);
  }

  /**
   * `importCookies`: the key is derived once, before any store is opened; a key failure is
   * returned at once; the stores are then read in order until one yields cookies.
   */
  method ImportCookies(browser: DetectedBrowser, keychain: Keychain, dbs: CookieDatabases, p: Primitives)
    returns (r: Result<CookieResult, ImportError>)
    modifies keychain, dbs
    ensures keychain.lookups == old(keychain.lookups) + [browser.keychainService]
    ensures r == ImportOutcome(browser, keychain.replies(browser.keychainService), dbs.access, p)
    ensures DecryptionKey(browser.keychainService, keychain.replies(browser.keychainService), p).Failure? ==>
      dbs.attempts == old(dbs.attempts)
    ensures var k := DecryptionKey(browser.keychainService, keychain.replies(browser.keychainService), p);
      k.Success? ==>
      dbs.attempts == old(dbs.attempts) + ProfilesTried(browser.cookiePaths, dbs.access, k.value, browser.name, p)
  {
    var k := GetDecryptionKey(keychain, browser.keychainService, p);
    if k.Failure? {
      return Failure(k.error);
    }
    r := ReadProfiles(dbs, browser.cookiePaths, k.value, browser.name, p);
  }

  /** One turn of the profile loop, at position `i` of `paths`. */
  lemma TryProfilesStep(paths: seq<string>, i: nat, access: string -> StoreAccess, key: AesKey, browserName: string,
                        p: Primitives, lastError: ImportError)
    requires i < |paths|
    ensures paths[..i + 1] == paths[..i] + [paths[i]]
    ensures var r := ReadOutcome(paths[i], access(paths[i]), key, browserName, p);
      TryProfiles(paths[i..], access, key, browserName, p, lastError) ==
        if r.Success? then r else TryProfiles(paths[i + 1..], access, key, browserName, p, r.error)
    ensures var r := ReadOutcome(paths[i], access(paths[i]), key, browserName, p);
      ProfilesTried(paths[i..], access, key, browserName, p) ==
        if r.Success? then [paths[i]] else [paths[i]] + ProfilesTried(paths[i + 1..], access, key, browserName, p)
  {
    assert paths[i..][1..] == paths[i + 1..];
  }

  /**
   * The loop fails with the error carried in when there is no store, and otherwise with the
   * failure of the last store, whatever the stores before it reported.
   */
  lemma {:induction false} TryProfilesFailure(paths: seq<string>, access: string -> StoreAccess, key: AesKey,
                                              browserName: string, p: Primitives, lastError: ImportError)
    ensures paths == [] ==> TryProfiles(paths, access, key, browserName, p, lastError) == Failure(lastError)
    ensures paths != [] && TryProfiles(paths, access, key, browserName, p, lastError).Failure? ==>
      TryProfiles(paths, access, key, browserName, p, lastError) ==
        ReadOutcome(paths[|paths| - 1], access(paths[|paths| - 1]), key, browserName, p)
  {
    if paths != [] {
      var r := ReadOutcome(paths[0], access(paths[0]), key, browserName, p);
      if r.Failure? {
        TryProfilesFailure(paths[1..], access, key, browserName, p, r.error);
      }
    }
  }

  /** The first store that yields cookies decides the result; the stores before it are ignored. */
  lemma {:induction false} FirstSuccessWins(paths: seq<string>, access: string -> StoreAccess, key: AesKey,
                                            browserName: string, p: Primitives, lastError: ImportError, i: nat)
    requires i < |paths|
    requires ReadOutcome(paths[i], access(paths[i]), key, browserName, p).Success?
    requires forall j | 0 <= j < i :: ReadOutcome(paths[j], access(paths[j]), key, browserName, p).Failure?
    ensures TryProfiles(paths, access, key, browserName, p, lastError) ==
            ReadOutcome(paths[i], access(paths[i]), key, browserName, p)
    ensures ProfilesTried(paths, access, key, browserName, p) == paths[..i + 1]
  {
    if i > 0 {
      var r := ReadOutcome(paths[0], access(paths[0]), key, browserName, p);
      assert r.Failure?;
      FirstSuccessWins(paths[1..], access, key, browserName, p, r.error, i - 1);
    }
  }

  /** When no store yields cookies, the error of the last one is returned. */
  lemma {:induction false} AllFailLastError(paths: seq<string>, access: string -> StoreAccess, key: AesKey,
                                            browserName: string, p: Primitives, lastError: ImportError)
    requires |paths| > 0
    requires forall j | 0 <= j < |paths| :: ReadOutcome(paths[j], access(paths[j]), key, browserName, p).Failure?
    ensures TryProfiles(paths, access, key, browserName, p, lastError) ==
            ReadOutcome(paths[|paths| - 1], access(paths[|paths| - 1]), key, browserName, p)
    ensures ProfilesTried(paths, access, key, browserName, p) == paths
  {
    var r := ReadOutcome(paths[0], access(paths[0]), key, browserName, p);
    if |paths| > 1 {
      AllFailLastError(paths[1..], access, key, browserName, p, r.error);
    }
  }

  lemma {:induction false} TryProfilesErrors(paths: seq<string>, access: string -> StoreAccess, key: AesKey,
                                             browserName: string, p: Primitives, lastError: ImportError)
    requires !lastError.DbCopyFailed? && !lastError.KeychainDenied? && !lastError.KeychainNotFound?
    ensures var r := TryProfiles(paths, access, key, browserName, p, lastError);
      r.Failure? ==> !r.error.DbCopyFailed? && !r.error.KeychainDenied? && !r.error.KeychainNotFound?
  {
    if paths != [] {
      var r := ReadOutcome(paths[0], access(paths[0]), key, browserName, p);
      ReadOutcomeErrors(paths[0], access(paths[0]), key, browserName, p);
      if r.Failure? {
        TryProfilesErrors(paths[1..], access, key, browserName, p, r.error);
      }
    }
  }

  /**
   * `dbCopyFailed` is never reported, and a keychain error is reported only when the key
   * could not be derived.
   */
  lemma ImportErrors(browser: DetectedBrowser, reply: KeychainReply, access: string -> StoreAccess, p: Primitives)
    ensures var r := ImportOutcome(browser, reply, access, p);
      r.Failure? ==> !r.error.DbCopyFailed?
    ensures var r := ImportOutcome(browser, reply, access, p);
      r.Failure? && (r.error.KeychainDenied? || r.error.KeychainNotFound?) ==>
        DecryptionKey(browser.keychainService, reply, p).Failure?
  {
    var k := DecryptionKey(browser.keychainService, reply, p);
    if k.Success? {
      TryProfilesErrors(browser.cookiePaths, access, k.value, browser.name, p, NoCookiesInDB);
    }
  }
}
