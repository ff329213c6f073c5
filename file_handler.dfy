/**
 * The encrypted local cache of `file_handler.py`.
 *
 * `CredentialsFileHandler` keeps the Spotify client id and secret in a JSON
 * file with every value encrypted; `CustomCacheFileHandler` keeps the OAuth
 * token in another JSON file, renames `expires_in` to `expires_at`, skips the
 * write when the file changed less than `REFRESH_INTERVAL` ago, and encrypts
 * the fields it selects.
 *
 * The file system is an object holding a map from path to file and an integer
 * clock. A file holds parsed JSON: an object, or content that does not parse.
 * The Fernet key is a `Cipher`, a pair of functions; what the code relies on
 * about it is stated as the predicates `Inverts` and
 * `TokensAreNotFieldNames`, assumed by the lemmas that need them.
 */
module FileHandler {
  import opened Common

  type Path = string

  const CREDENTIALS_PATH: Path := "../cache/spotify_credentials.json"
  const CACHE_PATH: Path := "../cache/token_cache.json"

  /** The values (not keys) that the token comprehensions encrypt and decrypt. */
  const ATTRS_TO_ENCRYPT: seq<string> := ["access_token", "refresh_token"]

  const REFRESH_INTERVAL: int := 100

  /** A JSON value of a token or credentials object. */
  datatype Value = Str(s: string) | Int(i: int)

  /** What `json.load` makes of a file: an object, or a `JSONDecodeError`. */
  datatype Content = Unparseable | Object(fields: map<string, Value>)

  datatype File = File(content: Content, mtime: int)

  /** The Fernet key: `encrypt(v.encode()).decode()`, and `decrypt(v.encode()).decode()` or `InvalidToken`. */
  datatype Cipher = Cipher(encrypt: string -> string, decrypt: string -> Option<string>)

  /** Decryption undoes encryption. */
  ghost predicate Inverts(key: Cipher)
  {
    forall s :: key.decrypt(key.encrypt(s)) == Some(s)
  }

  /** No ciphertext is one of the strings in `ATTRS_TO_ENCRYPT` (Fernet tokens begin "gAAAAA"). */
  ghost predicate TokensAreNotFieldNames(key: Cipher)
  {
    forall s :: key.encrypt(s) !in ATTRS_TO_ENCRYPT
  }

  /** The disk and the clock. */
  class FileSystem {
    var files: map<Path, File>
    var now: int

    constructor (files: map<Path, File>, now: int)
      ensures this.files == files && this.now == now
    {
      this.files := files;
      this.now := now;
    }

    /** Time passes. */
    method Tick(d: nat)
      modifies this
      ensures now == old(now) + d && files == old(files)
    {
      now := now + d;
    }

    /** `open(path, 'w')` then `json.dump(fields, ...)`: the file holds `fields`, stamped with the current time. */
    method Dump(path: Path, fields: map<string, Value>)
      modifies this
      ensures files == old(files)[path := File(Object(fields), now)] && now == old(now)
    {
      files := files[path := File(Object(fields), now)];
    }
  }

  // ---------------------------------------------------------------------------
  // Credentials
  // ---------------------------------------------------------------------------

  /** `{'client_id': ..., 'client_secret': ...}` as kept in memory: decrypted strings. */
  type Credentials = map<string, string>

  /** `{k: fernet_key.encrypt(v.encode()).decode() for k, v in credentials.items()}` */
  function EncryptCredentials(c: Credentials, key: Cipher): (r: map<string, Value>)
    ensures r.Keys == c.Keys
    ensures forall k :: k in c ==> r[k] == Str(key.encrypt(c[k]))
  {
    map k | k in c :: Str(key.encrypt(c[k]))
  }

  /** Every value of `fields` is a string the cipher accepts. */
  predicate Decryptable(fields: map<string, Value>, key: Cipher)
  {
    forall k | k in fields :: fields[k].Str? && key.decrypt(fields[k].s).Some?
  }

  /**
   * `{k: fernet_key.decrypt(v.encode()).decode() for k, v in credentials_data.items()}`:
   * the same keys with every value decrypted, or nothing when some value is
   * not a string (`.encode()` fails) or is refused by the cipher.
   */
  function DecryptCredentials(fields: map<string, Value>, key: Cipher): (r: Option<Credentials>)
    ensures r.Some? <==> Decryptable(fields, key)
    ensures r.Some? ==> r.value.Keys == fields.Keys
    ensures r.Some? ==> forall k :: k in fields ==> Some(r.value[k]) == key.decrypt(fields[k].s)
  {
    if Decryptable(fields, key) then Some(map k | k in fields :: key.decrypt(fields[k].s).value) else None
  }

  /**
   * What `retrieve_credentials` returns for the disk `files`. A missing file
   * or one that does not parse gives None. A value that cannot be decrypted
   * raises inside the `else` branch; the `finally` then reads the local
   * `credentials`, which was never bound, so `UnboundLocalError` escapes.
   */
  function LoadCredentials(files: map<Path, File>, key: Cipher): (r: Result<Option<Credentials>, Exception>)
    ensures CREDENTIALS_PATH !in files || files[CREDENTIALS_PATH].content.Unparseable? ==> r == Ok(None)
    ensures r.Err? <==>
      && CREDENTIALS_PATH in files && files[CREDENTIALS_PATH].content.Object?
      && !Decryptable(files[CREDENTIALS_PATH].content.fields, key)
    ensures r.Err? ==> r.error == UnboundLocalError
    ensures r.Ok? && r.value.Some? ==>
      && CREDENTIALS_PATH in files && files[CREDENTIALS_PATH].content.Object?
      && r.value.value.Keys == files[CREDENTIALS_PATH].content.fields.Keys
      && forall k :: k in r.value.value ==>
           Some(r.value.value[k]) == key.decrypt(files[CREDENTIALS_PATH].content.fields[k].s)
    ensures (CREDENTIALS_PATH in files && files[CREDENTIALS_PATH].content.Object?
             && Decryptable(files[CREDENTIALS_PATH].content.fields, key)) ==> r.Ok? && r.value.Some?
  {
    if CREDENTIALS_PATH !in files then Ok(None)
    else
      match files[CREDENTIALS_PATH].content
      case Unparseable => Ok(None)
      case Object(fields) =>
        match DecryptCredentials(fields, key)
        case Some(c) => Ok(Some(c))
        case None => Err(UnboundLocalError)
  }

  /**
   * Save and retrieve round trip: with a cipher whose decryption undoes its
   * encryption, reading back the file `save_credentials_to_file` wrote gives
   * exactly the saved credentials.
   */
  lemma SaveThenLoadCredentials(files: map<Path, File>, c: Credentials, key: Cipher, now: int)
    requires Inverts(key)
    ensures LoadCredentials(files[CREDENTIALS_PATH := File(Object(EncryptCredentials(c, key)), now)], key) == Ok(Some(c))
  {
    var fields := EncryptCredentials(c, key);
    assert Decryptable(fields, key) by {
      forall k | k in fields
        ensures fields[k].Str? && key.decrypt(fields[k].s).Some?
      {
        assert key.decrypt(key.encrypt(c[k])) == Some(c[k]);
      }
    }
    var d := DecryptCredentials(fields, key);
    assert d.value == c by {
      forall k | k in c
        ensures d.value[k] == c[k]
      {
        assert key.decrypt(key.encrypt(c[k])) == Some(c[k]);
      }
    }
  }

  /** `if not credentials: credentials = self.credentials` (None and the empty dict are falsy). */
  function ChooseCredentials(arg: Option<Credentials>, own: Option<Credentials>): (r: Option<Credentials>)
    ensures arg.Some? && arg.value != map[] ==> r == arg
    ensures arg.None? || arg.value == map[] ==> r == own
  {
    if arg.None? || arg.value == map[] then own else arg
  }

  /** Python truthiness of an optional string: present and non-empty. */
  predicate Truthy(v: Option<string>)
  {
    v.Some? && v.value != ""
  }

  /** The body of the `client_id` and `client_secret` properties: `credentials[name]` when the dict is non-empty. */
  function Field(creds: Option<Credentials>, name: string): (r: Result<Option<string>, Exception>)
    ensures creds.None? || creds.value == map[] ==> r == Ok(None)
    ensures r == Ok(Option<string>.None) || creds.Some?
    ensures r.Err? <==> creds.Some? && creds.value != map[] && name !in creds.value
    ensures r.Err? ==> r.error == KeyError(name)
    ensures r.Ok? && r.value.Some? ==> name in creds.value && r.value.value == creds.value[name]
    ensures creds.Some? && creds.value != map[] && name in creds.value ==> r == Ok(Some(creds.value[name]))
  {
    if creds.None? || creds.value == map[] then Ok(None)
    else if name in creds.value then Ok(Some(creds.value[name]))
    else Err(KeyError(name))
  }

  class CredentialsFileHandler {
    const fernetKey: Cipher
    const fs: FileSystem
    var credentials: Option<Credentials>

    /** The object before `retrieve_credentials` has run: no credentials attribute yet. */
    constructor (fernetKey: Cipher, fs: FileSystem)
      ensures this.fernetKey == fernetKey && this.fs == fs && credentials.None?
    {
      this.fernetKey := fernetKey;
      this.fs := fs;
      credentials := None;
    }

    /**
     * `CredentialsFileHandler()`: take the key and retrieve the credentials;
     * an exception from `retrieve_credentials` escapes and no handler is made.
     */
    static method Create(fernetKey: Cipher, fs: FileSystem) returns (r: Result<CredentialsFileHandler, Exception>)
      modifies {}
      ensures LoadCredentials(fs.files, fernetKey).Err? ==> r.Err? && r.error == LoadCredentials(fs.files, fernetKey).error
      ensures LoadCredentials(fs.files, fernetKey).Ok? ==>
        && r.Ok? && fresh(r.value)
        && r.value.fernetKey == fernetKey && r.value.fs == fs
        && r.value.credentials == LoadCredentials(fs.files, fernetKey).value
    {
      var h := new CredentialsFileHandler(fernetKey, fs);
      var loaded := h.RetrieveCredentials();
      if loaded.Err? {
        return Err(loaded.error);
      }
      return Ok(h);
    }

    /** `client_id`: None when there are no credentials or they are empty, else `credentials['client_id']`. */
    function ClientId(): (r: Result<Option<string>, Exception>)
      reads this
      ensures credentials.None? || credentials.value == map[] ==> r == Ok(None)
      ensures r.Err? <==> credentials.Some? && credentials.value != map[] && "client_id" !in credentials.value
      ensures r.Ok? && r.value.Some? ==> credentials.Some? && r.value.value == credentials.value["client_id"]
      ensures credentials.Some? && credentials.value != map[] && "client_id" in credentials.value ==>
        r == Ok(Some(credentials.value["client_id"]))
      ensures r.Err? ==> r.error == KeyError("client_id")
    {
      Field(credentials, "client_id")
    }

    /** `client_secret`: None when there are no credentials or they are empty, else `credentials['client_secret']`. */
    function ClientSecret(): (r: Result<Option<string>, Exception>)
      reads this
      ensures credentials.None? || credentials.value == map[] ==> r == Ok(None)
      ensures r.Err? <==> credentials.Some? && credentials.value != map[] && "client_secret" !in credentials.value
      ensures r.Ok? && r.value.Some? ==> credentials.Some? && r.value.value == credentials.value["client_secret"]
      ensures credentials.Some? && credentials.value != map[] && "client_secret" in credentials.value ==>
        r == Ok(Some(credentials.value["client_secret"]))
      ensures r.Err? ==> r.error == KeyError("client_secret")
    {
      Field(credentials, "client_secret")
    }

    /**
     * `has_credentials`, i.e. `self.client_id and self.client_secret`: the
     * client id when it is falsy, otherwise the client secret. It is truthy
     * exactly when both fields are present and non-empty, and it raises
     * `KeyError` when the dict is non-empty but lacks a field it reaches.
     */
    function HasCredentials(): (r: Result<Option<string>, Exception>)
      reads this
      ensures r.Ok? && Truthy(r.value) <==>
        && credentials.Some?
        && "client_id" in credentials.value && credentials.value["client_id"] != ""
        && "client_secret" in credentials.value && credentials.value["client_secret"] != ""
      ensures r.Err? <==>
        && credentials.Some? && credentials.value != map[]
        && ("client_id" !in credentials.value
            || (credentials.value["client_id"] != "" && "client_secret" !in credentials.value))
      ensures r.Err? ==> r.error == KeyError(if "client_id" !in credentials.value then "client_id" else "client_secret")
    {
      match ClientId()
      case Err(e) => Err(e)
      case Ok(id) => if Truthy(id) then ClientSecret() else Ok(id)
    }

    /**
     * `retrieve_credentials`: read and decrypt the credentials file. None for
     * a missing or unparseable file; otherwise the same keys with every value
     * decrypted. On success `self.credentials` is the value returned; when a
     * value cannot be decrypted `UnboundLocalError` escapes and
     * `self.credentials` keeps its old value.
     */
    method RetrieveCredentials() returns (r: Result<Option<Credentials>, Exception>)
      modifies this
      ensures r == LoadCredentials(fs.files, fernetKey)
      ensures CREDENTIALS_PATH !in fs.files || fs.files[CREDENTIALS_PATH].content.Unparseable? ==> r == Ok(None)
      ensures r.Ok? && r.value.Some? ==>
        && CREDENTIALS_PATH in fs.files && fs.files[CREDENTIALS_PATH].content.Object?
        && r.value.value.Keys == fs.files[CREDENTIALS_PATH].content.fields.Keys
      ensures (CREDENTIALS_PATH in fs.files && fs.files[CREDENTIALS_PATH].content.Object?
               && Decryptable(fs.files[CREDENTIALS_PATH].content.fields, fernetKey)) ==>
        r.Ok? && r.value.Some? && credentials == r.value
      ensures r.Ok? ==> credentials == r.value
      ensures r.Err? ==> r.error == UnboundLocalError && credentials == old(credentials)
    {
      if CREDENTIALS_PATH !in fs.files {
        credentials := None;
        return Ok(None);
      }
      var content := fs.files[CREDENTIALS_PATH].content;
      match content
      case Unparseable =>
        credentials := None;
        r := Ok(None);
      case Object(fields) =>
        var decrypted := DecryptCredentials(fields, fernetKey);
        if decrypted.None? {
          r := Err(UnboundLocalError);
        } else {
          credentials := decrypted;
          r := Ok(decrypted);
        }
    }

    /**
     * `save_credentials_to_file(credentials)`: a falsy argument falls back to
     * `self.credentials`; if that is None, `.items()` raises `AttributeError`
     * before the file is opened. Otherwise the file now holds the same keys
     * with every value encrypted, stamped with the current time.
     */
    method SaveCredentialsToFile(arg: Option<Credentials>) returns (err: Option<Exception>)
      modifies fs
      ensures fs.now == old(fs.now)
      ensures ChooseCredentials(arg, credentials).None? ==> err == Some(AttributeError) && fs.files == old(fs.files)
      ensures ChooseCredentials(arg, credentials).Some? ==>
        && err.None?
        && fs.files == old(fs.files)[CREDENTIALS_PATH :=
             File(Object(EncryptCredentials(ChooseCredentials(arg, credentials).value, fernetKey)), fs.now)]
    {
      var chosen := arg;
      if chosen.None? || chosen.value == map[] {
        chosen := credentials;
      }
      if chosen.None? {
        return Some(AttributeError);
      }
      var encrypted := EncryptCredentials(chosen.value, fernetKey);
      fs.Dump(CREDENTIALS_PATH, encrypted);
      return None;
    }
  }

  /**
   * A caller scenario, not part of the handler: `submit_credentials` in the
   * authorisation screen saves the typed id and secret, then retrieves them. With a cipher whose decryption undoes its
   * encryption the handler ends up holding exactly what was typed, and
   * `has_credentials` is truthy exactly when both are non-empty.
   */
  method SubmitCredentials(h: CredentialsFileHandler, clientId: string, clientSecret: string)
    requires Inverts(h.fernetKey)
    modifies h, h.fs
    ensures h.fs.now == old(h.fs.now)
    ensures h.fs.files == old(h.fs.files)[CREDENTIALS_PATH :=
      File(Object(EncryptCredentials(map["client_id" := clientId, "client_secret" := clientSecret], h.fernetKey)), h.fs.now)]
    ensures h.credentials == Some(map["client_id" := clientId, "client_secret" := clientSecret])
    ensures h.HasCredentials().Ok?
    ensures Truthy(h.HasCredentials().value) <==> clientId != "" && clientSecret != ""
  {
    var typed := map["client_id" := clientId, "client_secret" := clientSecret];
    assert "client_id" in typed;
    var err := h.SaveCredentialsToFile(Some(typed));
    SaveThenLoadCredentials(old(h.fs.files), typed, h.fernetKey, h.fs.now);
    var loaded := h.RetrieveCredentials();
  }

  // ---------------------------------------------------------------------------
  // Token cache
  // ---------------------------------------------------------------------------

  /** `is_cache_fresh` on the disk `files` at time `now`: the file exists and changed less than 100 ago. */
  function IsFresh(files: map<Path, File>, now: int, path: Path): (r: bool)
    ensures r ==> path in files
    ensures path in files && files[path].mtime == now ==> r
    ensures path in files && files[path].mtime <= now - REFRESH_INTERVAL ==> !r
  {
    path in files && now - files[path].mtime < REFRESH_INTERVAL
  }

  /** A file just written stays fresh for exactly `REFRESH_INTERVAL`; a missing file is never fresh. */
  lemma FreshForOneInterval(files: map<Path, File>, path: Path, content: Content, written: int, d: nat)
    ensures IsFresh(files[path := File(content, written)], written + d, path) <==> d < REFRESH_INTERVAL
    ensures !IsFresh(files - {path}, written + d, path)
  {
  }

  /** `v in self.ATTRS_TO_ENCRYPT`, the test both comprehensions apply to each VALUE. */
  predicate Selected(v: Value)
  {
    v.Str? && v.s in ATTRS_TO_ENCRYPT
  }

  /** The comprehension of `save_token_to_cache`: encrypt the selected values, keep the rest. */
  function EncryptSelected(info: map<string, Value>, key: Cipher): (r: map<string, Value>)
    ensures r.Keys == info.Keys
    ensures forall k :: k in info && Selected(info[k]) ==> r[k] == Str(key.encrypt(info[k].s))
    ensures forall k :: k in info && !Selected(info[k]) ==> r[k] == info[k]
  {
    map k | k in info :: if Selected(info[k]) then Str(key.encrypt(info[k].s)) else info[k]
  }

  /** Every selected value is accepted by the cipher. */
  predicate SelectedDecryptable(fields: map<string, Value>, key: Cipher)
  {
    forall k | k in fields && Selected(fields[k]) :: key.decrypt(fields[k].s).Some?
  }

  /** The comprehension of `get_cached_token`: decrypt the selected values, keep the rest; `InvalidToken` if one is refused. */
  function DecryptSelected(fields: map<string, Value>, key: Cipher): (r: Result<map<string, Value>, Exception>)
    ensures r.Ok? <==> SelectedDecryptable(fields, key)
    ensures r.Err? ==> r.error == InvalidToken
    ensures r.Ok? ==> r.value.Keys == fields.Keys
    ensures r.Ok? ==> forall k :: k in fields && Selected(fields[k]) ==>
      key.decrypt(fields[k].s).Some? && r.value[k] == Str(key.decrypt(fields[k].s).value)
    ensures r.Ok? ==> forall k :: k in fields && !Selected(fields[k]) ==> r.value[k] == fields[k]
  {
    if SelectedDecryptable(fields, key) then
      Ok(map k | k in fields :: if Selected(fields[k]) then Str(key.decrypt(fields[k].s).value) else fields[k])
    else Err(InvalidToken)
  }

  /** `d['expires_at'] = d.pop('expires_in')`: the value moves unconverted; an old `expires_at` is overwritten. */
  function RenameExpiry(m: map<string, Value>): (r: map<string, Value>)
    requires "expires_in" in m
    ensures "expires_in" !in r
    ensures "expires_at" in r && r["expires_at"] == m["expires_in"]
    ensures r.Keys == m.Keys - {"expires_in"} + {"expires_at"}
    ensures forall k :: k in m && k != "expires_in" && k != "expires_at" ==> r[k] == m[k]
  {
    (m - {"expires_in"})["expires_at" := m["expires_in"]]
  }

  /** The object `save_token_to_cache` writes for `info`. */
  function StoredToken(info: map<string, Value>, key: Cipher): (r: map<string, Value>)
    requires "expires_in" in info
    ensures r.Keys == info.Keys - {"expires_in"} + {"expires_at"}
    ensures r["expires_at"] == EncryptSelected(info, key)["expires_in"]
    ensures forall k :: k in info && k != "expires_in" && k != "expires_at" && Selected(info[k]) ==>
      r[k] == Str(key.encrypt(info[k].s))
    ensures forall k :: k in info && k != "expires_in" && k != "expires_at" && !Selected(info[k]) ==> r[k] == info[k]
  {
    RenameExpiry(EncryptSelected(info, key))
  }

  /** What `get_cached_token` returns for the disk `files`. */
  function LoadToken(files: map<Path, File>, path: Path, key: Cipher): (r: Result<Option<map<string, Value>>, Exception>)
    ensures r == Ok(None) <==> path !in files
    ensures r == Err(JSONDecodeError) <==> path in files && files[path].content.Unparseable?
    ensures r == Err(InvalidToken) <==>
      path in files && files[path].content.Object? && !SelectedDecryptable(files[path].content.fields, key)
    ensures r.Ok? && r.value.Some? ==>
      path in files && files[path].content.Object? && r.value.value == DecryptSelected(files[path].content.fields, key).value
    ensures (path in files && files[path].content.Object? && SelectedDecryptable(files[path].content.fields, key)) ==>
      r == Ok(Some(DecryptSelected(files[path].content.fields, key).value))
    ensures r.Err? ==> r.error == JSONDecodeError || r.error == InvalidToken
  {
    if path !in files then Ok(None)
    else
      match files[path].content
      case Unparseable => Err(JSONDecodeError)
      case Object(fields) =>
        match DecryptSelected(fields, key)
        case Ok(m) => Ok(Some(m))
        case Err(e) => Err(e)
  }

  class CustomCacheFileHandler {
    const cachePath: Path
    const fernetKey: Cipher
    const fs: FileSystem

    /** `CustomCacheFileHandler()`: the parent keeps `CUSTOM_CACHE_PATH`; the key is taken once. */
    constructor (fernetKey: Cipher, fs: FileSystem)
      ensures cachePath == CACHE_PATH && this.fernetKey == fernetKey && this.fs == fs
    {
      cachePath := CACHE_PATH;
      this.fernetKey := fernetKey;
      this.fs := fs;
    }

    /** `is_cache_fresh`: false when the file is absent, else whether it changed less than 100 ago. */
    function IsCacheFresh(): (r: bool)
      reads fs
      ensures r <==> cachePath in fs.files && fs.now - fs.files[cachePath].mtime < REFRESH_INTERVAL
    {
      IsFresh(fs.files, fs.now, cachePath)
    }

    /**
     * `save_token_to_cache(token_info)`: nothing happens while the cache is
     * fresh. Otherwise the selected values are encrypted, `expires_in` is
     * renamed to `expires_at` (a missing `expires_in` raises `KeyError`
     * before the file is opened) and the object is written.
     */
    method SaveTokenToCache(tokenInfo: map<string, Value>) returns (err: Option<Exception>)
      modifies fs
      ensures fs.now == old(fs.now)
      ensures old(IsCacheFresh()) ==> err.None? && fs.files == old(fs.files)
      ensures !old(IsCacheFresh()) && "expires_in" !in tokenInfo ==>
        err == Some(KeyError("expires_in")) && fs.files == old(fs.files)
      ensures !old(IsCacheFresh()) && "expires_in" in tokenInfo ==>
        err.None? && fs.files == old(fs.files)[cachePath := File(Object(StoredToken(tokenInfo, fernetKey)), fs.now)]
    {
      if !IsCacheFresh() {
        var encrypted := EncryptSelected(tokenInfo, fernetKey);
        if "expires_in" !in encrypted {
          return Some(KeyError("expires_in"));
        }
        encrypted := RenameExpiry(encrypted);
        fs.Dump(cachePath, encrypted);
      }
      return None;
    }

    /**
     * `get_cached_token`: None when the file is absent; a file that does not
     * parse raises `JSONDecodeError`; otherwise the object with its selected
     * values decrypted.
     */
    method GetCachedToken() returns (r: Result<Option<map<string, Value>>, Exception>)
      ensures r == LoadToken(fs.files, cachePath, fernetKey)
      ensures r == Ok(None) <==> cachePath !in fs.files
      ensures r == Err(JSONDecodeError) <==> cachePath in fs.files && fs.files[cachePath].content.Unparseable?
      ensures r == Err(InvalidToken) <==>
        cachePath in fs.files && fs.files[cachePath].content.Object?
        && !SelectedDecryptable(fs.files[cachePath].content.fields, fernetKey)
      ensures (cachePath in fs.files && fs.files[cachePath].content.Object?
               && SelectedDecryptable(fs.files[cachePath].content.fields, fernetKey)) ==>
        r == Ok(Some(DecryptSelected(fs.files[cachePath].content.fields, fernetKey).value))
    {
      if cachePath !in fs.files {
        return Ok(None);
      }
      var content := fs.files[cachePath].content;
      match content
      case Unparseable =>
        r := Err(JSONDecodeError);
      case Object(tokenInfo) =>
        var decrypted := DecryptSelected(tokenInfo, fernetKey);
        if decrypted.Err? {
          r := Err(decrypted.error);
        } else {
          r := Ok(Some(decrypted.value));
        }
    }
  }

  /**
   * A second `save_token_to_cache` less than `REFRESH_INTERVAL` after one that
   * wrote leaves the disk as the first one left it.
   */
  method SaveTwice(h: CustomCacheFileHandler, first: map<string, Value>, second: map<string, Value>, d: nat)
    requires "expires_in" in first && d < REFRESH_INTERVAL
    modifies h.fs
    ensures h.fs.now == old(h.fs.now) + d
    ensures !old(h.IsCacheFresh()) ==>
      h.fs.files == old(h.fs.files)[h.cachePath := File(Object(StoredToken(first, h.fernetKey)), old(h.fs.now))]
  {
    var err1 := h.SaveTokenToCache(first);
    h.fs.Tick(d);
    FreshForOneInterval(old(h.fs.files), h.cachePath, Object(StoredToken(first, h.fernetKey)), old(h.fs.now), d);
    var err2 := h.SaveTokenToCache(second);
  }

  // ---------------------------------------------------------------------------
  // Selection by value, as written
  // ---------------------------------------------------------------------------

  /** A real access token (any string other than the two field names) is written in clear text. */
  lemma AccessTokenStoredInClear(info: map<string, Value>, key: Cipher, token: string)
    requires "expires_in" in info
    requires "access_token" in info && info["access_token"] == Str(token)
    requires token !in ATTRS_TO_ENCRYPT
    ensures StoredToken(info, key)["access_token"] == Str(token)
  {
  }

  /** Nothing in a stored token is decrypted on reload: no stored value is selected. */
  lemma StoredValuesAreNotSelected(info: map<string, Value>, key: Cipher)
    requires TokensAreNotFieldNames(key)
    requires "expires_in" in info
    ensures forall k :: k in StoredToken(info, key) ==> !Selected(StoredToken(info, key)[k])
  {
  }

  /**
   * The cache round trip as written: reading back what `save_token_to_cache`
   * wrote returns the stored object itself, ciphertexts included, so the
   * token comes back as saved (after the rename) exactly when no value other
   * than an overwritten `expires_at` equals "access_token" or "refresh_token".
   */
  lemma CacheRoundTripAsWritten(files: map<Path, File>, path: Path, info: map<string, Value>, key: Cipher, now: int)
    requires TokensAreNotFieldNames(key)
    requires "expires_in" in info
    ensures LoadToken(files[path := File(Object(StoredToken(info, key)), now)], path, key) == Ok(Some(StoredToken(info, key)))
    ensures StoredToken(info, key) == RenameExpiry(info) <==>
      forall k :: k in info && k != "expires_at" ==> !Selected(info[k])
  {
    var stored := StoredToken(info, key);
    StoredValuesAreNotSelected(info, key);
    assert SelectedDecryptable(stored, key);
    var back := DecryptSelected(stored, key).value;
    assert back == stored;
    if forall k :: k in info && k != "expires_at" ==> !Selected(info[k]) {
      assert stored == RenameExpiry(info);
    }
    if stored == RenameExpiry(info) {
      forall k | k in info && k != "expires_at"
        ensures !Selected(info[k])
      {
        if k != "expires_in" {
          assert stored[k] == info[k];
        } else {
          assert stored["expires_at"] == info["expires_in"];
        }
        if info[k].Str? {
          assert key.encrypt(info[k].s) !in ATTRS_TO_ENCRYPT;
        }
      }
    }
  }

  /** A token whose refresh token is literally "refresh_token" comes back from the cache as ciphertext. */
  lemma FieldNameValueDoesNotRoundTrip(key: Cipher, now: int)
    requires TokensAreNotFieldNames(key)
    ensures
      var info := map["refresh_token" := Str("refresh_token"), "expires_in" := Int(3600)];
      var files := map[CACHE_PATH := File(Object(StoredToken(info, key)), now)];
      LoadToken(files, CACHE_PATH, key) != Ok(Some(RenameExpiry(info)))
  {
    var info := map["refresh_token" := Str("refresh_token"), "expires_in" := Int(3600)];
    assert Selected(info["refresh_token"]);
    CacheRoundTripAsWritten(map[], CACHE_PATH, info, key, now);
  }

  // ---------------------------------------------------------------------------
  // Selection by key, as the comment on ATTRS_TO_ENCRYPT describes
  // ---------------------------------------------------------------------------

  /** The fields whose values are secret: a string stored under one of the two field names. */
  predicate Secret(k: string, v: Value)
  {
    k in ATTRS_TO_ENCRYPT && v.Str?
  }

  /** Encrypt the values stored under `access_token` and `refresh_token`. */
  function EncryptSecrets(info: map<string, Value>, key: Cipher): (r: map<string, Value>)
    ensures r.Keys == info.Keys
    ensures forall k :: k in info && Secret(k, info[k]) ==> r[k] == Str(key.encrypt(info[k].s))
    ensures forall k :: k in info && !Secret(k, info[k]) ==> r[k] == info[k]
  {
    map k | k in info :: if Secret(k, info[k]) then Str(key.encrypt(info[k].s)) else info[k]
  }

  /** Decrypt the values stored under `access_token` and `refresh_token`; `InvalidToken` if one is refused. */
  function DecryptSecrets(fields: map<string, Value>, key: Cipher): Result<map<string, Value>, Exception>
  {
    if forall k | k in fields && Secret(k, fields[k]) :: key.decrypt(fields[k].s).Some? then
      Ok(map k | k in fields :: if Secret(k, fields[k]) then Str(key.decrypt(fields[k].s).value) else fields[k])
    else Err(InvalidToken)
  }

  /**
   * With selection by key the round trip holds for every token: the two
   * secrets are stored encrypted and reading back the stored object gives the
   * saved token after the rename.
   */
  lemma SecretsRoundTrip(info: map<string, Value>, key: Cipher)
    requires Inverts(key)
    requires "expires_in" in info
    ensures DecryptSecrets(RenameExpiry(EncryptSecrets(info, key)), key) == Ok(RenameExpiry(info))
  {
    var stored := RenameExpiry(EncryptSecrets(info, key));
    var expected := RenameExpiry(info);
    assert stored.Keys == expected.Keys;
    forall k | k in stored && Secret(k, stored[k])
      ensures key.decrypt(stored[k].s) == Some(expected[k].s) && expected[k].Str?
    {
      assert k != "expires_at" && k != "expires_in";
      if Secret(k, info[k]) {
        assert key.decrypt(key.encrypt(info[k].s)) == Some(info[k].s);
      }
    }
    var back := DecryptSecrets(stored, key);
    assert back.Ok?;
    forall k | k in stored
      ensures back.value[k] == expected[k]
    {
      if k != "expires_at" && k != "expires_in" && Secret(k, info[k]) {
        assert key.decrypt(key.encrypt(info[k].s)) == Some(info[k].s);
      }
    }
    assert back.value.Keys == expected.Keys;
    assert back.value == expected;
  }
}
