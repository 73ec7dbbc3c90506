/**
 * pkg/registry/config.go: the registry configuration. Storage and database settings are
 * trimmed and defaulted in place by `Normalize`, checked by `Validate`, and the database
 * settings are rendered as a PostgreSQL key=value DSN. Durations are nanoseconds.
 */
module RegistryConfig {
  import opened Wrappers
  import opened GoStrings
  import GoErrors

  const Minute: int := 60 * 1_000_000_000
  const Hour: int := 60 * Minute
  const DefaultTTL: int := 15 * Minute
  const MaxTTL: int := 7 * 24 * Hour
  const DefaultPort: int := 5432

  // ---------------------------------------------------------------- Endpoint

  /**
   * `Endpoint.GetHost` of this file: the trimmed text before the first ':', or "localhost"
   * when the endpoint or that field is blank. It can never be empty.
   */
  function GetHost(e: string): (r: string)
    ensures r != []
    ensures TrimSpace(e) == [] ==> r == "localhost"
    ensures TrimSpace(e) != [] && TrimSpace(Split(TrimSpace(e), ':')[0]) != [] ==>
      r == TrimSpace(Split(TrimSpace(e), ':')[0])
  {
    var t := TrimSpace(e);
    if t == [] then "localhost"
    else
      var host := TrimSpace(Split(t, ':')[0]);
      if host == [] then "localhost" else host
  }

  /**
   * `Endpoint.GetPort` of this file: the trimmed second ':'-field when it is a number in
   * 1..65535, else 5432. It is always a valid port.
   */
  function GetPort(e: string): (r: int)
    ensures 1 <= r <= 65535
    ensures TrimSpace(e) == [] ==> r == DefaultPort
    ensures ':' !in TrimSpace(e) ==> r == DefaultPort
  {
    var t := TrimSpace(e);
    if t == [] then DefaultPort
    else
      var parts := Split(t, ':');
      if |parts| > 1 then
        match Atoi(TrimSpace(parts[1]))
        case Some(p) => if 0 < p <= 65535 then p else DefaultPort
        case None => DefaultPort
      else DefaultPort
  }

  /** A trimmed "host:port" endpoint gives back host and port. */
  lemma {:induction false} HostPortRoundTrip(host: string, port: int)
    requires host != [] && ':' !in host && !IsSpace(host[0]) && !IsSpace(host[|host| - 1])
    requires 1 <= port <= 65535
    ensures GetHost(host + ":" + Itoa(port)) == host
    ensures GetPort(host + ":" + Itoa(port)) == port
  {
    var digits := Itoa(port);
    forall i | 0 <= i < |digits| ensures IsDigit(digits[i]) {
    }
    AtoiItoa(port);
    HostDigitsFields(host, digits);
  }

  /** "host:digits" is already trimmed; its host field is the host and its port field the digits. */
  lemma {:induction false} HostDigitsFields(host: string, digits: string)
    requires host != [] && ':' !in host && !IsSpace(host[0]) && !IsSpace(host[|host| - 1])
    requires digits != [] && forall i :: 0 <= i < |digits| ==> IsDigit(digits[i])
    ensures GetHost(host + ":" + digits) == host
    ensures GetPort(host + ":" + digits) ==
      match Atoi(digits)
      case Some(p) => if 0 < p <= 65535 then p else DefaultPort
      case None => DefaultPort
  {
    var e := host + ":" + digits;
    assert e[|e| - 1] == digits[|digits| - 1];
    TrimSpaceOfTrimmed(e);
    assert ':' !in digits;
    assert Join([host, digits], [':']) == e;
    SplitJoin([host, digits], ':');
    TrimSpaceOfTrimmed(host);
    TrimSpaceOfTrimmed(digits);
  }

  // ---------------------------------------------------------------- DSN

  /** The password-hiding `DSN.String`: the first "password=" run up to a space is replaced. */
  function PasswordMatch(s: string): (r: string)
    ensures r == [] || (HasPrefix(r, "password=") && ' ' !in r)
    decreases |s|
  {
    if s == [] then []
    else if HasPrefix(s, "password=") then "password=" + NonSpaceRun(s[9..])
    else PasswordMatch(s[1..])
  }

  /** The longest prefix without a space (`[^ ]*`). */
  function NonSpaceRun(s: string): (r: string)
    ensures |r| <= |s| && r == s[..|r|] && ' ' !in r
    ensures |r| < |s| ==> s[|r|] == ' '
  {
    if s == [] || s[0] == ' ' then [] else [s[0]] + NonSpaceRun(s[1..])
  }

  /** `DSN.String`: `strings.ReplaceAll(s, match, "password=REDACTED")`. */
  function DsnString(s: string): string
  {
    ReplaceAll(s, PasswordMatch(s), "password=REDACTED")
  }

  /**
   * Without a "password=" the match is empty, and `strings.ReplaceAll` with an empty pattern
   * inserts the replacement around every character instead of leaving the text alone.
   */
  lemma DsnStringWithoutPassword(s: string)
    requires PasswordMatch(s) == []
    ensures |DsnString(s)| == |s| + (|s| + 1) * |"password=REDACTED"|
  {
  }

  // ---------------------------------------------------------------- StorageCFG

  class StorageCFG {
    var s3Endpoint: string
    var bucket: string
    var prefix: string
    var ttl: int

    constructor (s3Endpoint: string, bucket: string, prefix: string, ttl: int)
      ensures this.s3Endpoint == s3Endpoint && this.bucket == bucket
      ensures this.prefix == prefix && this.ttl == ttl
    {
      this.s3Endpoint := s3Endpoint;
      this.bucket := bucket;
      this.prefix := prefix;
      this.ttl := ttl;
    }

    /** Trims the three texts and replaces a zero TTL by 15 minutes; never fails. */
    method Normalize() returns (err: Option<GoErrors.Error>)
      modifies this
      ensures err.None?
      ensures s3Endpoint == TrimSpace(old(s3Endpoint)) && bucket == TrimSpace(old(bucket))
      ensures prefix == TrimSpace(old(prefix))
      ensures ttl == if old(ttl) == 0 then DefaultTTL else old(ttl)
    {
      s3Endpoint := TrimSpace(s3Endpoint);
      bucket := TrimSpace(bucket);
      prefix := TrimSpace(prefix);
      if ttl == 0 {
        ttl := DefaultTTL;
      }
      err := None;
    }

    function Validate(): (err: Option<GoErrors.Error>)
      reads this
    {
      ValidateStorage(bucket, ttl)
    }
  }

  /**
   * `StorageCFG.Validate`: a bucket is required, then the TTL must be at least one minute,
   * then at most seven days.
   */
  function ValidateStorage(bucket: string, ttl: int): (err: Option<GoErrors.Error>)
    ensures err.None? <==> bucket != [] && Minute <= ttl <= MaxTTL
    ensures bucket == [] ==> err == Some(GoErrors.Plain("bucket required"))
    ensures bucket != [] && ttl < Minute ==> err == Some(GoErrors.Plain("TTL too short: minimum 1 minute"))
    ensures bucket != [] && Minute <= ttl && ttl > MaxTTL ==>
      err == Some(GoErrors.Plain("TTL too long: maximum 7 days"))
  {
    if bucket == [] then Some(GoErrors.Plain("bucket required"))
    else if ttl < Minute then Some(GoErrors.Plain("TTL too short: minimum 1 minute"))
    else if ttl > MaxTTL then Some(GoErrors.Plain("TTL too long: maximum 7 days"))
    else None
  }

  /** A zero TTL never fails validation after normalisation: 15 minutes is in range. */
  lemma DefaultTTLValid(bucket: string)
    requires bucket != []
    ensures ValidateStorage(bucket, DefaultTTL).None?
  {
  }

  // ---------------------------------------------------------------- DatabaseCFG

  /** The zone a blank time zone stands for. */
  const DefaultTimeZone: string := "UTC"

  /** The outcome of loading a zone: nothing when `time.LoadLocation` knows it, else the error. */
  function ZoneError(zone: string, zoneExists: string -> bool): (err: Option<GoErrors.Error>)
    ensures err.None? <==> zoneExists(zone)
  {
    if zoneExists(zone) then None else Some(InvalidTimeZone(zone))
  }

  /** The error for a time zone `time.LoadLocation` does not know. */
  function InvalidTimeZone(zone: string): GoErrors.Error
  {
    GoErrors.Plain("invalid timezone: " + zone)
  }

  class DatabaseCFG {
    var endpoint: string
    var user: string
    var password: string
    var name: string
    var ssl: bool
    var timeZone: string

    constructor (endpoint: string, user: string, password: string, name: string, ssl: bool, timeZone: string)
      ensures this.endpoint == endpoint && this.user == user && this.password == password
      ensures this.name == name && this.ssl == ssl && this.timeZone == timeZone
    {
      this.endpoint := endpoint;
      this.user := user;
      this.password := password;
      this.name := name;
      this.ssl := ssl;
      this.timeZone := timeZone;
    }

    /**
     * Trims user, name and time zone, defaults a blank zone to "UTC", and fails when
     * `time.LoadLocation` (the oracle `zoneExists`) does not know the zone.
     */
    method Normalize(zoneExists: string -> bool) returns (err: Option<GoErrors.Error>)
      modifies this
      ensures user == TrimSpace(old(user)) && name == TrimSpace(old(name))
      ensures timeZone == if TrimSpace(old(timeZone)) == [] then DefaultTimeZone else TrimSpace(old(timeZone))
      ensures endpoint == old(endpoint) && password == old(password) && ssl == old(ssl)
      ensures err == ZoneError(timeZone, zoneExists)
    {
      var u := TrimSpace(user);
      var n := TrimSpace(name);
      var tz := TrimSpace(timeZone);
      if tz == [] {
        tz := DefaultTimeZone;
      }
      user, name, timeZone := u, n, tz;
      if !zoneExists(tz) {
        return Some(InvalidTimeZone(tz));
      }
      return None;
    }

    function Validate(): (err: Option<GoErrors.Error>)
      reads this
    {
      ValidateDatabase(user, password, name, endpoint)
    }

    function DSN(): (r: string)
      reads this
    {
      Dsn(endpoint, user, password, name, ssl, timeZone)
    }
  }

  /**
   * `DatabaseCFG.Validate`: user, then password, then name are required; the host and port
   * checks that follow are kept as written.
   */
  function ValidateDatabase(user: string, password: string, name: string, endpoint: string): (err: Option<GoErrors.Error>)
    ensures err.None? <==> user != [] && password != [] && name != []
    ensures user == [] ==> err == Some(GoErrors.Plain("user required"))
    ensures user != [] && password == [] ==> err == Some(GoErrors.Plain("password required"))
    ensures user != [] && password != [] && name == [] ==> err == Some(GoErrors.Plain("database name required"))
  {
    if user == [] then Some(GoErrors.Plain("user required"))
    else if password == [] then Some(GoErrors.Plain("password required"))
    else if name == [] then Some(GoErrors.Plain("database name required"))
    else if GetHost(endpoint) == [] then Some(GoErrors.Plain("endpoint host required"))
    else if GetPort(endpoint) <= 0 || GetPort(endpoint) > 65535 then
      Some(GoErrors.Plain("invalid endpoint port: " + Itoa(GetPort(endpoint))))
    else None
  }

  /** The host and port checks can never fire: the endpoint does not affect the verdict. */
  lemma EndpointNeverRejected(user: string, password: string, name: string, e1: string, e2: string)
    ensures ValidateDatabase(user, password, name, e1) == ValidateDatabase(user, password, name, e2)
  {
  }

  /** The seven key=value fields of the DSN, in order. */
  function DsnFields(host: string, port: int, user: string, password: string, name: string, ssl: bool,
                     timeZone: string): (r: seq<string>)
    ensures |r| == 7
  {
    ["host=" + host, "port=" + Itoa(port), "user=" + user, "password=" + password, "dbname=" + name,
     "sslmode=" + (if ssl then "require" else "disable"), "TimeZone=" + timeZone]
  }

  /** `DSN()`: the fields joined by single spaces, with host and port read from the endpoint. */
  function Dsn(endpoint: string, user: string, password: string, name: string, ssl: bool,
               timeZone: string): string
  {
    Join(DsnFields(GetHost(endpoint), GetPort(endpoint), user, password, name, ssl, timeZone), " ")
  }

  /**
   * When no value holds a space, splitting the DSN on spaces gives back the fields: the sixth
   * is "sslmode=require" exactly when SSL is on, and the password travels unredacted.
   */
  lemma DsnRoundTrip(host: string, port: int, user: string, password: string, name: string, ssl: bool,
                     timeZone: string)
    requires ' ' !in host && ' ' !in user && ' ' !in password && ' ' !in name && ' ' !in timeZone
    ensures var f := Split(Join(DsnFields(host, port, user, password, name, ssl, timeZone), " "), ' ');
      f == DsnFields(host, port, user, password, name, ssl, timeZone)
      && (f[5] == "sslmode=require" <==> ssl)
      && f[3] == "password=" + password
  {
    var f := DsnFields(host, port, user, password, name, ssl, timeZone);
    DsnFieldsHaveNoSpace(host, port, user, password, name, ssl, timeZone);
    SplitJoin(f, ' ');
    assert Split(Join(f, " "), ' ') == f;
    SslModeField(ssl);
  }

  lemma SslModeField(ssl: bool)
    ensures "sslmode=" + (if ssl then "require" else "disable") == "sslmode=require" <==> ssl
  {
    if !ssl {
      assert ("sslmode=" + "disable")[8] == 'd';
    }
  }

  lemma DsnFieldsHaveNoSpace(host: string, port: int, user: string, password: string, name: string,
                             ssl: bool, timeZone: string)
    requires ' ' !in host && ' ' !in user && ' ' !in password && ' ' !in name && ' ' !in timeZone
    ensures var f := DsnFields(host, port, user, password, name, ssl, timeZone);
      forall k :: 0 <= k < |f| ==> ' ' !in f[k]
  {
    var digits := Itoa(port);
    assert ' ' !in digits by {
      if port < 0 {
        assert digits == "-" + NatToString(-port);
      }
      forall i | 0 <= i < |digits| ensures digits[i] != ' ' {
        if port >= 0 || i > 0 {
          assert IsDigit(digits[i]);
        }
      }
    }
  }

  // ---------------------------------------------------------------- Config

  class Config {
    const storage: StorageCFG
    const database: DatabaseCFG

    constructor (storage: StorageCFG, database: DatabaseCFG)
      ensures this.storage == storage && this.database == database
    {
      this.storage := storage;
      this.database := database;
    }

    /** `Config.Normalize`: storage, then database; only the database step can fail. */
    method Normalize(zoneExists: string -> bool) returns (err: Option<GoErrors.Error>)
      modifies storage, database
      ensures storage.bucket == TrimSpace(old(storage.bucket))
      ensures storage.ttl == if old(storage.ttl) == 0 then DefaultTTL else old(storage.ttl)
      ensures database.user == TrimSpace(old(database.user)) && database.name == TrimSpace(old(database.name))
      ensures err.None? <==> zoneExists(database.timeZone)
      ensures err.Some? ==> err == Some(GoErrors.Wrapf("database", GoErrors.Plain("invalid timezone: " + database.timeZone)))
    {
      var e1 := storage.Normalize();
      assert storage as object != database as object;
      var e2 := database.Normalize(zoneExists);
      if e2.Some? {
        return Some(GoErrors.Wrapf("database", e2.value));
      }
      return None;
    }

    /**
     * `Config.Validate`: normalise storage then database, then validate storage then
     * database; errors carry a "storage: " or "database: " prefix.
     */
    method Validate(zoneExists: string -> bool) returns (err: Option<GoErrors.Error>)
      modifies storage, database
      ensures err == (
        if !zoneExists(database.timeZone) then
          Some(GoErrors.Wrapf("database", GoErrors.Plain("invalid timezone: " + database.timeZone)))
        else if storage.Validate().Some? then Some(GoErrors.Wrapf("storage", storage.Validate().value))
        else if database.Validate().Some? then Some(GoErrors.Wrapf("database", database.Validate().value))
        else None)
    {
      err := Normalize(zoneExists);
      assert storage as object != database as object;
      if err.Some? {
        return;
      }
      var sv := storage.Validate();
      if sv.Some? {
        return Some(GoErrors.Wrapf("storage", sv.value));
      }
      var dv := database.Validate();
      if dv.Some? {
        return Some(GoErrors.Wrapf("database", dv.value));
      }
      return None;
    }
  }

  /**
   * `NewConfig`: a fifteen-minute TTL, SSL off and the "UTC" zone; every text empty. A bucket,
   * a user, a password and a name must still be given before it validates.
   */
  method NewConfig() returns (cfg: Config)
    ensures fresh(cfg) && fresh(cfg.storage) && fresh(cfg.database)
    ensures cfg.storage.ttl == DefaultTTL && cfg.storage.bucket == [] && cfg.storage.prefix == []
    ensures cfg.storage.s3Endpoint == []
    ensures !cfg.database.ssl && cfg.database.timeZone == "UTC"
    ensures cfg.database.endpoint == [] && cfg.database.user == [] && cfg.database.password == []
    ensures cfg.database.name == []
  {
    var storage := new StorageCFG([], [], [], DefaultTTL);
    var database := new DatabaseCFG([], [], [], [], false, "UTC");
    cfg := new Config(storage, database);
  }
}
