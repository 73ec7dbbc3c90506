/**
 * pkg/registry/options.go: the functional options that configure an `Engine` before it connects.
 * A Go option is a closure over its argument; here it is a value of `EngineOption` that
 * `Engine.Apply` interprets. Whether `time.LoadLocation` knows a zone is a parameter.
 */
module RegistryOptions {
  import opened Wrappers
  import opened GoStrings
  import GoErrors

  const DefaultDatabaseName: string := "postgres"
  const DefaultTimeZone: string := "UTC"
  const DefaultDatabase: string := "localhost:5432"

  const ErrStorageEndpoint := GoErrors.Plain("storage endpoint value required")
  const ErrBucket := GoErrors.Plain("storage bucket value required")
  const ErrDatabaseEndpoint := GoErrors.Plain("database endpoint value required")
  const ErrDatabaseUser := GoErrors.Plain("database user value required")
  const ErrDatabasePassword := GoErrors.Plain("database password value required")

  datatype EngineOption =
    | WithStorageEndpoint(endpoint: string)
    | WithBucket(bucket: string)
    | WithBucketPrefix(prefix: string)
    | WithDatabaseEndpoint(dbEndpoint: string)
    | WithDatabaseUser(user: string)
    | WithDatabasePassword(password: string)
    | WithDatabaseName(name: string)
    | WithTimeZone(timeZone: string)
    | WithSslMode

  /** The configuration fields of an engine, as one value. */
  datatype Settings = Settings(storage: string, bucket: string, prefix: string, database: string,
                               databaseUser: string, databasePassword: string, databaseName: string,
                               databaseSslMode: bool, timeZone: string)

  /** The engine `New` starts from, before any option. */
  const DefaultSettings := Settings([], [], [], DefaultDatabase, [], [], DefaultDatabaseName, false, DefaultTimeZone)

  /**
   * One option applied to the settings. The emptiness test looks at the argument as given and
   * the stored value is the trimmed one.
   */
  function ApplyOption(opt: EngineOption, s: Settings, knownZone: string -> bool): Result<Settings, GoErrors.Error>
  {
    match opt
    case WithStorageEndpoint(e) =>
      if e == [] then Fail(ErrStorageEndpoint)
      else Ok(s.(storage := TrimSpace(e)))
    case WithBucket(b) =>
      if b == [] then Fail(ErrBucket)
      else Ok(s.(bucket := TrimSpace(b)))
    case WithBucketPrefix(p) => Ok(s.(prefix := TrimSpace(p)))
    case WithDatabaseEndpoint(e) =>
      if e == [] then Fail(ErrDatabaseEndpoint)
      else Ok(s.(database := TrimSpace(e)))
    case WithDatabaseUser(u) =>
      if u == [] then Fail(ErrDatabaseUser)
      else Ok(s.(databaseUser := TrimSpace(u)))
    case WithDatabasePassword(p) =>
      if p == [] then Fail(ErrDatabasePassword)
      else Ok(s.(databasePassword := TrimSpace(p)))
    case WithDatabaseName(n) => Ok(s.(databaseName := TrimSpace(n)))
    case WithTimeZone(z) =>
      if !knownZone(z) then Fail(GoErrors.Plain("invalid timezone: " + z))
      else Ok(s.(timeZone := z))
    case WithSslMode => Ok(s.(databaseSslMode := true))
  }

  /** The options that refuse an empty argument. */
  predicate RequiresValue(opt: EngineOption)
  {
    opt.WithStorageEndpoint? || opt.WithBucket? || opt.WithDatabaseEndpoint? || opt.WithDatabaseUser?
    || opt.WithDatabasePassword?
  }

  /** The argument of an option that takes a string to be trimmed. */
  function Argument(opt: EngineOption): string
    requires RequiresValue(opt) || opt.WithBucketPrefix? || opt.WithDatabaseName?
  {
    match opt
    case WithStorageEndpoint(e) => e
    case WithBucket(b) => b
    case WithBucketPrefix(p) => p
    case WithDatabaseEndpoint(e) => e
    case WithDatabaseUser(u) => u
    case WithDatabasePassword(p) => p
    case WithDatabaseName(n) => n
  }

  /** The field an option writes, read back from the settings. */
  function Target(opt: EngineOption, s: Settings): string
    requires RequiresValue(opt) || opt.WithBucketPrefix? || opt.WithDatabaseName?
  {
    match opt
    case WithStorageEndpoint(_) => s.storage
    case WithBucket(_) => s.bucket
    case WithBucketPrefix(_) => s.prefix
    case WithDatabaseEndpoint(_) => s.database
    case WithDatabaseUser(_) => s.databaseUser
    case WithDatabasePassword(_) => s.databasePassword
    case WithDatabaseName(_) => s.databaseName
  }

  /**
   * The five value options refuse exactly the empty argument and otherwise store it trimmed;
   * the prefix and database-name options never fail and store the trimmed value; every option
   * writes its own field and no other.
   */
  lemma ApplyOptionProperties(opt: EngineOption, s: Settings, knownZone: string -> bool)
    ensures RequiresValue(opt) ==> (ApplyOption(opt, s, knownZone).Fail? <==> Argument(opt) == [])
    ensures (opt.WithBucketPrefix? || opt.WithDatabaseName?) ==> ApplyOption(opt, s, knownZone).Ok?
    ensures (RequiresValue(opt) || opt.WithBucketPrefix? || opt.WithDatabaseName?) && ApplyOption(opt, s, knownZone).Ok? ==>
      Target(opt, ApplyOption(opt, s, knownZone).value) == TrimSpace(Argument(opt))
    ensures opt.WithTimeZone? ==> (ApplyOption(opt, s, knownZone).Ok? <==> knownZone(opt.timeZone))
    ensures opt.WithSslMode? ==> ApplyOption(opt, s, knownZone) == Ok(s.(databaseSslMode := true))
    ensures ApplyOption(opt, s, knownZone).Ok? ==> OnlyOwnField(opt, s, ApplyOption(opt, s, knownZone).value)
  {
  }

  /** `t` equals `s` except, possibly, in the field that `opt` writes. */
  predicate OnlyOwnField(opt: EngineOption, s: Settings, t: Settings)
  {
    (opt.WithStorageEndpoint? || t.storage == s.storage)
    && (opt.WithBucket? || t.bucket == s.bucket)
    && (opt.WithBucketPrefix? || t.prefix == s.prefix)
    && (opt.WithDatabaseEndpoint? || t.database == s.database)
    && (opt.WithDatabaseUser? || t.databaseUser == s.databaseUser)
    && (opt.WithDatabasePassword? || t.databasePassword == s.databasePassword)
    && (opt.WithDatabaseName? || t.databaseName == s.databaseName)
    && (opt.WithSslMode? || t.databaseSslMode == s.databaseSslMode)
    && (opt.WithTimeZone? || t.timeZone == s.timeZone)
  }

  /**
   * The empty test comes before the trim: an argument made only of white space is accepted and
   * stores "".
   */
  lemma WhitespaceStoredEmpty(opt: EngineOption, s: Settings, knownZone: string -> bool)
    requires RequiresValue(opt) || opt.WithBucketPrefix? || opt.WithDatabaseName?
    requires Argument(opt) != [] && forall i :: 0 <= i < |Argument(opt)| ==> IsSpace(Argument(opt)[i])
    ensures ApplyOption(opt, s, knownZone).Ok?
    ensures Target(opt, ApplyOption(opt, s, knownZone).value) == []
  {
    ApplyOptionProperties(opt, s, knownZone);
    TrimSpaceEmpty(Argument(opt));
  }

  /** The options applied in order, stopping at the first refusal. */
  function ApplyAll(opts: seq<EngineOption>, s: Settings, knownZone: string -> bool): Result<Settings, GoErrors.Error>
  {
    if opts == [] then Ok(s)
    else match ApplyOption(opts[0], s, knownZone)
      case Fail(e) => Fail(e)
      case Ok(s1) => ApplyAll(opts[1..], s1, knownZone)
  }

  /**
   * A refusal anywhere in the list is what `ApplyAll` reports when every earlier option passes:
   * the first failing option decides the error.
   */
  lemma {:induction false} ApplyAllFirstFailure(opts: seq<EngineOption>, s: Settings, knownZone: string -> bool, k: nat)
    requires k < |opts|
    requires ApplyAll(opts[..k], s, knownZone).Ok?
    requires ApplyOption(opts[k], ApplyAll(opts[..k], s, knownZone).value, knownZone).Fail?
    ensures ApplyAll(opts, s, knownZone) == Fail(ApplyOption(opts[k], ApplyAll(opts[..k], s, knownZone).value, knownZone).error)
  {
    if k > 0 {
      assert opts[..k][0] == opts[0];
      assert opts[..k][1..] == opts[1..][..k - 1];
      ApplyAllFirstFailure(opts[1..], ApplyOption(opts[0], s, knownZone).value, knownZone, k - 1);
    }
  }

  /** One step of `ApplyAll`: a refusal ends the run, an accepted option feeds the rest. */
  lemma ApplyAllCons(opts: seq<EngineOption>, s: Settings, knownZone: string -> bool)
    requires opts != []
    ensures ApplyAll(opts, s, knownZone) ==
      match ApplyOption(opts[0], s, knownZone)
      case Fail(e) => Fail(e)
      case Ok(s1) => ApplyAll(opts[1..], s1, knownZone)
  {
  }

  /** The configuration part of `Engine`; the S3 and database clients are not modelled. */
  class Engine {
    var storage: string
    var bucket: string
    var prefix: string
    var database: string
    var databaseUser: string
    var databasePassword: string
    var databaseName: string
    var databaseSslMode: bool
    var timeZone: string

    function Fields(): Settings
      reads this
    {
      Settings(storage, bucket, prefix, database, databaseUser, databasePassword, databaseName,
               databaseSslMode, timeZone)
    }

    /** The literal `New` builds: database "localhost:5432", name "postgres", zone "UTC". */
    constructor ()
      ensures Fields() == DefaultSettings
    {
      storage := [];
      bucket := [];
      prefix := [];
      database := DefaultDatabase;
      databaseUser := [];
      databasePassword := [];
      databaseName := DefaultDatabaseName;
      databaseSslMode := false;
      timeZone := DefaultTimeZone;
    }

    /**
     * Runs one option closure: a refused option leaves the engine as it was; an accepted one
     * writes its own field (`OnlyOwnField` says the others keep their values).
     */
    method Apply(opt: EngineOption, knownZone: string -> bool) returns (err: Option<GoErrors.Error>)
      modifies this
      ensures match ApplyOption(opt, old(Fields()), knownZone)
        case Fail(e) => err == Some(e) && Fields() == old(Fields())
        case Ok(s) => err.None? && Fields() == s
    {
      match ApplyOption(opt, Fields(), knownZone) {
        case Fail(e) =>
          return Some(e);
        case Ok(s) =>
          Store(s);
          return None;
      }
    }

    /** Writes every field from `s`. */
    method Store(s: Settings)
      modifies this
      ensures Fields() == s
    {
      storage, bucket, prefix, database := s.storage, s.bucket, s.prefix, s.database;
      databaseUser, databasePassword, databaseName := s.databaseUser, s.databasePassword, s.databaseName;
      databaseSslMode, timeZone := s.databaseSslMode, s.timeZone;
    }
  }
}
