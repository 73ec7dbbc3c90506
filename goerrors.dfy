/**
 * Go error values. A sentinel (`var ErrX = errors.New("...")`) is identified by its
 * qualified Go name, so two sentinels with the same text stay distinct as they do in Go.
 * `fmt.Errorf("prefix%wsuffix", cause)` keeps the cause on the chain that `errors.Is`
 * and `errors.As` walk; `fmt.Errorf("%w<sep>%w", a, b)` keeps both, and the walk visits
 * `a`'s chain before `b`'s.
 */
module GoErrors {
  import opened Wrappers
  import GoStrings

  datatype Error =
    | Sentinel(name: string, text: string)
    | Plain(text: string)
    | Wrap(prefix: string, cause: Error, suffix: string)
      /** `fmt.Errorf("%w" + sep + "%w", first, second)`. */
    | Join(first: Error, sep: string, second: Error)
      /** `*http.MaxBytesError`: its Error() is "http: request body too large". */
    | MaxBytes(limit: int)
      /** A PostgreSQL failure carrying its SQLSTATE code. */
    | Pg(code: string, text: string)
      /** The web data service's `AssetsExistsError`, listing the checksums that exist. */
    | AssetsExists(checksums: seq<string>)

  /** The text `err.Error()` returns. */
  function Message(e: Error): string
  {
    match e
    case Sentinel(_, t) => t
    case Plain(t) => t
    case Wrap(p, c, s) => p + Message(c) + s
    case Join(a, sep, b) => Message(a) + sep + Message(b)
    case MaxBytes(_) => "http: request body too large"
    case Pg(_, t) => t
    case AssetsExists(cs) => GoStrings.Itoa(|cs|) + " asset(s) already exist"
  }

  /** `errors.Is(e, target)`: target occurs on e's wrap chain. */
  predicate Is(e: Error, target: Error)
  {
    e == target || (e.Wrap? && Is(e.cause, target)) || (e.Join? && (Is(e.first, target) || Is(e.second, target)))
  }

  /** `errors.As(e, &maxBytesErr)`: the first MaxBytes error on the chain, if any. */
  function AsMaxBytes(e: Error): (r: Option<int>)
    ensures r.Some? ==> Is(e, MaxBytes(r.value))
  {
    match e
    case MaxBytes(l) => Some(l)
    case Wrap(_, c, _) => AsMaxBytes(c)
    case Join(a, _, b) => if AsMaxBytes(a).Some? then AsMaxBytes(a) else AsMaxBytes(b)
    case _ => None
  }

  /** `errors.As(e, &assetsExistError)`: the checksums of the first AssetsExists error. */
  function AsAssetsExists(e: Error): (r: Option<seq<string>>)
    ensures r.Some? ==> Is(e, AssetsExists(r.value))
  {
    match e
    case AssetsExists(cs) => Some(cs)
    case Wrap(_, c, _) => AsAssetsExists(c)
    case Join(a, _, b) => if AsAssetsExists(a).Some? then AsAssetsExists(a) else AsAssetsExists(b)
    case _ => None
  }

  /** `errors.As(e, &pgErr) && pgErr.Code == "23505"`: a unique-constraint violation. */
  predicate IsUniqueViolation(e: Error)
  {
    match e
    case Pg(code, _) => code == "23505"
    case Wrap(_, c, _) => IsUniqueViolation(c)
    case Join(a, _, b) => IsUniqueViolation(a) || IsUniqueViolation(b)
    case _ => false
  }

  /** GORM's `gorm.ErrRecordNotFound`. */
  const RecordNotFound := Sentinel("gorm.ErrRecordNotFound", "record not found")

  /** GORM's `gorm.ErrMissingWhereClause`: an update or delete without conditions is refused. */
  const MissingWhereClause := Sentinel("gorm.ErrMissingWhereClause", "WHERE conditions required")

  /** GORM's `gorm.ErrEmptySlice`: a create given an empty slice issues no statement. */
  const EmptySlice := Sentinel("gorm.ErrEmptySlice", "empty slice found")

  /** `fmt.Errorf("prefix: %w", cause)`. */
  function Wrapf(prefix: string, cause: Error): (r: Error)
    ensures Is(r, cause) && Message(r) == prefix + ": " + Message(cause)
  {
    Wrap(prefix + ": ", cause, "")
  }

  /** `fmt.Errorf("%w, %w", first, second)`: both causes stay visible to `errors.Is`. */
  function Joinf(first: Error, second: Error): (r: Error)
    ensures Is(r, first) && Is(r, second)
    ensures Message(r) == Message(first) + ", " + Message(second)
  {
    Join(first, ", ", second)
  }

  /** Anything wrapped keeps every error its cause already wrapped. */
  lemma {:induction false} IsTransitive(a: Error, b: Error, c: Error)
    requires Is(a, b) && Is(b, c)
    ensures Is(a, c)
  {
    if a != b {
      if a.Wrap? {
        IsTransitive(a.cause, b, c);
      } else if Is(a.first, b) {
        IsTransitive(a.first, b, c);
      } else {
        IsTransitive(a.second, b, c);
      }
    }
  }
}
