/**
 * internal/web/services/data/tags.go: the web service's tag operations over the older registry
 * engine of internal/registry. `GetTagAssetsParams.Validate` repairs the page size
 * in place through its receiver; `GetTagAssets` takes the parameters by value and validates its
 * own copy.
 */
module WebDataTags {
  import opened Wrappers
  import opened GoStrings
  import GoErrors
  import RegistryHooks
  import S = RegistryStore
  import I = InternalRegistryDatabase
  import W = WebDataAssets

  const DefaultLimit: nat := 100
  const MaxLimit: nat := 1000
  const MinLimit: nat := 1

  const ErrEmptyName := GoErrors.Plain("tag name cannot be empty")

  /** The three fields of `GetTagAssetsParams`; `uint` values are naturals. */
  datatype Params = Params(name: string, offset: nat, limit: nat)

  /** The page size after `Validate`: 0 means 100, and anything above 1000 is cut to 1000. */
  function ClampedLimit(limit: nat): nat
  {
    var l := if limit == 0 then DefaultLimit else limit;
    var l' := if l < MinLimit then MinLimit else l;
    if l' > MaxLimit then MaxLimit else l'
  }

  /** What `Validate` leaves behind: the refusal of a blank name, else the repaired limit. */
  function Validated(p: Params): Result<Params, GoErrors.Error>
  {
    if TrimSpace(p.name) == [] then Fail(ErrEmptyName)
    else Ok(p.(limit := ClampedLimit(p.limit)))
  }

  /**
   * `Validate` refuses exactly the names that are blank after trimming; an accepted value keeps
   * its name and offset and ends with a limit in 1..1000: 100 for 0, the limit itself inside
   * the range, 1000 above it. Validating again changes nothing.
   */
  lemma ValidatedProperties(p: Params)
    ensures Validated(p).Fail? <==> TrimSpace(p.name) == []
    ensures Validated(p).Ok? ==>
      var v := Validated(p).value;
      && v.name == p.name && v.offset == p.offset
      && MinLimit <= v.limit <= MaxLimit
      && (p.limit == 0 ==> v.limit == DefaultLimit)
      && (1 <= p.limit <= MaxLimit ==> v.limit == p.limit)
      && (p.limit > MaxLimit ==> v.limit == MaxLimit)
      && Validated(v) == Ok(v)
  {
  }

  class GetTagAssetsParams {
    var name: string
    var offset: nat
    var limit: nat

    function Fields(): Params
      reads this
    {
      Params(name, offset, limit)
    }

    constructor (p: Params)
      ensures Fields() == p
    {
      name, offset, limit := p.name, p.offset, p.limit;
    }

    /**
     * `Validate`: a blank name is refused and nothing changes; otherwise the limit is rewritten
     * step by step (default, minimum, maximum) and name and offset keep their values.
     */
    method Validate() returns (err: Option<GoErrors.Error>)
      modifies this
      ensures match Validated(old(Fields()))
        case Fail(e) => err == Some(e) && Fields() == old(Fields())
        case Ok(v) => err.None? && Fields() == v
    {
      if TrimSpace(name) == [] {
        return Some(ErrEmptyName);
      }
      if limit == 0 {
        limit := DefaultLimit;
      }
      // The source's minimum step (`Limit < 1`) cannot fire here: a `uint` that is not 0 is at least 1.
      if limit > MaxLimit {
        limit := MaxLimit;
      }
      return None;
    }
  }

  /** How the tag operations report a lookup that found no tag. */
  function TagLookupError(name: string, e: GoErrors.Error): GoErrors.Error
  {
    if GoErrors.Is(e, GoErrors.RecordNotFound) then W.Detailed(W.ErrTagNotFound, name) else e
  }

  /**
   * `GetTag`: the stored tag with the normalised name; a tag that is not stored gives
   * `ErrTagNotFound` naming the name as given.
   */
  function GetTag(engine: I.Engine, name: string, fail: Option<GoErrors.Error>): (r: Result<S.TagRow, GoErrors.Error>)
    reads engine, engine.client
    ensures r.Ok? <==> fail.None? && exists t :: t in engine.client.tags && t.name == RegistryHooks.NormalizeString(name)
    ensures r.Ok? ==> r.value in engine.client.tags && r.value.name == RegistryHooks.NormalizeString(name)
    ensures fail.None? && r.Fail? ==> r.error == W.Detailed(W.ErrTagNotFound, name)
  {
    match engine.GetTagRecord(name, fail)
    case Fail(e) => Fail(TagLookupError(name, e))
    case Ok(t) => Ok(t)
  }

  /**
   * `GetTagAssets`: the parameters are validated first and a refusal means no query; otherwise
   * the page of assets carrying the tag, at most the repaired limit, with a missing tag
   * reported as `ErrTagNotFound`.
   */
  method GetTagAssets(engine: I.Engine, params: Params, fail: Option<GoErrors.Error>, findFail: Option<GoErrors.Error>)
      returns (assets: seq<S.AssetRow>, err: Option<GoErrors.Error>, queried: bool)
    ensures queried <==> TrimSpace(params.name) != []
    ensures !queried ==> assets == [] && err == Some(ErrEmptyName)
    ensures queried ==>
      match engine.GetTagRecordAssets(params.name, ClampedLimit(params.limit), params.offset, fail, findFail)
      case Fail(e) => assets == [] && err == Some(TagLookupError(params.name, e))
      case Ok(page) => err.None? && assets == page
    ensures queried && err.None? ==>
      |assets| <= ClampedLimit(params.limit) <= MaxLimit
      && forall a :: a in assets ==> a in engine.client.assets
    ensures queried && fail.None? && (forall t :: t in engine.client.tags ==> t.name != RegistryHooks.NormalizeString(params.name)) ==>
      err == Some(W.Detailed(W.ErrTagNotFound, params.name))
  {
    var p := new GetTagAssetsParams(params);
    var verr := p.Validate();
    if verr.Some? {
      return [], verr, false;
    }
    queried := true;
    ValidatedProperties(params);
    match engine.GetTagRecordAssets(p.name, p.limit, p.offset, fail, findFail) {
      case Fail(e) =>
        return [], Some(TagLookupError(params.name, e)), true;
      case Ok(page) =>
        return page, None, true;
    }
  }

  /**
   * `CreateTag`: the new tag, or, for a name already stored, `ErrTagAlreadyExists` naming it;
   * any other failure is passed through.
   */
  method CreateTag(engine: I.Engine, name: string, fail: Option<GoErrors.Error>) returns (tag: Option<S.TagRow>, err: Option<GoErrors.Error>)
    requires engine.client.Valid()
    modifies engine.client
    ensures engine.client.Valid()
    ensures engine.client.assets == old(engine.client.assets)
    ensures err.None? <==> fail.None? && forall t :: t in old(engine.client.tags) ==> t.name != name
    ensures fail.None? && (exists t :: t in old(engine.client.tags) && t.name == name) ==>
      err == Some(W.Detailed(W.ErrTagAlreadyExists, name))
    ensures fail.Some? && !GoErrors.IsUniqueViolation(fail.value) ==> err == Some(I.Wrapq("create tag", name, fail.value))
    ensures err.Some? ==> tag.None? && engine.client.tags == old(engine.client.tags)
    ensures err.None? ==> tag.Some? && tag.value.name == name && engine.client.tags == old(engine.client.tags) + [tag.value]
  {
    var e;
    tag, e := engine.CreateTagRecord(name, fail);
    if e.Some? {
      if GoErrors.IsUniqueViolation(e.value) {
        return None, Some(W.Detailed(W.ErrTagAlreadyExists, name));
      }
      return None, e;
    }
    return tag, None;
  }
}
