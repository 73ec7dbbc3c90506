/**
 * pkg/registry/models/hooks.go: the models package's copy of the name rule, normalisation,
 * peer naming and SHA-256 check, its asset status set, and its GORM hooks. The records are
 * the same objects as the registry's (the models package declares structs with the same
 * fields); what a hook asks the database is a parameter.
 */
module ModelHooks {
  import opened Wrappers
  import opened GoStrings
  import GoErrors
  import HexCodec
  import R = RegistryRecords
  import RegistryHooks

  /** The models package's own `ErrValidation`, distinct from the registry package's. */
  const ErrValidation := GoErrors.Sentinel("models.ErrValidation", "validation error")

  function Invalid(detail: string): (e: GoErrors.Error)
    ensures GoErrors.Is(e, ErrValidation)
    ensures GoErrors.Message(e) == "validation error: " + detail
  {
    GoErrors.Wrap("", ErrValidation, ": " + detail)
  }

  const StatusRejected: string := "rejected"
  const StatusPending: string := "pending"
  const StatusReady: string := "ready"
  const StatusDeleted: string := "deleted"
  const DefaultPeerType: string := "default"

  /** `Status.IsValid`: the switch lists pending, ready and deleted. */
  predicate IsValid(s: string)
  {
    s == StatusPending || s == StatusReady || s == StatusDeleted
  }

  /** Of the four declared statuses, "rejected" is the one that is not valid. */
  lemma RejectedIsNotValid()
    ensures !IsValid(StatusRejected)
    ensures IsValid(StatusPending) && IsValid(StatusReady) && IsValid(StatusDeleted)
    ensures forall s :: IsValid(s) ==> s in {StatusPending, StatusReady, StatusDeleted}
  {
  }

  /** `ValidateName`: `^[a-z0-9/.:_-]+$`, the same rule as the registry package's. */
  function ValidateName(name: string): (ok: bool)
    ensures ok <==> name != [] && forall i :: 0 <= i < |name| ==> RegistryHooks.NameChar(name[i])
  {
    RegistryHooks.ValidateString(name)
  }

  /** `NormalizeName`: trimmed and lower-cased. */
  function NormalizeName(name: string): string
  {
    ToLower(TrimSpace(name))
  }

  /** Normalising twice is normalising once, and a valid name is already normal. */
  lemma NormalizeNameProperties(name: string)
    ensures NormalizeName(NormalizeName(name)) == NormalizeName(name)
    ensures ValidateName(name) ==> NormalizeName(name) == name
    ensures !ValidateName(NormalizeName(name)) <== forall i :: 0 <= i < |name| ==> IsSpace(name[i])
  {
    RegistryHooks.NormalizeStringIdempotent(name);
    if ValidateName(name) {
      RegistryHooks.ValidNameIsNormal(name);
    }
    TrimSpaceEmpty(name);
  }

  /** `GeneratePeerName`, as in the registry package. */
  function GeneratePeerName(id: nat, baseName: string, peerType: string): string
  {
    RegistryHooks.CleanBaseName(baseName) + "-" + peerType + "-" + Itoa(id)
  }

  /** The id is the decimal text after the last dash of a generated name. */
  lemma PeerNameId(id: nat, baseName: string, peerType: string)
    requires id <= MaxInt64
    ensures var r := GeneratePeerName(id, baseName, peerType);
      var k := LastIndexChar(r, '-');
      0 <= k && r[k + 1..] == Itoa(id) && Atoi(r[k + 1..]) == Some(id)
  {
    RegistryHooks.PeerNameId(id, baseName, peerType);
  }

  /** `ValidateSHA256`, as in the registry package. */
  function ValidateSHA256(hash: string): (err: Option<GoErrors.Error>)
    ensures err.None? <==> |TrimSpace(hash)| == 64 && HexCodec.AllHex(TrimSpace(hash))
  {
    RegistryHooks.ValidateSHA256Accepts(hash);
    RegistryHooks.ValidateSHA256(hash)
  }

  /**
   * `Asset.BeforeSave`: normalises Display and refuses it unless it is a valid name; then an
   * empty state becomes "pending" and must be a valid status; then the raw checksum must pass.
   */
  method AssetBeforeSave(a: R.Asset) returns (err: Option<GoErrors.Error>)
    modifies a
    ensures a.display == NormalizeName(old(a.display))
    ensures !ValidateName(a.display) ==>
      err == Some(Invalid("asset Display contains invalid characters")) && a.state == old(a.state)
    ensures ValidateName(a.display) ==> a.state == if old(a.state) == "" then StatusPending else old(a.state)
    ensures ValidateName(a.display) && !IsValid(a.state) ==>
      err == Some(GoErrors.Plain("invalid asset state: " + a.state))
    ensures ValidateName(a.display) && IsValid(a.state) ==> err == ValidateSHA256(a.checksum)
    ensures a.id == old(a.id) && a.checksum == old(a.checksum) && a.mimeType == old(a.mimeType)
    ensures a.sizeBytes == old(a.sizeBytes) && a.extra == old(a.extra)
  {
    var display := NormalizeName(a.display);
    a.display := display;
    if !ValidateName(display) {
      return Some(Invalid("asset Display contains invalid characters"));
    }
    if a.state == "" {
      a.state := StatusPending;
    }
    if !IsValid(a.state) {
      return Some(GoErrors.Plain("invalid asset state: " + a.state));
    }
    return ValidateSHA256(a.checksum);
  }

  /** What `AssetBeforeSave` lets through: a valid name, a valid status and a good checksum. */
  predicate Saveable(display: string, state: string, checksum: string)
  {
    ValidateName(NormalizeName(display))
    && IsValid(if state == "" then StatusPending else state)
    && ValidateSHA256(checksum).None?
  }

  /** An asset in state "rejected", or with an empty or blank Display, can never be saved. */
  lemma NeverSaveable(display: string, state: string, checksum: string)
    ensures state == StatusRejected ==> !Saveable(display, state, checksum)
    ensures (forall i :: 0 <= i < |display| ==> IsSpace(display[i])) ==> !Saveable(display, state, checksum)
  {
    if forall i :: 0 <= i < |display| ==> IsSpace(display[i]) {
      TrimSpaceEmpty(display);
    }
  }

  /** `Asset.BeforeUpdate`: an empty MimeType is refused first, then SizeBytes <= 0. */
  function AssetBeforeUpdate(a: R.Asset): (err: Option<GoErrors.Error>)
    reads a
    ensures err.None? <==> a.mimeType != "" && a.sizeBytes > 0
    ensures a.mimeType == "" ==> err == Some(Invalid("asset MimeType cannot be empty"))
    ensures a.mimeType != "" && a.sizeBytes <= 0 ==> err == Some(Invalid("asset SizeBytes must be positive"))
  {
    if a.mimeType == "" then Some(Invalid("asset MimeType cannot be empty"))
    else if a.sizeBytes <= 0 then Some(Invalid("asset SizeBytes must be positive"))
    else None
  }

  /** `Tag.BeforeSave`. */
  method TagBeforeSave(t: R.Tag) returns (err: Option<GoErrors.Error>)
    modifies t
    ensures t.name == NormalizeName(old(t.name)) && t.id == old(t.id)
    ensures err.None? <==> ValidateName(t.name)
    ensures err.Some? ==> err == Some(Invalid("tag name contains invalid characters"))
  {
    t.name := NormalizeName(t.name);
    if !ValidateName(t.name) {
      return Some(Invalid("tag name contains invalid characters"));
    }
    return None;
  }

  /** `Dataset.BeforeSave`. */
  method DatasetBeforeSave(d: R.Dataset) returns (err: Option<GoErrors.Error>)
    modifies d
    ensures d.name == NormalizeName(old(d.name))
    ensures d.id == old(d.id) && d.description == old(d.description)
    ensures err.None? <==> ValidateName(d.name)
    ensures err.Some? ==> err == Some(Invalid("dataset name contains invalid characters"))
  {
    d.name := NormalizeName(d.name);
    if !ValidateName(d.name) {
      return Some(Invalid("dataset name contains invalid characters"));
    }
    return None;
  }

  /** `DatasetVersion.BeforeSave`. */
  method DatasetVersionBeforeSave(dv: R.DatasetVersion) returns (err: Option<GoErrors.Error>)
    modifies dv
    ensures dv.display == NormalizeName(old(dv.display))
    ensures dv.id == old(dv.id) && dv.number == old(dv.number)
    ensures dv.description == old(dv.description) && dv.datasetID == old(dv.datasetID)
    ensures err.None? <==> ValidateName(dv.display)
    ensures err.Some? ==> err == Some(Invalid("dataset version name contains invalid characters"))
  {
    dv.display := NormalizeName(dv.display);
    if !ValidateName(dv.display) {
      return Some(Invalid("dataset version name contains invalid characters"));
    }
    return None;
  }

  /**
   * `DatasetVersion.BeforeCreate`: only a version without a number (0) is numbered, one
   * above the dataset's current highest; an explicit number is kept and nothing is asked.
   */
  method DatasetVersionBeforeCreate(dv: R.DatasetVersion, rows: seq<RegistryHooks.VersionRow>,
                                    queryErr: Option<GoErrors.Error>)
      returns (err: Option<GoErrors.Error>)
    modifies dv
    ensures old(dv.number) != 0 ==> err.None? && dv.number == old(dv.number)
    ensures old(dv.number) == 0 ==> err == queryErr
    ensures old(dv.number) == 0 && queryErr.Some? ==> dv.number == 0
    ensures old(dv.number) == 0 && queryErr.None? ==>
      dv.number == RegistryHooks.MaxNumber(rows, dv.datasetID) + 1
    ensures dv.id == old(dv.id) && dv.display == old(dv.display)
    ensures dv.description == old(dv.description) && dv.datasetID == old(dv.datasetID)
  {
    if dv.number == 0 {
      if queryErr.Some? {
        return queryErr;
      }
      dv.number := RegistryHooks.MaxNumber(rows, dv.datasetID) + 1;
    }
    return None;
  }

  /** `Peer.BeforeCreate`: defaults the type, then normalises the Display and requires a valid name. */
  method PeerBeforeCreate(p: R.Peer) returns (err: Option<GoErrors.Error>)
    modifies p
    ensures p.peerType == if old(p.peerType) == "" then DefaultPeerType else old(p.peerType)
    ensures p.display == NormalizeName(old(p.display))
    ensures p.id == old(p.id) && p.name == old(p.name)
    ensures err.None? <==> ValidateName(p.display)
    ensures err.Some? ==> err == Some(Invalid("peer base name contains invalid characters"))
  {
    if p.peerType == "" {
      p.peerType := DefaultPeerType;
    }
    p.display := NormalizeName(p.display);
    if !ValidateName(p.display) {
      return Some(Invalid("peer base name contains invalid characters"));
    }
    return None;
  }

  /** `Peer.AfterCreate`: names an unnamed peer and returns the result of storing the name. */
  method PeerAfterCreate(p: R.Peer, updateErr: Option<GoErrors.Error>) returns (err: Option<GoErrors.Error>)
    modifies p
    ensures old(p.name) == "" ==>
      p.name == GeneratePeerName(p.id, p.display, p.peerType) && err == updateErr
    ensures old(p.name) != "" ==> p.name == old(p.name) && err.None?
    ensures p.id == old(p.id) && p.display == old(p.display) && p.peerType == old(p.peerType)
  {
    if p.name == "" {
      var generated := GeneratePeerName(p.id, p.display, p.peerType);
      p.name := generated;
      return updateErr;
    }
    return None;
  }
}
