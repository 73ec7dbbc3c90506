/**
 * pkg/registry/hooks.go: the name rule, normalisation, peer naming and SHA-256 check of the
 * registry package, and the GORM hooks that rewrite a record's fields before validating them.
 * GORM calls the hooks; here they are methods on the record objects, and what a hook asks the
 * database (the current highest version number, whether the checksum column changed, the
 * result of the name update) is a parameter.
 */
module RegistryHooks {
  import opened Wrappers
  import opened GoStrings
  import GoErrors
  import HexCodec
  import R = RegistryRecords

  const ErrValidation := GoErrors.Sentinel("registry.ErrValidation", "validation error")

  /** `fmt.Errorf("%w: " + detail, ErrValidation)`. */
  function Invalid(detail: string): (e: GoErrors.Error)
    ensures GoErrors.Is(e, ErrValidation)
    ensures GoErrors.Message(e) == "validation error: " + detail
  {
    GoErrors.Wrap("", ErrValidation, ": " + detail)
  }

  /** One character of the class `[a-z0-9/.:_-]`. */
  predicate NameChar(c: char)
  {
    ('a' <= c <= 'z') || ('0' <= c <= '9') || c == '/' || c == '.' || c == ':' || c == '_' || c == '-'
  }

  /** `ValidateString`: `^[a-z0-9/.:_-]+$`, matched one character at a time. */
  function ValidateString(name: string): (ok: bool)
    ensures ok <==> name != [] && forall i :: 0 <= i < |name| ==> NameChar(name[i])
  {
    name != [] && NameChar(name[0]) && (|name| == 1 || ValidateString(name[1..]))
  }

  /** `NormalizeString`: trimmed and lower-cased. */
  function NormalizeString(name: string): string
  {
    ToLower(TrimSpace(name))
  }

  /** A normalised string has no upper-case letter and no white space at either end. */
  lemma NormalizeStringShape(name: string)
    ensures var r := NormalizeString(name);
      |r| <= |name| && (forall i :: 0 <= i < |r| ==> !IsUpper(r[i]))
      && (r == [] || (!IsSpace(r[0]) && !IsSpace(r[|r| - 1])))
  {
  }

  lemma NormalizeStringIdempotent(name: string)
    ensures NormalizeString(NormalizeString(name)) == NormalizeString(name)
  {
    var r := NormalizeString(name);
    NormalizeStringShape(name);
    TrimSpaceOfTrimmed(r);
    ToLowerIdempotent(TrimSpace(name));
  }

  /** A valid name is already normal: the hooks leave it as it is. */
  lemma ValidNameIsNormal(name: string)
    requires ValidateString(name)
    ensures NormalizeString(name) == name
  {
    assert !IsSpace(name[0]) && !IsSpace(name[|name| - 1]);
    TrimSpaceOfTrimmed(name);
    assert forall i :: 0 <= i < |name| ==> !IsUpper(name[i]);
    ToLowerOfLower(name);
  }

  /** `GeneratePeerName`: `<base with spaces as dashes, normalised>-<type>-<id>`. */
  function GeneratePeerName(id: nat, baseName: string, peerType: string): string
  {
    CleanBaseName(baseName) + "-" + peerType + "-" + Itoa(id)
  }

  /** The base name with every space turned into a dash, then normalised. */
  function CleanBaseName(baseName: string): string
  {
    NormalizeString(ReplaceAll(baseName, " ", "-"))
  }

  /**
   * The id can be read back: the text after the last dash of a generated name is the id's
   * decimal form, which `strconv.Atoi` parses back to the id.
   */
  lemma PeerNameId(id: nat, baseName: string, peerType: string)
    requires id <= MaxInt64
    ensures var r := GeneratePeerName(id, baseName, peerType);
      var k := LastIndexChar(r, '-');
      0 <= k && r[k + 1..] == Itoa(id) && Atoi(r[k + 1..]) == Some(id)
  {
    LastIndexBeforeNumber(CleanBaseName(baseName) + "-" + peerType, '-', id);
    AtoiItoa(id);
  }

  /** The part of a generated name before the type holds no space character. */
  lemma PeerNameBaseHasNoSpace(baseName: string)
    ensures ' ' !in CleanBaseName(baseName)
  {
    var replaced := ReplaceAll(baseName, " ", "-");
    ReplaceCharLength(baseName, ' ', '-');
    forall i | 0 <= i < |replaced| ensures replaced[i] != ' ' {
      ReplaceCharAt(baseName, ' ', '-', i);
    }
    NormalizeKeepsNoSpace(replaced);
  }

  lemma NormalizeKeepsNoSpace(s: string)
    requires ' ' !in s
    ensures ' ' !in NormalizeString(s)
  {
    var t := TrimSpace(s);
    TrimSpaceSlice(s);
    var l := |s| - |TrimLeft(s)|;
    forall i | 0 <= i < |t| ensures t[i] != ' ' {
      assert t[i] == s[l + i];
    }
    var r := ToLower(t);
    forall i | 0 <= i < |r| ensures r[i] != ' ' {
      assert r[i] == Lower(t[i]);
    }
  }

  /** `ValidateSHA256`: after trimming, exactly 64 characters, all hex digits of either case. */
  function ValidateSHA256(hash: string): Option<GoErrors.Error>
  {
    var h := TrimSpace(hash);
    if |h| != 64 then Some(LengthError(|h|)) else HexError(h)
  }

  /** The refusal of a hash whose trimmed length is `n`. */
  function LengthError(n: nat): GoErrors.Error
  {
    GoErrors.Plain("invalid SHA256 hash length: " + Itoa(n))
  }

  /** What `hex.DecodeString` reports for the trimmed hash, wrapped. */
  function HexError(h: string): Option<GoErrors.Error>
  {
    match HexCodec.Decode(h)
    case Fail(e) => Some(GoErrors.Wrap("invalid SHA256 hex: ", HexCodec.ErrorOf(e), ""))
    case Ok(_) => None
  }

  /** A hash passes exactly when, trimmed, it is 64 hex digits of either case. */
  lemma ValidateSHA256Accepts(hash: string)
    ensures ValidateSHA256(hash).None? <==> |TrimSpace(hash)| == 64 && HexCodec.AllHex(TrimSpace(hash))
  {
  }

  /** The length is checked first; a 64-character value fails on its first non-hex digit. */
  lemma ValidateSHA256Errors(hash: string)
    ensures var h := TrimSpace(hash);
      (|h| != 64 ==> ValidateSHA256(hash) == Some(GoErrors.Plain("invalid SHA256 hash length: " + Itoa(|h|))))
      && (|h| == 64 && !HexCodec.AllHex(h) ==>
            ValidateSHA256(hash) == Some(GoErrors.Wrap("invalid SHA256 hex: ",
                          HexCodec.ErrorOf(HexCodec.InvalidByte(h[HexCodec.FirstNonHex(h)])), "")))
  {
  }

  /** A normalised checksum that passes the check is 64 lower-case hex digits. */
  lemma NormalChecksumIsLowerHex(checksum: string)
    requires ValidateSHA256(NormalizeString(checksum)).None?
    ensures var c := NormalizeString(checksum);
      |c| == 64 && forall i :: 0 <= i < 64 ==> c[i] in HexCodec.LowerDigits
  {
    var c := NormalizeString(checksum);
    ValidateSHA256Accepts(c);
    NormalizeStringShape(checksum);
    TrimSpaceOfTrimmed(c);
    forall i | 0 <= i < 64 ensures c[i] in HexCodec.LowerDigits {
      HexCodec.LowerHexDigit(c[i]);
    }
  }

  /**
   * `Asset.BeforeCreate`: normalises MimeType and Checksum, then fails on an invalid checksum;
   * on success the state is always "pending".
   */
  method AssetBeforeCreate(a: R.Asset) returns (err: Option<GoErrors.Error>)
    modifies a
    ensures a.mimeType == NormalizeString(old(a.mimeType))
    ensures a.checksum == NormalizeString(old(a.checksum))
    ensures err == ValidateSHA256(a.checksum)
    ensures err.None? ==> a.state == "pending"
    ensures err.Some? ==> a.state == old(a.state)
    ensures a.id == old(a.id) && a.display == old(a.display) && a.extra == old(a.extra)
    ensures a.sizeBytes == old(a.sizeBytes)
  {
    NormalizeAsset(a);
    err := CheckAndMarkPending(a);
  }

  /** The rest of `Asset.BeforeCreate`: the checksum check, then the "pending" state. */
  method CheckAndMarkPending(a: R.Asset) returns (err: Option<GoErrors.Error>)
    modifies a
    ensures err == ValidateSHA256(a.checksum)
    ensures err.None? ==> a.state == "pending"
    ensures err.Some? ==> a.state == old(a.state)
    ensures a.id == old(a.id) && a.display == old(a.display) && a.extra == old(a.extra)
    ensures a.sizeBytes == old(a.sizeBytes) && a.mimeType == old(a.mimeType) && a.checksum == old(a.checksum)
  {
    err := ValidateSHA256(a.checksum);
    if err.None? {
      a.state := "pending";
    }
  }

  /** The two normalising assignments that open `Asset.BeforeCreate`. */
  method NormalizeAsset(a: R.Asset)
    modifies a
    ensures a.mimeType == NormalizeString(old(a.mimeType))
    ensures a.checksum == NormalizeString(old(a.checksum))
    ensures a.id == old(a.id) && a.display == old(a.display) && a.extra == old(a.extra)
    ensures a.sizeBytes == old(a.sizeBytes) && a.state == old(a.state)
  {
    a.mimeType := NormalizeString(a.mimeType);
    a.checksum := NormalizeString(a.checksum);
  }

  /**
   * `Asset.BeforeUpdate`: an empty state is refused, then a statement that changes the
   * checksum column (`checksumChanged`, GORM's `Statement.Changed("Checksum")`). The hook
   * reads nothing else of the asset.
   */
  function AssetBeforeUpdate(state: string, checksumChanged: bool): (err: Option<GoErrors.Error>)
    ensures err.None? <==> state != "" && !checksumChanged
    ensures state == "" ==> err == Some(Invalid("asset status is required"))
    ensures state != "" && checksumChanged ==>
      err == Some(Invalid("checksum cannot be modified after creation"))
  {
    if state == "" then Some(Invalid("asset status is required"))
    else if checksumChanged then Some(Invalid("checksum cannot be modified after creation"))
    else None
  }

  /** `Tag.BeforeSave`: stores the normalised name, then refuses it unless it is a valid name. */
  method TagBeforeSave(t: R.Tag) returns (err: Option<GoErrors.Error>)
    modifies t
    ensures t.name == NormalizeString(old(t.name)) && t.id == old(t.id)
    ensures err.None? <==> ValidateString(t.name)
    ensures err.Some? ==> err == Some(Invalid("tag name contains invalid characters"))
  {
    t.name := NormalizeString(t.name);
    if !ValidateString(t.name) {
      return Some(Invalid("tag name contains invalid characters"));
    }
    return None;
  }

  /** `Dataset.BeforeSave`. */
  method DatasetBeforeSave(d: R.Dataset) returns (err: Option<GoErrors.Error>)
    modifies d
    ensures d.name == NormalizeString(old(d.name))
    ensures d.id == old(d.id) && d.description == old(d.description)
    ensures err.None? <==> ValidateString(d.name)
    ensures err.Some? ==> err == Some(Invalid("dataset name contains invalid characters"))
  {
    d.name := NormalizeString(d.name);
    if !ValidateString(d.name) {
      return Some(Invalid("dataset name contains invalid characters"));
    }
    return None;
  }

  /** `DatasetVersion.BeforeSave`: stores the normalised display, then refuses it unless it is a valid name. */
  method DatasetVersionBeforeSave(dv: R.DatasetVersion) returns (err: Option<GoErrors.Error>)
    modifies dv
    ensures dv.display == NormalizeString(old(dv.display))
    ensures dv.id == old(dv.id) && dv.number == old(dv.number)
    ensures dv.description == old(dv.description) && dv.datasetID == old(dv.datasetID)
    ensures err.None? <==> ValidateString(dv.display)
    ensures err.Some? ==> err == Some(Invalid("dataset version name contains invalid characters"))
  {
    dv.display := NormalizeString(dv.display);
    if !ValidateString(dv.display) {
      return Some(Invalid("dataset version name contains invalid characters"));
    }
    return None;
  }

  /** A stored version row: which dataset it belongs to and its number. */
  datatype VersionRow = VersionRow(datasetID: nat, number: int)

  /** `SELECT COALESCE(MAX(number), 0) ... WHERE dataset_id = d`. */
  function MaxNumber(rows: seq<VersionRow>, d: nat): (m: int)
    ensures forall i :: 0 <= i < |rows| && rows[i].datasetID == d ==> rows[i].number <= m
    ensures (forall i :: 0 <= i < |rows| ==> rows[i].datasetID != d) ==> m == 0
    ensures m == 0 || exists i :: 0 <= i < |rows| && rows[i].datasetID == d && rows[i].number == m
  {
    if rows == [] then 0
    else
      var rest := MaxNumber(rows[..|rows| - 1], d);
      var last := rows[|rows| - 1];
      var restEmpty := forall i :: 0 <= i < |rows| - 1 ==> rows[i].datasetID != d;
      if last.datasetID != d then rest
      else if restEmpty || last.number > rest then last.number
      else rest
  }

  /**
   * `DatasetVersion.BeforeCreate`: numbers the version one above the dataset's current
   * highest, or fails with the query's error. `rows` is the version table, `queryErr` the
   * query's failure.
   */
  method DatasetVersionBeforeCreate(dv: R.DatasetVersion, rows: seq<VersionRow>, queryErr: Option<GoErrors.Error>)
      returns (err: Option<GoErrors.Error>)
    modifies dv
    ensures err == queryErr
    ensures queryErr.Some? ==> dv.number == old(dv.number)
    ensures queryErr.None? ==> dv.number == MaxNumber(rows, dv.datasetID) + 1
    ensures dv.id == old(dv.id) && dv.display == old(dv.display)
    ensures dv.description == old(dv.description) && dv.datasetID == old(dv.datasetID)
  {
    if queryErr.Some? {
      return queryErr;
    }
    dv.number := MaxNumber(rows, dv.datasetID) + 1;
    return None;
  }

  /** The new number exceeds every number of the same dataset, and is 1 for its first version. */
  lemma NextVersionNumberFresh(rows: seq<VersionRow>, d: nat)
    ensures forall i :: 0 <= i < |rows| && rows[i].datasetID == d ==> rows[i].number < MaxNumber(rows, d) + 1
    ensures (forall i :: 0 <= i < |rows| ==> rows[i].datasetID != d) ==> MaxNumber(rows, d) + 1 == 1
  {
  }

  /** `Peer.BeforeCreate`: an empty type becomes "default"; the normalised type must be a valid name. */
  method PeerBeforeCreate(p: R.Peer) returns (err: Option<GoErrors.Error>)
    modifies p
    ensures p.peerType == NormalizeString(if old(p.peerType) == "" then "default" else old(p.peerType))
    ensures p.id == old(p.id) && p.name == old(p.name) && p.display == old(p.display)
    ensures err.None? <==> ValidateString(p.peerType)
    ensures err.Some? ==> err == Some(Invalid("peer Type contains invalid characters"))
  {
    if p.peerType == "" {
      p.peerType := "default";
    }
    p.peerType := NormalizeString(p.peerType);
    if !ValidateString(p.peerType) {
      return Some(Invalid("peer Type contains invalid characters"));
    }
    return None;
  }

  /** An empty type ends up as "default" and passes. */
  lemma PeerDefaultType()
    ensures NormalizeString("default") == "default" && ValidateString("default")
  {
    ValidNameIsNormal("default");
  }

  /**
   * `Peer.AfterCreate`: a peer saved without a name gets the generated one, and the result
   * of writing it back (`updateErr`) is returned; a named peer is left alone.
   */
  method PeerAfterCreate(p: R.Peer, updateErr: Option<GoErrors.Error>) returns (err: Option<GoErrors.Error>)
    modifies p
    ensures old(p.name) == "" ==>
      p.name == GeneratePeerName(p.id, p.display, p.peerType) && err == updateErr
    ensures old(p.name) != "" ==> p.name == old(p.name) && err.None?
    ensures p.id == old(p.id) && p.display == old(p.display) && p.peerType == old(p.peerType)
  {
    if p.name == "" {
      var generated := GeneratePeerName(p.id, p.display, p.peerType);
      p.name := generated;
      return updateErr;
    }
    return None;
  }
}
