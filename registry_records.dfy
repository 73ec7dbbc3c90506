/**
 * pkg/registry/records.go: the GORM records of the registry as mutable objects, and
 * `Asset.SetExtra`, which keeps `Extra` as an append-only JSON list of metadata maps.
 */
module RegistryRecords {
  import opened Wrappers
  import opened JsonValues
  import GoErrors

  /** What `SetExtra` reports for an empty or nil map. */
  const ErrEmptyExtra := GoErrors.Plain("cannot set empty extra value")

  /** `datatypes.JSON`: no bytes, the bytes of a JSON document, or bytes that are not JSON. */
  datatype JsonBytes = Empty | Encoded(doc: Value) | Malformed

  /** A Go `map[string]any` the caller owns; `SetExtra` writes into it. */
  class ExtraMap {
    var entries: map<string, Value>

    constructor (entries: map<string, Value>)
      ensures this.entries == entries
    {
      this.entries := entries;
    }
  }

  /**
   * What `json.Unmarshal` leaves in a `[]map[string]any`: every element of a JSON list,
   * objects as maps and anything else as a nil map (None); nothing for a document that is
   * not a list, for `null`, and for bytes that are not JSON (the error is ignored).
   */
  function DecodeList(j: JsonBytes): (r: seq<Option<map<string, Value>>>)
    ensures j.Encoded? && j.doc.List? ==> |r| == |j.doc.items|
    ensures !(j.Encoded? && j.doc.List?) ==> r == []
  {
    if j.Encoded? && j.doc.List? then
      seq(|j.doc.items|, i requires 0 <= i < |j.doc.items| =>
        if j.doc.items[i].Object? then Some(j.doc.items[i].fields) else None)
    else []
  }

  /** `json.Marshal` of a `[]map[string]any`: nil maps become `null`. */
  function EncodeList(l: seq<Option<map<string, Value>>>): (j: JsonBytes)
    ensures j.Encoded? && j.doc.List? && |j.doc.items| == |l|
  {
    Encoded(List(seq(|l|, i requires 0 <= i < |l| => if l[i].Some? then Object(l[i].value) else Null)))
  }

  /** Decoding an encoded list gives it back. */
  lemma DecodeEncodeList(l: seq<Option<map<string, Value>>>)
    ensures DecodeList(EncodeList(l)) == l
  {
  }

  class Asset {
    var id: nat
    var checksum: string
    var display: string
    var extra: JsonBytes
    var mimeType: string
    var sizeBytes: int
    var state: string

    constructor (id: nat, checksum: string, display: string, extra: JsonBytes, mimeType: string, sizeBytes: int, state: string)
      ensures this.id == id && this.checksum == checksum && this.display == display
      ensures this.extra == extra && this.mimeType == mimeType && this.sizeBytes == sizeBytes
      ensures this.state == state
    {
      this.id := id;
      this.checksum := checksum;
      this.display := display;
      this.extra := extra;
      this.mimeType := mimeType;
      this.sizeBytes := sizeBytes;
      this.state := state;
    }

    /**
     * `SetExtra(extra)` at time `now`: refuses an empty map; otherwise stamps the caller's
     * map with "date" and stores the previous list with that map appended.
     */
    method SetExtra(extra: ExtraMap, now: int) returns (err: Option<GoErrors.Error>)
      modifies this, extra
      ensures |old(extra.entries)| == 0 ==>
        err == Some(ErrEmptyExtra)
        && this.extra == old(this.extra) && extra.entries == old(extra.entries)
      ensures |old(extra.entries)| > 0 ==>
        err.None?
        && extra.entries == old(extra.entries)["date" := Time(now)]
        && this.extra == EncodeList(DecodeList(old(this.extra)) + [Some(extra.entries)])
      ensures id == old(id) && checksum == old(checksum) && display == old(display)
      ensures mimeType == old(mimeType) && sizeBytes == old(sizeBytes) && state == old(state)
    {
      if |extra.entries| == 0 {
        return Some(ErrEmptyExtra);
      }
      var list: seq<Option<map<string, Value>>> := [];
      if this.extra != Empty {
        list := DecodeList(this.extra);
      }
      extra.entries := extra.entries["date" := Time(now)];
      list := list + [Some(extra.entries)];
      this.extra := EncodeList(list);
      return None;
    }
  }

  /** After a successful SetExtra the stored list is the old one plus exactly the new map. */
  lemma SetExtraAppends(before: JsonBytes, entry: map<string, Value>)
    ensures DecodeList(EncodeList(DecodeList(before) + [Some(entry)])) == DecodeList(before) + [Some(entry)]
  {
    DecodeEncodeList(DecodeList(before) + [Some(entry)]);
  }

  class Tag {
    var id: nat
    var name: string

    constructor (name: string)
      ensures this.id == 0 && this.name == name
    {
      this.id := 0;
      this.name := name;
    }
  }

  class Dataset {
    var id: nat
    var name: string
    var description: string

    /** A dataset not yet stored: no id. */
    constructor (name: string, description: string)
      ensures this.id == 0 && this.name == name && this.description == description
    {
      this.id := 0;
      this.name := name;
      this.description := description;
    }
  }

  class DatasetVersion {
    var id: nat
    var display: string
    var number: int
    var description: string
    var datasetID: nat

    /** A version not yet stored: no id, number 0. */
    constructor (datasetID: nat, display: string, description: string)
      ensures this.id == 0 && this.number == 0 && this.datasetID == datasetID
      ensures this.display == display && this.description == description
    {
      this.id := 0;
      this.display := display;
      this.number := 0;
      this.description := description;
      this.datasetID := datasetID;
    }
  }

  class Peer {
    var id: nat
    var name: string
    var display: string
    var peerType: string
  }
}
