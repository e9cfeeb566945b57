/**
 * The data file `data.json` that carries the last reconciled state between
 * runs, behind `dataExists`, `readData`, `createData` and `removeData`, and
 * the completeness test the periodic run applies to what it reads. The file
 * is kept as the value `json_decode` makes of its content, so a malformed
 * file is one whose content decodes to null.
 */
module CacheStore {
  import opened Wrappers
  import opened PhpValues

  /** The state of the data file on disk. */
  datatype DataFile =
    | NoFile                  // file_exists is false
    | Unopenable              // exists, but fopen fails
    | EmptyFile               // exists with size 0
    | JsonFile(decoded: Json) // non-empty; `decoded` is what json_decode makes of it

  /** The five members of the cached state, as PHP values. */
  datatype CacheEntry = CacheEntry(ipAddress: Json, zoneName: Json, zoneId: Json, recordName: Json, recordId: Json)

  /** The array `createData` encodes. */
  function ToJson(e: CacheEntry): (data: Json)
    ensures Truthy(data)
    ensures FromJson(data) == e
  {
    JObject(map[
      "ip_address" := e.ipAddress,
      "zone_name" := e.zoneName,
      "zone_id" := e.zoneId,
      "record_name" := e.recordName,
      "record_id" := e.recordId])
  }

  /** The five members read from a decoded file, null where a member is missing. */
  function FromJson(data: Json): CacheEntry {
    CacheEntry(
      Member(data, "ip_address"),
      Member(data, "zone_name"),
      Member(data, "zone_id"),
      Member(data, "record_name"),
      Member(data, "record_id"))
  }

  /** `dataExists`. */
  predicate DataExists(f: DataFile) {
    !f.NoFile?
  }

  /**
   * `readData`: the decoded content, or false when the file is missing,
   * cannot be opened, or is empty; whatever was read came from an existing file.
   */
  function ReadData(f: DataFile): (r: Option<Json>)
    ensures r.Some? ==> DataExists(f)
    ensures f.EmptyFile? || f.Unopenable? ==> r.None?
  {
    if f.JsonFile? then Some(f.decoded) else None
  }

  /** The outcome of a write or delete: its boolean result and the file afterwards. */
  datatype FileChange = FileChange(ok: bool, file: DataFile)

  /**
   * `createData`: `ok` is whether `file_put_contents` succeeded. A successful
   * write replaces the file, and reading it back yields the same entry; a
   * failed write is taken to leave the file as it was.
   */
  function CreateData(f: DataFile, e: CacheEntry, ok: bool): (r: FileChange)
    ensures r.ok == ok
    ensures ok ==> DataExists(r.file) && ReadData(r.file) == Some(ToJson(e))
    ensures ok ==> FromJson(ReadData(r.file).value) == e
    ensures !ok ==> r.file == f
  {
    if ok then FileChange(true, JsonFile(ToJson(e))) else FileChange(false, f)
  }

  /**
   * `removeData`: false without touching anything when there is no file;
   * otherwise the result of `unlink` (`unlinkOk`), the file gone on success.
   */
  function RemoveData(f: DataFile, unlinkOk: bool): (r: FileChange)
    ensures r.ok <==> DataExists(f) && unlinkOk
    ensures r.ok ==> !DataExists(r.file)
    ensures !r.ok ==> r.file == f
  {
    if DataExists(f) && unlinkOk then FileChange(true, NoFile) else FileChange(false, f)
  }

  /**
   * The completeness test of the periodic run: `ip_address` is a string
   * passing `isIp` (`FILTER_VALIDATE_IP`), and the two names and two ids are
   * all set and truthy.
   */
  predicate ValidEntry(e: CacheEntry, isIp: string -> bool) {
    && e.ipAddress.JStr? && isIp(e.ipAddress.s)
    && Truthy(e.zoneId)
    && Truthy(e.zoneName)
    && Truthy(e.recordId)
    && Truthy(e.recordName)
  }

  /** The same test applied to what was read from the file. */
  predicate CacheValid(data: Json, isIp: string -> bool) {
    ValidEntry(FromJson(data), isIp)
  }

  /**
   * A read cache is never partially trusted: it passes the test exactly when
   * it is an object holding all five members, the address a valid IP string
   * and the other four truthy.
   */
  lemma CacheValidMeansComplete(data: Json, isIp: string -> bool)
    ensures CacheValid(data, isIp) <==>
      && data.JObject?
      && (forall key | key in ["ip_address", "zone_name", "zone_id", "record_name", "record_id"] :: key in data.fields)
      && data.fields["ip_address"].JStr? && isIp(data.fields["ip_address"].s)
      && Truthy(data.fields["zone_name"]) && Truthy(data.fields["zone_id"])
      && Truthy(data.fields["record_name"]) && Truthy(data.fields["record_id"])
  {
    if CacheValid(data, isIp) {
      forall key | key in ["ip_address", "zone_name", "zone_id", "record_name", "record_id"]
        ensures key in data.fields
      {
      }
    }
  }

  /** Writing a valid entry and reading it back passes the completeness test. */
  lemma WrittenValidEntryStaysValid(f: DataFile, e: CacheEntry, isIp: string -> bool)
    requires ValidEntry(e, isIp)
    ensures CacheValid(ReadData(CreateData(f, e, true).file).value, isIp)
  {
  }
}
