/**
 * The first-run flow of `create_file.php`: look up the public IP, find the
 * zone, find the A record or create it, bring an existing record's value in
 * line with the IP, and write the initial data file. The two prompts and the
 * outcomes of the IP lookup and of the file write are inputs.
 */
module Onboarding {
  import opened Wrappers
  import opened PhpValues
  import opened ProviderClient
  import opened Resolver
  import opened CacheStore

  /** Where onboarding calls `exit()`. */
  datatype Stop = NoPublicIp | ZoneNotFound | CreateFailed | ValueUnavailable | WriteFailed

  /** Onboarding either writes an initial cache entry or stops. */
  datatype Outcome = Completed(entry: CacheEntry) | Stopped(reason: Stop)

  /** What the user and the environment supply: lookup output, the two prompt answers, the write result. */
  datatype Answers = Answers(ipLookup: string, zoneName: string, recordName: string, writeOk: bool)

  /** The outcome, the requests sent in order, and the data file afterwards. */
  datatype Onboarded = Onboarded(outcome: Outcome, calls: seq<Call>, file: DataFile)

  /** The test `!$id` negated: a lookup returned a truthy id. */
  predicate Found(id: Option<Json>) {
    id.Some? && Truthy(id.value)
  }

  /** The entry onboarding writes for a given IP and pair of ids. */
  function InitialEntry(ip: string, a: Answers, zoneId: Json, recordId: Json): CacheEntry {
    CacheEntry(JStr(ip), JStr(a.zoneName), zoneId, JStr(a.recordName), recordId)
  }

  /** The final `createData` of the flow: completes on a successful write, stops otherwise. */
  function Save(entry: CacheEntry, writeOk: bool, file: DataFile, calls: seq<Call>): (r: Onboarded)
    ensures r.calls == calls
    ensures r.outcome.Completed? <==> writeOk
    ensures r.outcome.Completed? ==> r.outcome.entry == entry && r.file == JsonFile(ToJson(entry))
    ensures !r.outcome.Completed? ==> r.outcome == Stopped(WriteFailed) && r.file == file
  {
    var w := CreateData(file, entry, writeOk);
    if w.ok then Onboarded(Completed(entry), calls, w.file) else Onboarded(Stopped(WriteFailed), calls, file)
  }

  /** The requests of a record lookup after a zone lookup. */
  function Lookups(p: Provider, a: Answers, zoneId: Json): seq<Call> {
    FindZoneId(p, a.zoneName).calls + FindRecordId(p, a.recordName, zoneId).calls
  }

  /** The record is missing: create it with the current IP and keep `result.id` when `success` is set. */
  function CreateMissing(p: Provider, ip: string, a: Answers, zoneId: Json, file: DataFile): (r: Onboarded)
    ensures var created := CreateARecord(p, zoneId, JStr(a.recordName), JStr(ip), false);
      && r.calls == Lookups(p, a, zoneId) + created.calls
      && (r.outcome == Stopped(CreateFailed) <==> !(created.value.Some? && IsSet(Member(created.value.value, "success"))))
      && (r.outcome.Completed? ==>
            r.outcome.entry == InitialEntry(ip, a, zoneId, Member(Member(created.value.value, "result"), "id")))
  {
    var created := CreateARecord(p, zoneId, JStr(a.recordName), JStr(ip), false);
    var calls := Lookups(p, a, zoneId) + created.calls;
    if created.value.Some? && IsSet(Member(created.value.value, "success")) then
      Save(InitialEntry(ip, a, zoneId, Member(Member(created.value.value, "result"), "id")), a.writeOk, file, calls)
    else
      Onboarded(Stopped(CreateFailed), calls, file)
  }

  /** The record exists: fetch its value and update it only when it differs from the current IP. */
  function SyncExisting(p: Provider, ip: string, a: Answers, zoneId: Json, recordId: Json, file: DataFile): (r: Onboarded)
    ensures var value := GetARecordValue(p, zoneId, recordId);
      && (!Found(value.value) ==> r == Onboarded(Stopped(ValueUnavailable), Lookups(p, a, zoneId) + value.calls, file))
      && (Found(value.value) ==>
            && r.calls == Lookups(p, a, zoneId) + value.calls +
                 (if LooseEqualsText(value.value.value, ip) then []
                  else [UpdateRecord(zoneId, recordId, RecordBody(RecordTypeA, JStr(a.recordName), JStr(ip), false))])
            && (r.outcome.Completed? <==> a.writeOk)
            && (r.outcome.Completed? ==> r.outcome.entry == InitialEntry(ip, a, zoneId, recordId)))
  {
    var value := GetARecordValue(p, zoneId, recordId);
    var calls := Lookups(p, a, zoneId) + value.calls;
    if !Found(value.value) then
      Onboarded(Stopped(ValueUnavailable), calls, file)
    else if LooseEqualsText(value.value.value, ip) then
      Save(InitialEntry(ip, a, zoneId, recordId), a.writeOk, file, calls)
    else
      // The update's own result is reported and otherwise ignored.
      var update := UpdateARecord(p, zoneId, recordId, JStr(a.recordName), JStr(ip), false);
      Save(InitialEntry(ip, a, zoneId, recordId), a.writeOk, file, calls + update.calls)
  }

  /**
   * The whole of `create_file.php`. It stops before any request when the IP
   * lookup fails and before any record request when the zone is not found;
   * the data file changes only when the flow completes, and then holds the
   * entry it completed with.
   */
  function Onboard(p: Provider, isIp: string -> bool, a: Answers, file: DataFile): (r: Onboarded)
    ensures GetPublicIp(a.ipLookup, isIp).None? ==> r == Onboarded(Stopped(NoPublicIp), [], file)
    ensures GetPublicIp(a.ipLookup, isIp).Some? && !Found(FindZoneId(p, a.zoneName).value) ==>
      r == Onboarded(Stopped(ZoneNotFound), FindZoneId(p, a.zoneName).calls, file)
    ensures r.outcome.Completed? ==> r.file == JsonFile(ToJson(r.outcome.entry))
    ensures !r.outcome.Completed? ==> r.file == file
    ensures r.outcome.Completed? ==>
      && GetPublicIp(a.ipLookup, isIp).Some?
      && Found(FindZoneId(p, a.zoneName).value)
      && r.outcome.entry.ipAddress == JStr(GetPublicIp(a.ipLookup, isIp).value)
      && r.outcome.entry.zoneName == JStr(a.zoneName)
      && r.outcome.entry.zoneId == FindZoneId(p, a.zoneName).value.value
      && r.outcome.entry.recordName == JStr(a.recordName)
  {
    var ip := GetPublicIp(a.ipLookup, isIp);
    if ip.None? then
      Onboarded(Stopped(NoPublicIp), [], file)
    else
      var zone := FindZoneId(p, a.zoneName);
      if !Found(zone.value) then
        Onboarded(Stopped(ZoneNotFound), zone.calls, file)
      else
        var zoneId := zone.value.value;
        var record := FindRecordId(p, a.recordName, zoneId);
        if !Found(record.value) then
          CreateMissing(p, ip.value, a, zoneId, file)
        else
          SyncExisting(p, ip.value, a, zoneId, record.value.value, file)
  }

  /**
   * When the record is missing, the only provider change onboarding makes is
   * one create of an A record named as answered, holding the current IP, not
   * proxied; and it completes exactly when the reply has its `success` member
   * set and the file write succeeds.
   */
  lemma OnboardCreatesMissingRecord(p: Provider, isIp: string -> bool, a: Answers, file: DataFile)
    requires GetPublicIp(a.ipLookup, isIp).Some? && Found(FindZoneId(p, a.zoneName).value)
    requires !Found(FindRecordId(p, a.recordName, FindZoneId(p, a.zoneName).value.value).value)
    ensures var ip := GetPublicIp(a.ipLookup, isIp).value;
      var zoneId := FindZoneId(p, a.zoneName).value.value;
      var created := CreateARecord(p, zoneId, JStr(a.recordName), JStr(ip), false);
      var r := Onboard(p, isIp, a, file);
      && Mutations(r.calls) == [CreateRecord(zoneId, RecordBody(RecordTypeA, JStr(a.recordName), JStr(ip), false))]
      && (r.outcome.Completed? <==> created.value.Some? && IsSet(Member(created.value.value, "success")) && a.writeOk)
  {
    var ip := GetPublicIp(a.ipLookup, isIp).value;
    var zoneId := FindZoneId(p, a.zoneName).value.value;
    var created := CreateARecord(p, zoneId, JStr(a.recordName), JStr(ip), false);
    assert Onboard(p, isIp, a, file) == CreateMissing(p, ip, a, zoneId, file);
    var zoneCalls := FindZoneId(p, a.zoneName).calls;
    var recordCalls := FindRecordId(p, a.recordName, zoneId).calls;
    MutationsNone(zoneCalls);
    MutationsNone(recordCalls);
    MutationsAppend(zoneCalls, recordCalls);
    MutationsAppend(zoneCalls + recordCalls, created.calls);
    assert Mutations(created.calls) == created.calls by {
      assert created.calls[1..] == [];
    }
  }

  /**
   * A create reply whose `success` member is false is still accepted: the
   * flow completes with whatever `result.id` the reply holds.
   */
  lemma OnboardAcceptsUnsuccessfulCreate(p: Provider, isIp: string -> bool, a: Answers, file: DataFile, reply: Json)
    requires GetPublicIp(a.ipLookup, isIp).Some? && Found(FindZoneId(p, a.zoneName).value)
    requires !Found(FindRecordId(p, a.recordName, FindZoneId(p, a.zoneName).value.value).value)
    requires var ip := GetPublicIp(a.ipLookup, isIp).value;
      var zoneId := FindZoneId(p, a.zoneName).value.value;
      Reply(p, CreateRecord(zoneId, RecordBody(RecordTypeA, JStr(a.recordName), JStr(ip), false))) == Decoded(reply)
    requires Truthy(reply) && Member(reply, "success") == JBool(false) && a.writeOk
    ensures Onboard(p, isIp, a, file).outcome.Completed?
    ensures Onboard(p, isIp, a, file).outcome.entry.recordId == Member(Member(reply, "result"), "id")
  {
  }

  /** The provider changes of the existing-record stage: at most the one update, and only on a differing value. */
  lemma SyncExistingMutations(p: Provider, ip: string, a: Answers, zoneId: Json, recordId: Json, file: DataFile)
    ensures var value := GetARecordValue(p, zoneId, recordId).value;
      Mutations(SyncExisting(p, ip, a, zoneId, recordId, file).calls) ==
        (if !Found(value) || LooseEqualsText(value.value, ip) then []
         else [UpdateRecord(zoneId, recordId, RecordBody(RecordTypeA, JStr(a.recordName), JStr(ip), false))])
  {
    var fetched := GetARecordValue(p, zoneId, recordId);
    var zoneCalls := FindZoneId(p, a.zoneName).calls;
    var recordCalls := FindRecordId(p, a.recordName, zoneId).calls;
    MutationsNone(zoneCalls);
    MutationsNone(recordCalls);
    MutationsNone(fetched.calls);
    MutationsAppend(zoneCalls, recordCalls);
    MutationsAppend(zoneCalls + recordCalls, fetched.calls);
    var update := [UpdateRecord(zoneId, recordId, RecordBody(RecordTypeA, JStr(a.recordName), JStr(ip), false))];
    MutationsAppend(zoneCalls + recordCalls + fetched.calls, update);
    assert Mutations(update) == update by {
      assert update[1..] == [];
    }
  }

  /**
   * When the record exists: if its value cannot be fetched the flow stops
   * with no provider change and no file written; otherwise an update is sent
   * only when the value differs from the current IP, and the initial cache is
   * written whether or not that update succeeded.
   */
  lemma OnboardSyncsExistingRecord(p: Provider, isIp: string -> bool, a: Answers, file: DataFile)
    requires GetPublicIp(a.ipLookup, isIp).Some? && Found(FindZoneId(p, a.zoneName).value)
    requires Found(FindRecordId(p, a.recordName, FindZoneId(p, a.zoneName).value.value).value)
    ensures var ip := GetPublicIp(a.ipLookup, isIp).value;
      var zoneId := FindZoneId(p, a.zoneName).value.value;
      var recordId := FindRecordId(p, a.recordName, zoneId).value.value;
      var value := GetARecordValue(p, zoneId, recordId).value;
      var r := Onboard(p, isIp, a, file);
      && (!Found(value) ==> r.outcome == Stopped(ValueUnavailable) && r.file == file && Mutations(r.calls) == [])
      && (Found(value) ==>
            && Mutations(r.calls) ==
                 (if LooseEqualsText(value.value, ip) then []
                  else [UpdateRecord(zoneId, recordId, RecordBody(RecordTypeA, JStr(a.recordName), JStr(ip), false))])
            && (r.outcome.Completed? <==> a.writeOk)
            && (r.outcome.Completed? ==> r.outcome.entry == InitialEntry(ip, a, zoneId, recordId)))
  {
    var ip := GetPublicIp(a.ipLookup, isIp).value;
    var zoneId := FindZoneId(p, a.zoneName).value.value;
    var recordId := FindRecordId(p, a.recordName, zoneId).value.value;
    assert Onboard(p, isIp, a, file) == SyncExisting(p, ip, a, zoneId, recordId, file);
    SyncExistingMutations(p, ip, a, zoneId, recordId, file);
  }
}
