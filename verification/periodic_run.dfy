/**
 * One invocation of `cli.php`: check the token, onboard when there is no data
 * file, read and validate the cached state, compare the cached IP with the
 * current one, update the A record when they differ, rewrite the cache only
 * after a successful update, and pick the notification to send. Every effect
 * is an input; the result is the outcome, the requests sent, the data file
 * afterwards and the notification handed to the mailer (whose own result is
 * discarded by the source, so it is not an input).
 */
module PeriodicRun {
  import opened Wrappers
  import opened PhpValues
  import opened ProviderClient
  import opened Resolver
  import opened CacheStore
  import opened Onboarding

  /** The settings of `config.php` that steer a run. */
  datatype Config = Config(token: string, emailNotifications: bool, htmlEmail: bool)

  /**
   * The environment of one run: the onboarding answers (used only when there
   * is no data file), the output of the run's own IP lookup, and the results
   * of `unlink` and `file_put_contents`.
   */
  datatype Effects = Effects(onboarding: Answers, ipLookup: string, unlinkOk: bool, writeOk: bool)

  /** Which e-mail template is used: update succeeded or failed, HTML or text. */
  datatype Template = Template(success: bool, html: bool)

  /** The arguments handed to `sendEmailNotification`. */
  datatype Notice = Notice(subject: string, template: Template, templateFile: string, ipAddress: Json, recordName: Json)

  /** Where a run ends. */
  datatype Outcome =
    | TokenMissing
    | TokenInvalid
    | OnboardingStopped(reason: Stop)
    | Unreadable
    | InvalidCache
    | Unchanged
    | Updated
    | UpdateFailed
    | CacheWriteFailed
  {
    /** The outcomes reached after an update request was sent. */
    predicate AfterUpdate() {
      Updated? || UpdateFailed? || CacheWriteFailed?
    }
  }

  /** The outcome, the requests sent in order, the data file afterwards, and the notification. */
  datatype Run = Run(outcome: Outcome, calls: seq<Call>, file: DataFile, notice: Option<Notice>)

  /** The template file names of `email_templates/`. */
  function TemplateFile(t: Template): string {
    if t.success then (if t.html then "updated_success_html.php" else "updated_success_txt.php")
    else (if t.html then "updated_fail_html.php" else "updated_fail_txt.php")
  }

  /** Each of the four templates has its own file: the file name determines the outcome and the format. */
  lemma TemplateFilesDistinct(t: Template, u: Template)
    ensures TemplateFile(t) == TemplateFile(u) <==> t == u
  {
    if t != u {
      var a, b := TemplateFile(t), TemplateFile(u);
      if t.success != u.success {
        assert a[8] != b[8];
      } else {
        assert a[|a| - 8] != b[|b| - 8];
      }
    }
  }

  const SuccessSubject: string := "IP has changed. DNS record updated."
  const FailureSubject: string := "IP has changed. DNS failed to update."

  /** The notification of an update, sent only when notifications are enabled. */
  function NoticeFor(cfg: Config, success: bool, ipAddress: Json, recordName: Json): Option<Notice> {
    if cfg.emailNotifications then
      var template := Template(success, cfg.htmlEmail);
      Some(Notice(if success then SuccessSubject else FailureSubject, template, TemplateFile(template), ipAddress, recordName))
    else
      None
  }

  /** `$current_ip` as a PHP value: the IP string, or false when the lookup failed. */
  function IpValue(current: Option<string>): Json {
    if current.Some? then JStr(current.value) else JBool(false)
  }

  /** The negation of `$current_ip != $data['ip_address']`. */
  predicate SameIp(current: Option<string>, cached: string) {
    LooseEqualsText(IpValue(current), cached)
  }

  /** `readData` returned a truthy value. */
  predicate Readable(file: DataFile) {
    ReadData(file).Some? && Truthy(ReadData(file).value)
  }

  /** The cache entry read from the file (all members null when there is none). */
  function Cached(file: DataFile): CacheEntry {
    FromJson(ReadData(file).GetOr(JNull))
  }

  /** The update request a run sends for a cache entry and the current IP. */
  function UpdateCall(e: CacheEntry, current: Option<string>): Call {
    UpdateRecord(e.zoneId, e.recordId, RecordBody(RecordTypeA, e.recordName, IpValue(current), false))
  }

  /** The entry rewritten after a successful update: the new IP, the same four identifiers. */
  function Rewritten(e: CacheEntry, current: Option<string>): CacheEntry {
    e.(ipAddress := IpValue(current))
  }

  /**
   * `cli.php` once the IPs differ: exactly one update of the cached record to
   * the current IP is sent; the cache is rewritten, with the new IP and the
   * same identifiers, only after a successful update and a successful write;
   * a failed write ends the run before any notification; otherwise the
   * success or failure template is chosen by the outcome and `HTML_EMAIL`.
   */
  function Reconcile(cfg: Config, p: Provider, e: CacheEntry, current: Option<string>, writeOk: bool, file: DataFile, calls: seq<Call>): (r: Run)
    ensures r.outcome.AfterUpdate()
    ensures r.calls == calls + [UpdateCall(e, current)]
    ensures r.outcome == Updated <==>
      UpdateARecord(p, e.zoneId, e.recordId, e.recordName, IpValue(current), false).value.Some? && writeOk
    ensures r.outcome == UpdateFailed <==>
      UpdateARecord(p, e.zoneId, e.recordId, e.recordName, IpValue(current), false).value.None?
    ensures r.outcome == Updated ==> r.file == JsonFile(ToJson(Rewritten(e, current)))
    ensures r.outcome != Updated ==> r.file == file
    ensures r.notice.Some? <==> cfg.emailNotifications && r.outcome != CacheWriteFailed
    ensures r.notice.Some? ==> r.notice.value.template == Template(r.outcome == Updated, cfg.htmlEmail)
    ensures r.notice.Some? ==> r.notice.value.templateFile == TemplateFile(r.notice.value.template)
    ensures r.notice.Some? ==> (r.notice.value.subject == SuccessSubject <==> r.outcome == Updated)
  {
    var update := UpdateARecord(p, e.zoneId, e.recordId, e.recordName, IpValue(current), false);
    var sent := calls + update.calls;
    if update.value.Some? then
      var w := CreateData(file, Rewritten(e, current), writeOk);
      if !w.ok then
        Run(CacheWriteFailed, sent, file, None)
      else
        var result := Member(update.value.value, "result");
        Run(Updated, sent, w.file, NoticeFor(cfg, true, Member(result, "content"), Member(result, "name")))
    else
      Run(UpdateFailed, sent, file, NoticeFor(cfg, false, IpValue(current), e.recordName))
  }

  /**
   * `cli.php` from the IP lookup on, for a cache that passed the test: an
   * unchanged IP ends the run with nothing sent, written or notified; a
   * different one (or a failed lookup that compares unequal) goes on to the
   * update.
   */
  function Compare(cfg: Config, p: Provider, isIp: string -> bool, e: CacheEntry, fx: Effects, file: DataFile, calls: seq<Call>): (r: Run)
    requires e.ipAddress.JStr?
    ensures calls <= r.calls
    ensures r.outcome == Unchanged <==> SameIp(GetPublicIp(fx.ipLookup, isIp), e.ipAddress.s)
    ensures r.outcome == Unchanged ==> r == Run(Unchanged, calls, file, None)
    ensures r.outcome != Unchanged ==>
      r == Reconcile(cfg, p, e, GetPublicIp(fx.ipLookup, isIp), fx.writeOk, file, calls)
  {
    var current := GetPublicIp(fx.ipLookup, isIp);
    if SameIp(current, e.ipAddress.s) then
      Run(Unchanged, calls, file, None)
    else
      Reconcile(cfg, p, e, current, fx.writeOk, file, calls)
  }

  /**
   * `cli.php` from `readData` on. An unreadable file stops the run with
   * nothing sent or changed; a cache that fails the completeness test is
   * removed and stops it; only a complete cache reaches the IP comparison.
   */
  function FromCache(cfg: Config, p: Provider, isIp: string -> bool, file: DataFile, fx: Effects, calls: seq<Call>): (r: Run)
    ensures calls <= r.calls
    ensures !Readable(file) ==> r == Run(Unreadable, calls, file, None)
    ensures Readable(file) && !ValidEntry(Cached(file), isIp) ==>
      r == Run(InvalidCache, calls, RemoveData(file, fx.unlinkOk).file, None)
    ensures Readable(file) && ValidEntry(Cached(file), isIp) ==>
      r == Compare(cfg, p, isIp, Cached(file), fx, file, calls)
  {
    if !Readable(file) then
      Run(Unreadable, calls, file, None)
    else if !ValidEntry(Cached(file), isIp) then
      Run(InvalidCache, calls, RemoveData(file, fx.unlinkOk).file, None)
    else
      Compare(cfg, p, isIp, Cached(file), fx, file, calls)
  }

  /**
   * The outcomes of a run from `readData` on: each names the condition that
   * leads to it, only the update outcomes send anything (the one update of
   * the cached record), and only `Updated` and `InvalidCache` touch the file.
   */
  lemma FromCacheOutcomes(cfg: Config, p: Provider, isIp: string -> bool, file: DataFile, fx: Effects, calls: seq<Call>)
    ensures var r := FromCache(cfg, p, isIp, file, fx, calls);
      && r.outcome in {Unreadable, InvalidCache, Unchanged, Updated, UpdateFailed, CacheWriteFailed}
      && (r.outcome == Unreadable <==> !Readable(file))
      && (r.outcome == InvalidCache <==> Readable(file) && !ValidEntry(Cached(file), isIp))
      && (r.outcome == Unchanged <==>
            Readable(file) && ValidEntry(Cached(file), isIp) && SameIp(GetPublicIp(fx.ipLookup, isIp), Cached(file).ipAddress.s))
      && (r.outcome.AfterUpdate() ==> r.calls == calls + [UpdateCall(Cached(file), GetPublicIp(fx.ipLookup, isIp))])
      && (!r.outcome.AfterUpdate() ==> r.calls == calls && r.notice == None)
      && (r.outcome == Updated ==> r.file == JsonFile(ToJson(Rewritten(Cached(file), GetPublicIp(fx.ipLookup, isIp)))))
      && (r.outcome != Updated && r.outcome != InvalidCache ==> r.file == file)
  {
    if Readable(file) && ValidEntry(Cached(file), isIp) {
      var e := Cached(file);
      var current := GetPublicIp(fx.ipLookup, isIp);
      if !SameIp(current, e.ipAddress.s) {
        assert FromCache(cfg, p, isIp, file, fx, calls) == Reconcile(cfg, p, e, current, fx.writeOk, file, calls);
      }
    }
  }

  /**
   * `require_once('create_file.php')` inside a run: onboarding, and then the
   * rest of the run on the file it wrote, only when it completed.
   */
  function OnboardThenRun(cfg: Config, p: Provider, isIp: string -> bool, file: DataFile, fx: Effects, calls: seq<Call>): (r: Run)
    ensures calls <= r.calls
    ensures var onboarded := Onboard(p, isIp, fx.onboarding, file);
      && (onboarded.outcome.Stopped? ==>
            r == Run(OnboardingStopped(onboarded.outcome.reason), calls + onboarded.calls, file, None))
      && (onboarded.outcome.Completed? ==>
            r == FromCache(cfg, p, isIp, JsonFile(ToJson(onboarded.outcome.entry)), fx, calls + onboarded.calls))
  {
    var onboarded := Onboard(p, isIp, fx.onboarding, file);
    if onboarded.outcome.Stopped? then
      Run(OnboardingStopped(onboarded.outcome.reason), calls + onboarded.calls, onboarded.file, None)
    else
      FromCache(cfg, p, isIp, onboarded.file, fx, calls + onboarded.calls)
  }

  /**
   * The whole of `cli.php`. A missing or rejected token stops the run before
   * the data file is looked at; a missing data file runs onboarding first and
   * the run goes on only when onboarding completed.
   */
  function PeriodicRun(cfg: Config, p: Provider, isIp: string -> bool, file: DataFile, fx: Effects): (r: Run)
    ensures !TruthyText(cfg.token) ==> r == Run(TokenMissing, [], file, None)
    ensures TruthyText(cfg.token) && !ValidToken(p, cfg.token).value ==> r == Run(TokenInvalid, [VerifyToken], file, None)
    ensures r.outcome != TokenMissing && r.outcome != TokenInvalid ==>
      ValidToken(p, cfg.token).value && |r.calls| > 0 && r.calls[0] == VerifyToken
    ensures TruthyText(cfg.token) && ValidToken(p, cfg.token).value && !DataExists(file) ==>
      r == OnboardThenRun(cfg, p, isIp, file, fx, [VerifyToken])
    ensures TruthyText(cfg.token) && ValidToken(p, cfg.token).value && DataExists(file) ==>
      r == FromCache(cfg, p, isIp, file, fx, [VerifyToken])
  {
    if !TruthyText(cfg.token) then
      Run(TokenMissing, [], file, None)
    else
      var token := ValidToken(p, cfg.token);
      if !token.value then
        Run(TokenInvalid, token.calls, file, None)
      else if !DataExists(file) then
        OnboardThenRun(cfg, p, isIp, file, fx, token.calls)
      else
        FromCache(cfg, p, isIp, file, fx, token.calls)
  }

  /**
   * With a data file present, the only provider change a run makes is the one
   * update of the cached record to the current IP, sent exactly when the run
   * got past the comparison.
   */
  lemma RunMutations(cfg: Config, p: Provider, isIp: string -> bool, file: DataFile, fx: Effects)
    requires DataExists(file)
    ensures var r := PeriodicRun(cfg, p, isIp, file, fx);
      Mutations(r.calls) ==
        (if r.outcome.AfterUpdate() then [UpdateCall(Cached(file), GetPublicIp(fx.ipLookup, isIp))] else [])
  {
    var r := PeriodicRun(cfg, p, isIp, file, fx);
    assert Mutations([VerifyToken]) == [] by {
      assert [VerifyToken][1..] == [];
    }
    if TruthyText(cfg.token) && ValidToken(p, cfg.token).value {
      assert r == FromCache(cfg, p, isIp, file, fx, [VerifyToken]);
      FromCacheOutcomes(cfg, p, isIp, file, fx, [VerifyToken]);
      if r.outcome.AfterUpdate() {
        var u := [UpdateCall(Cached(file), GetPublicIp(fx.ipLookup, isIp))];
        MutationsAppend([VerifyToken], u);
        assert Mutations(u) == u by {
          assert u[1..] == [];
        }
      }
    }
  }

  /**
   * From `readData` on, the provider changes added to those already made are
   * the one update of the cached record, sent exactly when the run got past
   * the comparison.
   */
  lemma FromCacheMutations(cfg: Config, p: Provider, isIp: string -> bool, file: DataFile, fx: Effects, calls: seq<Call>)
    ensures var r := FromCache(cfg, p, isIp, file, fx, calls);
      Mutations(r.calls) ==
        Mutations(calls) + (if r.outcome.AfterUpdate() then [UpdateCall(Cached(file), GetPublicIp(fx.ipLookup, isIp))] else [])
  {
    var r := FromCache(cfg, p, isIp, file, fx, calls);
    FromCacheOutcomes(cfg, p, isIp, file, fx, calls);
    if r.outcome.AfterUpdate() {
      var u := [UpdateCall(Cached(file), GetPublicIp(fx.ipLookup, isIp))];
      MutationsAppend(calls, u);
      assert Mutations(u) == u by {
        assert u[1..] == [];
      }
    } else {
      assert r.calls == calls;
      assert Mutations(calls) + [] == Mutations(calls);
    }
  }

  /**
   * The first run, which onboards: its provider changes are onboarding's,
   * followed by the one update of the record onboarding saved, sent exactly
   * when the run got past the comparison.
   */
  lemma FirstRunMutations(cfg: Config, p: Provider, isIp: string -> bool, fx: Effects, o: Onboarded)
    requires o == Onboard(p, isIp, fx.onboarding, NoFile)
    ensures var r := OnboardThenRun(cfg, p, isIp, NoFile, fx, [VerifyToken]);
      Mutations(r.calls) ==
        Mutations(o.calls) + (if r.outcome.AfterUpdate() then [UpdateCall(Cached(o.file), GetPublicIp(fx.ipLookup, isIp))] else [])
  {
    var base := [VerifyToken] + o.calls;
    MutationsAppend([VerifyToken], o.calls);
    assert Mutations([VerifyToken]) == [] by {
      assert [VerifyToken][1..] == [];
    }
    assert Mutations(base) == Mutations(o.calls);
    if o.outcome.Completed? {
      assert OnboardThenRun(cfg, p, isIp, NoFile, fx, [VerifyToken]) == FromCache(cfg, p, isIp, o.file, fx, base);
      FromCacheMutations(cfg, p, isIp, o.file, fx, base);
    } else {
      assert Mutations(o.calls) + [] == Mutations(o.calls);
    }
  }

  /**
   * The conditions under which a run from `readData` on rewrites the cache:
   * a complete cache, a current IP that compares unequal, an accepted
   * update, and a successful write.
   */
  predicate UpdatesCache(p: Provider, isIp: string -> bool, file: DataFile, fx: Effects) {
    && Readable(file) && ValidEntry(Cached(file), isIp)
    && !SameIp(GetPublicIp(fx.ipLookup, isIp), Cached(file).ipAddress.s)
    && UpdateARecord(p, Cached(file).zoneId, Cached(file).recordId, Cached(file).recordName,
                     IpValue(GetPublicIp(fx.ipLookup, isIp)), false).value.Some?
    && fx.writeOk
  }

  /** A run ends `Updated` exactly under those conditions. */
  lemma UpdatedExactlyWhen(cfg: Config, p: Provider, isIp: string -> bool, file: DataFile, fx: Effects, calls: seq<Call>)
    ensures FromCache(cfg, p, isIp, file, fx, calls).outcome == Updated <==> UpdatesCache(p, isIp, file, fx)
  {
    if Readable(file) && ValidEntry(Cached(file), isIp) && !SameIp(GetPublicIp(fx.ipLookup, isIp), Cached(file).ipAddress.s) {
      assert FromCache(cfg, p, isIp, file, fx, calls)
        == Reconcile(cfg, p, Cached(file), GetPublicIp(fx.ipLookup, isIp), fx.writeOk, file, calls);
    }
  }

  /** A successful update rewrites the cache with the current IP and the four identifiers it read. */
  lemma UpdatedCacheKeepsIdentifiers(cfg: Config, p: Provider, isIp: string -> bool, file: DataFile, fx: Effects, calls: seq<Call>)
    requires UpdatesCache(p, isIp, file, fx)
    ensures FromCache(cfg, p, isIp, file, fx, calls).outcome == Updated
    ensures var after := Cached(FromCache(cfg, p, isIp, file, fx, calls).file);
      && after.ipAddress == IpValue(GetPublicIp(fx.ipLookup, isIp))
      && after.zoneName == Cached(file).zoneName
      && after.zoneId == Cached(file).zoneId
      && after.recordName == Cached(file).recordName
      && after.recordId == Cached(file).recordId
  {
    UpdatedExactlyWhen(cfg, p, isIp, file, fx, calls);
  }

  /**
   * Idempotence: after a successful update with a working IP lookup, a second
   * run that sees the same IP changes nothing and sends nothing more.
   */
  lemma RunIsIdempotent(cfg: Config, p: Provider, isIp: string -> bool, file: DataFile, fx: Effects, calls: seq<Call>, calls': seq<Call>)
    requires UpdatesCache(p, isIp, file, fx)
    requires GetPublicIp(fx.ipLookup, isIp).Some?
    ensures var first := FromCache(cfg, p, isIp, file, fx, calls);
      var second := FromCache(cfg, p, isIp, first.file, fx, calls');
      second.outcome == Unchanged && second.calls == calls' && second.file == first.file
  {
    var first := FromCache(cfg, p, isIp, file, fx, calls);
    var current := GetPublicIp(fx.ipLookup, isIp);
    UpdatedCacheKeepsIdentifiers(cfg, p, isIp, file, fx, calls);
    assert Readable(first.file);
    assert ValidEntry(Cached(first.file), isIp);
    assert SameIp(current, Cached(first.file).ipAddress.s);
  }

  /**
   * The run does not guard against a failed IP lookup: with a cached address
   * that is a truthy string, an update is still sent, with content false.
   */
  lemma FailedLookupStillUpdates(cfg: Config, p: Provider, isIp: string -> bool, file: DataFile, fx: Effects, calls: seq<Call>)
    requires Readable(file) && ValidEntry(Cached(file), isIp) && TruthyText(Cached(file).ipAddress.s)
    requires GetPublicIp(fx.ipLookup, isIp).None?
    ensures var r := FromCache(cfg, p, isIp, file, fx, calls);
      && r.outcome.AfterUpdate()
      && r.calls == calls + [UpdateRecord(Cached(file).zoneId, Cached(file).recordId,
                                          RecordBody(RecordTypeA, Cached(file).recordName, JBool(false), false))]
  {
  }

  /**
   * If that update is nonetheless accepted and written, the cache then holds
   * `ip_address: false` and the next run removes it as incomplete.
   */
  lemma FailedLookupSpoilsCache(cfg: Config, p: Provider, isIp: string -> bool, file: DataFile, fx: Effects, fx': Effects, calls: seq<Call>, calls': seq<Call>)
    requires GetPublicIp(fx.ipLookup, isIp).None?
    requires UpdatesCache(p, isIp, file, fx)
    ensures var first := FromCache(cfg, p, isIp, file, fx, calls);
      && Cached(first.file).ipAddress == JBool(false)
      && FromCache(cfg, p, isIp, first.file, fx', calls').outcome == InvalidCache
  {
    UpdatedCacheKeepsIdentifiers(cfg, p, isIp, file, fx, calls);
  }

  /**
   * A first run past the token check, for an existing record whose value can
   * be fetched, with a successful write, non-empty answers, and a second IP
   * lookup that sees the same address, ends with nothing to do: its provider
   * traffic after the token check is exactly onboarding's.
   */
  lemma FreshInstallSettles(cfg: Config, p: Provider, isIp: string -> bool, fx: Effects, calls: seq<Call>)
    requires var a := fx.onboarding;
      && GetPublicIp(a.ipLookup, isIp).Some? && Found(FindZoneId(p, a.zoneName).value)
      && var zoneId := FindZoneId(p, a.zoneName).value.value;
      && Found(FindRecordId(p, a.recordName, zoneId).value)
      && Found(GetARecordValue(p, zoneId, FindRecordId(p, a.recordName, zoneId).value.value).value)
      && a.writeOk
    requires TruthyText(fx.onboarding.zoneName) && TruthyText(fx.onboarding.recordName)
    requires fx.ipLookup == fx.onboarding.ipLookup
    ensures var onboarded := Onboard(p, isIp, fx.onboarding, NoFile);
      var r := OnboardThenRun(cfg, p, isIp, NoFile, fx, calls);
      && onboarded.outcome.Completed?
      && r.outcome == Unchanged
      && r.calls == calls + onboarded.calls
      && r.file == onboarded.file
  {
    var a := fx.onboarding;
    var ip := GetPublicIp(a.ipLookup, isIp).value;
    var zoneId := FindZoneId(p, a.zoneName).value.value;
    var recordId := FindRecordId(p, a.recordName, zoneId).value.value;
    OnboardSyncsExistingRecord(p, isIp, a, NoFile);
    var onboarded := Onboard(p, isIp, a, NoFile);
    var e := onboarded.outcome.entry;
    assert e == InitialEntry(ip, a, zoneId, recordId);
    assert Cached(onboarded.file) == e;
    assert Readable(onboarded.file) && ValidEntry(e, isIp);
    var sent := calls + onboarded.calls;
    assert OnboardThenRun(cfg, p, isIp, NoFile, fx, calls) == FromCache(cfg, p, isIp, onboarded.file, fx, sent);
    assert SameIp(GetPublicIp(fx.ipLookup, isIp), e.ipAddress.s);
    assert FromCache(cfg, p, isIp, onboarded.file, fx, sent) == Compare(cfg, p, isIp, e, fx, onboarded.file, sent);
  }

  /**
   * A create reply that had `success` set but no `result.id` leaves a cache
   * with a null record id, which the same run then judges incomplete and
   * removes.
   */
  lemma CreateWithoutIdIsDiscarded(cfg: Config, p: Provider, isIp: string -> bool, fx: Effects, calls: seq<Call>)
    requires var a := fx.onboarding;
      && GetPublicIp(a.ipLookup, isIp).Some? && Found(FindZoneId(p, a.zoneName).value)
      && var zoneId := FindZoneId(p, a.zoneName).value.value;
      && !Found(FindRecordId(p, a.recordName, zoneId).value)
      && var created := CreateARecord(p, zoneId, JStr(a.recordName), JStr(GetPublicIp(a.ipLookup, isIp).value), false).value;
      && created.Some? && IsSet(Member(created.value, "success"))
      && Member(Member(created.value, "result"), "id") == JNull
      && a.writeOk
    ensures Onboard(p, isIp, fx.onboarding, NoFile).outcome.Completed?
    ensures OnboardThenRun(cfg, p, isIp, NoFile, fx, calls).outcome == InvalidCache
  {
    var a := fx.onboarding;
    var ip := GetPublicIp(a.ipLookup, isIp).value;
    var zoneId := FindZoneId(p, a.zoneName).value.value;
    OnboardCreatesMissingRecord(p, isIp, a, NoFile);
    var onboarded := Onboard(p, isIp, a, NoFile);
    assert onboarded == CreateMissing(p, ip, a, zoneId, NoFile);
    assert onboarded.outcome.entry.recordId == JNull;
    assert Cached(onboarded.file) == onboarded.outcome.entry;
  }

  /**
   * A data file holding only `{"ip_address": "1.2.3.4"}` is incomplete: the
   * run removes it and stops without sending anything.
   */
  lemma IncompleteCacheIsRemoved(cfg: Config, p: Provider, isIp: string -> bool, fx: Effects, calls: seq<Call>)
    requires fx.unlinkOk
    ensures var r := FromCache(cfg, p, isIp, JsonFile(JObject(map["ip_address" := JStr("1.2.3.4")])), fx, calls);
      r.outcome == InvalidCache && r.file == NoFile && r.calls == calls && r.notice == None
  {
    var data := JObject(map["ip_address" := JStr("1.2.3.4")]);
    assert Member(data, "zone_id") == JNull;
  }
}
