/**
 * The provider client of the `DynamicDNS` class: how a cURL outcome is turned
 * into "false" or a decoded body, and how each single request (token check,
 * listing page, record detail, record create, record update) interprets that
 * body. The network, headers and `json_decode` are parameters: a `Provider`
 * answers every `Call` with a `Transfer` and decodes response text.
 */
module ProviderClient {
  import opened Wrappers
  import opened PhpValues

  /** One listed zone or record: the `name` and `id` members of a `result` item. */
  datatype Entry = Entry(name: string, id: Json)

  /** One page of a listing: its `result` items and `result_info` counters. */
  datatype Page = Page(entries: seq<Entry>, totalPages: int, totalCount: int)

  /** The JSON body of a create or update request. */
  datatype RecordBody = RecordBody(recordType: string, name: Json, content: Json, proxied: bool)

  /** The requests the program sends to the DNS provider. */
  datatype Call =
    | VerifyToken
    | ListZones(page: int)                    // GET with query parameters, see RequestUrl
    | ListRecords(zoneId: Json, page: int)    // GET with query parameters, see RequestUrl
    | GetRecord(zoneId: Json, recordId: Json)
    | CreateRecord(zoneId: Json, body: RecordBody)
    | UpdateRecord(zoneId: Json, recordId: Json, body: RecordBody)
  {
    /** Requests that change provider state. */
    predicate IsMutation() {
      CreateRecord? || UpdateRecord?
    }
  }

  /**
   * What cURL hands back: the response text (`None` when `curl_exec` returned
   * false), the HTTP status and the cURL error number.
   */
  datatype Transfer = Transfer(response: Option<string>, status: int, errno: int)

  /** Why `curlRequest` returned false; the source stores this in `$this->error`. */
  datatype CurlError = TransportError(errno: int) | StatusError(status: int)

  /** The result of `curlRequest`: a decoded body, or false with an error. */
  datatype CurlResult = Decoded(body: Json) | Failed(error: CurlError)

  /**
   * The world outside the program: the transport answering each call,
   * `json_decode`, and the extraction of a listing page from a decoded body.
   */
  datatype Provider = Provider(
    transport: Call -> Transfer,
    decode: string -> Json,
    pageOf: Json -> Page)

  /** A result together with the requests issued to obtain it, in order. */
  datatype Traced<T> = Traced(value: T, calls: seq<Call>)

  /** The record type every create and update sends. */
  const RecordTypeA: string := "A"

  /** `http_build_query` without percent-encoding: `k=v` pairs joined by `&`. */
  function QueryString(params: seq<(string, string)>): string
    decreases |params|
  {
    if |params| == 0 then ""
    else if |params| == 1 then params[0].0 + "=" + params[0].1
    else params[0].0 + "=" + params[0].1 + "&" + QueryString(params[1..])
  }

  /**
   * The URL `curlRequest` requests: the query string is appended only when
   * `params` is a non-empty array (`None` stands for the default `false`).
   * Only the listing requests `ListZones` and `ListRecords` pass parameters
   * (their `match`, `order`, `page`, `per_page`, `status`, `direction` and,
   * for records, `type`); every other `Call` requests its URL unchanged.
   */
  function RequestUrl(url: string, params: Option<seq<(string, string)>>): (r: string)
    ensures url <= r
    ensures r == url <==> params.None? || |params.value| == 0
    ensures r != url ==> |r| > |url| && r[|url|] == '?' && r[|url| + 1..] == QueryString(params.value)
  {
    if params.Some? && |params.value| > 0 then url + "?" + QueryString(params.value) else url
  }

  /**
   * Classification of a cURL outcome: an empty or false response is a
   * transport failure, any status other than 200 a status failure, and only
   * then is the response decoded.
   */
  function CurlRequest(t: Transfer, decode: string -> Json): (r: CurlResult)
    ensures r.Decoded? <==> t.response.Some? && TruthyText(t.response.value) && t.status == 200
    ensures r.Decoded? ==> r.body == decode(t.response.value)
    ensures r.Failed? ==> (r.error.StatusError? <==> t.response.Some? && TruthyText(t.response.value))
    ensures r.Failed? && r.error.StatusError? ==> r.error.status == t.status && t.status != 200
    ensures r.Failed? && r.error.TransportError? ==> r.error.errno == t.errno
  {
    if t.response.None? || !TruthyText(t.response.value) then Failed(TransportError(t.errno))
    else if t.status != 200 then Failed(StatusError(t.status))
    else Decoded(decode(t.response.value))
  }

  /** The provider's answer to one call, classified by `curlRequest`. */
  function Reply(p: Provider, call: Call): CurlResult {
    CurlRequest(p.transport(call), p.decode)
  }

  /** The characters PHP's `trim` removes by default. */
  predicate IsSpace(c: char) {
    c == ' ' || c == '\t' || c == '\n' || c == '\r' || c == '\U{0000}' || c == '\U{000B}'
  }

  /** `ltrim`: drops the leading whitespace. */
  function TrimStart(s: string): string
    decreases |s|
  {
    if |s| > 0 && IsSpace(s[0]) then TrimStart(s[1..]) else s
  }

  /** `rtrim`: drops the trailing whitespace. */
  function TrimEnd(s: string): string
    decreases |s|
  {
    if |s| > 0 && IsSpace(s[|s| - 1]) then TrimEnd(s[..|s| - 1]) else s
  }

  /** `trim`: whitespace removed at both ends. */
  function Trim(s: string): string {
    TrimEnd(TrimStart(s))
  }

  /** `r` occurs in `s` starting at `lo`, with only whitespace around it. */
  predicate TrimmedAt(s: string, r: string, lo: int) {
    && 0 <= lo <= |s| - |r|
    && r == s[lo..lo + |r|]
    && (forall i | 0 <= i < lo :: IsSpace(s[i]))
    && (forall i | lo + |r| <= i < |s| :: IsSpace(s[i]))
  }

  /** `ltrim` keeps a suffix, drops only whitespace, and leaves no leading whitespace. */
  lemma {:induction false} TrimStartSpec(s: string)
    ensures var r := TrimStart(s);
      && |r| <= |s| && r == s[|s| - |r|..]
      && (forall i | 0 <= i < |s| - |r| :: IsSpace(s[i]))
      && (|r| > 0 ==> !IsSpace(r[0]))
    decreases |s|
  {
    if |s| > 0 && IsSpace(s[0]) {
      TrimStartSpec(s[1..]);
      var r := TrimStart(s);
      forall i | 0 <= i < |s| - |r|
        ensures IsSpace(s[i])
      {
        if i > 0 {
          assert s[i] == s[1..][i - 1];
        }
      }
    }
  }

  /** `rtrim` keeps a prefix, drops only whitespace, and leaves no trailing whitespace. */
  lemma {:induction false} TrimEndSpec(s: string)
    ensures var r := TrimEnd(s);
      && |r| <= |s| && r == s[..|r|]
      && (forall i | |r| <= i < |s| :: IsSpace(s[i]))
      && (|r| > 0 ==> !IsSpace(r[|r| - 1]))
    decreases |s|
  {
    if |s| > 0 && IsSpace(s[|s| - 1]) {
      TrimEndSpec(s[..|s| - 1]);
      var r := TrimEnd(s);
      forall i | |r| <= i < |s|
        ensures IsSpace(s[i])
      {
        if i < |s| - 1 {
          assert s[i] == s[..|s| - 1][i];
        }
      }
    }
  }

  /** `trim` keeps one contiguous slice with only whitespace around it, and no whitespace at its ends. */
  lemma TrimSpec(s: string)
    ensures var r := Trim(s);
      && (|r| > 0 ==> !IsSpace(r[0]) && !IsSpace(r[|r| - 1]))
      && exists lo :: TrimmedAt(s, r, lo)
  {
    var t := TrimStart(s);
    TrimStartSpec(s);
    TrimEndSpec(t);
    var r := Trim(s);
    assert TrimmedAt(s, r, |s| - |t|);
  }

  /**
   * `getPublicIp`: the trimmed output of the lookup command when it passes the
   * IP-literal test `isIp` (`FILTER_VALIDATE_IP`), otherwise false.
   */
  function GetPublicIp(output: string, isIp: string -> bool): (r: Option<string>)
    ensures r.Some? <==> isIp(Trim(output))
    ensures r.Some? ==> isIp(r.value) && r.value == Trim(output)
  {
    var ip := Trim(output);
    if isIp(ip) then Some(ip) else None
  }

  /**
   * `validToken`: a falsy token is rejected without any request; otherwise
   * one verification request is sent and the token is valid exactly when
   * `result.status` is set and loosely equal to 'active'.
   */
  function ValidToken(p: Provider, token: string): (r: Traced<bool>)
    ensures !TruthyText(token) ==> r == Traced(false, [])
    ensures TruthyText(token) ==> r.calls == [VerifyToken]
    ensures r.value <==>
      && TruthyText(token)
      && Reply(p, VerifyToken).Decoded?
      && Member(Member(Reply(p, VerifyToken).body, "result"), "status") in {JStr("active"), JBool(true)}
  {
    if TruthyText(token) then
      var reply := Reply(p, VerifyToken);
      var status := if reply.Decoded? then Member(Member(reply.body, "result"), "status") else JNull;
      Traced(reply.Decoded? && IsSet(status) && LooseEqualsText(status, "active"), [VerifyToken])
    else
      Traced(false, [])
  }

  /** `getZones`: one page of the zone listing, false when the request fails or the body is falsy. */
  function GetZones(p: Provider, page: int): (r: Option<Page>)
    ensures r.Some? <==> Reply(p, ListZones(page)).Decoded? && Truthy(Reply(p, ListZones(page)).body)
    ensures r.Some? ==> r.value == p.pageOf(Reply(p, ListZones(page)).body)
  {
    var reply := Reply(p, ListZones(page));
    if reply.Decoded? && Truthy(reply.body) then Some(p.pageOf(reply.body)) else None
  }

  /** `getRecords`: one page of a zone's A-record listing, false on failure. */
  function GetRecords(p: Provider, zoneId: Json, page: int): (r: Option<Page>)
    ensures r.Some? <==> Reply(p, ListRecords(zoneId, page)).Decoded? && Truthy(Reply(p, ListRecords(zoneId, page)).body)
    ensures r.Some? ==> r.value == p.pageOf(Reply(p, ListRecords(zoneId, page)).body)
  {
    var reply := Reply(p, ListRecords(zoneId, page));
    if reply.Decoded? && Truthy(reply.body) then Some(p.pageOf(reply.body)) else None
  }

  /** `getARecordValue`: the record's `result.content`, false when the request fails or it is unset. */
  function GetARecordValue(p: Provider, zoneId: Json, recordId: Json): (r: Traced<Option<Json>>)
    ensures r.calls == [GetRecord(zoneId, recordId)]
    ensures r.value.Some? <==>
      && Reply(p, GetRecord(zoneId, recordId)).Decoded?
      && Truthy(Reply(p, GetRecord(zoneId, recordId)).body)
      && Member(Member(Reply(p, GetRecord(zoneId, recordId)).body, "result"), "content") != JNull
    ensures r.value.Some? ==> r.value.value == Member(Member(Reply(p, GetRecord(zoneId, recordId)).body, "result"), "content")
  {
    var call := GetRecord(zoneId, recordId);
    var reply := Reply(p, call);
    if reply.Decoded? && Truthy(reply.body) then
      var content := Member(Member(reply.body, "result"), "content");
      Traced(if IsSet(content) then Some(content) else None, [call])
    else
      Traced(None, [call])
  }

  /**
   * `createARecord`: sends one create request for an A record and returns
   * the decoded reply whenever it is truthy, whatever its `success` flag says.
   */
  function CreateARecord(p: Provider, zoneId: Json, name: Json, content: Json, proxied: bool): (r: Traced<Option<Json>>)
    ensures |r.calls| == 1 && r.calls[0].CreateRecord? && r.calls[0].zoneId == zoneId
    ensures r.calls[0].body == RecordBody(RecordTypeA, name, content, proxied)
    ensures r.value.Some? <==> Reply(p, r.calls[0]).Decoded? && Truthy(Reply(p, r.calls[0]).body)
    ensures r.value.Some? ==> r.value.value == Reply(p, r.calls[0]).body
  {
    var call := CreateRecord(zoneId, RecordBody(RecordTypeA, name, content, proxied));
    var reply := Reply(p, call);
    Traced(if reply.Decoded? && Truthy(reply.body) then Some(reply.body) else None, [call])
  }

  /**
   * `updateARecord`: sends one update request for an A record and returns the
   * decoded reply only when its `success` member is set and truthy.
   */
  function UpdateARecord(p: Provider, zoneId: Json, recordId: Json, name: Json, content: Json, proxied: bool): (r: Traced<Option<Json>>)
    ensures r.calls == [UpdateRecord(zoneId, recordId, RecordBody(RecordTypeA, name, content, proxied))]
    ensures r.value.Some? <==> Reply(p, r.calls[0]).Decoded? && Truthy(Member(Reply(p, r.calls[0]).body, "success"))
    ensures r.value.Some? ==> r.value.value == Reply(p, r.calls[0]).body
  {
    var call := UpdateRecord(zoneId, recordId, RecordBody(RecordTypeA, name, content, proxied));
    var reply := Reply(p, call);
    var success := if reply.Decoded? then Member(reply.body, "success") else JNull;
    Traced(if reply.Decoded? && IsSet(success) && Truthy(success) then Some(reply.body) else None, [call])
  }

  /**
   * An update answered with status 200 and `success: false` counts as a
   * failed update, and so does one whose reply has no `success` member.
   */
  lemma UpdateNeedsSuccessFlag(p: Provider, zoneId: Json, recordId: Json, name: Json, content: Json, proxied: bool, body: Json)
    requires Reply(p, UpdateRecord(zoneId, recordId, RecordBody(RecordTypeA, name, content, proxied))) == Decoded(body)
    requires Member(body, "success") in {JBool(false), JNull}
    ensures UpdateARecord(p, zoneId, recordId, name, content, proxied).value == None
  {
  }

  /** The provider-changing requests among `calls`, in order. */
  function Mutations(calls: seq<Call>): seq<Call>
    decreases |calls|
  {
    if |calls| == 0 then []
    else (if calls[0].IsMutation() then [calls[0]] else []) + Mutations(calls[1..])
  }

  /** The mutations of two request runs are those of each, in order. */
  lemma {:induction false} MutationsAppend(a: seq<Call>, b: seq<Call>)
    ensures Mutations(a + b) == Mutations(a) + Mutations(b)
    decreases |a|
  {
    if |a| == 0 {
      assert a + b == b;
    } else {
      var head := if a[0].IsMutation() then [a[0]] else [];
      assert (a + b)[0] == a[0];
      assert (a + b)[1..] == a[1..] + b;
      assert Mutations(a + b) == head + Mutations(a[1..] + b);
      MutationsAppend(a[1..], b);
      assert head + (Mutations(a[1..]) + Mutations(b)) == (head + Mutations(a[1..])) + Mutations(b);
    }
  }

  /** A run of read-only requests issues no mutation. */
  lemma {:induction false} MutationsNone(calls: seq<Call>)
    requires forall c | c in calls :: !c.IsMutation()
    ensures Mutations(calls) == []
    decreases |calls|
  {
    if |calls| > 0 {
      assert calls[0] in calls;
      MutationsNone(calls[1..]);
    }
  }
}
