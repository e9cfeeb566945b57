# Cloudflare dynamic DNS updater — a Dafny model of its decision core

The updater keeps one DNS "A" record on Cloudflare pointed at the machine's
public IP address. A scheduler runs `cli.php`, which does these steps in order:

- checks the API token;
- onboards through `create_file.php` when there is no `data.json`;
- reads and validates the cached state;
- compares the cached IP with the current one;
- updates the record when the two differ;
- rewrites the cache after a successful update;
- picks the e-mail notification to send.

The `DynamicDNS` class in `CloudflareDynamicDNS.php` supplies the provider
requests, the paged zone and record listings, and the data-file helpers.

This project restates that core over immutable data. Almost every operation is
a pure Dafny function. The exceptions are the listing loop of
`getAllZones`/`getAllRecords` and its two callers, which are methods
(`Resolver.GetAllPages`, `GetAllZones`, `GetAllRecords`). Every effect is an
input:

- The network is a `Provider` with three parts:
  - a transport that answers each `Call` with a `Transfer` (response text or none, HTTP status, cURL errno);
  - the `json_decode` of a response;
  - the extraction of a listing page from a decoded body.
- The public-IP lookup command's output is a string.
- `FILTER_VALIDATE_IP` is an abstract predicate `isIp`.
- The data file is a `DataFile` value.
- The results of `file_put_contents` and `unlink` are booleans.

Each provider operation returns its value together with the requests it sent,
in order (`ProviderClient.Traced`). Onboarding returns more: its outcome, the
requests sent, and the data file afterwards (`Onboarding.Onboarded`). A run
returns all three plus the notification handed to the mailer, if any
(`PeriodicRun.Run`). Provider mutations are the create and update requests
among the calls sent (`ProviderClient.Mutations`).

Modules, in dependency order:

- `Wrappers`: `Option`.
- `PhpValues`: a decoded JSON value (`Json`) and the PHP 8 rules used on it:
  truthiness, `isset`, and loose `==` against a text.
- `ProviderClient`: `curlRequest` (classifying the transfer and appending the
  query string), `trim`/`getPublicIp`, `validToken`, one listing page,
  `getARecordValue`, `createARecord` and `updateARecord`.
- `Resolver`: the pagination merge of `getAllZones`/`getAllRecords`, as a
  reference fold (`ListAll`) and as the loop (`GetAllPages`), plus
  `findZoneId`/`findRecordId`.
- `CacheStore`: `dataExists`, `readData`, `createData`, `removeData`, and the
  cache-completeness test of `cli.php`.
- `Onboarding`: `create_file.php`.
- `PeriodicRun`: `cli.php`.

In these places the code's behaviour is easy to misread; the model follows it:

- An empty or unopenable `data.json` is not treated as absent. `readData`
  returns false, so the run stops with "Unable to read the JSON file"
  (`PeriodicRun.FromCache`, outcome `Unreadable`).
- An incomplete cache is removed, and the run then stops. It does not go on
  to onboard in the same run (`PeriodicRun.IncompleteCacheIsRemoved`).
- A failed IP lookup in the run is not guarded. `$current_ip` is then false,
  and the update is sent with content false (`PeriodicRun.FailedLookupStillUpdates`).
- `findZoneId`/`findRecordId` look the name up through an `array_search`
  detour. It never changes the result for a present name, and for an absent
  name it yields only falsy values, so the model looks the name up directly.
- `findRecordId` needs the merged id to be non-null (`isset`), not merely the
  name to be a key.

Three behaviours of the code look odd but are reproduced as they are:

- an update is still attempted after a failed IP lookup;
- onboarding accepts a create reply whenever `success` is set, even when it is false;
- onboarding writes the cache even when the update of an existing record failed.

## Model

| member | source | states |
|---|---|---|
| ProviderClient.RequestUrl | CloudflareDynamicDNS.php:80-83 | The URL is always a prefix of what is requested. It is left unchanged exactly when `params` is absent or an empty array; otherwise `?` and the `k=v&…` query follow it. |
| ProviderClient.CurlRequest | CloudflareDynamicDNS.php:99-112 | A decoded body is returned exactly when the response is non-empty and truthy and the status is 200. An empty or false response is a transport error carrying the cURL errno. A non-empty response with another status is a status error carrying that status. |
| ProviderClient.TrimStartSpec | CloudflareDynamicDNS.php:57 | `ltrim`'s result is a suffix of the input. Everything dropped is PHP `trim` whitespace, and the result does not start with such a character. |
| ProviderClient.TrimEndSpec | CloudflareDynamicDNS.php:57 | `rtrim`'s result is a prefix of the input. Everything dropped is whitespace, and the result does not end with whitespace. |
| ProviderClient.TrimSpec | CloudflareDynamicDNS.php:57 | `trim`'s result is a contiguous slice of the input with only whitespace around it, and it neither starts nor ends with whitespace. |
| ProviderClient.GetPublicIp | CloudflareDynamicDNS.php:55-62 | The lookup yields an address exactly when the trimmed output passes the IP test, and the address is that trimmed output; otherwise it yields false. |
| ProviderClient.ValidToken | CloudflareDynamicDNS.php:123-137 | A falsy token is rejected with no request. Otherwise exactly one verification request is sent. The token is valid exactly when the decoded reply's `result.status` is set and loosely equal to 'active' (the string itself or `true`). |
| ProviderClient.GetZones | CloudflareDynamicDNS.php:280-298 | A zone page is returned exactly when the listing request yields a truthy decoded body, and it is the page that body describes; otherwise false. |
| ProviderClient.GetRecords | CloudflareDynamicDNS.php:393-412 | The same for one page of a zone's A-record listing. |
| ProviderClient.GetARecordValue | CloudflareDynamicDNS.php:474-482 | One detail request is sent. The value is returned exactly when the reply is truthy and `result.content` is set, and it is that content. |
| ProviderClient.CreateARecord | CloudflareDynamicDNS.php:495-511 | One create request is sent, for the given zone, with body type "A" and the given name, content and proxied values. The reply is returned whenever it is truthy, whatever its `success` says. |
| ProviderClient.UpdateARecord | CloudflareDynamicDNS.php:524-540 | One update request is sent, for the given zone and record, with body type "A" and the given name, content and proxied values. The reply is returned exactly when its `success` is set and truthy. |
| ProviderClient.UpdateNeedsSuccessFlag | CloudflareDynamicDNS.php:535-539 | A 200 reply whose `success` is false or missing makes the update fail. |
| Resolver.LastPage | CloudflareDynamicDNS.php:326-328 | The last page requested is `total_pages` when that exceeds 1, and otherwise page 1. It is always at least 1. |
| Resolver.ListAll | CloudflareDynamicDNS.php:306-347 | Reference meaning of a listing: it fails exactly when page 1 fails. |
| Resolver.AssignAppend | CloudflareDynamicDNS.php:321-333 | Merging page after page equals merging the pages' concatenated entries. |
| Resolver.AssignKeys | CloudflareDynamicDNS.php:322 | After `$all[$name] = $id` over a page, a name is a key exactly when it was one before or some entry carries it. A name no entry carries keeps its id. |
| Resolver.AssignLastWins | CloudflareDynamicDNS.php:321-323 | On a repeated name the last entry's id is kept. |
| Resolver.FetchedNames | CloudflareDynamicDNS.php:328-336 | The entries collected from pages lo..hi carry a name exactly when some successfully fetched page in that range lists it. |
| Resolver.ListAllNames | CloudflareDynamicDNS.php:321-336 | Once page 1 succeeds, a name is in the merged map exactly when a successfully fetched page among 1..last lists it. |
| Resolver.ListAllLastWins | CloudflareDynamicDNS.php:321-336 | A name maps to the id of its last entry on the last successfully fetched page that lists it. |
| Resolver.ListAllSkipsFailedPage | CloudflareDynamicDNS.php:329-334 | A failed page after page 1 contributes exactly what an empty page would, and does not make the listing fail. |
| Resolver.GetAllPages | CloudflareDynamicDNS.php:306-347 | The loop computes the reference listing. It requests page 1 and then pages 2..total_pages, each once and in increasing order, so only page 1 when `total_pages <= 1` or page 1 fails. |
| Resolver.GetAllZones | CloudflareDynamicDNS.php:306-347 | The zone listing fails exactly when page 1 fails. Its requests are `ListZones(1)`, `ListZones(2)`, … in order, and its map is the reference merge. |
| Resolver.GetAllRecords | CloudflareDynamicDNS.php:422-463 | The same for a zone's A records, with requests `ListRecords(zone, 1)`, `ListRecords(zone, 2)`, …. |
| Resolver.FindZoneId | CloudflareDynamicDNS.php:230-248 | Only listing requests are sent. An id is returned exactly when the listing succeeds and holds the name, and it is the merged id. |
| Resolver.FindRecordId | CloudflareDynamicDNS.php:358-382 | Only listing requests are sent. An id is returned exactly when the listing succeeds, holds the name, and the merged id is set; it is that id. |
| Resolver.FindZoneIdFromPages | CloudflareDynamicDNS.php:230-248 | A zone is found exactly when page 1 succeeds and some successfully fetched zone page lists its name. |
| Resolver.FindRecordIdFromPages | CloudflareDynamicDNS.php:358-382 | A record is found exactly when page 1 succeeds, some fetched page lists the name, and its merged id is non-null. |
| CacheStore.ToJson | CloudflareDynamicDNS.php:164-176 | The encoded array is truthy and decodes member by member back to the same entry. |
| CacheStore.ReadData | CloudflareDynamicDNS.php:188-201 | Whatever is read comes from an existing file. An unopenable or empty file reads as false. |
| CacheStore.CreateData | CloudflareDynamicDNS.php:164-176 | The result is the write's success. After a successful write the file exists and reads back as the same entry. A failed write leaves the file as it was. |
| CacheStore.RemoveData | CloudflareDynamicDNS.php:209-220 | The result is true exactly when a file existed and `unlink` succeeded, and then the file is gone; otherwise nothing changes. |
| CacheStore.CacheValidMeansComplete | cli.php:49-55 | A read cache passes exactly when it is an object with all five members, `ip_address` is a string passing the IP test, and the other four are truthy. |
| CacheStore.WrittenValidEntryStaysValid | CloudflareDynamicDNS.php:164-201 | A valid entry written and read back still passes the completeness test. |
| Onboarding.Save | create_file.php:87-99 | Onboarding completes exactly when the write succeeds, and the file then holds the entry. Otherwise it stops with the file unchanged. |
| Onboarding.CreateMissing | create_file.php:47-58 | After the lookups, one create is sent. A reply without `success` set stops onboarding. Otherwise the entry carries the reply's `result.id`. |
| Onboarding.SyncExisting | create_file.php:61-82 | Without a truthy record value onboarding stops after the detail request. With one, an update is sent only when the value differs from the current IP. Completion depends only on the write. |
| Onboarding.Onboard | create_file.php:1-100 | A failed IP lookup stops with no request. A zone not found stops after the zone listing alone. The file changes only on completion, and then holds the current IP, the answered names and the found zone id. |
| Onboarding.OnboardCreatesMissingRecord | create_file.php:44-58 | For a missing record, the only provider change is one create of an A record with the answered name, the current IP and no proxying. Onboarding completes exactly when the reply has `success` set and the write succeeds. |
| Onboarding.OnboardAcceptsUnsuccessfulCreate | create_file.php:53-54 | A create reply with `success: false` is still accepted, and its `result.id` becomes the record id. |
| Onboarding.SyncExistingMutations | create_file.php:61-82 | The existing-record stage changes the provider at most once: the update, and only on a differing value. |
| Onboarding.OnboardSyncsExistingRecord | create_file.php:61-99 | For an existing record, a failed value fetch stops with no change and no file. Otherwise the update is sent only on a differing value, and the initial cache is written whether or not that update succeeded. |
| PeriodicRun.Reconcile | cli.php:68-121 | When the IPs differ, exactly one update of the cached record to the current IP is sent. The cache is rewritten with the new IP and the same identifiers only after a successful update and write. A failed write ends the run with no notification. Otherwise the success or failure template follows the outcome and `HTML_EMAIL`, and the notice carries that template's file and the matching subject. |
| PeriodicRun.TemplateFilesDistinct | cli.php:97-117 | The four e-mail templates (success or failure, HTML or text) have four different file names. |
| PeriodicRun.Compare | cli.php:65-125 | Equal IPs end the run with nothing sent, written or notified. Different ones lead to the update. |
| PeriodicRun.FromCache | cli.php:39-60 | An unreadable file stops the run unchanged. An incomplete cache is removed and stops it. Only a complete cache reaches the comparison. |
| PeriodicRun.FromCacheOutcomes | cli.php:39-125 | Each outcome of the run after reading matches exactly the condition leading to it. Only the update outcomes send anything, namely the one update of the cached record. Only `Updated` rewrites and `InvalidCache` removes the file. |
| PeriodicRun.OnboardThenRun | cli.php:32-34 | A stopped onboarding ends the run with the file as it was. A completed one continues on the file it wrote. |
| PeriodicRun.PeriodicRun | cli.php:11-44 | A missing token stops with no request, and a rejected one after the verification request alone. Past the gate, the verification request is the first call. A missing file sends the run through onboarding. |
| PeriodicRun.RunMutations | cli.php:49-125 | With a data file present, the run's only provider change is the one update, sent exactly when the run got past the comparison. |
| PeriodicRun.FromCacheMutations | cli.php:39-125 | From `readData` on, the run adds to the provider changes already made exactly one update of the cached record, and only when it got past the comparison. |
| PeriodicRun.FirstRunMutations | cli.php:32-125 | A first run that onboards makes onboarding's provider changes. It then adds the one update of the record onboarding saved, exactly when the run got past the comparison. |
| PeriodicRun.UpdatedExactlyWhen | cli.php:49-92 | A run after reading ends `Updated` exactly when four things hold: the cache is complete, the current IP compares unequal, the update is accepted, and the write succeeds. |
| PeriodicRun.UpdatedCacheKeepsIdentifiers | cli.php:76-85 | Under those conditions the cache is rewritten with the current IP and the four identifiers it read. |
| PeriodicRun.RunIsIdempotent | cli.php:68-125 | After a successful update with a working lookup, a second run seeing the same IP sends nothing and changes nothing. |
| PeriodicRun.FailedLookupStillUpdates | cli.php:65-73 | With a failed lookup and a truthy cached address, the update is still sent, with content false. |
| PeriodicRun.FailedLookupSpoilsCache | cli.php:76-85 | If that update is accepted and written, the cache holds `ip_address: false`, and the next run removes it as incomplete. |
| PeriodicRun.FreshInstallSettles | cli.php:32-68 | Past the token check, a first run for an existing record whose value can be fetched, with a successful write and non-empty answers, completes onboarding. If it then sees the same IP it ends unchanged, having sent only onboarding's requests. |
| PeriodicRun.CreateWithoutIdIsDiscarded | create_file.php:53-54 | A create reply with `success` set but no `result.id` still completes onboarding. The cache it leaves is then judged incomplete and removed by the same run, past its token check. |
| PeriodicRun.IncompleteCacheIsRemoved | cli.php:49-59 | A data file holding only `ip_address` is removed, and the run stops with nothing sent or notified. |

## Left out

- cURL itself, the request headers, the HTTP methods and the request URLs
  beyond the query-append rule are not modelled. A call is identified by a
  `Call` value; the transport is an input.
- ProviderClient.RequestUrl: `http_build_query` percent-encoding is not
  modelled; keys and values are joined verbatim.
- `json_decode` of responses is an input (`Provider.decode`). So is the
  extraction of a page's `result` items and `result_info` counters
  (`Provider.pageOf`). A missing `result` (a PHP warning, then no iteration)
  is taken to be an empty page.
- `json_encode`/`json_decode` of `data.json` are not modelled: the file holds
  the decoded value. A malformed file is one that decodes to null.
- `createData` writes to `APP_PATH.'data.json'` while the others use
  `DATA_FILE`. The model assumes the two name the same file.
- `file_put_contents`, `unlink`, `fopen`/`filesize` are booleans or the
  `DataFile` state. A failed write is assumed to leave the file unchanged.
- `shell_exec` of the IP lookup command is an input string.
  `FILTER_VALIDATE_IP` is an abstract predicate.
- PhpValues: loose `==` is modelled only against a text that is not numeric
  ('active' and IP literals, the only texts the core compares with).
  Numeric-string comparison and floats are left out.
- PHP's conversion of numeric-string array keys to integers is not modelled.
  Names are texts.
- Resolver.FindZoneId: for an absent name, the source returns null or false
  (via `array_search`). Both are falsy, and the model returns `None`.
- Resolver.GetAllPages: `page`, `count` and `per_page` of `result_info` are
  read by the source but never used, so they are not part of `Page`.
- `getZoneDetails` is not modelled: it uses undefined variables and is never
  called.
- `sendEmailNotification` is not modelled: PHPMailer/SMTP, template
  rendering, `EMAIL_TO` and the SMTP configuration checks. The run records
  the notification it hands over (`Notice`). The mailer's result is ignored
  by `cli.php`, so it is not an input.
- The `error` property and every CLImate message or prompt are not modelled;
  prompts are the `Answers` inputs.
- `config.php` is not modelled beyond `TOKEN`, `EMAIL_NOTIFICATIONS` and
  `HTML_EMAIL`.
