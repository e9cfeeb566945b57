/**
 * The resource resolver of the `DynamicDNS` class: `getAllZones` and
 * `getAllRecords` walk a paged listing and merge it into a name→id map,
 * `findZoneId` and `findRecordId` look a name up in that map.
 *
 * A page fetcher `int -> Option<Page>` stands for `getZones`/`getRecords`
 * (`None` is their `false`). Page 1 decides everything: if it fails the whole
 * listing fails, otherwise its `total_pages` fixes which further pages are
 * requested; a later page that fails is skipped, and on a repeated name the
 * entry merged last wins.
 */
module Resolver {
  import opened Wrappers
  import opened PhpValues
  import opened ProviderClient

  /** The PHP array `$all_zones` / `$all_records`. */
  type NameMap = map<string, Json>

  /** What `getAllZones` / `getAllRecords` return when page 1 succeeds. */
  datatype Listing = Listing(byName: NameMap, totalCount: int)

  /** The entries a fetched page contributes; a failed page contributes none. */
  function EntriesOf(page: Option<Page>): seq<Entry> {
    if page.Some? then page.value.entries else []
  }

  /** One `foreach` over a page's results: `$all[$name] = $id` for each entry, in order. */
  function Assign(m: NameMap, es: seq<Entry>): NameMap
    decreases |es|
  {
    if |es| == 0 then m
    else Assign(m, es[..|es| - 1])[es[|es| - 1].name := es[|es| - 1].id]
  }

  /** Some entry of `es` is named `k`. */
  predicate HasName(es: seq<Entry>, k: string) {
    exists i | 0 <= i < |es| :: es[i].name == k
  }

  /** `i` is the position of the last entry of `es` named `k`. */
  predicate LastNamed(es: seq<Entry>, k: string, i: int) {
    && 0 <= i < |es|
    && es[i].name == k
    && forall j | i < j < |es| :: es[j].name != k
  }

  /** Page `q` was fetched and lists an entry named `k`. */
  predicate PageHasName(fetch: int -> Option<Page>, q: int, k: string) {
    HasName(EntriesOf(fetch(q)), k)
  }

  /** The entries of the pages `lo..hi` that were fetched successfully, in page order. */
  function Fetched(fetch: int -> Option<Page>, lo: int, hi: int): seq<Entry>
    decreases hi - lo
  {
    if hi < lo then [] else Fetched(fetch, lo, hi - 1) + EntriesOf(fetch(hi))
  }

  /** The last page requested once page 1 reported `total_pages`. */
  function LastPage(first: Page): (n: int)
    ensures n >= 1
  {
    if first.totalPages > 1 then first.totalPages else 1
  }

  /**
   * Reference meaning of a paged listing: nothing when page 1 fails;
   * otherwise every successfully fetched page `1..LastPage` merged in page
   * order into one name→id map, with page 1's `total_count`.
   */
  function ListAll(fetch: int -> Option<Page>): (r: Option<Listing>)
    ensures r.None? <==> fetch(1).None?
  {
    match fetch(1)
    case None => None
    case Some(first) => Some(Listing(Assign(map[], Fetched(fetch, 1, LastPage(first))), first.totalCount))
  }

  /** The page numbers a listing requests, in order. */
  function PagesRequested(fetch: int -> Option<Page>): seq<int> {
    match fetch(1)
    case None => [1]
    case Some(first) => seq(LastPage(first), j => j + 1)
  }

  /** `getZones` for every page of the account's zone listing. */
  function ZonePages(p: Provider): int -> Option<Page> {
    page => GetZones(p, page)
  }

  /** `getRecords` for every page of a zone's A-record listing. */
  function RecordPages(p: Provider, zoneId: Json): int -> Option<Page> {
    page => GetRecords(p, zoneId, page)
  }

  /** The listing requests for the given zone pages. */
  function ZoneCalls(pages: seq<int>): (calls: seq<Call>)
    ensures |calls| == |pages|
    ensures forall j | 0 <= j < |pages| :: calls[j] == ListZones(pages[j])
  {
    seq(|pages|, j requires 0 <= j < |pages| => ListZones(pages[j]))
  }

  /** The listing requests for the given record pages of one zone. */
  function RecordCalls(zoneId: Json, pages: seq<int>): (calls: seq<Call>)
    ensures |calls| == |pages|
    ensures forall j | 0 <= j < |pages| :: calls[j] == ListRecords(zoneId, pages[j])
  {
    seq(|pages|, j requires 0 <= j < |pages| => ListRecords(zoneId, pages[j]))
  }

  // ---------------------------------------------------------------------------
  // The merge of one page: Assign
  // ---------------------------------------------------------------------------

  /** Merging two runs of entries one after the other is merging their concatenation. */
  lemma {:induction false} AssignAppend(m: NameMap, a: seq<Entry>, b: seq<Entry>)
    ensures Assign(m, a + b) == Assign(Assign(m, a), b)
    decreases |b|
  {
    if |b| == 0 {
      assert a + b == a;
    } else {
      var b' := b[..|b| - 1];
      assert (a + b)[..|a + b| - 1] == a + b';
      AssignAppend(m, a, b');
    }
  }

  /** A name is a key after merging exactly when it was a key before or some entry carries it; other keys keep their ids. */
  lemma {:induction false} AssignKeys(m: NameMap, es: seq<Entry>, k: string)
    ensures k in Assign(m, es) <==> k in m || HasName(es, k)
    ensures !HasName(es, k) && k in m ==> Assign(m, es)[k] == m[k]
    decreases |es|
  {
    if |es| > 0 {
      var es' := es[..|es| - 1];
      AssignKeys(m, es', k);
      if HasName(es', k) {
        var i :| 0 <= i < |es'| && es'[i].name == k;
        assert es[i].name == k;
      }
      if HasName(es, k) && es[|es| - 1].name != k {
        var i :| 0 <= i < |es| && es[i].name == k;
        assert es'[i].name == k;
      }
    }
  }

  /** After merging, a name maps to the id of the last entry carrying it. */
  lemma {:induction false} AssignLastWins(m: NameMap, es: seq<Entry>, k: string, i: int)
    requires LastNamed(es, k, i)
    ensures k in Assign(m, es) && Assign(m, es)[k] == es[i].id
    decreases |es|
  {
    if i < |es| - 1 {
      var es' := es[..|es| - 1];
      assert LastNamed(es', k, i);
      AssignLastWins(m, es', k, i);
    }
  }

  // ---------------------------------------------------------------------------
  // The pages: Fetched
  // ---------------------------------------------------------------------------

  lemma HasNameAppend(a: seq<Entry>, b: seq<Entry>, k: string)
    ensures HasName(a + b, k) <==> HasName(a, k) || HasName(b, k)
  {
    if HasName(a + b, k) {
      var i :| 0 <= i < |a + b| && (a + b)[i].name == k;
      if i >= |a| {
        assert b[i - |a|].name == k;
      }
    }
    if HasName(a, k) {
      var i :| 0 <= i < |a| && a[i].name == k;
      assert (a + b)[i].name == k;
    }
    if HasName(b, k) {
      var i :| 0 <= i < |b| && b[i].name == k;
      assert (a + b)[|a| + i].name == k;
    }
  }

  /** The merged entries of pages `lo..hi` carry a name exactly when one of those pages lists it. */
  lemma {:induction false} FetchedNames(fetch: int -> Option<Page>, lo: int, hi: int, k: string)
    ensures HasName(Fetched(fetch, lo, hi), k) <==> exists q | lo <= q <= hi :: PageHasName(fetch, q, k)
    decreases hi - lo
  {
    if hi >= lo {
      FetchedNames(fetch, lo, hi - 1, k);
      HasNameAppend(Fetched(fetch, lo, hi - 1), EntriesOf(fetch(hi)), k);
      if HasName(Fetched(fetch, lo, hi - 1), k) {
        var q :| lo <= q <= hi - 1 && PageHasName(fetch, q, k);
        assert lo <= q <= hi;
      }
      if HasName(EntriesOf(fetch(hi)), k) {
        assert PageHasName(fetch, hi, k);
      }
      if exists q | lo <= q <= hi :: PageHasName(fetch, q, k) {
        var q :| lo <= q <= hi && PageHasName(fetch, q, k);
        if q < hi {
          assert exists q' | lo <= q' <= hi - 1 :: PageHasName(fetch, q', k);
        }
      }
    }
  }

  /** The pages `lo..hi` split at any `mid`. */
  lemma {:induction false} FetchedSplit(fetch: int -> Option<Page>, lo: int, mid: int, hi: int)
    requires lo - 1 <= mid <= hi
    ensures Fetched(fetch, lo, hi) == Fetched(fetch, lo, mid) + Fetched(fetch, mid + 1, hi)
    decreases hi - mid
  {
    if mid < hi {
      FetchedSplit(fetch, lo, mid, hi - 1);
      var a, b, c := Fetched(fetch, lo, mid), Fetched(fetch, mid + 1, hi - 1), EntriesOf(fetch(hi));
      assert Fetched(fetch, lo, hi) == (a + b) + c;
      assert (a + b) + c == a + (b + c);
    } else {
      assert Fetched(fetch, lo, mid) + [] == Fetched(fetch, lo, mid);
    }
  }

  /** Two fetchers whose pages `lo..hi` contribute the same entries merge the same way. */
  lemma {:induction false} FetchedAgree(fetch: int -> Option<Page>, fetch': int -> Option<Page>, lo: int, hi: int)
    requires forall q | lo <= q <= hi :: EntriesOf(fetch(q)) == EntriesOf(fetch'(q))
    ensures Fetched(fetch, lo, hi) == Fetched(fetch', lo, hi)
    decreases hi - lo
  {
    if hi >= lo {
      FetchedAgree(fetch, fetch', lo, hi - 1);
    }
  }

  // ---------------------------------------------------------------------------
  // Properties of a whole listing
  // ---------------------------------------------------------------------------

  /**
   * Coverage: once page 1 succeeds, a name is in the merged map exactly when
   * some successfully fetched page among `1..LastPage` lists it.
   */
  lemma ListAllNames(fetch: int -> Option<Page>, k: string)
    requires fetch(1).Some?
    ensures k in ListAll(fetch).value.byName <==>
      exists q | 1 <= q <= LastPage(fetch(1).value) :: PageHasName(fetch, q, k)
  {
    var es := Fetched(fetch, 1, LastPage(fetch(1).value));
    AssignKeys(map[], es, k);
    FetchedNames(fetch, 1, LastPage(fetch(1).value), k);
  }

  /**
   * Last page wins: if entry `i` is the last one named `k` on fetched page
   * `p`, and no later fetched page lists `k`, the merged map holds its id.
   */
  lemma ListAllLastWins(fetch: int -> Option<Page>, p: int, i: int, k: string)
    requires fetch(1).Some? && 1 <= p <= LastPage(fetch(1).value)
    requires fetch(p).Some? && LastNamed(fetch(p).value.entries, k, i)
    requires forall q | p < q <= LastPage(fetch(1).value) :: !PageHasName(fetch, q, k)
    ensures k in ListAll(fetch).value.byName
    ensures ListAll(fetch).value.byName[k] == fetch(p).value.entries[i].id
  {
    var last := LastPage(fetch(1).value);
    var page := fetch(p).value.entries;
    var before, after := Fetched(fetch, 1, p - 1), Fetched(fetch, p + 1, last);
    FetchedSplit(fetch, 1, p, last);
    assert Fetched(fetch, 1, p) == before + page;
    FetchedNames(fetch, p + 1, last, k);
    var es := before + page + after;
    assert Fetched(fetch, 1, last) == es;
    var at := |before| + i;
    forall j | at < j < |es|
      ensures es[j].name != k
    {
      if j < |before| + |page| {
        assert es[j] == page[j - |before|];
      } else {
        assert es[j] == after[j - |before| - |page|];
        assert !HasName(after, k);
      }
    }
    assert LastNamed(es, k, at);
    AssignLastWins(map[], es, k, at);
  }

  /**
   * A later page that fails contributes exactly what a page with no entries
   * would, and does not make the listing fail.
   */
  lemma ListAllSkipsFailedPage(fetch: int -> Option<Page>, fetch': int -> Option<Page>, p: int)
    requires p >= 2 && fetch(p).None? && fetch'(p).Some? && fetch'(p).value.entries == []
    requires forall q | q != p :: fetch'(q) == fetch(q)
    ensures ListAll(fetch) == ListAll(fetch')
    ensures fetch(1).Some? ==> ListAll(fetch).Some?
  {
    assert fetch(1) == fetch'(1);
    if fetch(1).Some? {
      FetchedAgree(fetch, fetch', 1, LastPage(fetch(1).value));
    }
  }

  // ---------------------------------------------------------------------------
  // The loop of getAllZones / getAllRecords
  // ---------------------------------------------------------------------------

  /**
   * The loop shared by `getAllZones` and `getAllRecords`: page 1, then pages
   * `2..total_pages` one by one, skipping failed pages. It computes the
   * reference merge and requests pages `1, 2, …` each once, in increasing
   * order, stopping after page 1 when `total_pages <= 1` or page 1 fails.
   */
  method GetAllPages(fetch: int -> Option<Page>) returns (r: Option<Listing>, requested: seq<int>)
    ensures r == ListAll(fetch)
    ensures |requested| == (if fetch(1).None? then 1 else LastPage(fetch(1).value))
    ensures forall j | 0 <= j < |requested| :: requested[j] == j + 1
    ensures requested == PagesRequested(fetch)
  {
    requested := [1];
    var first := fetch(1);
    if first.None? {
      return None, requested;
    }
    var all := Assign(map[], first.value.entries);
    assert Fetched(fetch, 1, 1) == [] + first.value.entries == first.value.entries;
    var total := first.value.totalPages;
    if total > 1 {
      var i := 2;
      while i <= total
        invariant 2 <= i <= total + 1
        invariant all == Assign(map[], Fetched(fetch, 1, i - 1))
        invariant |requested| == i - 1
        invariant forall j | 0 <= j < |requested| :: requested[j] == j + 1
      {
        var more := fetch(i);
        requested := requested + [i];
        assert Fetched(fetch, 1, i) == Fetched(fetch, 1, i - 1) + EntriesOf(more);
        AssignAppend(map[], Fetched(fetch, 1, i - 1), EntriesOf(more));
        if more.Some? {
          all := Assign(all, more.value.entries);
        } else {
          assert Fetched(fetch, 1, i - 1) + [] == Fetched(fetch, 1, i - 1);
        }
        i := i + 1;
      }
      assert i - 1 == LastPage(first.value);
    }
    assert all == Assign(map[], Fetched(fetch, 1, LastPage(first.value)));
    assert requested == PagesRequested(fetch);
    r := Some(Listing(all, first.value.totalCount));
  }

  /** `getAllZones`: the zone listing of the account, with the listing requests it sends. */
  method GetAllZones(p: Provider) returns (r: Traced<Option<Listing>>)
    ensures r.value == ListAll(ZonePages(p))
    ensures r.value.None? <==> GetZones(p, 1).None?
    ensures r.calls == ZoneCalls(PagesRequested(ZonePages(p)))
    ensures forall j | 0 <= j < |r.calls| :: r.calls[j] == ListZones(j + 1)
  {
    var listing, pages := GetAllPages(ZonePages(p));
    r := Traced(listing, ZoneCalls(pages));
  }

  /** `getAllRecords`: the A-record listing of one zone, with the listing requests it sends. */
  method GetAllRecords(p: Provider, zoneId: Json) returns (r: Traced<Option<Listing>>)
    ensures r.value == ListAll(RecordPages(p, zoneId))
    ensures r.value.None? <==> GetRecords(p, zoneId, 1).None?
    ensures r.calls == RecordCalls(zoneId, PagesRequested(RecordPages(p, zoneId)))
    ensures forall j | 0 <= j < |r.calls| :: r.calls[j] == ListRecords(zoneId, j + 1)
  {
    var listing, pages := GetAllPages(RecordPages(p, zoneId));
    r := Traced(listing, RecordCalls(zoneId, pages));
  }

  // ---------------------------------------------------------------------------
  // Lookups
  // ---------------------------------------------------------------------------

  /**
   * `findZoneId`: lists every zone, then returns the id stored under the
   * name, or false when the listing failed or does not hold the name.
   */
  function FindZoneId(p: Provider, zoneName: string): (r: Traced<Option<Json>>)
    ensures r.calls == ZoneCalls(PagesRequested(ZonePages(p)))
    ensures forall c | c in r.calls :: !c.IsMutation()
    ensures r.value.Some? <==> ListAll(ZonePages(p)).Some? && zoneName in ListAll(ZonePages(p)).value.byName
    ensures r.value.Some? ==> r.value.value == ListAll(ZonePages(p)).value.byName[zoneName]
  {
    var fetch := ZonePages(p);
    var listing := ListAll(fetch);
    var id := if listing.Some? && zoneName in listing.value.byName then Some(listing.value.byName[zoneName]) else None;
    Traced(id, ZoneCalls(PagesRequested(fetch)))
  }

  /**
   * `findRecordId`: lists the zone's A records, then returns the id stored
   * under the name when it is set (not null), and false otherwise.
   */
  function FindRecordId(p: Provider, recordName: string, zoneId: Json): (r: Traced<Option<Json>>)
    ensures r.calls == RecordCalls(zoneId, PagesRequested(RecordPages(p, zoneId)))
    ensures forall c | c in r.calls :: !c.IsMutation()
    ensures r.value.Some? <==>
      && ListAll(RecordPages(p, zoneId)).Some?
      && recordName in ListAll(RecordPages(p, zoneId)).value.byName
      && ListAll(RecordPages(p, zoneId)).value.byName[recordName] != JNull
    ensures r.value.Some? ==> r.value.value == ListAll(RecordPages(p, zoneId)).value.byName[recordName]
  {
    var fetch := RecordPages(p, zoneId);
    var listing := ListAll(fetch);
    var id :=
      if listing.Some? && recordName in listing.value.byName && IsSet(listing.value.byName[recordName])
      then Some(listing.value.byName[recordName])
      else None;
    Traced(id, RecordCalls(zoneId, PagesRequested(fetch)))
  }

  /**
   * A zone is found exactly when page 1 of the zone listing succeeds and some
   * successfully fetched zone page lists its name.
   */
  lemma FindZoneIdFromPages(p: Provider, zoneName: string)
    ensures FindZoneId(p, zoneName).value.Some? <==>
      && GetZones(p, 1).Some?
      && exists q | 1 <= q <= LastPage(GetZones(p, 1).value) :: PageHasName(ZonePages(p), q, zoneName)
  {
    if GetZones(p, 1).Some? {
      ListAllNames(ZonePages(p), zoneName);
    }
  }

  /**
   * A record id is found exactly when page 1 of the record listing succeeds,
   * some successfully fetched page lists the name, and the id merged for it
   * is not null.
   */
  lemma FindRecordIdFromPages(p: Provider, recordName: string, zoneId: Json)
    ensures FindRecordId(p, recordName, zoneId).value.Some? <==>
      && GetRecords(p, zoneId, 1).Some?
      && (exists q | 1 <= q <= LastPage(GetRecords(p, zoneId, 1).value) :: PageHasName(RecordPages(p, zoneId), q, recordName))
      && (recordName in ListAll(RecordPages(p, zoneId)).value.byName ==>
            ListAll(RecordPages(p, zoneId)).value.byName[recordName] != JNull)
  {
    if GetRecords(p, zoneId, 1).Some? {
      ListAllNames(RecordPages(p, zoneId), recordName);
    }
  }
}
