/**
 * `AssetsServiceOptimized.getAllAssetsWithDetails` and `clearCache`: the
 * enrichment pipeline over the four collections, behind a single-key cache
 * with a five-minute time to live.
 */
module AssetsService {
  import opened Wrappers
  import opened Records
  import opened UniqueIds
  import opened LookupMaps
  import opened SessionOrder
  import opened SessionLookup
  import opened AssetProcessing

  /** Five minutes, in milliseconds. */
  const CACHE_TTL: int := 5 * 60 * 1000
  const CACHE_KEY: string := "allAssets"
  const ERROR_PREFIX: string := "Error al obtener assets: "

  /**
   * What each database read answers: all documents of its collection, in
   * natural order, or the message of the error it throws.
   */
  datatype Stores = Stores(
    assets: Result<seq<Asset>, string>,
    employees: Result<seq<Employee>, string>,
    locations: Result<seq<Location>, string>,
    sessions: Result<seq<Session>, string>)

  /** The four collections one computation works on. */
  datatype Snapshot = Snapshot(
    assets: seq<Asset>,
    employees: seq<Employee>,
    locations: seq<Location>,
    sessions: seq<Session>)

  /** The cached and returned object `{total, assets}`. */
  datatype Payload = Payload(total: nat, assets: seq<AssetDoc>)

  datatype CacheStatus = Empty | Fresh | Stale

  /** `getEmployeesByIds`: no query at all for an empty id list, else the employees whose `_id` is listed. */
  function GetEmployeesByIds(store: Result<seq<Employee>, string>, ids: seq<string>): (r: Result<seq<Employee>, string>)
    ensures r.Err? <==> |ids| > 0 && store.Err?
    ensures r.Err? ==> r == store
    ensures |ids| == 0 ==> r == Ok([])
    ensures r.Ok? && store.Ok? ==> forall x :: x in r.value ==> x in store.value && EmployeeKey(x) in ids
    ensures |ids| > 0 && store.Ok? ==> forall x :: x in store.value && EmployeeKey(x) in ids ==> x in r.value
  {
    if |ids| == 0 then Ok([])
    else match store
      case Err(e) => Err(e)
      case Ok(all) => FilterByIdsMembers(all, ids, EmployeeKey); Ok(FilterByIds(all, ids, EmployeeKey))
  }

  /** `getLocationsByIds`: no query at all for an empty id list, else the locations whose `_id` is listed. */
  function GetLocationsByIds(store: Result<seq<Location>, string>, ids: seq<string>): (r: Result<seq<Location>, string>)
    ensures r.Err? <==> |ids| > 0 && store.Err?
    ensures r.Err? ==> r == store
    ensures |ids| == 0 ==> r == Ok([])
    ensures r.Ok? && store.Ok? ==> forall x :: x in r.value ==> x in store.value && LocationKey(x) in ids
    ensures |ids| > 0 && store.Ok? ==> forall x :: x in store.value && LocationKey(x) in ids ==> x in r.value
  {
    if |ids| == 0 then Ok([])
    else match store
      case Err(e) => Err(e)
      case Ok(all) => FilterByIdsMembers(all, ids, LocationKey); Ok(FilterByIds(all, ids, LocationKey))
  }

  /**
   * The reads of a recomputation: the assets first, then the employees and
   * locations they reference and all sessions. A failing read fails the
   * whole computation; of several failing reads, the first in the order of
   * the `Promise.all` array is reported.
   */
  function ReadAll(stores: Stores): (r: Result<Snapshot, string>)
    ensures r.Ok? <==>
      && stores.assets.Ok?
      && (|EmployeeIds(stores.assets.value)| == 0 || stores.employees.Ok?)
      && (|LocationIds(stores.assets.value)| == 0 || stores.locations.Ok?)
      && stores.sessions.Ok?
    ensures stores.assets.Err? ==> r == Err(stores.assets.error)
    ensures r.Ok? ==> r.value.assets == stores.assets.value && r.value.sessions == stores.sessions.value
    ensures r.Ok? ==>
      && r.value.employees == GetEmployeesByIds(stores.employees, EmployeeIds(r.value.assets)).value
      && r.value.locations == GetLocationsByIds(stores.locations, LocationIds(r.value.assets)).value
    ensures stores.assets.Ok? && stores.employees.Err? && |EmployeeIds(stores.assets.value)| > 0 ==>
      r == Err(stores.employees.error)
    ensures
      && stores.assets.Ok?
      && (|EmployeeIds(stores.assets.value)| == 0 || stores.employees.Ok?)
      && stores.locations.Err? && |LocationIds(stores.assets.value)| > 0
      ==> r == Err(stores.locations.error)
    ensures
      && stores.assets.Ok?
      && (|EmployeeIds(stores.assets.value)| == 0 || stores.employees.Ok?)
      && (|LocationIds(stores.assets.value)| == 0 || stores.locations.Ok?)
      && stores.sessions.Err?
      ==> r == Err(stores.sessions.error)
  {
    match stores.assets
    case Err(e) => Err(e)
    case Ok(assets) =>
      var employees := GetEmployeesByIds(stores.employees, EmployeeIds(assets));
      var locations := GetLocationsByIds(stores.locations, LocationIds(assets));
      if employees.Err? then Err(employees.error)
      else if locations.Err? then Err(locations.error)
      else if stores.sessions.Err? then Err(stores.sessions.error)
      else Ok(Snapshot(assets, employees.value, locations.value, stores.sessions.value))
  }

  /** The processed assets computed from one snapshot: one per input asset, in input order. */
  function Enrich(snap: Snapshot, parse: string -> Option<int>): (r: seq<Asset>)
    ensures |r| == |snap.assets|
    ensures forall i :: 0 <= i < |r| ==>
      r[i].id == snap.assets[i].id && r[i].assignee == snap.assets[i].assignee && r[i].location == snap.assets[i].location
  {
    var employeeMap := IndexById(snap.employees, EmployeeKey);
    var locationMap := IndexById(snap.locations, LocationKey);
    var sessionMap := SortDesc(Timestamped(snap.sessions, parse));
    seq(|snap.assets|, i requires 0 <= i < |snap.assets| =>
      EnrichAsset(snap.assets[i], employeeMap, locationMap, sessionMap))
  }

  /** Processed asset `i` is `processAsset` applied to asset `i` with the snapshot's maps. */
  lemma EnrichAt(snap: Snapshot, parse: string -> Option<int>, i: nat)
    requires i < |snap.assets|
    ensures Enrich(snap, parse)[i] == EnrichAsset(snap.assets[i], IndexById(snap.employees, EmployeeKey),
      IndexById(snap.locations, LocationKey), SortDesc(Timestamped(snap.sessions, parse)))
  {
  }

  /**
   * The employee keys of processed asset `i`: when its `assigned` id is
   * truthy the employee read was made and answered, and the keys come from
   * the last employee document with that `_id`; with a falsy or dangling id
   * they are left as they were.
   */
  lemma EnrichedEmployee(stores: Stores, parse: string -> Option<int>, i: nat)
    requires ReadAll(stores).Ok?
    requires i < |ReadAll(stores).value.assets|
    ensures Truthy(ReadAll(stores).value.assets[i].assignee) ==> stores.employees.Ok?
    ensures
      var a := ReadAll(stores).value.assets[i];
      var out := Enrich(ReadAll(stores).value, parse)[i];
      if Truthy(a.assignee) && stores.employees.Ok? && a.assignee.value in IndexById(stores.employees.value, EmployeeKey) then
        var e := IndexById(stores.employees.value, EmployeeKey)[a.assignee.value];
        out.employee_id == Some(e.employee_id) && out.employee_name == Some(e.name + " " + e.lastName)
      else
        out.employee_id == a.employee_id && out.employee_name == a.employee_name
  {
    var snap := ReadAll(stores).value;
    var a := snap.assets[i];
    var employeeMap := IndexById(snap.employees, EmployeeKey);
    EnrichAt(snap, parse, i);
    EnrichAssetKeys(a, employeeMap, IndexById(snap.locations, LocationKey), SortDesc(Timestamped(snap.sessions, parse)));
    if Truthy(a.assignee) {
      var ids := EmployeeIds(snap.assets);
      assert a.assignee.value in ids;
      assert snap.employees == FilterByIds(stores.employees.value, ids, EmployeeKey);
      IndexOfFiltered(stores.employees.value, ids, EmployeeKey, a.assignee.value);
    }
  }

  /**
   * The location keys of processed asset `i`: when its `location` id is
   * truthy the location read was made and answered, and the keys come from
   * the last location document with that `_id`; otherwise they are unchanged.
   */
  lemma EnrichedLocation(stores: Stores, parse: string -> Option<int>, i: nat)
    requires ReadAll(stores).Ok?
    requires i < |ReadAll(stores).value.assets|
    ensures Truthy(ReadAll(stores).value.assets[i].location) ==> stores.locations.Ok?
    ensures
      var a := ReadAll(stores).value.assets[i];
      var out := Enrich(ReadAll(stores).value, parse)[i];
      if Truthy(a.location) && stores.locations.Ok? && a.location.value in IndexById(stores.locations.value, LocationKey) then
        var l := IndexById(stores.locations.value, LocationKey)[a.location.value];
        out.location_Name == Some(l.name) && out.location_Level == l.profileLevel
      else
        out.location_Name == a.location_Name && out.location_Level == a.location_Level
  {
    var snap := ReadAll(stores).value;
    var a := snap.assets[i];
    var locationMap := IndexById(snap.locations, LocationKey);
    EnrichAt(snap, parse, i);
    EnrichAssetKeys(a, IndexById(snap.employees, EmployeeKey), locationMap, SortDesc(Timestamped(snap.sessions, parse)));
    if Truthy(a.location) {
      var ids := LocationIds(snap.assets);
      assert a.location.value in ids;
      assert snap.locations == FilterByIds(stores.locations.value, ids, LocationKey);
      IndexOfFiltered(stores.locations.value, ids, LocationKey, a.location.value);
    }
  }

  /**
   * The custom-field keys of processed asset `i`: with a tab object,
   * `customFieldsTab` is gone and `soc` and `SelectedStatus` hold the value of
   * the last field named `SOC.` and `STATUS` in tab order, or their old value
   * without such a field; a missing or falsy `customFieldsTab` changes nothing.
   */
  lemma EnrichedCustomFields(snap: Snapshot, parse: string -> Option<int>, i: nat)
    requires i < |snap.assets|
    ensures
      var a := snap.assets[i];
      var out := Enrich(snap, parse)[i];
      match a.customFieldsTab
      case Some(Tabs(tabs)) =>
        out.customFieldsTab.None? &&
        out.soc == LastValue(Flatten(tabs), SOC_FIELD, a.soc) &&
        out.SelectedStatus == LastValue(Flatten(tabs), STATUS_FIELD, a.SelectedStatus)
      case _ =>
        out.customFieldsTab == a.customFieldsTab && out.soc == a.soc && out.SelectedStatus == a.SelectedStatus
  {
  }

  /**
   * The `lastSession` of processed asset `i` as an independent definition
   * gives it: `{Status: "N/A"}` when no session lists the asset, otherwise
   * taken from the newest session listing it, the earliest fetched among
   * equally new ones.
   */
  lemma EnrichedLastSession(snap: Snapshot, parse: string -> Option<int>, i: nat)
    requires i < |snap.assets|
    ensures
      var id := snap.assets[i].id;
      Enrich(snap, parse)[i].lastSession == Some(
        match MostRecent(Timestamped(snap.sessions, parse), id)
        case None => NotAvailable
        case Some(best) => SessionInfoOf(best.session, id))
  {
    FindSortedIsMostRecent(Timestamped(snap.sessions, parse), snap.assets[i].id);
  }

  /** Of two sessions listing an asset, the one created later supplies its `lastSession`, in either fetch order. */
  lemma LaterSessionWins(older: Session, newer: Session, parse: string -> Option<int>, id: string, t1: int, t2: int)
    requires parse(older.creation) == Some(t1) && parse(newer.creation) == Some(t2) && t1 < t2
    requires HasAsset(older.assets, id) && HasAsset(newer.assets, id)
    ensures LastSessionOf(SortDesc(Timestamped([older, newer], parse)), id) == SessionInfoOf(newer, id)
    ensures LastSessionOf(SortDesc(Timestamped([newer, older], parse)), id) == SessionInfoOf(newer, id)
  {
    var p1 := ProcessedSession(older, t1);
    var p2 := ProcessedSession(newer, t2);
    assert Timestamped([older, newer], parse) == [p1, p2];
    assert Timestamped([newer, older], parse) == [p2, p1];
    assert [p1, p2][..1] == [p1];
    assert [p2, p1][..1] == [p2];
    assert SortDesc([p1]) == [p1];
    assert SortDesc([p2]) == [p2];
    assert [p1][..0] == [];
    assert Insert(p2, [p1]) == [p2, p1];
    assert SortDesc([p1, p2]) == [p2, p1];
    assert SortDesc([p2, p1]) == [p2, p1];
  }

  /** A session whose `creation` does not parse sorts behind one created after the epoch. */
  lemma UnparsableSortsLast(bad: Session, good: Session, parse: string -> Option<int>, t: int)
    requires parse(bad.creation) == None && parse(good.creation) == Some(t) && t > 0
    ensures SortDesc(Timestamped([bad, good], parse)) == [ProcessedSession(good, t), ProcessedSession(bad, 0)]
  {
    var pb := ProcessedSession(bad, 0);
    var pg := ProcessedSession(good, t);
    assert Timestamped([bad, good], parse) == [pb, pg];
    assert [pb, pg][..1] == [pb];
    assert SortDesc([pb]) == [pb];
    assert [pb][..0] == [];
    assert Insert(pg, [pb]) == [pg, pb];
  }

  /** The cache's state machine: no entry, an entry younger than the TTL, or an older one. */
  function CacheState(hasEntry: bool, lastUpdate: int, now: int): CacheStatus
  {
    if !hasEntry then Empty
    else if now - lastUpdate < CACHE_TTL then Fresh
    else Stale
  }

  /** An entry exactly one TTL old is stale; one a millisecond younger is still fresh. */
  lemma FreshnessBoundary(lastUpdate: int)
    ensures CacheState(true, lastUpdate, lastUpdate + CACHE_TTL) == Stale
    ensures CacheState(true, lastUpdate, lastUpdate + CACHE_TTL - 1) == Fresh
  {
  }

  /** The `.lean()` read: one new plain record per asset document. */
  method LoadDocuments(assets: seq<Asset>) returns (docs: seq<AssetDoc>)
    ensures |docs| == |assets|
    ensures forall i :: 0 <= i < |docs| ==> fresh(docs[i]) && docs[i].View() == assets[i]
    ensures forall i, j :: 0 <= i < j < |docs| ==> docs[i] != docs[j]
  {
    docs := [];
    for i := 0 to |assets|
      invariant |docs| == i
      invariant forall k :: 0 <= k < i ==> fresh(docs[k]) && docs[k].View() == assets[k]
      invariant forall k, j :: 0 <= k < j < i ==> docs[k] != docs[j]
    {
      var doc := new AssetDoc(assets[i]);
      docs := docs + [doc];
    }
  }

  /** `assets.map(asset => processAsset(asset, ...))`: enriches every record in place, keeping the order. */
  method ProcessAll(assets: seq<AssetDoc>, employeeMap: map<string, Employee>, locationMap: map<string, Location>,
                    sessionMap: seq<ProcessedSession>) returns (processed: seq<AssetDoc>)
    requires forall i, j :: 0 <= i < j < |assets| ==> assets[i] != assets[j]
    modifies set i | 0 <= i < |assets| :: assets[i]
    ensures processed == assets
    ensures forall i :: 0 <= i < |assets| ==>
      assets[i].View() == EnrichAsset(old(assets[i].View()), employeeMap, locationMap, sessionMap)
  {
    processed := [];
    for i := 0 to |assets|
      invariant processed == assets[..i]
      invariant forall j :: 0 <= j < i ==>
        assets[j].View() == EnrichAsset(old(assets[j].View()), employeeMap, locationMap, sessionMap)
      invariant forall j :: i <= j < |assets| ==> assets[j].View() == old(assets[j].View())
    {
      var asset := ProcessAsset(assets[i], employeeMap, locationMap, sessionMap);
      processed := processed + [asset];
    }
  }

  /**
   * The body of a recomputation once the reads have answered: loads the asset
   * records, builds the three lookup structures and enriches every record.
   */
  method Recompute(snap: Snapshot, parse: string -> Option<int>) returns (processed: seq<AssetDoc>)
    ensures |processed| == |snap.assets|
    ensures forall i :: 0 <= i < |processed| ==>
      fresh(processed[i]) && processed[i].View() == Enrich(snap, parse)[i]
  {
    var assets := LoadDocuments(snap.assets);
    var employeeMap := CreateEmployeeMap(snap.employees);
    var locationMap := CreateLocationMap(snap.locations);
    var sessionMap := CreateSessionMap(snap.sessions, parse);
    processed := ProcessAll(assets, employeeMap, locationMap, sessionMap);
  }

  /** The service's static state: the `cache` map and `lastCacheUpdate`. */
  class AssetsServiceOptimized {
    var cache: map<string, Payload>
    var lastCacheUpdate: int

    constructor ()
      ensures cache == map[] && lastCacheUpdate == 0
    {
      cache := map[];
      lastCacheUpdate := 0;
    }

    function State(now: int): CacheStatus
      reads this
    {
      CacheState(CACHE_KEY in cache, lastCacheUpdate, now)
    }

    /**
     * `getAllAssetsWithDetails` at time `now`: a fresh entry is returned as it
     * is; otherwise the data is read and enriched, and the result is stored
     * with `lastCacheUpdate = now`. A failing read leaves the cache alone and
     * is reported with the service's prefix.
     */
    method GetAllAssetsWithDetails(now: int, stores: Stores, parse: string -> Option<int>)
      returns (r: Result<Payload, string>)
      modifies this
      ensures old(State(now)) == Fresh ==>
        r == Ok(old(cache)[CACHE_KEY]) && cache == old(cache) && lastCacheUpdate == old(lastCacheUpdate)
      ensures old(State(now)) != Fresh && ReadAll(stores).Err? ==>
        r == Err(ERROR_PREFIX + ReadAll(stores).error) &&
        cache == old(cache) && lastCacheUpdate == old(lastCacheUpdate)
      ensures old(State(now)) != Fresh && ReadAll(stores).Ok? ==>
        r.Ok? && cache == old(cache)[CACHE_KEY := r.value] && lastCacheUpdate == now &&
        r.value.total == |ReadAll(stores).value.assets| == |r.value.assets| &&
        forall i :: 0 <= i < |r.value.assets| ==>
          fresh(r.value.assets[i]) && r.value.assets[i].View() == Enrich(ReadAll(stores).value, parse)[i]
    {
      if CACHE_KEY in cache && now - lastCacheUpdate < CACHE_TTL {
        return Ok(cache[CACHE_KEY]);
      }
      if stores.assets.Err? {
        return Err(ERROR_PREFIX + stores.assets.error);
      }
      var documents := stores.assets.value;
      // The ids are taken before any record is touched, so from the documents.
      var employeeIds := EmployeeIds(documents);
      var locationIds := LocationIds(documents);
      var employees := GetEmployeesByIds(stores.employees, employeeIds);
      var locations := GetLocationsByIds(stores.locations, locationIds);
      var sessions := stores.sessions;
      if employees.Err? {
        return Err(ERROR_PREFIX + employees.error);
      }
      if locations.Err? {
        return Err(ERROR_PREFIX + locations.error);
      }
      if sessions.Err? {
        return Err(ERROR_PREFIX + sessions.error);
      }
      var snap := Snapshot(documents, employees.value, locations.value, sessions.value);
      assert ReadAll(stores) == Ok(snap);
      var processedAssets := Recompute(snap, parse);
      var result := Payload(|processedAssets|, processedAssets);
      cache := cache[CACHE_KEY := result];
      lastCacheUpdate := now;
      r := Ok(result);
    }

    /** `clearCache`: no entry and a zero timestamp, so every later read recomputes. */
    method ClearCache()
      modifies this
      ensures cache == map[] && lastCacheUpdate == 0
      ensures forall now :: State(now) == Empty
    {
      cache := map[];
      lastCacheUpdate := 0;
    }
  }

  /**
   * Two reads less than one TTL apart, the first of which recomputes: once
   * the first has succeeded, the second returns the same object without
   * reading anything, whatever the collections hold by then.
   */
  method ReadTwiceWithinTtl(service: AssetsServiceOptimized, t1: int, t2: int,
                            stores1: Stores, stores2: Stores, parse: string -> Option<int>)
    returns (first: Result<Payload, string>, second: Result<Payload, string>)
    requires service.State(t1) != Fresh
    requires t2 - t1 < CACHE_TTL
    modifies service
    ensures first.Ok? ==> second == first
  {
    first := service.GetAllAssetsWithDetails(t1, stores1, parse);
    second := service.GetAllAssetsWithDetails(t2, stores2, parse);
  }

  /** A read right after `clearCache` always recomputes from the collections. */
  method ReadAfterClear(service: AssetsServiceOptimized, now: int, stores: Stores, parse: string -> Option<int>)
    returns (r: Result<Payload, string>)
    modifies service
    ensures r.Ok? <==> ReadAll(stores).Ok?
    ensures r.Ok? ==> |r.value.assets| == |ReadAll(stores).value.assets|
    ensures r.Ok? ==> forall i :: 0 <= i < |r.value.assets| ==>
      r.value.assets[i].View() == Enrich(ReadAll(stores).value, parse)[i]
  {
    service.ClearCache();
    r := service.GetAllAssetsWithDetails(now, stores, parse);
  }
}
