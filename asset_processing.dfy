/**
 * `processAsset` and its helpers `processCustomFields` and
 * `addLastSessionInfo`, which enrich one asset record in place.
 */
module AssetProcessing {
  import opened Wrappers
  import opened Records
  import opened SessionOrder
  import opened SessionLookup

  const SOC_FIELD: string := "SOC."
  const STATUS_FIELD: string := "STATUS"

  /** An asset record as the database read hands it out: a mutable object. */
  class AssetDoc {
    var id: string
    var assignee: Option<string>
    var location: Option<string>
    var customFieldsTab: Option<TabsValue>
    var employee_id: Option<string>
    var employee_name: Option<string>
    var location_Name: Option<string>
    var location_Level: Option<int>
    var soc: Option<string>
    var SelectedStatus: Option<string>
    var lastSession: Option<LastSessionInfo>

    /** The record's current keys as a value. */
    function View(): Asset
      reads this
    {
      Asset(id, assignee, location, customFieldsTab, employee_id, employee_name,
            location_Name, location_Level, soc, SelectedStatus, lastSession)
    }

    constructor (a: Asset)
      ensures View() == a
    {
      id, assignee, location, customFieldsTab := a.id, a.assignee, a.location, a.customFieldsTab;
      employee_id, employee_name := a.employee_id, a.employee_name;
      location_Name, location_Level := a.location_Name, a.location_Level;
      soc, SelectedStatus, lastSession := a.soc, a.SelectedStatus, a.lastSession;
    }
  }

  /** The employee keys: set only when `assigned` is truthy and found in the map. */
  function WithEmployee(a: Asset, employeeMap: map<string, Employee>): Asset
  {
    if Truthy(a.assignee) && a.assignee.value in employeeMap then
      var e := employeeMap[a.assignee.value];
      a.(employee_id := Some(e.employee_id), employee_name := Some(e.name + " " + e.lastName))
    else a
  }

  /** The location keys: set only when `location` is truthy and found in the map. */
  function WithLocation(a: Asset, locationMap: map<string, Location>): Asset
  {
    if Truthy(a.location) && a.location.value in locationMap then
      var l := locationMap[a.location.value];
      a.(location_Name := Some(l.name), location_Level := l.profileLevel)
    else a
  }

  /** The fields of all tabs in the order the nested loops visit them: tab by tab, each `left` in order. */
  function Flatten(tabs: seq<CustomTab>): seq<Field>
  {
    if |tabs| == 0 then [] else Flatten(tabs[..|tabs| - 1]) + tabs[|tabs| - 1].left
  }

  /** The value a loop assigning on every field named `name` leaves behind, starting from `current`. */
  function LastValue(fields: seq<Field>, name: string, current: Option<string>): Option<string>
  {
    if |fields| == 0 then current
    else if fields[|fields| - 1].fieldName == name then Some(fields[|fields| - 1].initialValue)
    else LastValue(fields[..|fields| - 1], name, current)
  }

  /** The last field named `name` decides the value. */
  lemma {:induction false} LastValueIsLastMatch(fields: seq<Field>, name: string, current: Option<string>, k: nat)
    requires k < |fields| && fields[k].fieldName == name
    requires forall m :: k < m < |fields| ==> fields[m].fieldName != name
    ensures LastValue(fields, name, current) == Some(fields[k].initialValue)
  {
    if k < |fields| - 1 {
      LastValueIsLastMatch(fields[..|fields| - 1], name, current, k);
    }
  }

  /** Without a field named `name` the value is kept. */
  lemma {:induction false} LastValueNoMatch(fields: seq<Field>, name: string, current: Option<string>)
    requires forall m :: 0 <= m < |fields| ==> fields[m].fieldName != name
    ensures LastValue(fields, name, current) == current
  {
    if |fields| > 0 {
      LastValueNoMatch(fields[..|fields| - 1], name, current);
    }
  }

  /** Scanning `first + second` is scanning `second` starting from the value `first` leaves. */
  lemma {:induction false} LastValueAppend(first: seq<Field>, second: seq<Field>, name: string, current: Option<string>)
    ensures LastValue(first + second, name, current) == LastValue(second, name, LastValue(first, name, current))
  {
    if |second| == 0 {
      assert first + second == first;
    } else {
      var init := second[..|second| - 1];
      assert (first + second)[..|first + second| - 1] == first + init;
      LastValueAppend(first, init, name, current);
    }
  }

  /** `processCustomFields` on the value: with a truthy tab object, copy `SOC.` and `STATUS` and drop the key. */
  function WithCustomFields(a: Asset): Asset
  {
    match a.customFieldsTab
    case None => a
    case Some(FalsyTabs) => a
    case Some(Tabs(tabs)) =>
      a.(soc := LastValue(Flatten(tabs), SOC_FIELD, a.soc),
         SelectedStatus := LastValue(Flatten(tabs), STATUS_FIELD, a.SelectedStatus),
         customFieldsTab := None)
  }

  /**
   * The `lastSession` object of asset `id` against the sorted session list:
   * `{Status: "N/A"}` when no session lists the asset; otherwise the keys of
   * the first session that does, with the status of its first matching item.
   */
  function LastSessionOf(sessionMap: seq<ProcessedSession>, id: string): (info: LastSessionInfo)
    ensures info == NotAvailable <==> forall j :: 0 <= j < |sessionMap| ==> !HasAsset(sessionMap[j].session.assets, id)
    ensures info.SessionInfo? ==> exists j :: 0 <= j < |sessionMap| &&
                                            (forall k :: 0 <= k < j ==> !HasAsset(sessionMap[k].session.assets, id)) &&
                                            HasAsset(sessionMap[j].session.assets, id) &&
                                            info == SessionInfoOf(sessionMap[j].session, id)
  {
    match FindSession(sessionMap, id)
    case None => NotAvailable
    case Some(found) => SessionInfoOf(found.session, id)
  }

  /** The keys `sessionId`, `Status`, `UserAF`, `SessionDate` taken from a session listing asset `id`. */
  function SessionInfoOf(s: Session, id: string): LastSessionInfo
    requires HasAsset(s.assets, id)
  {
    SessionInfo(s.sessionId, FindItem(s.assets, id).value.status, s.appUser, s.creation)
  }

  function WithLastSession(a: Asset, sessionMap: seq<ProcessedSession>): Asset
  {
    a.(lastSession := Some(LastSessionOf(sessionMap, a.id)))
  }

  /** `processAsset` on the value: employee, location, custom fields, last session, in that order. */
  function EnrichAsset(a: Asset, employeeMap: map<string, Employee>, locationMap: map<string, Location>,
                       sessionMap: seq<ProcessedSession>): Asset
  {
    WithLastSession(WithCustomFields(WithLocation(WithEmployee(a, employeeMap), locationMap)), sessionMap)
  }

  /**
   * Each step of `processAsset` writes only its own keys: the employee and
   * location keys of the result are those the first two steps set, and the
   * custom-field and session keys are those the last two steps set.
   */
  lemma EnrichAssetKeys(a: Asset, employeeMap: map<string, Employee>, locationMap: map<string, Location>,
                        sessionMap: seq<ProcessedSession>)
    ensures var out := EnrichAsset(a, employeeMap, locationMap, sessionMap);
      && out.id == a.id && out.assignee == a.assignee && out.location == a.location
      && out.employee_id == WithEmployee(a, employeeMap).employee_id
      && out.employee_name == WithEmployee(a, employeeMap).employee_name
      && out.location_Name == WithLocation(a, locationMap).location_Name
      && out.location_Level == WithLocation(a, locationMap).location_Level
      && out.customFieldsTab == WithCustomFields(a).customFieldsTab
      && out.soc == WithCustomFields(a).soc
      && out.SelectedStatus == WithCustomFields(a).SelectedStatus
      && out.lastSession == Some(LastSessionOf(sessionMap, a.id))
  {
  }

  /** The inner loop of `processCustomFields`: one tab's `left` fields, in order. */
  method CopyNamedFields(asset: AssetDoc, left: seq<Field>)
    modifies asset
    ensures asset.soc == LastValue(left, SOC_FIELD, old(asset.soc))
    ensures asset.SelectedStatus == LastValue(left, STATUS_FIELD, old(asset.SelectedStatus))
    ensures asset.View() == old(asset.View()).(soc := asset.soc, SelectedStatus := asset.SelectedStatus)
  {
    for f := 0 to |left|
      invariant asset.soc == LastValue(left[..f], SOC_FIELD, old(asset.soc))
      invariant asset.SelectedStatus == LastValue(left[..f], STATUS_FIELD, old(asset.SelectedStatus))
      invariant asset.View() == old(asset.View()).(soc := asset.soc, SelectedStatus := asset.SelectedStatus)
    {
      assert left[..f + 1][..f] == left[..f];
      if left[f].fieldName == SOC_FIELD {
        asset.soc := Some(left[f].initialValue);
      }
      if left[f].fieldName == STATUS_FIELD {
        asset.SelectedStatus := Some(left[f].initialValue);
      }
    }
    assert left[..|left|] == left;
  }

  /** `processCustomFields`: nested loops over the tabs and their `left` fields, then `delete`. */
  method ProcessCustomFields(asset: AssetDoc)
    modifies asset
    ensures asset.View() == WithCustomFields(old(asset.View()))
  {
    var customFieldsTab := asset.customFieldsTab;
    if customFieldsTab.Some? && customFieldsTab.value.Tabs? {
      var tabs := customFieldsTab.value.tabs;
      for t := 0 to |tabs|
        invariant asset.soc == LastValue(Flatten(tabs[..t]), SOC_FIELD, old(asset.soc))
        invariant asset.SelectedStatus == LastValue(Flatten(tabs[..t]), STATUS_FIELD, old(asset.SelectedStatus))
        invariant asset.View() == old(asset.View()).(soc := asset.soc, SelectedStatus := asset.SelectedStatus)
      {
        assert tabs[..t + 1][..t] == tabs[..t];
        LastValueAppend(Flatten(tabs[..t]), tabs[t].left, SOC_FIELD, old(asset.soc));
        LastValueAppend(Flatten(tabs[..t]), tabs[t].left, STATUS_FIELD, old(asset.SelectedStatus));
        CopyNamedFields(asset, tabs[t].left);
      }
      assert tabs[..|tabs|] == tabs;
      asset.customFieldsTab := None;
    }
  }

  /** `addLastSessionInfo`: a `find` over the sorted sessions, then a `find` over that session's items. */
  method AddLastSessionInfo(asset: AssetDoc, sessionMap: seq<ProcessedSession>)
    modifies asset
    ensures asset.View() == WithLastSession(old(asset.View()), sessionMap)
  {
    var lastSession := FindSession(sessionMap, asset.id);
    if lastSession.Some? {
      var s := lastSession.value.session;
      var lastAsset := FindItem(s.assets, asset.id);
      if lastAsset.Some? {
        asset.lastSession := Some(SessionInfo(s.sessionId, lastAsset.value.status, s.appUser, s.creation));
      }
    } else {
      asset.lastSession := Some(NotAvailable);
    }
  }

  /** `processAsset`: enriches the record in place and returns the same record. */
  method ProcessAsset(asset: AssetDoc, employeeMap: map<string, Employee>, locationMap: map<string, Location>,
                      sessionMap: seq<ProcessedSession>) returns (processed: AssetDoc)
    modifies asset
    ensures processed == asset
    ensures asset.View() == EnrichAsset(old(asset.View()), employeeMap, locationMap, sessionMap)
  {
    ghost var original := asset.View();
    if Truthy(asset.assignee) && asset.assignee.value in employeeMap {
      var employee := employeeMap[asset.assignee.value];
      asset.employee_id := Some(employee.employee_id);
      asset.employee_name := Some(employee.name + " " + employee.lastName);
    }
    assert asset.View() == WithEmployee(original, employeeMap);
    if Truthy(asset.location) && asset.location.value in locationMap {
      var location := locationMap[asset.location.value];
      asset.location_Name := Some(location.name);
      asset.location_Level := location.profileLevel;
    }
    assert asset.View() == WithLocation(WithEmployee(original, employeeMap), locationMap);
    ProcessCustomFields(asset);
    AddLastSessionInfo(asset, sessionMap);
    processed := asset;
  }
}
