/**
 * The records the asset service reads and writes, shaped after the
 * mongoose schemas of employees, locations and inventory sessions, and
 * after the projection of asset fields the service requests.
 * Database ObjectIds are modelled as their string form (`toString()`).
 */
module Records {
  import opened Wrappers

  /** An employee document: `_id`, `employee_id`, `name`, `lastName`. */
  datatype Employee = Employee(id: string, employee_id: string, name: string, lastName: string)

  /**
   * A location document: `_id`, `name`, `profileLevel`. The schema default of
   * `profileLevel` is not applied to a `lean()` read, so the key may be missing.
   */
  datatype Location = Location(id: string, name: string, profileLevel: Option<int>)

  /** One entry of a session's `assets` list: the asset's `_id` and its optional `status`. */
  datatype SessionItem = SessionItem(id: string, status: Option<string>)

  /** An inventory session document; `creation` is text of the form "DD/MM/YYYY HH:mm:ss". */
  datatype Session = Session(
    sessionId: string,
    status: string,
    appUser: string,
    creation: string,
    assets: seq<SessionItem>)

  /** A session spread into a new object together with its parsed `creationDate` (milliseconds). */
  datatype ProcessedSession = ProcessedSession(session: Session, creationDate: int)

  /** A custom field, `{values: {fieldName, initialValue}}`. */
  datatype Field = Field(fieldName: string, initialValue: string)

  /** One tab of `customFieldsTab`: its key and its `left` field list. */
  datatype CustomTab = CustomTab(key: string, left: seq<Field>)

  /**
   * A present `customFieldsTab` value: an object of tabs, or a falsy value
   * (`null`, `false`, `0`, `""`), which `processCustomFields` leaves alone.
   */
  datatype TabsValue = Tabs(tabs: seq<CustomTab>) | FalsyTabs

  /**
   * The `lastSession` object attached to an asset: either the four keys taken
   * from the most recent session that lists the asset, or `{Status: "N/A"}`.
   */
  datatype LastSessionInfo =
    | SessionInfo(sessionId: string, Status: Option<string>, UserAF: string, SessionDate: string)
    | NotAvailable

  /** The value of the `Status` key of a `lastSession` object. */
  function StatusOf(info: LastSessionInfo): Option<string>
  {
    match info
    case SessionInfo(_, status, _, _) => status
    case NotAvailable => Some("N/A")
  }

  /**
   * The keys of an asset record that the service reads or writes; the
   * descriptive fields (name, brand, serial, EPC, ...) pass through untouched
   * and are not represented. `customFieldsTab` lists the tabs in the order
   * `Object.keys` yields them. The enriched keys are absent (None) on a record
   * fresh from the database.
   */
  datatype Asset = Asset(
    id: string,
    assignee: Option<string>,    // the `assigned` key (`assigned` is a Dafny keyword)
    location: Option<string>,
    customFieldsTab: Option<TabsValue>,
    employee_id: Option<string>,
    employee_name: Option<string>,
    location_Name: Option<string>,
    location_Level: Option<int>,
    soc: Option<string>,
    SelectedStatus: Option<string>,
    lastSession: Option<LastSessionInfo>)

  /** JavaScript truthiness of an id-valued key: present and not the empty string. */
  predicate Truthy(v: Option<string>)
  {
    v.Some? && v.value != ""
  }
}
