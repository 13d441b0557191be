/**
 * The fetched subsets of employees and locations, and the dictionaries the
 * service builds over them (`createEmployeeMap`, `createLocationMap`).
 */
module LookupMaps {
  import opened Records

  function EmployeeKey(e: Employee): string { e.id }

  function LocationKey(l: Location): string { l.id }

  /**
   * The dictionary `{[idOf(x)]: x}` filled left to right, so that of several
   * items with the same id the last one is kept.
   */
  function IndexById<T>(items: seq<T>, idOf: T -> string): map<string, T>
  {
    if |items| == 0 then map[]
    else IndexById(items[..|items| - 1], idOf)[idOf(items[|items| - 1]) := items[|items| - 1]]
  }

  /** The dictionary's keys are exactly the items' ids. */
  lemma {:induction false} IndexByIdKeys<T>(items: seq<T>, idOf: T -> string, k: string)
    ensures k in IndexById(items, idOf) <==> exists i :: 0 <= i < |items| && idOf(items[i]) == k
  {
    if |items| > 0 {
      var prefix := items[..|items| - 1];
      IndexByIdKeys(prefix, idOf, k);
      assert forall i :: 0 <= i < |prefix| ==> prefix[i] == items[i];
      if k == idOf(items[|items| - 1]) {
        assert idOf(items[|items| - 1]) == k;
      }
    }
  }

  /** An item that no later item shares its id with is the one its id maps to. */
  lemma {:induction false} IndexByIdLastWins<T>(items: seq<T>, idOf: T -> string, i: nat)
    requires i < |items|
    requires forall j :: i < j < |items| ==> idOf(items[j]) != idOf(items[i])
    ensures idOf(items[i]) in IndexById(items, idOf)
    ensures IndexById(items, idOf)[idOf(items[i])] == items[i]
  {
    if i < |items| - 1 {
      var prefix := items[..|items| - 1];
      assert forall j :: i < j < |prefix| ==> prefix[j] == items[j];
      IndexByIdLastWins(prefix, idOf, i);
    }
  }

  /**
   * The documents of a collection, in its natural order, whose id is one of
   * `ids` (a `find({_id: {$in: ids}})`).
   */
  function FilterByIds<T>(items: seq<T>, ids: seq<string>, idOf: T -> string): seq<T>
  {
    if |items| == 0 then []
    else
      var rest := FilterByIds(items[..|items| - 1], ids, idOf);
      var last := items[|items| - 1];
      if idOf(last) in ids then rest + [last] else rest
  }

  /** The filtered read holds exactly the documents whose id is requested. */
  lemma {:induction false} FilterByIdsMembers<T>(items: seq<T>, ids: seq<string>, idOf: T -> string)
    ensures forall i :: 0 <= i < |FilterByIds(items, ids, idOf)| ==>
      FilterByIds(items, ids, idOf)[i] in items && idOf(FilterByIds(items, ids, idOf)[i]) in ids
    ensures forall i :: 0 <= i < |items| && idOf(items[i]) in ids ==> items[i] in FilterByIds(items, ids, idOf)
  {
    if |items| > 0 {
      var prefix := items[..|items| - 1];
      assert items == prefix + [items[|items| - 1]];
      FilterByIdsMembers(prefix, ids, idOf);
    }
  }

  /**
   * For a requested id, indexing the fetched subset gives the same answer as
   * indexing the whole collection: the entry is there exactly when the
   * collection holds that id, and it is the collection's last such document.
   */
  lemma {:induction false} IndexOfFiltered<T>(items: seq<T>, ids: seq<string>, idOf: T -> string, k: string)
    requires k in ids
    ensures (k in IndexById(FilterByIds(items, ids, idOf), idOf)) <==> (k in IndexById(items, idOf))
    ensures k in IndexById(items, idOf) ==>
      IndexById(FilterByIds(items, ids, idOf), idOf)[k] == IndexById(items, idOf)[k]
  {
    if |items| > 0 {
      var prefix := items[..|items| - 1];
      var last := items[|items| - 1];
      assert items == prefix + [last];
      IndexOfFiltered(prefix, ids, idOf, k);
      IndexByIdSnoc(prefix, last, idOf);
      var rest := FilterByIds(prefix, ids, idOf);
      if idOf(last) in ids {
        assert FilterByIds(items, ids, idOf) == rest + [last];
        IndexByIdSnoc(rest, last, idOf);
      } else {
        assert FilterByIds(items, ids, idOf) == rest;
      }
    }
  }

  /** Appending an item overwrites, or adds, the entry of its id. */
  lemma IndexByIdSnoc<T>(items: seq<T>, x: T, idOf: T -> string)
    ensures IndexById(items + [x], idOf) == IndexById(items, idOf)[idOf(x) := x]
  {
    assert (items + [x])[..|items|] == items;
  }

  /** `createEmployeeMap`: a `forEach` that stores each employee under its `_id`. */
  method CreateEmployeeMap(employees: seq<Employee>) returns (m: map<string, Employee>)
    ensures m == IndexById(employees, EmployeeKey)
  {
    m := map[];
    for i := 0 to |employees|
      invariant m == IndexById(employees[..i], EmployeeKey)
    {
      assert employees[..i + 1][..i] == employees[..i];
      m := m[employees[i].id := employees[i]];
    }
    assert employees[..|employees|] == employees;
  }

  /** `createLocationMap`: a `forEach` that stores each location under its `_id`. */
  method CreateLocationMap(locations: seq<Location>) returns (m: map<string, Location>)
    ensures m == IndexById(locations, LocationKey)
  {
    m := map[];
    for i := 0 to |locations|
      invariant m == IndexById(locations[..i], LocationKey)
    {
      assert locations[..i + 1][..i] == locations[..i];
      m := m[locations[i].id := locations[i]];
    }
    assert locations[..|locations|] == locations;
  }
}
