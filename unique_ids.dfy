/**
 * The distinct ids the service asks the employee and location collections
 * for: `[...new Set(assets.filter(a => a.assigned).map(a => a.assigned))]`
 * and the same over `location`.
 */
module UniqueIds {
  import opened Wrappers
  import opened Records

  predicate NoDuplicates(xs: seq<string>)
  {
    forall i, j :: 0 <= i < j < |xs| ==> xs[i] != xs[j]
  }

  /** The truthy values of `vs`, in order (`filter` then `map`). */
  function TruthyValues(vs: seq<Option<string>>): (r: seq<string>)
    ensures forall x :: x in r <==> exists i :: 0 <= i < |vs| && Truthy(vs[i]) && vs[i].value == x
  {
    if |vs| == 0 then []
    else
      var rest := TruthyValues(vs[..|vs| - 1]);
      var v := vs[|vs| - 1];
      assert forall i :: 0 <= i < |vs| - 1 ==> vs[..|vs| - 1][i] == vs[i];
      if Truthy(v) then rest + [v.value] else rest
  }

  /** Spreading a `Set` built from `xs`: each value of `xs`, once. */
  function Distinct(xs: seq<string>): (r: seq<string>)
    ensures forall x :: x in r <==> x in xs
    ensures NoDuplicates(r)
  {
    if |xs| == 0 then []
    else
      var rest := Distinct(xs[..|xs| - 1]);
      var x := xs[|xs| - 1];
      assert forall y :: y in xs <==> y in xs[..|xs| - 1] || y == x;
      if x in rest then rest else rest + [x]
  }

  /** `employeeIds`: every truthy `assigned` value, each exactly once. */
  function EmployeeIds(assets: seq<Asset>): (r: seq<string>)
    ensures forall x :: x in r <==>
      exists i :: 0 <= i < |assets| && Truthy(assets[i].assignee) && assets[i].assignee.value == x
    ensures NoDuplicates(r)
  {
    var assignees := seq(|assets|, i requires 0 <= i < |assets| => assets[i].assignee);
    assert forall i :: 0 <= i < |assets| ==> assignees[i] == assets[i].assignee;
    Distinct(TruthyValues(assignees))
  }

  /** `locationIds`: every truthy `location` value, each exactly once. */
  function LocationIds(assets: seq<Asset>): (r: seq<string>)
    ensures forall x :: x in r <==>
      exists i :: 0 <= i < |assets| && Truthy(assets[i].location) && assets[i].location.value == x
    ensures NoDuplicates(r)
  {
    var locations := seq(|assets|, i requires 0 <= i < |assets| => assets[i].location);
    assert forall i :: 0 <= i < |assets| ==> locations[i] == assets[i].location;
    Distinct(TruthyValues(locations))
  }
}
