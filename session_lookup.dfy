/**
 * The search behind `addLastSessionInfo`: the first session of the sorted
 * list whose `assets` contain the asset, and in it the first matching item.
 */
module SessionLookup {
  import opened Wrappers
  import opened Records
  import opened SessionOrder

  /** `items.some(item => item._id.toString() === id)`. */
  predicate HasAsset(items: seq<SessionItem>, id: string)
  {
    exists j :: 0 <= j < |items| && items[j].id == id
  }

  /** `items.find(item => item._id.toString() === id)`. */
  function FindItem(items: seq<SessionItem>, id: string): (r: Option<SessionItem>)
    ensures r.None? <==> !HasAsset(items, id)
    ensures r.Some? ==> exists j :: 0 <= j < |items| && items[j] == r.value && items[j].id == id &&
                                 (forall k :: 0 <= k < j ==> items[k].id != id)
  {
    if |items| == 0 then None
    else if items[0].id == id then Some(items[0])
    else
      var r := FindItem(items[1..], id);
      assert forall j :: 0 < j < |items| ==> items[j] == items[1..][j - 1];
      r
  }

  /** `sessions.find(session => session.assets.some(...))`. */
  function FindSession(sessions: seq<ProcessedSession>, id: string): (r: Option<ProcessedSession>)
    ensures r.None? <==> forall j :: 0 <= j < |sessions| ==> !HasAsset(sessions[j].session.assets, id)
    ensures r.Some? ==> HasAsset(r.value.session.assets, id)
    ensures r.Some? ==> exists j :: 0 <= j < |sessions| && sessions[j] == r.value &&
                                 (forall k :: 0 <= k < j ==> !HasAsset(sessions[k].session.assets, id))
  {
    if |sessions| == 0 then None
    else if HasAsset(sessions[0].session.assets, id) then Some(sessions[0])
    else
      var r := FindSession(sessions[1..], id);
      assert forall j :: 0 < j < |sessions| ==> sessions[j] == sessions[1..][j - 1];
      r
  }

  /**
   * An independent reference for "the most recent session listing the asset":
   * one pass over the sessions in fetch order that replaces its candidate only
   * by a strictly newer one, so the earliest of equally new sessions wins.
   */
  function MostRecent(sessions: seq<ProcessedSession>, id: string): (r: Option<ProcessedSession>)
    ensures r.Some? ==> HasAsset(r.value.session.assets, id)
  {
    if |sessions| == 0 then None
    else
      var best := MostRecent(sessions[..|sessions| - 1], id);
      var s := sessions[|sessions| - 1];
      if HasAsset(s.session.assets, id) && (best.None? || s.creationDate > best.value.creationDate)
      then Some(s)
      else best
  }

  /**
   * The reference picks a session listing the asset whenever one exists; its
   * `creationDate` is the greatest among those sessions, and every session
   * listing the asset that comes before it in fetch order is strictly older.
   */
  lemma {:induction false} MostRecentIsNewestEarliest(sessions: seq<ProcessedSession>, id: string)
    ensures MostRecent(sessions, id).None? <==> forall j :: 0 <= j < |sessions| ==> !HasAsset(sessions[j].session.assets, id)
    ensures MostRecent(sessions, id).Some? ==>
      var best := MostRecent(sessions, id).value;
      HasAsset(best.session.assets, id) &&
      exists i :: 0 <= i < |sessions| && sessions[i] == best &&
        (forall j :: 0 <= j < |sessions| && HasAsset(sessions[j].session.assets, id) ==>
           sessions[j].creationDate <= best.creationDate) &&
        (forall j :: 0 <= j < i && HasAsset(sessions[j].session.assets, id) ==>
           sessions[j].creationDate < best.creationDate)
  {
    if |sessions| > 0 {
      var prefix := sessions[..|sessions| - 1];
      var s := sessions[|sessions| - 1];
      MostRecentIsNewestEarliest(prefix, id);
      assert forall j :: 0 <= j < |prefix| ==> prefix[j] == sessions[j];
      var best := MostRecent(prefix, id);
      if HasAsset(s.session.assets, id) && (best.None? || s.creationDate > best.value.creationDate) {
        assert MostRecent(sessions, id) == Some(s);
        var i := |sessions| - 1;
        assert sessions[i] == s;
        if best.Some? {
          var i' :| 0 <= i' < |prefix| && prefix[i'] == best.value &&
            (forall j :: 0 <= j < |prefix| && HasAsset(prefix[j].session.assets, id) ==>
               prefix[j].creationDate <= best.value.creationDate);
        }
      } else {
        assert MostRecent(sessions, id) == best;
        if best.Some? {
          var i :| 0 <= i < |prefix| && prefix[i] == best.value &&
            (forall j :: 0 <= j < |prefix| && HasAsset(prefix[j].session.assets, id) ==>
               prefix[j].creationDate <= best.value.creationDate) &&
            (forall j :: 0 <= j < i && HasAsset(prefix[j].session.assets, id) ==>
               prefix[j].creationDate < best.value.creationDate);
          assert sessions[i] == best.value;
        }
      }
    }
  }

  lemma {:induction false} FindSessionSnoc(s: seq<ProcessedSession>, y: ProcessedSession, id: string)
    ensures FindSession(s + [y], id) ==
      if FindSession(s, id).Some? then FindSession(s, id)
      else if HasAsset(y.session.assets, id) then Some(y)
      else None
  {
    if |s| > 0 {
      assert (s + [y])[1..] == s[1..] + [y];
      FindSessionSnoc(s[1..], y, id);
    }
  }

  /** Appending a session no newer than the whole list changes the first match only where there was none. */
  lemma FindSessionAppendOlder(x: ProcessedSession, s: seq<ProcessedSession>, id: string)
    requires SortedDesc(s) && |s| > 0 && s[|s| - 1].creationDate >= x.creationDate
    ensures FindSession(s + [x], id) ==
      var found := FindSession(s, id);
      if HasAsset(x.session.assets, id) && (found.None? || x.creationDate > found.value.creationDate)
      then Some(x)
      else found
  {
    FindSessionSnoc(s, x, id);
    var found := FindSession(s, id);
    if found.Some? {
      var j :| 0 <= j < |s| && s[j] == found.value;
      assert found.value.creationDate >= s[|s| - 1].creationDate;
    }
  }

  /** Inserting one session into a newest-first list changes the first match only if it is newer. */
  lemma {:induction false} FindSessionInsert(x: ProcessedSession, s: seq<ProcessedSession>, id: string)
    requires SortedDesc(s)
    ensures FindSession(Insert(x, s), id) ==
      var found := FindSession(s, id);
      if HasAsset(x.session.assets, id) && (found.None? || x.creationDate > found.value.creationDate)
      then Some(x)
      else found
  {
    if |s| == 0 {
      FindSessionSnoc([], x, id);
    } else if s[|s| - 1].creationDate >= x.creationDate {
      FindSessionAppendOlder(x, s, id);
    } else {
      var prefix := s[..|s| - 1];
      var y := s[|s| - 1];
      assert s == prefix + [y];
      assert Insert(x, s) == Insert(x, prefix) + [y];
      assert SortedDesc(prefix);
      FindSessionInsert(x, prefix, id);
      FindSessionInsertNewer(x, prefix, y, id);
    }
  }

  /** The step of `FindSessionInsert` where `x` is placed in front of an older last element `y`. */
  lemma FindSessionInsertNewer(x: ProcessedSession, prefix: seq<ProcessedSession>, y: ProcessedSession, id: string)
    requires y.creationDate < x.creationDate
    requires FindSession(Insert(x, prefix), id) ==
      var found := FindSession(prefix, id);
      if HasAsset(x.session.assets, id) && (found.None? || x.creationDate > found.value.creationDate)
      then Some(x)
      else found
    ensures FindSession(Insert(x, prefix) + [y], id) ==
      var found := FindSession(prefix + [y], id);
      if HasAsset(x.session.assets, id) && (found.None? || x.creationDate > found.value.creationDate)
      then Some(x)
      else found
  {
    FindSessionSnoc(prefix, y, id);
    FindSessionSnoc(Insert(x, prefix), y, id);
  }

  /**
   * The first match in the sorted list is the reference's answer: scanning
   * the newest-first stable order and picking the newest, earliest-fetched
   * session in one pass agree on every input.
   */
  lemma {:induction false} FindSortedIsMostRecent(sessions: seq<ProcessedSession>, id: string)
    ensures FindSession(SortDesc(sessions), id) == MostRecent(sessions, id)
  {
    if |sessions| > 0 {
      var prefix := sessions[..|sessions| - 1];
      FindSortedIsMostRecent(prefix, id);
      SortDescSorted(prefix);
      FindSessionInsert(sessions[|sessions| - 1], SortDesc(prefix), id);
    }
  }
}
