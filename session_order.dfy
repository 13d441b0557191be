/**
 * `createSessionMap`: every session gets a `creationDate` parsed from its
 * `creation` text (epoch 0 when the text does not parse), and the resulting
 * array is sorted in place, newest first, by a stable sort.
 */
module SessionOrder {
  import opened Wrappers
  import opened Records

  /**
   * The parsed creation time in milliseconds; `parse` stands for
   * `moment(creation, 'DD/MM/YYYY HH:mm:ss').toDate()` and answers None where
   * that yields an invalid date, which the service replaces by `new Date(0)`.
   */
  function CreationDate(creation: string, parse: string -> Option<int>): int
  {
    match parse(creation)
    case None => 0
    case Some(t) => t
  }

  /** The `sessions.map(...)` that spreads each session and adds its `creationDate`. */
  function Timestamped(sessions: seq<Session>, parse: string -> Option<int>): seq<ProcessedSession>
  {
    seq(|sessions|, i requires 0 <= i < |sessions| =>
      ProcessedSession(sessions[i], CreationDate(sessions[i].creation, parse)))
  }

  /** Newest first: `creationDate` never increases along the sequence. */
  predicate SortedDesc(s: seq<ProcessedSession>)
  {
    forall i, j :: 0 <= i < j < |s| ==> s[i].creationDate >= s[j].creationDate
  }

  /** The elements of `s` whose `creationDate` is `d`, in their order in `s`. */
  function SameDate(s: seq<ProcessedSession>, d: int): seq<ProcessedSession>
  {
    if |s| == 0 then []
    else
      var rest := SameDate(s[..|s| - 1], d);
      if s[|s| - 1].creationDate == d then rest + [s[|s| - 1]] else rest
  }

  /**
   * Places `x` behind every element of `s` whose `creationDate` is at least
   * its own, walking from the back: the step of a stable insertion sort with
   * the comparator `(a, b) => b.creationDate - a.creationDate`.
   */
  function Insert(x: ProcessedSession, s: seq<ProcessedSession>): seq<ProcessedSession>
  {
    if |s| == 0 then [x]
    else if s[|s| - 1].creationDate >= x.creationDate then s + [x]
    else Insert(x, s[..|s| - 1]) + [s[|s| - 1]]
  }

  /** The stable newest-first order of `s`. */
  function SortDesc(s: seq<ProcessedSession>): seq<ProcessedSession>
  {
    if |s| == 0 then [] else Insert(s[|s| - 1], SortDesc(s[..|s| - 1]))
  }

  lemma {:induction false} InsertPermutes(x: ProcessedSession, s: seq<ProcessedSession>)
    ensures multiset(Insert(x, s)) == multiset(s) + multiset{x}
  {
    if |s| > 0 && s[|s| - 1].creationDate < x.creationDate {
      var prefix, y := s[..|s| - 1], s[|s| - 1];
      InsertPermutes(x, prefix);
      assert Insert(x, s) == Insert(x, prefix) + [y];
      assert s == prefix + [y];
      assert multiset(s) == multiset(prefix) + multiset{y};
    }
  }

  /** The sort returns a permutation of its input. */
  lemma {:induction false} SortDescPermutes(s: seq<ProcessedSession>)
    ensures multiset(SortDesc(s)) == multiset(s)
  {
    if |s| > 0 {
      var prefix, x := s[..|s| - 1], s[|s| - 1];
      SortDescPermutes(prefix);
      InsertPermutes(x, SortDesc(prefix));
      assert SortDesc(s) == Insert(x, SortDesc(prefix));
      assert s == prefix + [x];
      assert multiset(s) == multiset(prefix) + multiset{x};
    }
  }

  lemma {:induction false} InsertSorted(x: ProcessedSession, s: seq<ProcessedSession>)
    requires SortedDesc(s)
    ensures SortedDesc(Insert(x, s))
  {
    if |s| > 0 && s[|s| - 1].creationDate < x.creationDate {
      var prefix := s[..|s| - 1];
      var y := s[|s| - 1];
      InsertSorted(x, prefix);
      InsertPermutes(x, prefix);
      var t := Insert(x, prefix);
      forall i | 0 <= i < |t|
        ensures t[i].creationDate >= y.creationDate
      {
        assert t[i] in multiset(t);
        assert t[i] in multiset(prefix) || t[i] == x;
      }
    }
  }

  /** The sort returns its input newest first. */
  lemma {:induction false} SortDescSorted(s: seq<ProcessedSession>)
    ensures SortedDesc(SortDesc(s))
  {
    if |s| > 0 {
      SortDescSorted(s[..|s| - 1]);
      InsertSorted(s[|s| - 1], SortDesc(s[..|s| - 1]));
    }
  }

  lemma {:induction false} SameDateAppend(a: seq<ProcessedSession>, b: seq<ProcessedSession>, d: int)
    ensures SameDate(a + b, d) == SameDate(a, d) + SameDate(b, d)
  {
    if |b| > 0 {
      var b' := b[..|b| - 1];
      assert (a + b)[..|a + b| - 1] == a + b';
      SameDateAppend(a, b', d);
    } else {
      assert a + b == a;
    }
  }

  lemma {:induction false} InsertSameDate(x: ProcessedSession, s: seq<ProcessedSession>, d: int)
    ensures SameDate(Insert(x, s), d) == SameDate(s, d) + (if x.creationDate == d then [x] else [])
  {
    if |s| == 0 {
    } else if s[|s| - 1].creationDate >= x.creationDate {
      SameDateAppend(s, [x], d);
    } else {
      var prefix := s[..|s| - 1];
      var y := s[|s| - 1];
      InsertSameDate(x, prefix, d);
      SameDateAppend(Insert(x, prefix), [y], d);
      assert s == prefix + [y];
      SameDateAppend(prefix, [y], d);
      // y sorts after x, so y and x never share the date d.
      assert y.creationDate == d ==> x.creationDate != d;
    }
  }

  /** The sort is stable: sessions with the same `creationDate` keep their input order. */
  lemma {:induction false} SortDescStable(s: seq<ProcessedSession>, d: int)
    ensures SameDate(SortDesc(s), d) == SameDate(s, d)
  {
    if |s| > 0 {
      var prefix := s[..|s| - 1];
      SortDescStable(prefix, d);
      InsertSameDate(s[|s| - 1], SortDesc(prefix), d);
    }
  }

  /**
   * Where the insertion lands: behind a newer-or-equal `prefix[j - 1]` and in
   * front of an older run `prefix[j..]`.
   */
  lemma {:induction false} InsertPosition(x: ProcessedSession, prefix: seq<ProcessedSession>, j: nat)
    requires j <= |prefix|
    requires j > 0 ==> prefix[j - 1].creationDate >= x.creationDate
    requires forall k :: j <= k < |prefix| ==> prefix[k].creationDate < x.creationDate
    ensures Insert(x, prefix) == prefix[..j] + [x] + prefix[j..]
    decreases |prefix|
  {
    if j < |prefix| {
      var init, last := prefix[..|prefix| - 1], prefix[|prefix| - 1];
      InsertPosition(x, init, j);
      assert init[..j] == prefix[..j];
      assert prefix[j..] == init[j..] + [last];
    }
  }

  /**
   * The inner loop of the insertion: moves the elements older than `a[i]`
   * one place back and returns the free slot.
   */
  method ShiftOlder(a: array<ProcessedSession>, i: nat) returns (j: nat)
    requires i < a.Length
    modifies a
    ensures j <= i
    ensures j > 0 ==> old(a[j - 1]).creationDate >= old(a[i]).creationDate
    ensures forall k :: j <= k < i ==> old(a[k]).creationDate < old(a[i]).creationDate
    ensures forall k :: 0 <= k < j ==> a[k] == old(a[k])
    ensures forall k :: j < k <= i ==> a[k] == old(a[k - 1])
    ensures forall k :: i < k < a.Length ==> a[k] == old(a[k])
  {
    var x := a[i];
    j := i;
    while j > 0 && a[j - 1].creationDate < x.creationDate
      invariant j <= i
      invariant forall k :: 0 <= k < j ==> a[k] == old(a[k])
      invariant forall k :: j < k <= i ==> a[k] == old(a[k - 1])
      invariant forall k :: i < k < a.Length ==> a[k] == old(a[k])
      invariant forall k :: j <= k < i ==> old(a[k]).creationDate < x.creationDate
    {
      a[j] := a[j - 1];
      j := j - 1;
    }
  }

  /** One step of the in-place sort: inserts `a[i]` into the already sorted `a[..i]`. */
  method InsertAt(a: array<ProcessedSession>, i: nat)
    requires i < a.Length
    modifies a
    ensures a[..i + 1] == Insert(old(a[i]), old(a[..i]))
    ensures a[i + 1..] == old(a[i + 1..])
  {
    ghost var prefix := a[..i];
    var x := a[i];
    var j := ShiftOlder(a, i);
    InsertPosition(x, prefix, j);
    a[j] := x;
    ghost var inserted := prefix[..j] + [x] + prefix[j..];
    forall k | 0 <= k <= i
      ensures a[k] == inserted[k]
    {
      if k < j {
        assert inserted[k] == prefix[k];
      } else if k > j {
        assert inserted[k] == prefix[k - 1];
      }
    }
    assert a[..i + 1] == inserted;
  }

  /** `processedSessions.sort((a, b) => b.creationDate - a.creationDate)`, in place. */
  method SortByCreationDesc(a: array<ProcessedSession>)
    modifies a
    ensures a[..] == SortDesc(old(a[..]))
  {
    ghost var input := a[..];
    for i := 0 to a.Length
      invariant a[..i] == SortDesc(input[..i])
      invariant a[i..] == input[i..]
    {
      assert input[..i + 1][..i] == input[..i];
      assert a[i] == input[i];
      InsertAt(a, i);
    }
    assert input[..a.Length] == input;
  }

  /**
   * `createSessionMap`: the sessions with their `creationDate`, as a
   * permutation of the input, newest first, ties in input order.
   */
  method CreateSessionMap(sessions: seq<Session>, parse: string -> Option<int>) returns (sorted: seq<ProcessedSession>)
    ensures sorted == SortDesc(Timestamped(sessions, parse))
    ensures multiset(sorted) == multiset(Timestamped(sessions, parse))
    ensures SortedDesc(sorted)
    ensures forall d :: SameDate(sorted, d) == SameDate(Timestamped(sessions, parse), d)
  {
    var processed := Timestamped(sessions, parse);
    var a := new ProcessedSession[|processed|](i requires 0 <= i < |processed| => processed[i]);
    assert a[..] == processed;
    SortByCreationDesc(a);
    sorted := a[..];
    SortDescPermutes(processed);
    SortDescSorted(processed);
    forall d ensures SameDate(sorted, d) == SameDate(processed, d) {
      SortDescStable(processed, d);
    }
  }
}
