/** Tariff rate lookup: a stable sort by start time and a three-way binary search over half-open
    intervals (api/rates.go). Times are integers. */
module Rates {
  import opened Numeric
  import opened Wrappers

  datatype Rate = Rate(start: int, end: int, value: real)

  datatype Lookup = Found(rate: Rate) | NotAvailable

  predicate Contains(r: Rate, ts: int) { r.start <= ts < r.end }

  // ---------------------------------------------------------------------------------------------
  // Sorting
  // ---------------------------------------------------------------------------------------------

  predicate SortedByStart(rr: seq<Rate>) {
    forall i, j :: 0 <= i < j < |rr| ==> rr[i].start <= rr[j].start
  }

  /** Puts r behind every rate that does not start later. */
  function Insert(rr: seq<Rate>, r: Rate): seq<Rate> {
    if rr == [] || rr[|rr| - 1].start <= r.start then rr + [r]
    else Insert(rr[..|rr| - 1], r) + [rr[|rr| - 1]]
  }

  function StableSort(rr: seq<Rate>): seq<Rate> {
    if rr == [] then [] else Insert(StableSort(rr[..|rr| - 1]), rr[|rr| - 1])
  }

  /** The rates with the given start, in order. */
  function StartingAt(rr: seq<Rate>, t: int): seq<Rate> {
    if rr == [] then []
    else
      var rest := StartingAt(rr[..|rr| - 1], t);
      if rr[|rr| - 1].start == t then rest + [rr[|rr| - 1]] else rest
  }

  lemma StartingAtSnoc(rr: seq<Rate>, r: Rate, t: int)
    ensures StartingAt(rr + [r], t) == StartingAt(rr, t) + (if r.start == t then [r] else [])
  {
    assert (rr + [r])[..|rr|] == rr;
  }

  lemma {:induction false} InsertKeeps(rr: seq<Rate>, r: Rate)
    ensures multiset(Insert(rr, r)) == multiset(rr) + multiset{r}
  {
    if rr != [] && rr[|rr| - 1].start > r.start {
      InsertKeeps(rr[..|rr| - 1], r);
      assert rr == rr[..|rr| - 1] + [rr[|rr| - 1]];
    }
  }

  lemma {:induction false} InsertSorts(rr: seq<Rate>, r: Rate)
    requires SortedByStart(rr)
    ensures SortedByStart(Insert(rr, r))
    ensures forall x :: x in Insert(rr, r) ==> x == r || x in rr
  {
    if rr != [] && rr[|rr| - 1].start > r.start {
      var init, last := rr[..|rr| - 1], rr[|rr| - 1];
      InsertSorts(init, r);
      var head := Insert(init, r);
      forall i | 0 <= i < |head| ensures head[i].start <= last.start {
        assert head[i] in head;
      }
    }
  }

  /** A rate inserted behind its equals is the last of them. */
  lemma {:induction false} InsertStable(rr: seq<Rate>, r: Rate, t: int)
    ensures StartingAt(Insert(rr, r), t) == StartingAt(rr, t) + (if r.start == t then [r] else [])
  {
    if rr == [] || rr[|rr| - 1].start <= r.start {
      StartingAtSnoc(rr, r, t);
    } else {
      var init, last := rr[..|rr| - 1], rr[|rr| - 1];
      InsertStable(init, r, t);
      StartingAtSnoc(Insert(init, r), last, t);
      assert StartingAt(init, t) + [] == StartingAt(init, t);
    }
  }

  /** Sort orders by start and keeps exactly the given rates. */
  lemma {:induction false} SortIsPermutation(rr: seq<Rate>)
    ensures SortedByStart(StableSort(rr))
    ensures multiset(StableSort(rr)) == multiset(rr)
  {
    if rr != [] {
      var init, last := rr[..|rr| - 1], rr[|rr| - 1];
      SortIsPermutation(init);
      InsertSorts(StableSort(init), last);
      InsertKeeps(StableSort(init), last);
      assert rr == init + [last];
    }
  }

  /** Sort keeps equal starts in their order. */
  lemma {:induction false} SortIsStable(rr: seq<Rate>, t: int)
    ensures StartingAt(StableSort(rr), t) == StartingAt(rr, t)
  {
    if rr != [] {
      SortIsStable(rr[..|rr| - 1], t);
      InsertStable(StableSort(rr[..|rr| - 1]), rr[|rr| - 1], t);
    }
  }

  ghost predicate SameGroups(a: seq<Rate>, b: seq<Rate>) {
    forall t :: StartingAt(a, t) == StartingAt(b, t)
  }

  /** These conditions leave no choice: every stable sort by start, whatever its algorithm, yields
      the same sequence. */
  lemma {:induction false} StableSortUnique(a: seq<Rate>, b: seq<Rate>)
    requires SortedByStart(a) && SortedByStart(b) && multiset(a) == multiset(b) && SameGroups(a, b)
    ensures a == b
  {
    assert |a| == |multiset(a)| == |multiset(b)| == |b|;
    if a != [] {
      SameLatest(a, b);
      SameGroupsDropLast(a, b);
      SameMultisetDropLast(a, b);
      StableSortUnique(a[..|a| - 1], b[..|b| - 1]);
      assert a == a[..|a| - 1] + [a[|a| - 1]] && b == b[..|b| - 1] + [b[|b| - 1]];
    }
  }

  lemma SameGroupsDropLast(a: seq<Rate>, b: seq<Rate>)
    requires a != [] && b != [] && a[|a| - 1].start == b[|b| - 1].start && SameGroups(a, b)
    ensures a[|a| - 1] == b[|b| - 1] && SameGroups(a[..|a| - 1], b[..|b| - 1])
  {
    var a0, b0 := a[..|a| - 1], b[..|b| - 1];
    SameTail(a, b, a[|a| - 1].start);
    forall t ensures StartingAt(a0, t) == StartingAt(b0, t) {
      SameTail(a, b, t);
    }
  }

  lemma SameMultisetDropLast(a: seq<Rate>, b: seq<Rate>)
    requires a != [] && b != [] && a[|a| - 1] == b[|b| - 1] && multiset(a) == multiset(b)
    ensures multiset(a[..|a| - 1]) == multiset(b[..|b| - 1])
  {
    var a0, b0, x := a[..|a| - 1], b[..|b| - 1], a[|a| - 1];
    assert a == a0 + [x] && b == b0 + [x];
    assert multiset(a0) + multiset{x} == multiset(b0) + multiset{x};
    assert multiset(a0) == multiset(a0) + multiset{x} - multiset{x};
  }

  /** Equal groups have equal last members, and stay equal without them. */
  lemma SameTail(a: seq<Rate>, b: seq<Rate>, t: int)
    requires a != [] && b != [] && a[|a| - 1].start == b[|b| - 1].start
    requires StartingAt(a, t) == StartingAt(b, t)
    ensures StartingAt(a[..|a| - 1], t) == StartingAt(b[..|b| - 1], t)
    ensures a[|a| - 1].start == t ==> a[|a| - 1] == b[|b| - 1]
  {
    if a[|a| - 1].start == t {
      SameBeforeLast(StartingAt(a[..|a| - 1], t), a[|a| - 1], StartingAt(b[..|b| - 1], t), b[|b| - 1]);
    }
  }

  lemma SameBeforeLast(p: seq<Rate>, x: Rate, q: seq<Rate>, y: Rate)
    requires p + [x] == q + [y]
    ensures p == q && x == y
  {
    assert p == (p + [x])[..|p + [x]| - 1] && q == (q + [y])[..|q + [y]| - 1];
    assert x == (p + [x])[|p + [x]| - 1] && y == (q + [y])[|q + [y]| - 1];
  }

  lemma SameLatest(a: seq<Rate>, b: seq<Rate>)
    requires a != [] && b != [] && SortedByStart(a) && SortedByStart(b) && multiset(a) == multiset(b)
    ensures a[|a| - 1].start == b[|b| - 1].start
  {
    assert a[|a| - 1] in multiset(b);
    assert b[|b| - 1] in multiset(a);
  }

  /** Sort reorders the slice in place. The library's own algorithm is immaterial by StableSortUnique;
      this is its insertion sort. */
  method Sort(a: array<Rate>)
    modifies a
    ensures a[..] == StableSort(old(a[..]))
  {
    ghost var was := a[..];
    for n := 0 to a.Length
      invariant a[..n] == StableSort(was[..n])
      invariant a[n..] == was[n..]
    {
      SinkLast(a, n);
      assert was[..n + 1][..n] == was[..n] && was[..n + 1][n] == was[n];
      assert a[n + 1..] == was[n + 1..] by {
        assert a[n + 1..] == was[n..][1..];
      }
    }
    assert was[..a.Length] == was && a[..a.Length] == a[..];
  }

  /** The inner loop: moves a[n] down into the sorted part before it. */
  method SinkLast(a: array<Rate>, n: nat)
    requires n < a.Length
    modifies a
    ensures a[..n + 1] == Insert(old(a[..n]), old(a[n]))
    ensures a[n + 1..] == old(a[n + 1..])
  {
    ghost var head := a[..n];
    var r := a[n];
    var i := n;
    while i > 0 && a[i - 1].start > r.start
      invariant 0 <= i <= n
      invariant forall m :: 0 <= m < i ==> a[m] == head[m]
      invariant forall m :: i < m <= n ==> a[m] == head[m - 1]
      invariant forall m :: i <= m < n ==> head[m].start > r.start
      invariant forall m :: n < m < a.Length ==> a[m] == old(a[m])
    {
      a[i] := a[i - 1];
      i := i - 1;
    }
    a[i] := r;
    InsertAt(head, r, i);
    assert a[..n + 1] == head[..i] + [r] + head[i..];
  }

  lemma {:induction false} InsertAt(head: seq<Rate>, r: Rate, i: nat)
    requires i <= |head| && (i > 0 ==> head[i - 1].start <= r.start)
    requires forall m :: i <= m < |head| ==> head[m].start > r.start
    ensures Insert(head, r) == head[..i] + [r] + head[i..]
    decreases |head|
  {
    if i < |head| {
      var init := head[..|head| - 1];
      InsertAt(init, r, i);
      assert init[..i] == head[..i] && init[i..] + [head[|head| - 1]] == head[i..];
    }
  }

  // ---------------------------------------------------------------------------------------------
  // Lookup
  // ---------------------------------------------------------------------------------------------

  /** Where ts lies relative to a rate: after it, before it, or in it. */
  function Compare(r: Rate, ts: int): int {
    if ts < r.start then 1 else if !(ts < r.end) then -1 else 0
  }

  /** The index the binary search over rr[i..j] ends at. */
  function Probe(rr: seq<Rate>, ts: int, i: nat, j: nat): (k: nat)
    requires i <= j <= |rr|
    ensures i <= k <= j
    decreases j - i
  {
    if i == j then i
    else
      var h := (i + j) / 2;
      if Compare(rr[h], ts) < 0 then Probe(rr, ts, h + 1, j) else Probe(rr, ts, i, h)
  }

  /** The index of the rate the search returns, or |rr| if it fails. */
  function Position(rr: seq<Rate>, ts: int): (k: nat)
    ensures k <= |rr|
    ensures k < |rr| ==> Contains(rr[k], ts)
  {
    var k := Probe(rr, ts, 0, |rr|);
    if k < |rr| && Compare(rr[k], ts) == 0 then k else |rr|
  }

  function LookupAt(rr: seq<Rate>, k: nat): Lookup {
    if k < |rr| then Found(rr[k]) else NotAvailable
  }

  function Search(rr: seq<Rate>, ts: int): Lookup { LookupAt(rr, Position(rr, ts)) }

  method At(rr: seq<Rate>, ts: int) returns (r: Lookup)
    ensures r == Search(rr, ts)
    ensures r.Found? ==> r.rate in rr && Contains(r.rate, ts)
  {
    var i, j := 0, |rr|;
    while i < j
      invariant 0 <= i <= j <= |rr|
      invariant Probe(rr, ts, i, j) == Probe(rr, ts, 0, |rr|)
    {
      var h := (i + j) / 2;
      if Compare(rr[h], ts) < 0 {
        i := h + 1;
      } else {
        j := h;
      }
    }
    if i < |rr| && Compare(rr[i], ts) == 0 {
      return Found(rr[i]);
    }
    return NotAvailable;
  }

  /** The reference: the index of the first rate that contains ts, or |rr|. */
  function FirstHit(rr: seq<Rate>, ts: int): (k: nat)
    ensures k <= |rr|
    ensures forall m :: 0 <= m < k ==> !Contains(rr[m], ts)
    ensures k < |rr| ==> Contains(rr[k], ts)
  {
    if rr == [] || Contains(rr[0], ts) then 0 else 1 + FirstHit(rr[1..], ts)
  }

  function LinearScan(rr: seq<Rate>, ts: int): Lookup { LookupAt(rr, FirstHit(rr, ts)) }

  /** The moment from which on a rate is over: an empty or inverted rate is over once it starts. */
  function Over(r: Rate): int { Max(r.start, r.end) }

  predicate EndBy(rr: seq<Rate>, i: nat, j: nat, t: int)
    requires i <= j <= |rr|
  {
    forall m :: i <= m < j ==> rr[m].end <= t
  }

  /** Binary search for times from `since` on skips nothing in rr[i..j]: whenever it drops the rates
      before its middle, they have ended. */
  predicate NothingSkipped(rr: seq<Rate>, i: nat, j: nat, since: int)
    requires i <= j <= |rr|
    decreases j - i
  {
    i == j ||
    var h := (i + j) / 2;
    var dropped := Max(since, Over(rr[h]));
    && EndBy(rr, i, h, dropped)
    && NothingSkipped(rr, i, h, since)
    && NothingSkipped(rr, h + 1, j, dropped)
  }

  predicate Searchable(rr: seq<Rate>) {
    rr == [] || NothingSkipped(rr, 0, |rr|, rr[0].start)
  }

  predicate NoHit(rr: seq<Rate>, ts: int, i: nat, j: nat)
    requires i <= j <= |rr|
  {
    forall m :: i <= m < j ==> !Contains(rr[m], ts)
  }

  lemma ProbeHalves(rr: seq<Rate>, ts: int, i: nat, j: nat)
    requires i < j <= |rr|
    ensures var h := (i + j) / 2;
            Probe(rr, ts, i, j) == if Over(rr[h]) <= ts then Probe(rr, ts, h + 1, j) else Probe(rr, ts, i, h)
  {
  }

  lemma {:induction false} NothingSkippedMeans(rr: seq<Rate>, ts: int, i: nat, j: nat, since: int)
    requires i <= j <= |rr| && since <= ts && NothingSkipped(rr, i, j, since)
    ensures NoHit(rr, ts, i, Probe(rr, ts, i, j))
    ensures Probe(rr, ts, i, j) < j ==> Compare(rr[Probe(rr, ts, i, j)], ts) >= 0
    decreases j - i
  {
    if i < j {
      var h := (i + j) / 2;
      var dropped := Max(since, Over(rr[h]));
      ProbeHalves(rr, ts, i, j);
      if Over(rr[h]) <= ts {
        assert EndBy(rr, i, h, dropped);
        assert NoHit(rr, ts, i, h + 1);
        NothingSkippedMeans(rr, ts, h + 1, j, dropped);
      } else {
        NothingSkippedMeans(rr, ts, i, h, since);
      }
    }
  }

  /** Otherwise there is a time at which the search passes over a rate that contains it. */
  lemma {:induction false} SomethingSkipped(rr: seq<Rate>, i: nat, j: nat, since: int) returns (m: nat, ts: int)
    requires i <= j <= |rr| && SortedByStart(rr) && !NothingSkipped(rr, i, j, since)
    ensures since <= ts && i <= m < j && Contains(rr[m], ts) && m < Probe(rr, ts, i, j)
    decreases j - i
  {
    var h := (i + j) / 2;
    var dropped := Max(since, Over(rr[h]));
    if !EndBy(rr, i, h, dropped) {
      m :| i <= m < h && rr[m].end > dropped;
      ts := dropped;
      assert rr[m].start <= rr[h].start;
    } else if !NothingSkipped(rr, i, h, since) {
      m, ts := SomethingSkipped(rr, i, h, since);
      assert ts < rr[m].end <= dropped;
    } else {
      m, ts := SomethingSkipped(rr, h + 1, j, dropped);
    }
    ProbeHalves(rr, ts, i, j);
  }

  /** On a slice sorted by start, the search finds for every time the leftmost rate that contains it,
      or none if there is none, exactly when it skips nothing. */
  lemma SearchExact(rr: seq<Rate>)
    requires SortedByStart(rr)
    ensures Searchable(rr) <==> forall ts :: Position(rr, ts) == FirstHit(rr, ts)
  {
    if Searchable(rr) {
      forall ts ensures Position(rr, ts) == FirstHit(rr, ts) {
        SearchableMeans(rr, ts);
      }
    } else {
      var _, ts := SomethingSkipped(rr, 0, |rr|, rr[0].start);
      assert Position(rr, ts) != FirstHit(rr, ts);
    }
  }

  lemma SearchableMeans(rr: seq<Rate>, ts: int)
    requires SortedByStart(rr) && Searchable(rr)
    ensures Position(rr, ts) == FirstHit(rr, ts)
  {
    if rr != [] && rr[0].start <= ts {
      NothingSkippedMeans(rr, ts, 0, |rr|, rr[0].start);
    }
  }

  /** For every time from a up to b, the search over rr[i..j] ends at a rate that contains it, and at the
      wanted one if any. */
  predicate Ends(rr: seq<Rate>, i: nat, j: nat, a: int, b: int, want: Option<Rate>)
    requires i <= j <= |rr|
    decreases j - i
  {
    if a >= b then true
    else if i == j then
      i < |rr| && rr[i].start <= a && b <= rr[i].end && (want.None? || rr[i] == want.value)
    else
      var h := (i + j) / 2;
      && Ends(rr, h + 1, j, Max(a, Over(rr[h])), b, want)
      && Ends(rr, i, h, a, Min(b, Over(rr[h])), want)
  }

  /** Index k is that of a rate that contains ts, and of the wanted one if any. */
  predicate Hits(rr: seq<Rate>, k: nat, ts: int, want: Option<Rate>) {
    k < |rr| && Contains(rr[k], ts) && (want.None? || rr[k] == want.value)
  }

  lemma {:induction false} EndsMeans(rr: seq<Rate>, i: nat, j: nat, a: int, b: int, want: Option<Rate>, ts: int)
    requires i <= j <= |rr| && a <= ts < b && Ends(rr, i, j, a, b, want)
    ensures Hits(rr, Probe(rr, ts, i, j), ts, want)
    decreases j - i
  {
    if i < j {
      var h := (i + j) / 2;
      ProbeHalves(rr, ts, i, j);
      if Over(rr[h]) <= ts {
        EndsMeans(rr, h + 1, j, Max(a, Over(rr[h])), b, want, ts);
      } else {
        EndsMeans(rr, i, h, a, Min(b, Over(rr[h])), want, ts);
      }
    }
  }

  lemma {:induction false} EndsFails(rr: seq<Rate>, i: nat, j: nat, a: int, b: int, want: Option<Rate>)
    returns (ts: int)
    requires i <= j <= |rr| && !Ends(rr, i, j, a, b, want)
    ensures a <= ts < b && !Hits(rr, Probe(rr, ts, i, j), ts, want)
    decreases j - i
  {
    if i == j {
      ts := if i < |rr| && rr[i].start <= a then b - 1 else a;
    } else {
      var h := (i + j) / 2;
      if !Ends(rr, h + 1, j, Max(a, Over(rr[h])), b, want) {
        ts := EndsFails(rr, h + 1, j, Max(a, Over(rr[h])), b, want);
      } else {
        ts := EndsFails(rr, i, h, a, Min(b, Over(rr[h])), want);
      }
      ProbeHalves(rr, ts, i, j);
    }
  }

  predicate Covered(rr: seq<Rate>, ts: int) { exists m :: 0 <= m < |rr| && Contains(rr[m], ts) }

  lemma SearchHits(rr: seq<Rate>, ts: int, want: Option<Rate>)
    ensures Hits(rr, Probe(rr, ts, 0, |rr|), ts, want)
       <==> Search(rr, ts).Found? && (want.None? || Search(rr, ts).rate == want.value)
  {
  }

  /** The search returns a rate for every time that some rate contains, exactly when it ends well on the
      span of every rate; on any slice, sorted or not. */
  lemma LookupExact(rr: seq<Rate>)
    ensures (forall m :: 0 <= m < |rr| ==> Ends(rr, 0, |rr|, rr[m].start, rr[m].end, None))
       <==> forall ts :: Search(rr, ts).Found? <==> Covered(rr, ts)
  {
    if m :| 0 <= m < |rr| && !Ends(rr, 0, |rr|, rr[m].start, rr[m].end, None) {
      var ts := EndsFails(rr, 0, |rr|, rr[m].start, rr[m].end, None);
      SearchHits(rr, ts, None);
      assert Contains(rr[m], ts) && !Search(rr, ts).Found?;
    } else {
      forall ts ensures Search(rr, ts).Found? <==> Covered(rr, ts) {
        if m :| 0 <= m < |rr| && Contains(rr[m], ts) {
          EndsMeans(rr, 0, |rr|, rr[m].start, rr[m].end, None, ts);
          SearchHits(rr, ts, None);
        }
      }
    }
  }

  /** A lookup can succeed throughout although the leftmost rate is skipped. */
  lemma SkippedMayBeFound(price: real)
    ensures var rr := [Rate(0, 10, price), Rate(1, 2, price), Rate(2, 10, price)];
            && SortedByStart(rr) && !Searchable(rr)
            && forall m :: 0 <= m < |rr| ==> Ends(rr, 0, |rr|, rr[m].start, rr[m].end, None)
  {
    var rr := [Rate(0, 10, price), Rate(1, 2, price), Rate(2, 10, price)];
    assert rr[0].end > Over(rr[1]) && !EndBy(rr, 0, 1, 2);
    forall a, b | 0 <= a <= b <= 10 ensures Ends(rr, 0, 3, a, b, None) {
      assert Ends(rr, 2, 3, Max(a, 2), b, None) by {
        assert Ends(rr, 2, 2, Max(a, 2), b, None);
      }
      assert Ends(rr, 0, 1, a, Min(b, 2), None) by {
        assert Ends(rr, 0, 0, a, Min(b, 2), None);
      }
    }
  }

  /** From a up to b, the search returns what the scan of rr[n..] returns: on the span of rr[n] that rate,
      and before and after it what the rest of the scan returns. */
  predicate Matches(rr: seq<Rate>, n: nat, a: int, b: int)
    requires n <= |rr|
    decreases |rr| - n
  {
    if a >= b || n == |rr| then true
    else
      && Ends(rr, 0, |rr|, Max(a, rr[n].start), Min(b, rr[n].end), Some(rr[n]))
      && Matches(rr, n + 1, a, Min(b, rr[n].start))
      && Matches(rr, n + 1, Max(a, rr[n].end), b)
  }

  lemma {:induction false} MatchesMeans(rr: seq<Rate>, n: nat, a: int, b: int, ts: int)
    requires n <= |rr| && a <= ts < b && NoHit(rr, ts, 0, n) && Matches(rr, n, a, b)
    ensures Search(rr, ts) == LinearScan(rr, ts)
    decreases |rr| - n
  {
    if n < |rr| {
      if Contains(rr[n], ts) {
        EndsMeans(rr, 0, |rr|, Max(a, rr[n].start), Min(b, rr[n].end), Some(rr[n]), ts);
        SearchHits(rr, ts, Some(rr[n]));
        assert FirstHit(rr, ts) == n;
      } else if ts < rr[n].start {
        MatchesMeans(rr, n + 1, a, Min(b, rr[n].start), ts);
      } else {
        MatchesMeans(rr, n + 1, Max(a, rr[n].end), b, ts);
      }
    }
  }

  lemma {:induction false} MatchesFails(rr: seq<Rate>, n: nat, a: int, b: int) returns (ts: int)
    requires n <= |rr| && !Matches(rr, n, a, b)
    requires forall t :: a <= t < b ==> NoHit(rr, t, 0, n)
    ensures Search(rr, ts) != LinearScan(rr, ts)
    decreases |rr| - n
  {
    var from, to, next := Max(a, rr[n].start), Min(b, rr[n].end), n + 1;
    if !Ends(rr, 0, |rr|, from, to, Some(rr[n])) {
      ts := EndsFails(rr, 0, |rr|, from, to, Some(rr[n]));
      SearchHits(rr, ts, Some(rr[n]));
      assert NoHit(rr, ts, 0, n) && FirstHit(rr, ts) == n;
    } else if !Matches(rr, n + 1, a, Min(b, rr[n].start)) {
      forall t | a <= t < Min(b, rr[n].start) ensures NoHit(rr, t, 0, next) {
        assert NoHit(rr, t, 0, n);
      }
      ts := MatchesFails(rr, n + 1, a, Min(b, rr[n].start));
    } else {
      forall t | Max(a, rr[n].end) <= t < b ensures NoHit(rr, t, 0, next) {
        assert NoHit(rr, t, 0, n);
      }
      ts := MatchesFails(rr, n + 1, Max(a, rr[n].end), b);
    }
  }

  /** The search returns what a linear scan returns, for every time, exactly when they match on the span of
      every rate; on any slice, sorted or not, and with rates listed twice. */
  lemma SearchIsScanExact(rr: seq<Rate>)
    ensures (forall m :: 0 <= m < |rr| ==> Matches(rr, 0, rr[m].start, rr[m].end))
       <==> forall ts :: Search(rr, ts) == LinearScan(rr, ts)
  {
    if m :| 0 <= m < |rr| && !Matches(rr, 0, rr[m].start, rr[m].end) {
      var ts := MatchesFails(rr, 0, rr[m].start, rr[m].end);
    } else {
      forall ts ensures Search(rr, ts) == LinearScan(rr, ts) {
        if m :| 0 <= m < |rr| && Contains(rr[m], ts) {
          MatchesMeans(rr, 0, rr[m].start, rr[m].end, ts);
        }
      }
    }
  }

  /** A rate listed twice around a shorter one is skipped once and found the second time. */
  lemma RepeatedRateIsFound(ts: int, price: real)
    ensures var long, short := Rate(0, 10, price), Rate(0, 1, price);
            var rr := [long, short, long];
            SortedByStart(rr) && !Searchable(rr) && Search(rr, ts) == LinearScan(rr, ts)
  {
    var rr := [Rate(0, 10, price), Rate(0, 1, price), Rate(0, 10, price)];
    assert rr[0].end > Over(rr[1]) && !EndBy(rr, 0, 1, 1);
    if 1 <= ts < 10 {
      assert Probe(rr, ts, 0, 3) == Probe(rr, ts, 2, 3) == Probe(rr, ts, 2, 2);
    } else if ts == 0 {
      assert Probe(rr, ts, 0, 3) == Probe(rr, ts, 0, 1) == Probe(rr, ts, 0, 0);
    } else {
      assert forall m :: 0 <= m < 3 ==> !Contains(rr[m], ts);
    }
  }

  /** No rate outlasts the one behind it. */
  predicate NoneOutlasts(rr: seq<Rate>) {
    forall i :: 0 <= i && i + 1 < |rr| ==> rr[i].end <= Over(rr[i + 1])
  }

  lemma {:induction false} OverOrdered(rr: seq<Rate>, i: nat, j: nat)
    requires SortedByStart(rr) && NoneOutlasts(rr) && i <= j < |rr|
    ensures Over(rr[i]) <= Over(rr[j])
    decreases j
  {
    if i < j {
      OverOrdered(rr, i, j - 1);
      assert rr[j - 1].end <= Over(rr[j - 1 + 1]);
    }
  }

  lemma {:induction false} NoneOutlastsNothingSkipped(rr: seq<Rate>, i: nat, j: nat, since: int)
    requires i <= j <= |rr| && SortedByStart(rr) && NoneOutlasts(rr)
    ensures NothingSkipped(rr, i, j, since)
    decreases j - i
  {
    if i < j {
      var h := (i + j) / 2;
      forall m | i <= m < h ensures rr[m].end <= Over(rr[h]) { OverOrdered(rr, m, h); }
      NoneOutlastsNothingSkipped(rr, i, h, since);
      NoneOutlastsNothingSkipped(rr, h + 1, j, Max(since, Over(rr[h])));
    }
  }

  /** It is enough that no rate outlasts the one behind it. */
  lemma SearchFindsLeftmost(rr: seq<Rate>, ts: int)
    requires SortedByStart(rr) && NoneOutlasts(rr)
    ensures Position(rr, ts) == FirstHit(rr, ts)
  {
    if rr != [] {
      NoneOutlastsNothingSkipped(rr, 0, |rr|, rr[0].start);
    }
    SearchableMeans(rr, ts);
  }

  /** It is not necessary: here the third rate outlasts the fourth, and nothing is skipped. */
  lemma OutlastingMayBeHarmless(price: real)
    ensures var rr := [Rate(0, 1, price), Rate(1, 2, price), Rate(2, 10, price), Rate(3, 4, price)];
            SortedByStart(rr) && !NoneOutlasts(rr) && Searchable(rr)
  {
    var rr := [Rate(0, 1, price), Rate(1, 2, price), Rate(2, 10, price), Rate(3, 4, price)];
    assert rr[2].end > Over(rr[2 + 1]);
  }

  /** Of two rates, the first is hidden from its second's end on if it outlasts it. */
  lemma OutlastingHides(a: Rate, b: Rate)
    requires a.start <= b.start && a.end > Over(b)
    ensures Contains(a, Over(b)) && LinearScan([a, b], Over(b)) == Found(a)
    ensures Search([a, b], Over(b)) == NotAvailable
  {
    var ts := Over(b);
    assert Compare([a, b][1], ts) == -1;
    assert Probe([a, b], ts, 0, 2) == Probe([a, b], ts, 2, 2);
  }

  /** Ends that never decrease are enough. */
  lemma OrderedEndsSuffice(rr: seq<Rate>, ts: int)
    requires SortedByStart(rr) && forall i, j :: 0 <= i < j < |rr| ==> rr[i].end <= rr[j].end
    ensures Position(rr, ts) == FirstHit(rr, ts)
  {
    assert NoneOutlasts(rr);
    SearchFindsLeftmost(rr, ts);
  }

  predicate Apart(a: Rate, b: Rate) { a.end <= b.start || b.end <= a.start }

  /** Non-empty rates, no two of which overlap. */
  predicate Tariff(rr: seq<Rate>) {
    && (forall i :: 0 <= i < |rr| ==> rr[i].start < rr[i].end)
    && (forall i, j :: 0 <= i < j < |rr| ==> Apart(rr[i], rr[j]))
  }

  /** A tariff names no rate twice. */
  lemma {:induction false} TariffDistinct(rr: seq<Rate>, x: Rate)
    requires Tariff(rr)
    ensures multiset(rr)[x] <= 1
  {
    if rr != [] {
      var init, last := rr[..|rr| - 1], rr[|rr| - 1];
      assert rr == init + [last];
      assert Tariff(init);
      TariffDistinct(init, x);
      assert forall i :: 0 <= i < |init| ==> Apart(rr[i], rr[|rr| - 1]) && init[i] != last;
    }
  }

  lemma OnceMeansDistinct(b: seq<Rate>, i: nat, j: nat)
    requires i < j < |b| && multiset(b)[b[i]] <= 1
    ensures b[i] != b[j]
  {
    assert b == b[..j] + [b[j]] + b[j + 1..];
    assert b[i] in b[..j];
    assert multiset(b)[b[i]] == multiset(b[..j])[b[i]] + multiset{b[j]}[b[i]] + multiset(b[j + 1..])[b[i]];
  }

  lemma TariffReordered(a: seq<Rate>, b: seq<Rate>)
    requires Tariff(a) && multiset(a) == multiset(b)
    ensures Tariff(b)
  {
    forall i | 0 <= i < |b| ensures b[i] in a {
      assert b[i] in multiset(a);
    }
    forall i, j | 0 <= i < j < |b| ensures Apart(b[i], b[j]) {
      TariffDistinct(a, b[i]);
      OnceMeansDistinct(b, i, j);
      var m :| 0 <= m < |a| && a[m] == b[i];
      var n :| 0 <= n < |a| && a[n] == b[j];
      assert if m < n then Apart(a[m], a[n]) else Apart(a[n], a[m]);
    }
  }

  /** Sorting a tariff given in any order and then searching it returns exactly the rate that
      contains ts, and fails exactly when there is none. */
  lemma SortThenAt(rr: seq<Rate>, ts: int)
    requires Tariff(rr)
    ensures forall r :: Search(StableSort(rr), ts) == Found(r) <==> r in rr && Contains(r, ts)
  {
    var sorted := StableSort(rr);
    SortIsPermutation(rr);
    TariffReordered(rr, sorted);
    forall i | 0 <= i && i + 1 < |sorted| ensures sorted[i].end <= Over(sorted[i + 1]) {
      assert Apart(sorted[i], sorted[i + 1]);
    }
    SearchFindsLeftmost(sorted, ts);
    forall r ensures Search(sorted, ts) == Found(r) <==> r in rr && Contains(r, ts) {
      assert r in rr <==> r in multiset(rr);
      assert r in sorted <==> r in multiset(sorted);
      ScanComplete(sorted, ts, r);
    }
  }

  lemma {:induction false} ScanComplete(rr: seq<Rate>, ts: int, r: Rate)
    requires Tariff(rr)
    ensures LinearScan(rr, ts) == Found(r) <==> r in rr && Contains(r, ts)
  {
    if rr != [] {
      var rest := rr[1..];
      assert rr == [rr[0]] + rest;
      forall i, j | 0 <= i < j < |rest| ensures Apart(rest[i], rest[j]) {
        assert Apart(rr[i + 1], rr[j + 1]);
      }
      ScanComplete(rest, ts, r);
      if Contains(rr[0], ts) && r in rest {
        var i :| 0 <= i < |rest| && rest[i] == r;
        assert Apart(rr[0], rr[i + 1]);
      }
    }
  }
}
