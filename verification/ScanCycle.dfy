/**
 * The resumable scan over reconcilable tasks: pages in id order, a cursor to continue from, and a backlog of what a
 * deadline cut off. Ids are ordered; two of them, the sentinel '0' and the empty id, also read as "from the start".
 */
module ScanCycle {
  import opened Arithmetic
  import opened TaskHistory

  const SENTINEL := 0
  const EMPTY := -1

  /** A cursor that the query does not filter by. */
  predicate IsStart(cursor: int) { cursor == SENTINEL || cursor == EMPTY }

  datatype Page = Page(tasks: seq<Candidate>, nextCursor: int)

  ghost predicate Sorted(ts: seq<Candidate>) {
    forall i, j :: 0 <= i < j < |ts| ==> ts[i].task < ts[j].task
  }

  /** `m` tasks fill a number of whole pages. */
  predicate FillsPages(m: nat, count: nat)
    requires count > 0
  {
    m == 0 || (m >= count && FillsPages(m - count, count))
  }

  lemma {:induction false} FillsPagesIff(m: nat, count: nat)
    requires count > 0
    ensures FillsPages(m, count) <==> m % count == 0
  {
    if m >= count {
      FillsPagesIff(m - count, count);
      if (m - count) % count == 0 { NextMultiple(m - count, count); }
      if m % count == 0 { PreviousMultiple(m, count); }
    } else {
      DivIs(m, 0, count);
      assert m / count * count + m % count == m;
    }
  }

  /** A full page ends at position `j`, at a task whose id reads as "from the start". */
  predicate BadEnd(ts: seq<Candidate>, count: nat, j: nat)
    requires count > 0 && j < |ts|
  {
    IsStart(ts[j].task) && FillsPages(j + 1, count)
  }

  /** No full page but the last ends at a task whose id reads as "from the start". */
  ghost predicate PagesEndWell(ts: seq<Candidate>, count: nat)
    requires count > 0
  {
    forall j :: 0 <= j < |ts| - 1 ==> !BadEnd(ts, count, j)
  }

  /** The tasks whose id lies after the cursor. */
  function Beyond(ts: seq<Candidate>, cursor: int): seq<Candidate> {
    if ts == [] then [] else (if ts[0].task > cursor then [ts[0]] else []) + Beyond(ts[1..], cursor)
  }

  function From(ts: seq<Candidate>, cursor: int): seq<Candidate> {
    if IsStart(cursor) then ts else Beyond(ts, cursor)
  }

  /** At most `count` tasks after the cursor; a short page ends the scan. */
  function ScanPage(ts: seq<Candidate>, cursor: int, count: nat): Page {
    var found := From(ts, cursor);
    if |found| < count || count == 0 then Page(if count == 0 then [] else found, SENTINEL)
    else Page(found[..count], found[count - 1].task)
  }

  /** What a call works on: the backlog it was given, or else the next page. */
  function PageFor(ts: seq<Candidate>, count: nat, cursor: int, backlog: seq<Candidate>): Page {
    if backlog != [] then Page(backlog, cursor) else ScanPage(ts, cursor, count)
  }

  /** `current` is what the open cycle has handled so far, `cycles` what each closed one did. */
  datatype Scan = Scan(cursor: int, backlog: seq<Candidate>, current: seq<Candidate>, cycles: seq<seq<Candidate>>)

  const Begin := Scan(SENTINEL, [], [], [])

  /** Handling `cut` tasks of a page before the deadline, or all of them. */
  function Handle(page: Page, s: Scan, cut: nat): Scan {
    var k := if cut < |page.tasks| then cut else |page.tasks|;
    var current := s.current + page.tasks[..k];
    if IsStart(page.nextCursor) && k == |page.tasks| then Scan(page.nextCursor, [], [], s.cycles + [current])
    else Scan(page.nextCursor, page.tasks[k..], current, s.cycles)
  }

  function Call(ts: seq<Candidate>, count: nat, s: Scan, cut: nat): Scan {
    Handle(PageFor(ts, count, s.cursor, s.backlog), s, cut)
  }

  function Calls(ts: seq<Candidate>, count: nat, cuts: seq<nat>): Scan {
    if cuts == [] then Begin else Call(ts, count, Calls(ts, count, cuts[..|cuts| - 1]), cuts[|cuts| - 1])
  }

  /** What the open cycle still has to handle. */
  function Remaining(ts: seq<Candidate>, s: Scan): seq<Candidate> {
    if IsStart(s.cursor) && s.backlog != [] then s.backlog else s.backlog + From(ts, s.cursor)
  }

  lemma {:induction false} BeyondAll(ts: seq<Candidate>, cursor: int)
    requires forall i :: 0 <= i < |ts| ==> ts[i].task > cursor
    ensures Beyond(ts, cursor) == ts
  {
    if ts != [] {
      BeyondAll(ts[1..], cursor);
      assert ts == [ts[0]] + ts[1..];
    }
  }

  lemma {:induction false} BeyondSplit(ts: seq<Candidate>, k: nat, cursor: int)
    requires k <= |ts|
    requires forall i :: 0 <= i < k ==> ts[i].task <= cursor
    requires forall i :: k <= i < |ts| ==> ts[i].task > cursor
    ensures Beyond(ts, cursor) == ts[k..]
  {
    if k == 0 {
      BeyondAll(ts, cursor);
      assert ts[0..] == ts;
    } else {
      BeyondSplit(ts[1..], k - 1, cursor);
      assert ts[1..][k - 1..] == ts[k..];
    }
  }

  /** Ids in increasing order, one after the other. */
  predicate Ascending(ts: seq<Candidate>) { |ts| <= 1 || (ts[0].task < ts[1].task && Ascending(ts[1..])) }

  lemma {:induction false} SortedAscends(ts: seq<Candidate>)
    requires Sorted(ts)
    ensures Ascending(ts)
  {
    if |ts| > 1 { SortedAscends(ts[1..]); }
  }

  lemma {:induction false} AscendingIsSorted(ts: seq<Candidate>)
    requires Ascending(ts)
    ensures Sorted(ts)
  {
    if |ts| > 1 {
      AscendingIsSorted(ts[1..]);
      forall i, j | 0 <= i < j < |ts| ensures ts[i].task < ts[j].task {
        assert ts[j] == ts[1..][j - 1];
        if i > 0 { assert ts[i] == ts[1..][i - 1]; } else { assert ts[1] == ts[1..][0]; }
      }
    }
  }

  lemma BeyondPrefix(ts: seq<Candidate>, m: nat)
    requires Ascending(ts) && 0 < m <= |ts|
    ensures Beyond(ts, ts[m - 1].task) == ts[m..]
  {
    AscendingIsSorted(ts);
    BeyondSplit(ts, m, ts[m - 1].task);
  }

  // ---------- one call ----------

  /**
   * Where a scan stands when pages end well: the open cycle has read the first `m` tasks, which it has handled but for
   * the backlog, and the cursor is the last of them, or says that they are all.
   */
  ghost predicate On(ts: seq<Candidate>, count: nat, s: Scan, m: nat)
    requires count > 0
  {
    && m <= |ts| && s.current + s.backlog == ts[..m]
    && (IsStart(s.cursor) ==> if s.backlog == [] then m == 0 else m == |ts|)
    && (!IsStart(s.cursor) ==> 0 < m && FillsPages(m, count) && s.cursor == ts[m - 1].task)
  }

  lemma OnRemaining(ts: seq<Candidate>, count: nat, s: Scan, m: nat)
    requires Ascending(ts) && count > 0 && On(ts, count, s, m)
    ensures s.current + Remaining(ts, s) == ts
    ensures s.backlog == [] ==> From(ts, s.cursor) == ts[m..]
  {
    assert ts == ts[..m] + ts[m..];
    if !IsStart(s.cursor) {
      BeyondPrefix(ts, m);
      assert s.current + (s.backlog + ts[m..]) == (s.current + s.backlog) + ts[m..];
    } else if s.backlog == [] {
      assert s.current == [] && ts[0..] == ts;
    }
  }

  /** The next page reads on to `n`, and its cursor says where that is. */
  lemma PageReadsOn(ts: seq<Candidate>, cursor: int, count: nat, m: nat) returns (n: nat)
    requires Ascending(ts) && count > 0 && PagesEndWell(ts, count)
    requires m <= |ts| && FillsPages(m, count) && From(ts, cursor) == ts[m..]
    ensures m <= n <= |ts|
    ensures var page := ScanPage(ts, cursor, count);
      && page.tasks == ts[m..n]
      && (IsStart(page.nextCursor) ==> n == |ts|)
      && (!IsStart(page.nextCursor) ==> n == m + count && FillsPages(n, count) && page.nextCursor == ts[n - 1].task)
  {
    var found := ts[m..];
    if |found| < count {
      n := |ts|;
    } else {
      n := m + count;
      assert found[..count] == ts[m..n] && found[count - 1] == ts[n - 1];
      assert ScanPage(ts, cursor, count) == Page(ts[m..n], ts[n - 1].task);
      assert n < |ts| ==> !BadEnd(ts, count, n - 1);
    }
  }

  /** What a page of tasks leaves of itself after `k` of them. */
  lemma TakesFront(current: seq<Candidate>, tasks: seq<Candidate>, k: nat)
    requires k <= |tasks|
    ensures (current + tasks[..k]) + tasks[k..] == current + tasks
    ensures k < |tasks| <==> tasks[k..] != []
    ensures k == |tasks| ==> current + tasks[..k] == current + tasks
  {
    assert tasks == tasks[..k] + tasks[k..];
  }

  /** A page that continues the open cycle up to `n`, with the cursor that goes with it. */
  ghost predicate Continues(ts: seq<Candidate>, count: nat, current: seq<Candidate>, page: Page, n: nat)
    requires count > 0
  {
    && n <= |ts| && current + page.tasks == ts[..n]
    && (IsStart(page.nextCursor) ==> n == |ts|)
    && (!IsStart(page.nextCursor) ==> 0 < n && FillsPages(n, count) && page.nextCursor == ts[n - 1].task)
  }

  lemma NewPageContinues(ts: seq<Candidate>, count: nat, current: seq<Candidate>, page: Page, m: nat, n: nat)
    requires count > 0 && m <= n <= |ts| && current == ts[..m] && page.tasks == ts[m..n]
    requires IsStart(page.nextCursor) ==> n == |ts|
    requires !IsStart(page.nextCursor) ==> n == m + count && FillsPages(n, count) && page.nextCursor == ts[n - 1].task
    ensures Continues(ts, count, current, page, n)
  {
    assert ts[..m] + ts[m..n] == ts[..n];
  }

  /** The page a call works on reads up to `n`. */
  lemma PageIsOn(ts: seq<Candidate>, count: nat, s: Scan, m: nat) returns (n: nat)
    requires Ascending(ts) && count > 0 && PagesEndWell(ts, count) && On(ts, count, s, m)
    ensures Continues(ts, count, s.current, PageFor(ts, count, s.cursor, s.backlog), n)
  {
    if s.backlog == [] {
      assert s.current + s.backlog == s.current;
      OnRemaining(ts, count, s, m);
      n := PageReadsOn(ts, s.cursor, count, m);
      NewPageContinues(ts, count, s.current, ScanPage(ts, s.cursor, count), m, n);
    } else {
      n := m;
    }
  }

  lemma HandleTakes(ts: seq<Candidate>, count: nat, page: Page, s: Scan, cut: nat, n: nat) returns (n': nat)
    requires count > 0 && Continues(ts, count, s.current, page, n)
    ensures var s' := Handle(page, s, cut);
      On(ts, count, s', n') && (s'.cycles == s.cycles || s'.cycles == s.cycles + [ts])
  {
    var k := if cut < |page.tasks| then cut else |page.tasks|;
    TakesFront(s.current, page.tasks, k);
    n' := n;
    if IsStart(page.nextCursor) && k == |page.tasks| {
      assert ts[..|ts|] == ts && ts[..0] == [];
      n' := 0;
    }
  }

  /** One call handles, in order, exactly what it takes off the front of what remained. */
  lemma CallTakes(ts: seq<Candidate>, count: nat, s: Scan, cut: nat, m: nat) returns (n: nat)
    requires Ascending(ts) && count > 0 && PagesEndWell(ts, count) && On(ts, count, s, m)
    ensures var s' := Call(ts, count, s, cut);
      On(ts, count, s', n) && (s'.cycles == s.cycles || s'.cycles == s.cycles + [ts])
  {
    n := PageIsOn(ts, count, s, m);
    n := HandleTakes(ts, count, PageFor(ts, count, s.cursor, s.backlog), s, cut, n);
  }

  lemma {:induction false} CallsAreOn(ts: seq<Candidate>, count: nat, cuts: seq<nat>) returns (m: nat)
    requires Ascending(ts) && count > 0 && PagesEndWell(ts, count)
    ensures On(ts, count, Calls(ts, count, cuts), m)
    ensures forall i :: 0 <= i < |Calls(ts, count, cuts).cycles| ==> Calls(ts, count, cuts).cycles[i] == ts
  {
    if cuts == [] {
      m := 0;
    } else {
      m := CallsAreOn(ts, count, cuts[..|cuts| - 1]);
      m := CallTakes(ts, count, Calls(ts, count, cuts[..|cuts| - 1]), cuts[|cuts| - 1], m);
    }
  }

  /** What the open cycle has handled is a prefix of the set, and it has exactly the rest left. */
  lemma OpenCycleIsAPrefix(ts: seq<Candidate>, count: nat, cuts: seq<nat>)
    requires Ascending(ts) && count > 0 && PagesEndWell(ts, count)
    ensures var s := Calls(ts, count, cuts); s.current + Remaining(ts, s) == ts
  {
    var m := CallsAreOn(ts, count, cuts);
    OnRemaining(ts, count, Calls(ts, count, cuts), m);
  }

  lemma HandleCounts(page: Page, s: Scan, cut: nat)
    requires |Handle(page, s, cut).cycles| == |s.cycles|
    ensures |Handle(page, s, cut).current| == |s.current| + if cut < |page.tasks| then cut else |page.tasks|
  {
  }

  lemma EmptyPageEnds(ts: seq<Candidate>, count: nat, cursor: int, backlog: seq<Candidate>)
    requires count > 0 && PageFor(ts, count, cursor, backlog).tasks == []
    ensures IsStart(PageFor(ts, count, cursor, backlog).nextCursor)
  {
  }

  /** A call that handles anything closes the cycle or leaves strictly less of it. */
  lemma {:induction false} CallProgresses(ts: seq<Candidate>, count: nat, cuts: seq<nat>, cut: nat)
    requires Ascending(ts) && count > 0 && PagesEndWell(ts, count) && cut > 0
    ensures var s := Calls(ts, count, cuts); var s' := Call(ts, count, s, cut);
      |s'.cycles| == |s.cycles| + 1 || |Remaining(ts, s')| < |Remaining(ts, s)|
  {
    var s := Calls(ts, count, cuts);
    var s' := Call(ts, count, s, cut);
    OpenCycleIsAPrefix(ts, count, cuts);
    var m := CallsAreOn(ts, count, cuts);
    var n := CallTakes(ts, count, s, cut, m);
    OnRemaining(ts, count, s', n);
    var page := PageFor(ts, count, s.cursor, s.backlog);
    if page.tasks == [] { EmptyPageEnds(ts, count, s.cursor, s.backlog); }
    Shrinks(s, s', page, cut, Remaining(ts, s), Remaining(ts, s'), ts);
  }

  lemma Shrinks(s: Scan, s': Scan, page: Page, cut: nat, before: seq<Candidate>, after: seq<Candidate>,
                ts: seq<Candidate>)
    requires s' == Handle(page, s, cut) && cut > 0 && (page.tasks == [] ==> IsStart(page.nextCursor))
    requires s.current + before == ts == s'.current + after
    ensures |s'.cycles| == |s.cycles| + 1 || |after| < |before|
  {
    assert |s.current| + |before| == |ts| == |s'.current| + |after|;
    if |s'.cycles| == |s.cycles| { HandleCounts(page, s, cut); }
  }

  // ---------- and only then ----------

  /** Uncut calls have handled the first `m` tasks, in whole pages. */
  predicate Walked(ts: seq<Candidate>, count: nat, m: nat, cuts: seq<nat>)
    requires m <= |ts|
  {
    Calls(ts, count, cuts) == Scan(if m == 0 then SENTINEL else ts[m - 1].task, [], ts[..m], [])
    && (m > 0 ==> !IsStart(ts[m - 1].task))
  }

  lemma CallsOn(ts: seq<Candidate>, count: nat, cuts: seq<nat>, cut: nat)
    ensures Calls(ts, count, cuts + [cut]) == Call(ts, count, Calls(ts, count, cuts), cut)
  {
    assert (cuts + [cut])[..|cuts|] == cuts;
  }

  lemma FullPageIs(ts: seq<Candidate>, count: nat, cursor: int, m: nat)
    requires Ascending(ts) && count > 0 && m + count <= |ts|
    requires if m == 0 then IsStart(cursor) else cursor == ts[m - 1].task && !IsStart(cursor)
    ensures ScanPage(ts, cursor, count) == Page(ts[m..m + count], ts[m + count - 1].task)
  {
    if m > 0 { BeyondPrefix(ts, m); } else { assert ts[0..] == ts; }
    assert ts[m..][..count] == ts[m..m + count] && ts[m..][count - 1] == ts[m + count - 1];
  }

  lemma {:induction false} WholeCall(ts: seq<Candidate>, count: nat, cuts: seq<nat>, page: Page, all: seq<Candidate>)
    requires var s := Calls(ts, count, cuts);
      PageFor(ts, count, s.cursor, s.backlog) == page && |page.tasks| == count
      && s.cycles == [] && s.current + page.tasks == all
    ensures Calls(ts, count, cuts + [count])
            == if IsStart(page.nextCursor) then Scan(page.nextCursor, [], [], [all])
               else Scan(page.nextCursor, [], all, [])
  {
    CallsOn(ts, count, cuts, count);
    assert page.tasks[..count] == page.tasks && page.tasks[count..] == [];
  }

  /** An uncut call on a full page handles it whole. */
  lemma {:induction false} FullPage(ts: seq<Candidate>, count: nat, m: nat, n: nat, cuts: seq<nat>)
    requires Ascending(ts) && count > 0 && n == m + count && n <= |ts|
    requires Walked(ts, count, m, cuts)
    ensures !IsStart(ts[n - 1].task) ==> Walked(ts, count, n, cuts + [count])
    ensures IsStart(ts[n - 1].task) ==> Calls(ts, count, cuts + [count]).cycles == [ts[..n]]
  {
    var s := Calls(ts, count, cuts);
    var page := Page(ts[m..n], ts[n - 1].task);
    FullPageIs(ts, count, s.cursor, m);
    assert ts[..m] + page.tasks == ts[..n];
    WholeCall(ts, count, cuts, page, ts[..n]);
  }

  /** Uncut calls read page after page, as long as no page ends at a start id. */
  lemma {:induction false} Walk(ts: seq<Candidate>, count: nat, m: nat) returns (cuts: seq<nat>)
    requires Ascending(ts) && count > 0 && m <= |ts| && FillsPages(m, count)
    requires forall j :: 0 <= j < m ==> !BadEnd(ts, count, j)
    ensures Walked(ts, count, m, cuts)
    decreases m
  {
    if m == 0 {
      cuts := [];
      assert ts[..0] == [];
    } else {
      cuts := Walk(ts, count, m - count);
      assert !BadEnd(ts, count, m - 1);
      FullPage(ts, count, m - count, m, cuts);
      cuts := cuts + [count];
    }
  }

  lemma FirstBadEnd(ts: seq<Candidate>, count: nat) returns (j: nat)
    requires count > 0 && !PagesEndWell(ts, count)
    ensures j < |ts| - 1 && BadEnd(ts, count, j) && forall i :: 0 <= i < j ==> !BadEnd(ts, count, i)
  {
    j := 0;
    while !BadEnd(ts, count, j)
      invariant j < |ts| - 1
      invariant forall i :: 0 <= i < j ==> !BadEnd(ts, count, i)
      decreases |ts| - j
    {
      j := j + 1;
    }
  }

  /** If a page ends at a start id with tasks left, the first such page closes a cycle. */
  lemma BadPageCloses(ts: seq<Candidate>, count: nat, j: nat) returns (cuts: seq<nat>)
    requires Ascending(ts) && count > 0 && j < |ts| && BadEnd(ts, count, j)
    requires forall i :: 0 <= i < j ==> !BadEnd(ts, count, i)
    ensures Calls(ts, count, cuts).cycles == [ts[..j + 1]]
  {
    cuts := Walk(ts, count, j + 1 - count);
    FullPage(ts, count, j + 1 - count, j + 1, cuts);
    cuts := cuts + [count];
  }

  /** Every closed cycle handled exactly the set, in order. */
  ghost predicate WholeCycles(ts: seq<Candidate>, s: Scan) {
    forall i :: 0 <= i < |s.cycles| ==> s.cycles[i] == ts
  }

  lemma ShortCycle(ts: seq<Candidate>, count: nat, cuts: seq<nat>, n: nat)
    requires n < |ts| && Calls(ts, count, cuts).cycles == [ts[..n]]
    ensures !WholeCycles(ts, Calls(ts, count, cuts))
  {
    assert |Calls(ts, count, cuts).cycles[0]| == n;
  }

  /**
   * Wherever deadlines cut, every closed cycle handles each task of the set exactly once in id order, if and only if no
   * full page but the last ends at the sentinel's or the empty id.
   */
  lemma EachCycleIsOneSortedPassIff(ts: seq<Candidate>, count: nat)
    requires Sorted(ts) && count > 0
    ensures (forall cuts :: WholeCycles(ts, Calls(ts, count, cuts))) <==> PagesEndWell(ts, count)
  {
    SortedAscends(ts);
    if PagesEndWell(ts, count) {
      forall cuts ensures WholeCycles(ts, Calls(ts, count, cuts)) {
        var m := CallsAreOn(ts, count, cuts);
      }
    } else {
      var j := FirstBadEnd(ts, count);
      var cuts := BadPageCloses(ts, count, j);
      ShortCycle(ts, count, cuts, j + 1);
    }
  }

  /** The same id in the middle of a page does no harm. */
  lemma SentinelInsideAPage(first: Candidate, second: Candidate)
    requires IsStart(first.task) && first.task < second.task
    ensures !PagesEndWell([first, second], 1) && PagesEndWell([first, second], 3)
  {
    var ts := [first, second];
    assert FillsPages(1, 1) && BadEnd(ts, 1, 0);
    assert !FillsPages(1, 3);
  }
}
