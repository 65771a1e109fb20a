/** One synchronization cycle: a keyset scan over pending leads that marks rows while it pages,
    followed by chunked delivery. */
module SyncScan {
  import opened Base

  const MAX_ATTEMPTS := 5
  const BATCH_SIZE := 10

  /** What the stored payload is: not a JSON object, not yet researched, or ready. */
  datatype Content = Undecodable | Raw | Ready

  datatype Deferral = NotDeferred | ForResearch | ForCapacity

  datatype Row = Row(fingerprint: string, synced: bool, deferral: Deferral, attempts: nat, content: Content)

  /** The table by ascending rowid: a row's position stands for its rowid. */
  type Table = seq<Row>

  datatype Bucket = Synced | AlreadyExists | Failed | DeferredResearch | DeferredCapacity

  predicate Pending(r: Row) { !r.synced && r.deferral == NotDeferred && r.attempts < MAX_ATTEMPTS }

  /** What ending in a bucket writes to the row. */
  function Marked(r: Row, b: Bucket): Row {
    match b
    case Synced => r.(synced := true, deferral := NotDeferred)
    case AlreadyExists => r.(synced := true, deferral := NotDeferred)
    case Failed => r.(synced := false, attempts := r.attempts + 1)
    case DeferredResearch => r.(synced := false, deferral := ForResearch)
    case DeferredCapacity => r.(synced := false, deferral := ForCapacity)
  }

  // ------------------------------------------------------------------- the query

  ghost predicate Ascending(xs: seq<nat>) { forall i, j :: 0 <= i < j < |xs| ==> xs[i] < xs[j] }

  /** xs are the positions of the pending rows from `lo` on, in rowid order. */
  ghost predicate PendingFrom(rows: Table, lo: nat, xs: seq<nat>) {
    Ascending(xs) && forall i :: i in xs <==> lo <= i < |rows| && Pending(rows[i])
  }

  /** The pending positions from `lo` up to `hi`. */
  function PendingUpTo(rows: Table, lo: nat, hi: nat): seq<nat>
    requires hi <= |rows|
  {
    if hi <= lo then [] else PendingUpTo(rows, lo, hi - 1) + if Pending(rows[hi - 1]) then [hi - 1] else []
  }

  lemma {:induction false} PendingUpToIs(rows: Table, lo: nat, hi: nat)
    requires hi <= |rows|
    ensures Ascending(PendingUpTo(rows, lo, hi)) && forall i :: i in PendingUpTo(rows, lo, hi) <==> lo <= i < hi && Pending(rows[i])
  {
    if lo < hi {
      PendingUpToIs(rows, lo, hi - 1);
      var xs := PendingUpTo(rows, lo, hi - 1);
      forall k | 0 <= k < |xs| ensures xs[k] < hi - 1 { assert xs[k] in xs; }
      var more: seq<nat> := if Pending(rows[hi - 1]) then [hi - 1] else [];
      forall i: nat ensures i in xs + more <==> i in xs || (i == hi - 1 && Pending(rows[hi - 1])) {}
    }
  }

  /** The order has no ties, so the query has one answer. */
  lemma {:induction false} OneAnswer(xs: seq<nat>, ys: seq<nat>)
    requires Ascending(xs) && Ascending(ys) && forall i :: i in xs <==> i in ys
    ensures xs == ys
  {
    FirstIn(xs);
    FirstIn(ys);
    if xs != [] && ys != [] {
      var i :| 0 <= i < |ys| && ys[i] == xs[0];
      var j :| 0 <= j < |xs| && xs[j] == ys[0];
      assert ys[0] <= ys[i] && xs[0] <= xs[j];
      assert xs[0] == ys[0];
      Rest(xs);
      Rest(ys);
      OneAnswer(xs[1..], ys[1..]);
      assert xs == [xs[0]] + xs[1..] && ys == [ys[0]] + ys[1..];
    }
  }

  lemma FirstIn(xs: seq<nat>)
    ensures xs != [] ==> xs[0] in xs
  {}

  lemma Rest(xs: seq<nat>)
    requires Ascending(xs) && xs != []
    ensures Ascending(xs[1..]) && forall i :: i in xs[1..] <==> i in xs && i != xs[0]
  {
    assert xs == [xs[0]] + xs[1..];
  }

  /** Marking rows behind the cursor does not change what the query returns after it: the next
      page continues where the pages so far ended. */
  lemma NextSlice(rows: Table, marked: Table, excluded: set<string>, all: seq<nat>, scanned: nat, xs: seq<nat>)
    requires PendingFrom(rows, 0, all) && scanned <= |all| && ScanMarked(rows, marked, excluded, all[..scanned])
    requires PendingFrom(marked, if scanned == 0 then 0 else all[scanned - 1] + 1, xs)
    ensures xs == all[scanned..] && forall n :: 0 <= n <= |xs| ==> xs[..n] == all[scanned..scanned + n]
  {
    var cursor := if scanned == 0 then 0 else all[scanned - 1] + 1;
    var rest := all[scanned..];
    forall i | cursor <= i < |rows| ensures marked[i] == rows[i] {
      forall k | 0 <= k < scanned ensures all[k] != i { assert k == scanned - 1 || all[k] < all[scanned - 1]; }
    }
    forall k | 0 <= k < scanned ensures all[k] < cursor { assert k == scanned - 1 || all[k] < all[scanned - 1]; }
    forall i ensures i in rest <==> i in xs {
      if i in rest {
        var k :| 0 <= k < |rest| && rest[k] == i;
        assert all[scanned + k] == i && i in all;
        assert scanned == 0 || all[scanned - 1] < all[scanned + k];
      }
      if i in xs {
        assert i in all;
        var k :| 0 <= k < |all| && all[k] == i;
        assert rest[k - scanned] == i;
      }
    }
    OneAnswer(xs, rest);
  }

  // -------------------------------------------------------------- specification

  function PageSize(limit: int): nat {
    if limit * 10 < 100 then 100 else if limit * 10 > 500 then 500 else limit * 10
  }

  /** A page is ten rows for each lead wanted, but at least a hundred and at most five hundred. */
  lemma PageIsClamped(limit: int)
    ensures 100 <= PageSize(limit) <= 500
    ensures PageSize(limit) < 10 * limit ==> PageSize(limit) == 500
    ensures PageSize(limit) > 10 * limit ==> PageSize(limit) == 100
  {}

  /** Row i is scanned for real, with this content. */
  predicate Holds(rows: Table, i: nat, excluded: set<string>, content: Content) {
    i < |rows| && rows[i].fingerprint !in excluded && rows[i].content == content
  }

  /** The non-excluded rows of this content among those scanned, in rowid order. */
  function Among(rows: Table, excluded: set<string>, scan: seq<nat>, content: Content): seq<nat>
  {
    if scan == [] then []
    else
      var before := Among(rows, excluded, scan[..|scan| - 1], content);
      if Holds(rows, scan[|scan| - 1], excluded, content) then before + [scan[|scan| - 1]] else before
  }

  function Min(a: nat, b: nat): nat { if a < b then a else b }

  /** The rows a cycle may look at: ten pages of pending rows. */
  function Window(all: seq<nat>, limit: int): seq<nat> { all[..Min(|all|, 10 * PageSize(limit))] }

  /** What the scan alone does to a row. */
  function ScanBucket(r: Row): Option<Bucket> {
    match r.content
    case Undecodable => Some(Failed)
    case Raw => Some(DeferredResearch)
    case Ready => None
  }

  function ScanEffect(r: Row, excluded: set<string>, scanned: bool): Row {
    if scanned && r.fingerprint !in excluded && ScanBucket(r).Some? then Marked(r, ScanBucket(r).value) else r
  }

  /** What the scan reports of the rows it looked at. */
  function ScanReport(rows: Table, excluded: set<string>, seen: seq<nat>): Report {
    map i | i in seen && i < |rows| && rows[i].fingerprint !in excluded && ScanBucket(rows[i]).Some? :: ScanBucket(rows[i]).value
  }

  /** After the scan: the rows scanned, not excluded and not ready are marked, no others. */
  ghost predicate ScanMarked(rows: Table, marked: Table, excluded: set<string>, scan: seq<nat>) {
    && |marked| == |rows|
    && forall i :: 0 <= i < |rows| ==> marked[i] == ScanEffect(rows[i], excluded, i in scan)
  }

  function Times(k: nat, size: nat): nat { if k == 0 then 0 else Times(k - 1, size) + size }

  lemma {:induction false} TimesLeft(k: nat, size: nat)
    requires k <= 10
    ensures Times(k, size) + Times(10 - k, size) == Times(10, size)
  {
    if k > 0 { TimesLeft(k - 1, size); }
  }

  lemma TenPages(k: nat, size: nat)
    requires k <= 10
    ensures Times(k, size) <= 10 * size && (k == 10 ==> Times(k, size) == 10 * size)
  {
    TimesLeft(k, size);
    TimesTen(size);
  }

  lemma TimesTen(size: nat)
    ensures Times(10, size) == 10 * size
  {
    assert Times(1, size) == size;
    assert Times(2, size) == 2 * size;
    assert Times(3, size) == 3 * size;
    assert Times(4, size) == 4 * size;
    assert Times(5, size) == 5 * size;
    assert Times(6, size) == 6 * size;
    assert Times(7, size) == 7 * size;
    assert Times(8, size) == 8 * size;
    assert Times(9, size) == 9 * size;
  }

  /** Page counting: until enough leads are found, whole pages have been scanned; when the loop
      gives up, ten pages or everything has. */
  ghost predicate Counted(total: nat, size: nat, scanned: nat, pages: nat, more: bool, enough: bool) {
    && scanned <= 10 * size && scanned <= total
    && (!enough ==> if more then scanned == Times(pages, size) && pages < 10 else scanned == Min(total, 10 * size))
  }

  lemma CountEnds(total: nat, size: nat, scanned: nat, pages: nat, more: bool, enough: bool)
    requires Counted(total, size, scanned, pages, more, enough) && (enough || !more)
    ensures Counted(total, size, scanned, 0, false, enough)
  {}

  lemma CountNext(total: nat, size: nat, scanned: nat, pages: nat, got: nat, looked: nat, enough: bool)
    requires Counted(total, size, scanned, pages, true, false) && looked <= got == Min(total - scanned, size) && (looked == got || enough)
    ensures Counted(total, size, scanned + looked, pages + 1, got == size && scanned + looked < 10 * size, enough)
  {
    TenPages(pages + 1, size);
  }

  ghost predicate MarkedAll(before: Table, after: Table, positions: seq<nat>, b: Bucket) {
    && |after| == |before|
    && forall i :: 0 <= i < |before| ==> after[i] == if i in positions then Marked(before[i], b) else before[i]
  }

  function ReportOf(positions: seq<nat>, b: Bucket): Report { map i | i in positions :: b }

  function MarkRows(rows: Table, positions: seq<nat>, b: Bucket): (r: Table)
    ensures |r| == |rows|
  {
    if positions == [] then rows
    else
      var before, p := MarkRows(rows, positions[..|positions| - 1], b), positions[|positions| - 1];
      if p < |before| then before[p := Marked(before[p], b)] else before
  }

  function MarkReport(report: Report, positions: seq<nat>, b: Bucket): Report {
    if positions == [] then report else MarkReport(report, positions[..|positions| - 1], b)[positions[|positions| - 1] := b]
  }

  lemma MarkNext(before: Table, rows: Table, report: Report, done: seq<nat>, p: nat, b: Bucket)
    requires MarkedAll(before, rows, done, b) && p !in done && p < |rows|
    ensures MarkedAll(before, rows[p := Marked(rows[p], b)], done + [p], b)
    ensures (report + ReportOf(done, b))[p := b] == report + ReportOf(done + [p], b)
  {}

  /** Marking different rows one by one marks all of them once. */
  lemma {:induction false} MarksAre(rows: Table, report: Report, positions: seq<nat>, b: Bucket)
    requires (forall i :: i in positions ==> i < |rows|) && forall i, j :: 0 <= i < j < |positions| ==> positions[i] != positions[j]
    ensures MarkedAll(rows, MarkRows(rows, positions, b), positions, b)
    ensures MarkReport(report, positions, b) == report + ReportOf(positions, b)
  {
    if positions != [] {
      var front, last := positions[..|positions| - 1], positions[|positions| - 1];
      assert positions == front + [last];
      forall i | i in front ensures i in positions {}
      MarksAre(rows, report, front, b);
      assert last !in front && last in positions;
      MarkNext(rows, MarkRows(rows, front, b), report, front, last, b);
    }
  }

  lemma JoinReports(x: Report, y: Report, z: Report)
    ensures x + y + z == x + (y + z)
  {}

  class LeadStore {
    var rows: Table
    /** What the current cycle has reported so far: its synced, existing, failed and deferred lists. */
    var report: Report

    /** `pending_scan(after_rowid, limit)`. */
    method PendingScan(cursor: nat, limit: nat) returns (page: seq<nat>)
      ensures exists xs :: PendingFrom(rows, cursor, xs) && page == xs[..Min(|xs|, limit)]
    {
      page := [];
      ghost var xs := [];
      var i := cursor;
      while i < |rows|
        invariant cursor <= i && (|rows| < i ==> i == cursor)
        invariant xs == if i <= |rows| then PendingUpTo(rows, cursor, i) else []
        invariant page == xs[..Min(|xs|, limit)]
      {
        if Pending(rows[i]) {
          if |page| < limit { page := page + [i]; }
          xs := xs + [i];
        }
        i := i + 1;
      }
      if cursor <= |rows| { PendingUpToIs(rows, cursor, |rows|); }
      assert PendingFrom(rows, cursor, xs);
    }

    /** `requeue_sync_deferred("airtable_record_capacity")`. */
    method RequeueCapacity()
      modifies this
      ensures rows == Requeued(old(rows)) && report == old(report)
      ensures |rows| == |old(rows)| && forall i :: 0 <= i < |rows| ==>
        rows[i] == if old(rows)[i].deferral.ForCapacity? then old(rows)[i].(synced := false, deferral := NotDeferred) else old(rows)[i]
    {
      var i := 0;
      while i < |rows|
        invariant 0 <= i <= |rows| && |rows| == |old(rows)| && report == old(report)
        invariant forall j :: 0 <= j < |rows| ==> rows[j] == if j < i then Requeued(old(rows))[j] else old(rows)[j]
      {
        if rows[i].deferral == ForCapacity { rows := rows[i := rows[i].(synced := false, deferral := NotDeferred)]; }
        i := i + 1;
      }
    }

    /** Mark and report every listed row. */
    method MarkAll(positions: seq<nat>, b: Bucket)
      requires forall i :: i in positions ==> i < |rows|
      requires forall i, j :: 0 <= i < j < |positions| ==> positions[i] != positions[j]
      modifies this
      ensures MarkedAll(old(rows), rows, positions, b) && report == old(report) + ReportOf(positions, b)
    {
      var n := 0;
      while n < |positions|
        invariant 0 <= n <= |positions| && |rows| == |old(rows)|
        invariant rows == MarkRows(old(rows), positions[..n], b) && report == MarkReport(old(report), positions[..n], b)
      {
        assert positions[n] in positions && positions[..n + 1][..n] == positions[..n];
        rows := rows[positions[n] := Marked(rows[positions[n]], b)];
        report := report[positions[n] := b];
        n := n + 1;
      }
      assert positions[..n] == positions;
      MarksAre(old(rows), old(report), positions, b);
    }

    /** One page: collect the wanted rows until there are enough, then mark the rest of what
        was looked at. */
    method ScanPage(page: seq<nat>, limit: int, excluded: set<string>, found: nat) returns (ready: seq<nat>, looked: nat)
      requires found < limit && page != [] && (forall i :: i in page ==> i < |rows|) && Ascending(page)
      modifies this
      ensures 0 < looked <= |page| && ready == Among(old(rows), excluded, page[..looked], Ready)
      ensures found + |ready| <= limit && (looked == |page| || found + |ready| == limit)
      ensures ScanMarked(old(rows), rows, excluded, page[..looked])
      ensures report == old(report) + ScanReport(old(rows), excluded, page[..looked])
    {
      var raw, invalid: seq<nat> := [], [];
      ready, looked := [], 0;
      while looked < |page| && found + |ready| < limit
        invariant 0 <= looked <= |page| && found + |ready| <= limit && (looked == 0 ==> ready == [])
        invariant ready == Among(rows, excluded, page[..looked], Ready)
        invariant raw == Among(rows, excluded, page[..looked], Raw) && invalid == Among(rows, excluded, page[..looked], Undecodable)
      {
        var i := page[looked];
        assert page[..looked + 1] == page[..looked] + [i] && page[..looked + 1][..looked] == page[..looked] && i in page;
        if rows[i].fingerprint !in excluded {
          match rows[i].content {
            case Undecodable => invalid := invalid + [i];
            case Raw => raw := raw + [i];
            case Ready => ready := ready + [i];
          }
        }
        looked := looked + 1;
      }
      AmongAre(rows, excluded, page[..looked], Raw);
      AmongAre(rows, excluded, page[..looked], Undecodable);
      MarkPage(excluded, page[..looked], raw, invalid);
    }

    /** Defer the raw rows of a page and record an error on the undecodable ones. */
    method MarkPage(excluded: set<string>, ghost seen: seq<nat>, raw: seq<nat>, invalid: seq<nat>)
      requires Collected(rows, excluded, seen, Raw, raw) && Collected(rows, excluded, seen, Undecodable, invalid)
      modifies this
      ensures ScanMarked(old(rows), rows, excluded, seen) && report == old(report) + ScanReport(old(rows), excluded, seen)
    {
      ghost var before, reported := rows, report;
      MarkAll(raw, DeferredResearch);
      ghost var deferred := rows;
      MarkAll(invalid, Failed);
      BothMarked(before, deferred, rows, excluded, seen, raw, invalid);
      JoinReports(reported, ReportOf(raw, DeferredResearch), ReportOf(invalid, Failed));
    }

    /** The paging loop.  Although it marks rows between pages, it scans a prefix of the window
        and stops exactly when `limit` wanted rows are found or the window is used up. */
    method Scan(limit: int, excluded: set<string>) returns (valid: seq<nat>, ghost all: seq<nat>, ghost scan: seq<nat>)
      modifies this
      ensures PendingFrom(old(rows), 0, all) && scan <= Window(all, limit)
      ensures valid == Among(old(rows), excluded, scan, Ready)
      ensures limit <= 0 ==> scan == []
      ensures limit > 0 ==> |valid| <= limit
      ensures limit > 0 && |valid| < limit ==> scan == Window(all, limit)
      ensures ScanMarked(old(rows), rows, excluded, scan) && report == ScanReport(old(rows), excluded, scan)
    {
      ghost var scanned, end;
      valid, all, scanned, end := ScanPages(limit, excluded);
      scan := all[..scanned];
    }

    method ScanPages(limit: int, excluded: set<string>) returns (valid: seq<nat>, ghost all: seq<nat>, ghost scanned_: nat, ghost end: nat)
      modifies this
      ensures Progress(old(rows), rows, report, excluded, all, scanned_, valid, end)
      ensures Counted(|all|, PageSize(limit), scanned_, 0, false, |valid| >= limit)
      ensures (limit > 0 ==> |valid| <= limit) && (limit <= 0 ==> scanned_ == 0)
    {
      PendingUpToIs(rows, 0, |rows|);
      all := PendingUpTo(rows, 0, |rows|);
      report := map[];
      var size := PageSize(limit);
      var cursor, scanned: nat, pages: nat, more := 0, 0, 0, true;
      valid := [];
      while |valid| < limit && more
        invariant Progress(old(rows), rows, report, excluded, all, scanned, valid, cursor)
        invariant (limit > 0 ==> |valid| <= limit) && (limit <= 0 ==> scanned == 0)
        invariant Counted(|all|, size, scanned, pages, more, |valid| >= limit)
        decreases more, |all| - scanned
      {
        valid, cursor, scanned, more := Turn(limit, excluded, valid, cursor, size, scanned, pages, old(rows), all);
        pages := pages + 1;
      }
      scanned_, end := scanned, cursor;
      CountEnds(|all|, size, scanned, pages, more, |valid| >= limit);
    }

    /** One turn of the paging loop, with its page count. */
    method Turn(limit: int, excluded: set<string>, valid: seq<nat>, cursor: nat, size: nat, scanned: nat, ghost pages: nat,
                ghost before: Table, ghost all: seq<nat>)
      returns (valid': seq<nat>, cursor': nat, scanned': nat, more: bool)
      requires Progress(before, rows, report, excluded, all, scanned, valid, cursor) && |valid| < limit && size > 0
      requires Counted(|all|, size, scanned, pages, true, false)
      modifies this
      ensures Progress(before, rows, report, excluded, all, scanned', valid', cursor') && |valid'| <= limit
      ensures Counted(|all|, size, scanned', pages + 1, more, |valid'| >= limit)
      ensures more ==> scanned < scanned' <= |all|
    {
      var got, looked;
      valid', cursor', got, looked := NextPage(limit, excluded, valid, cursor, size, before, all, scanned);
      scanned' := scanned + looked;
      more := got == size && scanned' < 10 * size;
      CountNext(|all|, size, scanned, pages, got, looked, |valid'| >= limit);
    }

    /** The delivery loop over chunks of ten: every lead is marked as its outcome says. */
    method Deliver(valid: seq<nat>, batches: nat -> BatchResult, handoffs: nat -> Handoff, ghost before: Table)
      requires Ascending(valid) && (forall i :: i in valid ==> i < |rows| && i !in report)
      requires DeliveredUpTo(before, rows, report, report, valid, 0, batches, handoffs)
      modifies this
      ensures DeliveredUpTo(before, rows, old(report), report, valid, |valid|, batches, handoffs)
    {
      var start := 0;
      while start < |valid|
        invariant 0 <= start <= |valid| && (start % BATCH_SIZE == 0 || start == |valid|)
        invariant DeliveredUpTo(before, rows, old(report), report, valid, start, batches, handoffs)
      {
        var end := if start + BATCH_SIZE < |valid| then start + BATCH_SIZE else |valid|;
        DeliverChunk(valid, start, end, batches, handoffs, before, old(report));
        start := end;
      }
    }

    /** One chunk: its batch request decides whether its leads are handed off one by one. */
    method DeliverChunk(valid: seq<nat>, start: nat, end: nat, batches: nat -> BatchResult, handoffs: nat -> Handoff,
                        ghost before: Table, ghost reported: Report)
      requires start <= end <= |valid| && start % BATCH_SIZE == 0 && end <= start + BATCH_SIZE
      requires Ascending(valid) && (forall i :: i in valid ==> i < |rows| && i !in reported)
      requires DeliveredUpTo(before, rows, reported, report, valid, start, batches, handoffs)
      modifies this
      ensures DeliveredUpTo(before, rows, reported, report, valid, end, batches, handoffs)
    {
      var batch := batches(start / BATCH_SIZE);
      var k := start;
      while k < end
        invariant start <= k <= end
        invariant DeliveredUpTo(before, rows, reported, report, valid, k, batches, handoffs)
      {
        assert k / BATCH_SIZE == start / BATCH_SIZE && valid[k] in valid;
        var bucket := if batch == Outage then Failed else HandoffBucket(handoffs(k));
        DeliverNext(before, rows, reported, report, valid, k, batches, handoffs);
        rows := rows[valid[k] := Marked(rows[valid[k]], bucket)];
        report := report[valid[k] := bucket];
        k := k + 1;
      }
    }

    /** `sync_pending_batched`: every scanned, non-excluded row ends in exactly one bucket, is
        marked accordingly, and no other row changes; `kept` is the table after requeueing. */
    method SyncPending(limit: int, excluded: set<string>, requeue: bool, batches: nat -> BatchResult, handoffs: nat -> Handoff)
      returns (ghost kept: Table, ghost all: seq<nat>, ghost scan: seq<nat>, ghost valid: seq<nat>)
      modifies this
      ensures kept == if requeue then Requeued(old(rows)) else old(rows)
      ensures PendingFrom(kept, 0, all) && scan <= Window(all, limit) && valid == Among(kept, excluded, scan, Ready)
      ensures if limit <= 0 then scan == [] else |valid| <= limit && (|valid| < limit ==> scan == Window(all, limit))
      ensures DeliveredUpTo(kept, rows, ScanReport(kept, excluded, scan), report, valid, |valid|, batches, handoffs)
    {
      if requeue { RequeueCapacity(); }
      kept := rows;
      var found, listed, scanned := Scan(limit, excluded);
      all, scan, valid := listed, scanned, found;
      AmongAre(kept, excluded, scan, Ready);
      assert Ascending(scan) && forall i :: i in scan ==> i in all;
      Deliver(found, batches, handoffs, kept);
    }

    /** The next page continues the listing of what was pending at the start. */
    method FetchPage(excluded: set<string>, ghost valid: seq<nat>, cursor: nat, size: nat, ghost before: Table, ghost all: seq<nat>, ghost scanned: nat)
      returns (page: seq<nat>)
      requires Progress(before, rows, report, excluded, all, scanned, valid, cursor)
      ensures |page| == Min(|all| - scanned, size) && page == all[scanned..scanned + |page|]
      ensures (forall i :: i in page ==> i < |rows|) && Ascending(page)
    {
      page := PendingScan(cursor, size);
      ghost var xs :| PendingFrom(rows, cursor, xs) && page == xs[..Min(|xs|, size)];
      NextSlice(before, rows, excluded, all, scanned, xs);
      forall i | i in page ensures i in xs {}
    }

    /** Fetch and scan one page. */
    method NextPage(limit: int, excluded: set<string>, valid: seq<nat>, cursor: nat, size: nat,
                    ghost before: Table, ghost all: seq<nat>, ghost scanned: nat)
      returns (valid': seq<nat>, cursor': nat, got: nat, looked: nat)
      requires Progress(before, rows, report, excluded, all, scanned, valid, cursor) && |valid| < limit && size > 0
      modifies this
      ensures looked <= got == Min(|all| - scanned, size) && (got > 0 ==> looked > 0)
      ensures Progress(before, rows, report, excluded, all, scanned + looked, valid', cursor')
      ensures |valid'| <= limit && (looked == got || |valid'| == limit)
    {
      var page := FetchPage(excluded, valid, cursor, size, before, all, scanned);
      if page == [] { return valid, cursor, 0, 0; }
      valid', looked := ScanSlice(page, limit, excluded, valid, cursor, before, all, scanned);
      cursor', got := page[looked - 1] + 1, |page|;
    }

    /** Scan a page that continues the listing. */
    method ScanSlice(page: seq<nat>, limit: int, excluded: set<string>, valid: seq<nat>, ghost cursor: nat,
                     ghost before: Table, ghost all: seq<nat>, ghost scanned: nat)
      returns (valid': seq<nat>, looked: nat)
      requires Progress(before, rows, report, excluded, all, scanned, valid, cursor) && |valid| < limit && page != []
      requires scanned + |page| <= |all| && page == all[scanned..scanned + |page|]
      requires (forall i :: i in page ==> i < |rows|) && Ascending(page)
      modifies this
      ensures 0 < looked <= |page| && |valid'| <= limit && (looked == |page| || |valid'| == limit)
      ensures Progress(before, rows, report, excluded, all, scanned + looked, valid', page[looked - 1] + 1)
    {
      ghost var m, reported := rows, report;
      var ready;
      ready, looked := ScanPage(page, limit, excluded, |valid|);
      valid' := valid + ready;
      PageDone(before, m, rows, reported, report, excluded, all, scanned, looked, valid, cursor, page, ready);
    }
  }

  lemma PageDone(before: Table, m: Table, rows: Table, reported: Report, report: Report, excluded: set<string>, all: seq<nat>, scanned: nat, looked: nat,
                 valid: seq<nat>, cursor: nat, page: seq<nat>, ready: seq<nat>)
    requires Progress(before, m, reported, excluded, all, scanned, valid, cursor)
    requires 0 < looked <= |page| && scanned + |page| <= |all| && page == all[scanned..scanned + |page|]
    requires report == reported + ScanReport(m, excluded, page[..looked])
    requires ScanMarked(m, rows, excluded, page[..looked]) && ready == Among(m, excluded, page[..looked], Ready)
    ensures Progress(before, rows, report, excluded, all, scanned + looked, valid + ready, page[looked - 1] + 1)
  {
    assert page[..looked] == all[scanned..scanned + looked];
    ScanComposes(before, m, rows, excluded, all, scanned, looked);
    ReportComposes(before, m, excluded, all, scanned, looked);
  }

  lemma {:induction false} AmongAre(rows: Table, excluded: set<string>, scan: seq<nat>, content: Content)
    requires Ascending(scan)
    ensures Ascending(Among(rows, excluded, scan, content)) && Collected(rows, excluded, scan, content, Among(rows, excluded, scan, content))
  {
    if scan != [] {
      var front, last := scan[..|scan| - 1], scan[|scan| - 1];
      assert scan == front + [last];
      AmongAre(rows, excluded, front, content);
      var before := Among(rows, excluded, front, content);
      forall k | 0 <= k < |before| ensures before[k] < last {
        assert before[k] in before && before[k] in front;
      }
    }
  }

  /** The first n wanted rows are delivered on top of what the scan reported; `before` is the
      table before the scan. */
  ghost predicate DeliveredUpTo(before: Table, rows: Table, reported: Report, report: Report, valid: seq<nat>, n: nat,
                                batches: nat -> BatchResult, handoffs: nat -> Handoff)
  {
    && n <= |valid| && |rows| == |before|
    && (forall i :: i in report <==> i in reported || i in valid[..n])
    && (forall i :: i in reported ==> report[i] == reported[i])
    && (forall k :: 0 <= k < n ==> report[valid[k]] == DeliveryBucket(batches(k / BATCH_SIZE), handoffs(k)))
    && (forall i :: 0 <= i < |rows| ==> rows[i] == if i in report then Marked(before[i], report[i]) else before[i])
  }

  lemma DeliverNext(before: Table, rows: Table, reported: Report, report: Report, valid: seq<nat>, k: nat,
                    batches: nat -> BatchResult, handoffs: nat -> Handoff)
    requires DeliveredUpTo(before, rows, reported, report, valid, k, batches, handoffs) && k < |valid| && Ascending(valid)
    requires valid[k] < |rows| && valid[k] !in reported
    ensures var b := DeliveryBucket(batches(k / BATCH_SIZE), handoffs(k));
      DeliveredUpTo(before, rows[valid[k] := Marked(rows[valid[k]], b)], reported, report[valid[k] := b], valid, k + 1, batches, handoffs)
  {
    assert valid[..k + 1] == valid[..k] + [valid[k]];
    assert valid[k] !in valid[..k];
  }

  /** What the environment answers: the outcome of each chunk's batch request, and of the
      complete handoff of each lead. */
  datatype BatchResult = Delivered | Outage | NoCapacity | OtherError

  datatype Handoff = HandedOver | Existing | NotReady | NoRoom | Error

  function HandoffBucket(h: Handoff): Bucket {
    match h
    case HandedOver => Synced
    case Existing => AlreadyExists
    case NotReady => DeferredResearch
    case NoRoom => DeferredCapacity
    case Error => Failed
  }

  /** An outage fails its whole chunk; otherwise every lead is handed off on its own. */
  function DeliveryBucket(batch: BatchResult, h: Handoff): Bucket {
    if batch == Outage then Failed else HandoffBucket(h)
  }

  /** Which rows end where: a ready lead is delivered in chunks of ten, an outage fails its whole
      chunk, and every other batch error leaves each lead to its own handoff. */
  lemma BucketExactlyWhen(r: Row, order: nat, batches: nat -> BatchResult, handoffs: nat -> Handoff)
    ensures var b, h, sent := BucketOf(r, order, batches, handoffs), handoffs(order), r.content.Ready? && !batches(order / 10).Outage?;
      && (b == Synced <==> sent && h.HandedOver?)
      && (b == AlreadyExists <==> sent && h.Existing?)
      && (b == DeferredCapacity <==> sent && h.NoRoom?)
      && (b == DeferredResearch <==> r.content.Raw? || (sent && h.NotReady?))
      && (b == Failed <==> r.content.Undecodable? || (r.content.Ready? && batches(order / 10).Outage?) || (sent && h.Error?))
  {}

  /** What the cycle reports: one bucket per scanned row. */
  type Report = map<nat, Bucket>

  /** The bucket a scanned row ends in; `order` is its place among the wanted rows. */
  function BucketOf(r: Row, order: nat, batches: nat -> BatchResult, handoffs: nat -> Handoff): Bucket {
    match r.content
    case Undecodable => Failed
    case Raw => DeferredResearch
    case Ready => DeliveryBucket(batches(order / BATCH_SIZE), handoffs(order))
  }

  /** Where the paging loop stands: the first `scanned` rows of what was pending at the start are
      marked, the wanted ones among them are in `valid`, and the cursor is just behind them. */
  ghost predicate Progress(before: Table, rows: Table, report: Report, excluded: set<string>, all: seq<nat>, scanned: nat, valid: seq<nat>, cursor: nat) {
    && PendingFrom(before, 0, all) && scanned <= |all| && valid == Among(before, excluded, all[..scanned], Ready)
    && ScanMarked(before, rows, excluded, all[..scanned]) && report == ScanReport(before, excluded, all[..scanned])
    && cursor == if scanned == 0 then 0 else all[scanned - 1] + 1
  }

  /** The positions among those looked at that hold this content and are not excluded. */
  ghost predicate Collected(rows: Table, excluded: set<string>, seen: seq<nat>, content: Content, found: seq<nat>)
  {
    && (forall i :: i in found <==> i in seen && Holds(rows, i, excluded, content))
    && forall j, k :: 0 <= j < k < |found| ==> found[j] != found[k]
  }

  lemma BothMarked(before: Table, deferred: Table, after: Table, excluded: set<string>, seen: seq<nat>, raw: seq<nat>, invalid: seq<nat>)
    requires Collected(before, excluded, seen, Raw, raw) && Collected(before, excluded, seen, Undecodable, invalid)
    requires MarkedAll(before, deferred, raw, DeferredResearch) && MarkedAll(deferred, after, invalid, Failed)
    ensures ScanMarked(before, after, excluded, seen)
    ensures ReportOf(raw, DeferredResearch) + ReportOf(invalid, Failed) == ScanReport(before, excluded, seen)
  {
    forall i | 0 <= i < |before| ensures after[i] == ScanEffect(before[i], excluded, i in seen) {
      assert i in raw <==> i in seen && Holds(before, i, excluded, Raw);
      assert i in invalid <==> i in seen && Holds(before, i, excluded, Undecodable);
    }
  }

  lemma {:induction false} ReadyAppends(rows: Table, m: Table, excluded: set<string>, a: seq<nat>, b: seq<nat>)
    requires |m| == |rows| && forall i :: i in b ==> i < |rows| && m[i] == rows[i]
    ensures Among(rows, excluded, a + b, Ready) == Among(rows, excluded, a, Ready) + Among(m, excluded, b, Ready)
  {
    if b == [] {
      assert a + b == a;
    } else {
      var front := b[..|b| - 1];
      forall i | i in front ensures i in b {}
      ReadyAppends(rows, m, excluded, a, front);
      assert (a + b)[..|a + b| - 1] == a + front;
    }
  }

  lemma ReportComposes(rows: Table, m: Table, excluded: set<string>, all: seq<nat>, scanned: nat, looked: nat)
    requires PendingFrom(rows, 0, all) && scanned + looked <= |all| && ScanMarked(rows, m, excluded, all[..scanned])
    ensures ScanReport(rows, excluded, all[..scanned + looked])
            == ScanReport(rows, excluded, all[..scanned]) + ScanReport(m, excluded, all[scanned..scanned + looked])
  {
    var a, b := all[..scanned], all[scanned..scanned + looked];
    assert all[..scanned + looked] == a + b;
    forall i | i in b ensures i !in a && i < |rows| && m[i] == rows[i] {
      LaterRowUntouched(rows, m, excluded, all, scanned, looked, i);
    }
  }

  /** A row of a later slice is as it was. */
  lemma LaterRowUntouched(rows: Table, m: Table, excluded: set<string>, all: seq<nat>, scanned: nat, looked: nat, i: nat)
    requires PendingFrom(rows, 0, all) && scanned + looked <= |all| && ScanMarked(rows, m, excluded, all[..scanned])
    requires i in all[scanned..scanned + looked]
    ensures i !in all[..scanned] && i < |rows| == |m| && m[i] == rows[i]
  {
    var a, b := all[..scanned], all[scanned..scanned + looked];
    var k :| 0 <= k < |b| && b[k] == i;
    assert all[scanned + k] == i && i in all;
    forall j | 0 <= j < scanned ensures a[j] != i { assert all[j] < all[scanned + k]; }
  }

  lemma ScanComposes(rows: Table, m: Table, marked: Table, excluded: set<string>, all: seq<nat>, scanned: nat, looked: nat)
    requires PendingFrom(rows, 0, all) && scanned + looked <= |all|
    requires ScanMarked(rows, m, excluded, all[..scanned]) && ScanMarked(m, marked, excluded, all[scanned..scanned + looked])
    ensures ScanMarked(rows, marked, excluded, all[..scanned + looked])
    ensures Among(rows, excluded, all[..scanned + looked], Ready)
            == Among(rows, excluded, all[..scanned], Ready) + Among(m, excluded, all[scanned..scanned + looked], Ready)
  {
    var a, b := all[..scanned], all[scanned..scanned + looked];
    assert all[..scanned + looked] == a + b;
    forall i | i in b ensures i !in a && i < |rows| && m[i] == rows[i] {
      LaterRowUntouched(rows, m, excluded, all, scanned, looked, i);
    }
    ReadyAppends(rows, m, excluded, a, b);
  }

  function Requeued(rows: Table): Table {
    seq(|rows|, i requires 0 <= i < |rows| =>
      if rows[i].deferral == ForCapacity then rows[i].(synced := false, deferral := NotDeferred) else rows[i])
  }

  // ------------------------------------------------------------------- theorems

  /** The selected leads are the first `limit` wanted rows of the window, no more and no fewer,
      although rows were marked between the pages. */
  lemma SelectsTheFirstWanted(rows: Table, excluded: set<string>, all: seq<nat>, limit: int, scan: seq<nat>, valid: seq<nat>)
    requires scan <= Window(all, limit) && valid == Among(rows, excluded, scan, Ready) && limit > 0
    requires |valid| <= limit && (|valid| < limit ==> scan == Window(all, limit))
    ensures var wanted := Among(rows, excluded, Window(all, limit), Ready);
      valid == if |wanted| <= limit then wanted else wanted[..limit]
  {
    var window := Window(all, limit);
    var rest := window[|scan|..];
    assert window == scan + rest;
    ReadyConcat(rows, excluded, scan, rest);
  }

  lemma {:induction false} ReadyConcat(rows: Table, excluded: set<string>, a: seq<nat>, b: seq<nat>)
    ensures Among(rows, excluded, a + b, Ready) == Among(rows, excluded, a, Ready) + Among(rows, excluded, b, Ready)
  {
    if b == [] {
      assert a + b == a;
    } else {
      ReadyConcat(rows, excluded, a, b[..|b| - 1]);
      assert (a + b)[..|a + b| - 1] == a + b[..|b| - 1];
    }
  }

  /** Every scanned row that is not excluded ends in exactly one bucket, the one its content and
      its delivery call for; rows outside the scan and excluded rows are not touched. */
  lemma EveryScannedRowEndsInOneBucket(kept: Table, rows: Table, excluded: set<string>, all: seq<nat>, scan: seq<nat>,
                                       valid: seq<nat>, report: Report, batches: nat -> BatchResult, handoffs: nat -> Handoff, i: nat)
    requires PendingFrom(kept, 0, all) && scan <= all && valid == Among(kept, excluded, scan, Ready)
    requires DeliveredUpTo(kept, rows, ScanReport(kept, excluded, scan), report, valid, |valid|, batches, handoffs)
    requires i < |kept|
    ensures i in report <==> i in scan && kept[i].fingerprint !in excluded
    ensures i !in report ==> rows[i] == kept[i]
    ensures i in report ==>
      && rows[i] == Marked(kept[i], report[i]) && Pending(kept[i])
      && exists order: nat :: report[i] == BucketOf(kept[i], order, batches, handoffs) && (kept[i].content.Ready? ==> order < |valid| && valid[order] == i)
  {
    assert i in scan ==> i in all;
    WantedAre(kept, excluded, all, scan, valid, i);
    if i in valid { DeliveredRow(kept, rows, ScanReport(kept, excluded, scan), report, valid, batches, handoffs, i); }
    if i in report && i !in valid { assert report[i] == BucketOf(kept[i], 0, batches, handoffs); }
  }

  lemma WantedAre(kept: Table, excluded: set<string>, all: seq<nat>, scan: seq<nat>, valid: seq<nat>, i: nat)
    requires PendingFrom(kept, 0, all) && scan <= all && valid == Among(kept, excluded, scan, Ready)
    ensures i in valid <==> i in scan && Holds(kept, i, excluded, Ready)
    ensures valid[..|valid|] == valid
  {
    assert Ascending(scan);
    AmongAre(kept, excluded, scan, Ready);
  }

  lemma DeliveredRow(kept: Table, rows: Table, reported: Report, report: Report, valid: seq<nat>,
                     batches: nat -> BatchResult, handoffs: nat -> Handoff, i: nat)
    requires DeliveredUpTo(kept, rows, reported, report, valid, |valid|, batches, handoffs) && i in valid && i < |kept|
    requires kept[i].content.Ready?
    ensures i in report && exists order: nat :: order < |valid| && valid[order] == i && report[i] == BucketOf(kept[i], order, batches, handoffs)
  {
    assert valid[..|valid|] == valid;
    var order :| 0 <= order < |valid| && valid[order] == i;
    assert report[valid[order]] == BucketOf(kept[i], order, batches, handoffs);
  }

  /** A bucket decides whether the row is offered again: failed leads come back until they have
      failed five times, all others leave the pending set. */
  lemma OnlyFailedRowsStayPending(r: Row, b: Bucket)
    requires Pending(r)
    ensures Offered(r) && (Offered(Marked(r, b)) <==> Pending(Marked(r, b)))
    ensures Pending(Marked(r, b)) <==> b == Failed && r.attempts + 1 < MAX_ATTEMPTS
  {}

  /** A row is offered while it is neither synced nor deferred and has failed less than five times. */
  ghost predicate Offered(r: Row) { !r.synced && r.deferral.NotDeferred? && r.attempts in {0, 1, 2, 3, 4} }

  /** A bucket is the row's record of what happened: synced exactly after a handover or when the
      lead existed already, set aside for exactly the reason it was deferred, and one failure up
      exactly when it failed; identity and content stay. */
  lemma BucketIsRecorded(r: Row, b: Bucket)
    ensures Pending(r) <==> Offered(r)
    ensures var m := Marked(r, b);
      && m.fingerprint == r.fingerprint && m.content == r.content
      && (m.synced <==> b in {Synced, AlreadyExists})
      && m.attempts == (if b == Failed then r.attempts + 1 else r.attempts)
      && (Pending(r) ==> (m.deferral == ForResearch <==> b == DeferredResearch) && (m.deferral == ForCapacity <==> b == DeferredCapacity))
  {}
}
