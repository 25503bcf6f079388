/**
 The resumable scan of recently closed pull requests: windows over a list that changes between
 requests, continued by the identity of the last rows passed.
 */
module RecentScan {
  import opened Prelude

  /** Exact UTC timestamps; their string order is their chronological order. */
  type Time = int

  const RECENT_PAGE := 100
  const RECENT_OVERLAP := 20
  const RECENT_MAX_TIES := 100
  const RECENT_ANCHORS := 40
  const RECENT_LOOKAHEAD := 25
  const MAX_CURSOR_BYTES := 4096

  /** One closed pull request. accepted: its base is a discovery branch. */
  datatype Row = Row(number: int, updated: Time, merged: Option<Time>, accepted: bool,
                     mergeSha: Option<string>, head: Option<string>)

  datatype Anchor = Anchor(number: int, updated: Time)

  datatype Record = Record(number: int, mergedAt: Time, mergeSha: Option<string>, head: Option<string>)

  /** The scan cursor, with the field letters spelt out. */
  datatype Cursor = Cursor(
    requests: nat, pass: nat,
    floor: Option<Time>, floorSeen: set<int>, floorAll: bool,
    head: Option<Time>, headSeen: set<int>, headAll: bool,
    offset: nat, anchors: seq<Anchor>, belows: nat, inPass: nat, counted: nat)

  datatype Reply = Refused | Finished(records: seq<Record>) | More(records: seq<Record>, cursor: Cursor)

  function Identity(row: Row): Anchor {
    Anchor(row.number, row.updated)
  }

  function Identities(rows: seq<Row>): set<Anchor> {
    set r <- rows :: Identity(r)
  }

  function FreshCursor(after: Time): Cursor {
    Cursor(0, 0, Some(after), {}, false, None, {}, false, 0, [], 0, 0, 0)
  }

  ghost predicate Ties(numbers: set<int>) {
    |numbers| <= RECENT_MAX_TIES && forall n <- numbers :: n > 0
  }

  /** What the cursor decoder accepts for a scan that starts after a given instant. */
  ghost predicate Acceptable(c: Cursor, after: Time) {
    && c.floor.Some?
    && |c.anchors| <= RECENT_ANCHORS && (forall a <- c.anchors :: a.number > 0)
    && Ties(c.floorSeen) && Ties(c.headSeen)
    && !(c.floorAll && c.floorSeen != {}) && !(c.headAll && c.headSeen != {})
    && (c.pass == 0 ==> c.floor == Some(after) && c.floorSeen == {} && !c.floorAll)
    && (c.inPass == 0 ==> c.head.None? && c.offset == 0 && c.anchors == [] && c.belows == 0)
    && (c.offset > 0 ==> c.anchors != [])
  }

  // ----- the request window -----------------------------------------------------------------------------

  datatype Window = Window(size: int, page: int, start: int)

  function WindowEnd(offset: nat, size: nat): nat
    requires size > 0
  {
    (offset / size) * size + size
  }

  /** The size at most limit whose window around the offset ends last, the larger size on a tie. */
  function BestSize(offset: nat, limit: nat): (size: nat)
    requires limit > 0
    ensures 1 <= size <= limit
    ensures forall w :: 1 <= w <= limit ==> WindowEnd(offset, w) <= WindowEnd(offset, size)
  {
    if limit == 1 then 1
    else
      var smaller := BestSize(offset, limit - 1);
      if WindowEnd(offset, limit) >= WindowEnd(offset, smaller) then limit else smaller
  }

  function RecentWindow(offset: int): Window {
    if offset <= 0 then Window(RECENT_PAGE, 1, 0)
    else
      var size := BestSize(offset, RECENT_PAGE);
      var start := (offset / size) * size;
      Window(size, start / size + 1, start)
  }

  lemma {:induction false} Quotient(q: nat, w: nat)
    requires w > 0
    ensures (q * w) / w == q
  {
    if q > 0 {
      Quotient(q - 1, w);
      assert q * w == (q - 1) * w + w;
      assert ((q - 1) * w + w) / w == ((q - 1) * w) / w + 1;
    }
  }

  lemma Bounds(offset: nat, w: nat)
    requires w > 0
    ensures (offset / w) * w <= offset < (offset / w) * w + w
  {
    assert offset == w * (offset / w) + offset % w;
  }

  /** The window contains the resume offset, starts on a page boundary and reaches as far as any allowed window. */
  lemma WindowHoldsOffset(offset: nat)
    ensures var w := RecentWindow(offset);
            && 1 <= w.size <= RECENT_PAGE && w.page >= 1
            && w.start == (w.page - 1) * w.size
            && w.start <= offset < w.start + w.size
    ensures forall size :: 1 <= size <= RECENT_PAGE ==>
              WindowEnd(offset, size) <= RecentWindow(offset).start + RecentWindow(offset).size
  {
    if offset == 0 {
      forall size: nat | 1 <= size <= RECENT_PAGE ensures WindowEnd(0, size) <= RECENT_PAGE {
        Zero(size);
      }
    } else {
      var size := BestSize(offset, RECENT_PAGE);
      Quotient(offset / size, size);
      Bounds(offset, size);
    }
  }

  lemma Zero(w: nat)
    requires w > 0
    ensures WindowEnd(0, w) == w
  {
    assert 0 / w == 0;
  }

  // ----- one page ---------------------------------------------------------------------------------------

  predicate Below(c: Cursor, row: Row)
    requires c.floor.Some?
  {
    row.updated < c.floor.value || (row.updated == c.floor.value && c.pass == 0)
  }

  /** Rows a later pass already reported at the previous newest second. */
  predicate Known(c: Cursor, row: Row)
    requires c.floor.Some?
  {
    c.pass > 0 && row.updated == c.floor.value && row.number in c.floorSeen
  }

  predicate Mergeable(row: Row) {
    row.merged.Some? && row.accepted
  }

  function RecordOf(row: Row): Record
    requires Mergeable(row)
  {
    Record(row.number, row.merged.value, row.mergeSha, row.head)
  }

  datatype Taken = Taken(counted: nat, headSeen: set<int>, headAll: bool, records: seq<Record>)

  function Take(c: Cursor, head: Option<Time>, t: Taken, row: Row): Taken
    requires c.floor.Some?
  {
    var noted :=
      if Some(row.updated) == head && !t.headAll then
        var numbers := t.headSeen + {row.number};
        if |numbers| > RECENT_MAX_TIES then t.(headSeen := {}, headAll := true) else t.(headSeen := numbers)
      else t;
    if Known(c, row) then noted
    else
      var counting := if c.pass > 0 && row.updated == c.floor.value && c.floorAll then noted
                      else noted.(counted := noted.counted + 1);
      if Mergeable(row) then counting.(records := counting.records + [RecordOf(row)]) else counting
  }

  /** The first n rows processed, leaving out those below the floor or among the given anchors. */
  function TakeRows(c: Cursor, head: Option<Time>, t: Taken, skip: seq<Anchor>, rows: seq<Row>, n: nat): Taken
    requires c.floor.Some? && n <= |rows|
  {
    if n == 0 then t
    else
      var before := TakeRows(c, head, t, skip, rows, n - 1);
      if Identity(rows[n - 1]) in skip || Below(c, rows[n - 1]) then before else Take(c, head, before, rows[n - 1])
  }

  /** The first row with an anchor's identity, or -1. */
  function Position(rows: seq<Row>, anchor: Anchor): (i: int)
    ensures -1 <= i < |rows|
    ensures i >= 0 ==> Identity(rows[i]) == anchor
    ensures i < 0 ==> forall r <- rows :: Identity(r) != anchor
  {
    if rows == [] then -1
    else if Identity(rows[0]) == anchor then 0
    else
      var rest := Position(rows[1..], anchor);
      assert rows == [rows[0]] + rows[1..];
      if rest < 0 then -1 else rest + 1
  }

  /** The lowest row that is a surviving anchor, or -1. */
  function Cut(rows: seq<Row>, anchors: seq<Anchor>): (cut: int)
    ensures -1 <= cut < |rows|
    ensures cut >= 0 ==> Identity(rows[cut]) in anchors
    ensures cut < 0 ==> forall r <- rows :: Identity(r) !in anchors
  {
    if anchors == [] then -1
    else
      var front := Cut(rows, anchors[..|anchors| - 1]);
      var last := Position(rows, anchors[|anchors| - 1]);
      if last > front then last else front
  }

  function Recent(anchors: seq<Anchor>): seq<Anchor> {
    if |anchors| <= RECENT_ANCHORS then anchors else anchors[|anchors| - RECENT_ANCHORS..]
  }

  /** The last anchors once the first n rows have been passed. */
  function PassRows(anchors: seq<Anchor>, rows: seq<Row>, n: nat): seq<Anchor>
    requires n <= |rows|
  {
    if n == 0 then anchors
    else
      Recent(PassRows(anchors, rows, n - 1) + [Identity(rows[n - 1])])
  }

  datatype Walked = Walked(stop: nat, belows: nat, ended: bool)

  /** Walks down from row i until enough consecutive rows lie below the floor. */
  function Walk(c: Cursor, rows: seq<Row>, i: nat, belows: nat): (w: Walked)
    requires c.floor.Some? && i <= |rows|
    ensures i <= w.stop <= |rows| && (!w.ended ==> w.stop == |rows|)
    decreases |rows| - i
  {
    if i == |rows| then Walked(i, belows, false)
    else if !Below(c, rows[i]) then Walk(c, rows, i + 1, 0)
    else if belows + 1 >= RECENT_LOOKAHEAD then Walked(i + 1, belows + 1, true)
    else Walk(c, rows, i + 1, belows + 1)
  }

  function Newest(rows: seq<Row>): Option<Time> {
    if rows == [] then None
    else
      var rest := Newest(rows[1..]);
      if rest.None? || rest.value < rows[0].updated then Some(rows[0].updated) else rest
  }

  /** Too long a cursor first forgets its tie lists, which only repeats work; then the page is refused. */
  function Continue(records: seq<Record>, c: Cursor, length: Cursor -> nat): Reply {
    if length(c) <= MAX_CURSOR_BYTES then More(records, c)
    else
      var d := c.(floorAll := c.floorAll || c.floorSeen != {}, floorSeen := {},
                  headAll := c.headAll || c.headSeen != {}, headSeen := {});
      if length(d) <= MAX_CURSOR_BYTES then More(records, d) else Refused
  }

  /** A continuation window that holds none of the anchors backs off instead of being read. */
  predicate BacksOff(c: Cursor, rows: seq<Row>, start: int) {
    c.anchors != [] && Cut(rows, c.anchors) < 0 && start > 0
  }

  /** The anchors a processed page starts from: none when even the top of the list lost them all. */
  function Kept(c: Cursor, rows: seq<Row>): seq<Anchor> {
    if Cut(rows, c.anchors) < 0 then [] else c.anchors
  }

  function Down(c: Cursor, rows: seq<Row>): seq<Row> {
    rows[Cut(rows, c.anchors) + 1..]
  }

  function WalkPage(c: Cursor, rows: seq<Row>): (w: Walked)
    requires c.floor.Some?
    ensures w.stop <= |Down(c, rows)| && (!w.ended ==> w.stop == |Down(c, rows)|)
  {
    Walk(c, Down(c, rows), 0, if Cut(rows, c.anchors) < 0 && c.anchors != [] then 0 else c.belows)
  }

  function HeadOf(c: Cursor, rows: seq<Row>): Option<Time> {
    if c.inPass > 0 then c.head else Newest(rows)
  }

  /** What the page has taken when it reaches the rows below the resume point. */
  function TakenAbove(c: Cursor, rows: seq<Row>): Taken
    requires c.floor.Some?
  {
    TakeRows(c, HeadOf(c, rows), Taken(c.counted, c.headSeen, c.headAll, []), Kept(c, rows), rows,
             Cut(rows, c.anchors) + 1)
  }

  function TakePage(c: Cursor, rows: seq<Row>): Taken
    requires c.floor.Some?
  {
    TakeRows(c, HeadOf(c, rows), TakenAbove(c, rows), [], Down(c, rows), WalkPage(c, rows).stop)
  }

  /** The cursor after a processed window, or the end of the scan. */
  function Conclude(c: Cursor, count: nat, w: Window, head: Option<Time>, taken: Taken, anchors: seq<Anchor>,
                    belows: nat, stopped: bool, length: Cursor -> nat): Reply {
    if count < w.size || stopped then
      if c.inPass == 0 || (c.pass > 0 && taken.counted == 0) then Finished(taken.records)
      else
        Continue(taken.records,
                 Cursor(c.requests + 1, c.pass + 1, head, taken.headSeen, taken.headAll, None, {}, false, 0, [], 0, 0,
                        0),
                 length)
    else
      Continue(taken.records,
               c.(requests := c.requests + 1, inPass := c.inPass + 1, counted := taken.counted,
                  head := head, headSeen := taken.headSeen, headAll := taken.headAll, belows := belows,
                  anchors := anchors, offset := Max(0, w.start + count - 1 - RECENT_OVERLAP)),
               length)
  }

  function BackOff(c: Cursor, w: Window): Reply {
    More([], c.(requests := c.requests + 1, inPass := c.inPass + 1, offset := Max(0, w.start - RECENT_PAGE)))
  }

  function Passed(c: Cursor, rows: seq<Row>): seq<Anchor>
    requires c.floor.Some?
  {
    PassRows(Kept(c, rows), Down(c, rows), WalkPage(c, rows).stop)
  }

  function Page(c: Cursor, rows: seq<Row>, w: Window, length: Cursor -> nat): Reply
    requires c.floor.Some?
  {
    if |rows| > w.size || exists r <- rows :: r.number <= 0 then Refused
    else if BacksOff(c, rows, w.start) then BackOff(c, w)
    else
      Conclude(c, |rows|, w, HeadOf(c, rows), TakePage(c, rows), Passed(c, rows),
               WalkPage(c, rows).belows, WalkPage(c, rows).ended, length)
  }

  // ----- what a page answers, said of its rows ----------------------------------------------------------

  /** Not below the floor; the first pass leaves out the instant it starts after, a later one reads it again. */
  ghost predicate Met(c: Cursor, row: Row)
    requires c.floor.Some?
  {
    row.updated > c.floor.value || (row.updated == c.floor.value && c.pass > 0)
  }

  /** Handed out by the pass before, at its newest second. */
  ghost predicate Repeated(c: Cursor, row: Row)
    requires c.floor.Some?
  {
    c.pass > 0 && row.updated == c.floor.value && row.number in c.floorSeen
  }

  /** A row a later pass has not seen before, as far as it can tell. */
  ghost predicate News(c: Cursor, row: Row)
    requires c.floor.Some?
  {
    !(c.pass > 0 && row.updated == c.floor.value && (row.number in c.floorSeen || c.floorAll))
  }

  /** The record of a merge into a discovery branch. */
  ghost predicate Reports(row: Row, record: Record) {
    row.merged == Some(record.mergedAt) && row.accepted &&
    record.number == row.number && record.mergeSha == row.mergeSha && record.head == row.head
  }

  ghost predicate FirstAnchor(c: Cursor, rows: seq<Row>, i: int) {
    && 0 <= i < |rows| && Anchor(rows[i].number, rows[i].updated) in c.anchors
    && forall k :: 0 <= k < i ==> rows[k].number != rows[i].number || rows[k].updated != rows[i].updated
  }

  /** The resume point is the lowest row that is an anchor, met where it first stands. */
  ghost predicate Resumes(c: Cursor, rows: seq<Row>, cut: int) {
    && -1 <= cut < |rows| && (cut >= 0 ==> FirstAnchor(c, rows, cut))
    && forall i :: FirstAnchor(c, rows, i) ==> i <= cut
  }

  /** The rows below the floor that the look-ahead starts with. */
  ghost function Carried(c: Cursor, cut: int): nat {
    if cut < 0 && c.anchors != [] then 0 else c.belows
  }

  /** The look-ahead is used up by the e-th row: that many rows in a row lie below the floor. */
  ghost predicate UsedUp(c: Cursor, rows: seq<Row>, carried: nat, e: int)
    requires c.floor.Some?
  {
    && 1 <= e <= |rows| && (e < 25 ==> carried >= 25 - e)
    && forall k :: 0 <= k < e && e - 25 <= k ==> !Met(c, rows[k])
  }

  /** The walk stops where the look-ahead is first used up, or at the end of the window. */
  ghost predicate Stops(c: Cursor, rows: seq<Row>, carried: nat, w: Walked)
    requires c.floor.Some?
  {
    && (forall e :: 0 <= e < w.stop ==> !UsedUp(c, rows, carried, e))
    && if w.ended then UsedUp(c, rows, carried, w.stop) else w.stop == |rows| && !UsedUp(c, rows, carried, w.stop)
  }

  /** How many of the first n rows, counted from the last, lie below the floor. */
  ghost predicate Trails(c: Cursor, rows: seq<Row>, carried: nat, n: nat, belows: nat)
    requires c.floor.Some? && n <= |rows|
  {
    || (belows == carried + n && forall k :: 0 <= k < n ==> !Met(c, rows[k]))
    || (belows < n && Met(c, rows[n - belows - 1]) && forall k :: n - belows <= k < n ==> !Met(c, rows[k]))
  }

  /** The rows looked at: those under the resume point, and those above it that are no anchors. */
  ghost predicate Looks(c: Cursor, rows: seq<Row>, cut: int, stop: nat, i: int)
    requires c.floor.Some?
  {
    && 0 <= i < |rows| && Met(c, rows[i])
    && (cut < i <= cut + stop || (i <= cut && Anchor(rows[i].number, rows[i].updated) !in c.anchors))
  }

  ghost predicate HeadIs(c: Cursor, rows: seq<Row>, head: Option<Time>) {
    if c.inPass > 0 then head == c.head
    else if rows == [] then head.None?
    else head.Some? && (exists r <- rows :: r.updated == head.value) && forall r <- rows :: r.updated <= head.value
  }

  ghost predicate TiesAre(all: bool, known: set<int>, numbers: set<int>, all': bool, known': set<int>) {
    |known| <= 100 ==>
      if all then all' && known' == known
      else if |known + numbers| > 100 then all' && known' == {} else !all' && known' == known + numbers
  }

  ghost function HeadNumbers(c: Cursor, rows: seq<Row>, cut: int, stop: nat, head: Option<Time>): set<int>
    requires c.floor.Some?
  {
    set i | 0 <= i < |rows| && Looks(c, rows, cut, stop, i) && Some(rows[i].updated) == head :: rows[i].number
  }

  ghost predicate NoNews(c: Cursor, rows: seq<Row>, cut: int, stop: nat)
    requires c.floor.Some?
  {
    c.counted == 0 && forall i :: Looks(c, rows, cut, stop, i) ==> !News(c, rows[i])
  }

  /** The anchors after the page: the last of those kept and of the rows passed. */
  ghost predicate LastPassed(c: Cursor, down: seq<Row>, cut: int, stop: nat, anchors: seq<Anchor>)
    requires stop <= |down|
  {
    var all := (if cut < 0 then [] else c.anchors) + Marks(down, stop);
    anchors == if stop == 0 || |all| <= 40 then all else all[|all| - 40..]
  }

  ghost function Marks(rows: seq<Row>, n: nat): (marks: seq<Anchor>)
    requires n <= |rows|
    ensures |marks| == n && forall i :: 0 <= i < n ==> marks[i] == Anchor(rows[i].number, rows[i].updated)
  {
    seq(n, i requires 0 <= i < n => Anchor(rows[i].number, rows[i].updated))
  }

  /** The cursor a page goes on with, before it is cut to size. */
  ghost predicate GoesOn(c: Cursor, rows: seq<Row>, w: Window, cut: int, walked: Walked, d: Cursor)
    requires c.floor.Some? && -1 <= cut < |rows| && walked.stop <= |rows| - cut - 1
  {
    d.requests == c.requests + 1 &&
    if |rows| < w.size || walked.ended then
      && d.pass == c.pass + 1 && d.inPass == 0 && d.counted == 0
      && HeadIs(c, rows, d.floor)
      && TiesAre(c.headAll, c.headSeen, HeadNumbers(c, rows, cut, walked.stop, d.floor), d.floorAll, d.floorSeen)
      && d.head.None? && d.headSeen == {} && !d.headAll && d.offset == 0 && d.anchors == [] && d.belows == 0
    else
      && d.pass == c.pass && d.inPass == c.inPass + 1 && (d.counted == 0 <==> NoNews(c, rows, cut, walked.stop))
      && d.floor == c.floor && d.floorSeen == c.floorSeen && d.floorAll == c.floorAll
      && HeadIs(c, rows, d.head)
      && TiesAre(c.headAll, c.headSeen, HeadNumbers(c, rows, cut, walked.stop, d.head), d.headAll, d.headSeen)
      && d.offset == Max(0, w.start + |rows| - 21)
      && LastPassed(c, rows[cut + 1..], cut, walked.stop, d.anchors)
      && Trails(c, rows[cut + 1..], Carried(c, cut), walked.stop, d.belows)
  }

  /** A cursor that forgot its tie lists, so that every row of those seconds is read again. */
  ghost predicate Forgets(d: Cursor, e: Cursor) {
    e == d.(floorSeen := {}, headSeen := {}, floorAll := d.floorAll || d.floorSeen != {},
            headAll := d.headAll || d.headSeen != {})
  }

  ghost predicate Finishes(c: Cursor, rows: seq<Row>, w: Window, cut: int, walked: Walked)
    requires c.floor.Some?
  {
    (|rows| < w.size || walked.ended) && (c.inPass == 0 || (c.pass > 0 && NoNews(c, rows, cut, walked.stop)))
  }

  /** What is answered about a window that is read. */
  ghost predicate Answers(c: Cursor, rows: seq<Row>, w: Window, length: Cursor -> nat, cut: int, walked: Walked,
                          reply: Reply)
    requires c.floor.Some? && -1 <= cut < |rows| && walked.stop <= |rows| - cut - 1
  {
    && (!reply.Refused? ==> forall record :: record in reply.records <==>
          exists i :: Looks(c, rows, cut, walked.stop, i) && !Repeated(c, rows[i]) && Reports(rows[i], record))
    && (reply.Finished? <==> Finishes(c, rows, w, cut, walked))
    && (reply.More? ==> length(reply.cursor) <= 4096 && exists d ::
          && GoesOn(c, rows, w, cut, walked, d)
          && (reply.cursor == d || (length(d) > 4096 && Forgets(d, reply.cursor))))
    && (reply.Refused? ==> exists d, e ::
          GoesOn(c, rows, w, cut, walked, d) && Forgets(d, e) && length(d) > 4096 && length(e) > 4096)
  }

  /** The window is read from its resume point to where the walk stops. */
  ghost predicate Reads(c: Cursor, rows: seq<Row>, w: Window, length: Cursor -> nat, reply: Reply)
    requires c.floor.Some?
  {
    exists cut, walked: Walked ::
      && Resumes(c, rows, cut) && walked.stop <= |rows| - cut - 1
      && Stops(c, rows[cut + 1..], Carried(c, cut), walked)
      && Answers(c, rows, w, length, cut, walked, reply)
  }

  /** What is answered to a request: a refusal, a step back towards the top, or the window read. */
  ghost predicate Replies(c: Cursor, rows: seq<Row>, w: Window, length: Cursor -> nat, reply: Reply)
    requires c.floor.Some?
  {
    if |rows| > w.size || exists r <- rows :: r.number <= 0 then reply.Refused?
    else if w.start > 0 && c.anchors != [] && forall r <- rows :: Anchor(r.number, r.updated) !in c.anchors then
      reply == More([], c.(requests := c.requests + 1, inPass := c.inPass + 1, offset := Max(0, w.start - 100)))
    else Reads(c, rows, w, length, reply)
  }

  /** The anchor search of a page. */
  method FindCut(rows: seq<Row>, anchors: seq<Anchor>) returns (cut: int)
    ensures cut == Cut(rows, anchors)
  {
    cut := -1;
    for i := 0 to |anchors|
      invariant cut == Cut(rows, anchors[..i])
    {
      assert anchors[..i + 1][..i] == anchors[..i];
      cut := Max(cut, Position(rows, anchors[i]));
    }
    assert anchors[..|anchors|] == anchors;
  }

  /** The loop over the rows above the resume point. */
  method TakeAbove(c: Cursor, head: Option<Time>, t: Taken, remembered: seq<Anchor>, rows: seq<Row>, n: nat)
      returns (taken: Taken)
    requires c.floor.Some? && n <= |rows|
    ensures taken == TakeRows(c, head, t, remembered, rows, n)
  {
    taken := t;
    for i := 0 to n
      invariant taken == TakeRows(c, head, t, remembered, rows, i)
    {
      if Identity(rows[i]) !in remembered && !Below(c, rows[i]) {
        taken := Take(c, head, taken, rows[i]);
      }
    }
  }

  /** The loop below the resume point: remembers every row passed and stops at the look-ahead. */
  method WalkDown(c: Cursor, head: Option<Time>, t: Taken, remembered: seq<Anchor>, belows0: nat, down: seq<Row>)
      returns (taken: Taken, passed: seq<Anchor>, belows: nat, ended: bool)
    requires c.floor.Some?
    ensures var w := Walk(c, down, 0, belows0);
            && belows == w.belows && ended == w.ended
            && taken == TakeRows(c, head, t, [], down, w.stop)
            && passed == PassRows(remembered, down, w.stop)
  {
    hide Take, Recent, Below;
    taken, passed, belows, ended := t, remembered, belows0, false;
    var i := 0;
    while i < |down|
      invariant 0 <= i <= |down|
      invariant passed == PassRows(remembered, down, i)
      invariant taken == TakeRows(c, head, t, [], down, i)
      invariant Walk(c, down, 0, belows0) == Walk(c, down, i, belows)
    {
      var row := down[i];
      passed := Recent(passed + [Identity(row)]);
      i := i + 1;
      if Below(c, row) {
        belows := belows + 1;
        if belows >= RECENT_LOOKAHEAD {
          ended := true;
          return;
        }
      } else {
        belows := 0;
        taken := Take(c, head, taken, row);
      }
    }
  }

  /** The part of a page that reads its window: the two loops and the conclusion. */
  method ReadWindow(c: Cursor, rows: seq<Row>, w: Window, length: Cursor -> nat, cut: int) returns (reply: Reply)
    requires c.floor.Some? && cut == Cut(rows, c.anchors)
    ensures reply == Conclude(c, |rows|, w, HeadOf(c, rows), TakePage(c, rows), Passed(c, rows),
                              WalkPage(c, rows).belows, WalkPage(c, rows).ended, length)
  {
    hide Take, TakeRows, PassRows, Walk, Conclude, Below, Cut, Position, HeadOf, Kept, Down;
    var head, passed, down := HeadOf(c, rows), Kept(c, rows), Down(c, rows);
    // No anchor survives even at the top: this pass is read again from row 0.
    var belows := if cut < 0 && c.anchors != [] then 0 else c.belows;
    var above := TakeAbove(c, head, Taken(c.counted, c.headSeen, c.headAll, []), passed, rows, cut + 1);
    var taken, anchors, below, stopped := WalkDown(c, head, above, passed, belows, down);
    reply := Conclude(c, |rows|, w, head, taken, anchors, below, stopped, length);
  }

  /** The page as the source computes it: a search for the anchors, then the two loops over the window. */
  method RecentMergedPage(c: Cursor, rows: seq<Row>, w: Window, length: Cursor -> nat) returns (reply: Reply)
    requires c.floor.Some?
    ensures reply == Page(c, rows, w, length)
    ensures Replies(c, rows, w, length, reply)
  {
    PageReplies(c, rows, w, length);
    hide Replies, TakePage, Passed, WalkPage, Conclude, Cut, HeadOf;
    if |rows| > w.size || exists r <- rows :: r.number <= 0 {
      return Refused;
    }
    var cut := FindCut(rows, c.anchors);
    if c.anchors != [] && cut < 0 && w.start > 0 {
      return BackOff(c, w);
    }
    reply := ReadWindow(c, rows, w, length, cut);
  }

  // ----- a page answers so ------------------------------------------------------------------------------

  lemma MetIs(c: Cursor, row: Row)
    requires c.floor.Some?
    ensures Below(c, row) <==> !Met(c, row)
  {
  }

  lemma {:induction false} PositionIs(rows: seq<Row>, anchor: Anchor)
    ensures var i := Position(rows, anchor); i >= 0 ==> forall k :: 0 <= k < i ==> Identity(rows[k]) != anchor
  {
    if rows != [] && Identity(rows[0]) != anchor {
      PositionIs(rows[1..], anchor);
    }
  }

  lemma {:induction false} CutIs(c: Cursor, rows: seq<Row>, n: nat)
    requires n <= |c.anchors|
    ensures var cut := Cut(rows, c.anchors[..n]);
            && (cut >= 0 ==> FirstAnchor(c, rows, cut))
            && forall i :: FirstAnchor(c, rows, i) && Identity(rows[i]) in c.anchors[..n] ==> i <= cut
  {
    if n > 0 {
      var front, last := c.anchors[..n - 1], c.anchors[n - 1];
      assert c.anchors[..n] == front + [last] && c.anchors[..n][..n - 1] == front;
      CutIs(c, rows, n - 1);
      PositionIs(rows, last);
      var position := Position(rows, last);
      forall i | FirstAnchor(c, rows, i) && Identity(rows[i]) == last ensures i <= position {
        assert Identity(rows[i]) == Identity(rows[position]);
      }
    }
  }

  lemma ResumePoint(c: Cursor, rows: seq<Row>)
    ensures Resumes(c, rows, Cut(rows, c.anchors))
  {
    CutIs(c, rows, |c.anchors|);
    assert c.anchors[..|c.anchors|] == c.anchors;
  }

  lemma {:induction false} WalkStops(c: Cursor, rows: seq<Row>, i: nat, belows: nat, carried: nat)
    requires c.floor.Some? && i <= |rows| && Trails(c, rows, carried, i, belows)
    requires forall e :: 0 <= e <= i ==> !UsedUp(c, rows, carried, e)
    ensures var w := Walk(c, rows, i, belows);
            Stops(c, rows, carried, w) && (!w.ended ==> Trails(c, rows, carried, |rows|, w.belows))
    decreases |rows| - i
  {
    if i < |rows| {
      MetIs(c, rows[i]);
      if Met(c, rows[i]) {
        WalkStops(c, rows, i + 1, 0, carried);
      } else {
        assert UsedUp(c, rows, carried, i + 1) <==> belows + 1 >= 25;
        if belows + 1 < 25 {
          WalkStops(c, rows, i + 1, belows + 1, carried);
        }
      }
    }
  }

  ghost predicate Visits(c: Cursor, skip: seq<Anchor>, rows: seq<Row>, n: nat, i: int)
    requires c.floor.Some? && n <= |rows|
  {
    0 <= i < n && Anchor(rows[i].number, rows[i].updated) !in skip && Met(c, rows[i])
  }

  ghost function VisitedHeads(c: Cursor, skip: seq<Anchor>, rows: seq<Row>, n: nat, head: Option<Time>): set<int>
    requires c.floor.Some? && n <= |rows|
  {
    set i | 0 <= i < n && Visits(c, skip, rows, n, i) && Some(rows[i].updated) == head :: rows[i].number
  }

  lemma {:induction false} TakesRecords(c: Cursor, head: Option<Time>, t: Taken, skip: seq<Anchor>, rows: seq<Row>,
                                        n: nat,
                                        record: Record)
    requires c.floor.Some? && n <= |rows|
    ensures record in TakeRows(c, head, t, skip, rows, n).records <==>
              || record in t.records
              || exists i :: Visits(c, skip, rows, n, i) && !Repeated(c, rows[i]) && Reports(rows[i], record)
  {
    if n > 0 {
      TakesRecords(c, head, t, skip, rows, n - 1, record);
      MetIs(c, rows[n - 1]);
      forall i ensures Visits(c, skip, rows, n, i) <==>
                       Visits(c, skip, rows, n - 1, i) || (i == n - 1 && Visits(c, skip, rows, n, n - 1)) {
      }
    }
  }

  lemma {:induction false} TakesNews(c: Cursor, head: Option<Time>, t: Taken, skip: seq<Anchor>, rows: seq<Row>, n: nat)
    requires c.floor.Some? && n <= |rows|
    ensures TakeRows(c, head, t, skip, rows, n).counted == 0 <==>
              t.counted == 0 && forall i :: Visits(c, skip, rows, n, i) ==> !News(c, rows[i])
  {
    if n > 0 {
      TakesNews(c, head, t, skip, rows, n - 1);
      MetIs(c, rows[n - 1]);
      forall i ensures Visits(c, skip, rows, n, i) <==>
                       Visits(c, skip, rows, n - 1, i) || (i == n - 1 && Visits(c, skip, rows, n, n - 1)) {
      }
    }
  }

  lemma TiesCompose(all: bool, known: set<int>, a: set<int>, all': bool, known': set<int>, b: set<int>, last: bool,
                    known'': set<int>)
    requires TiesAre(all, known, a, all', known') && TiesAre(all', known', b, last, known'')
    ensures TiesAre(all, known, a + b, last, known'')
  {
    assert known + a + b == known + (a + b);
    SubsetIsSmaller(known + a, known + (a + b));
  }

  lemma TakeTies(c: Cursor, head: Option<Time>, t: Taken, row: Row)
    requires c.floor.Some?
    ensures var r := Take(c, head, t, row);
            TiesAre(t.headAll, t.headSeen, if Some(row.updated) == head then {row.number} else {}, r.headAll,
                    r.headSeen)
  {
    assert t.headSeen + {} == t.headSeen;
  }

  lemma NoTies(all: bool, known: set<int>)
    ensures TiesAre(all, known, {}, all, known)
  {
    assert known + {} == known;
  }

  lemma VisitedHeadsSnoc(c: Cursor, skip: seq<Anchor>, rows: seq<Row>, n: nat, head: Option<Time>)
    requires c.floor.Some? && n < |rows|
    ensures VisitedHeads(c, skip, rows, n + 1, head) ==
            VisitedHeads(c, skip, rows, n, head) +
            if Visits(c, skip, rows, n + 1, n) && Some(rows[n].updated) == head then {rows[n].number} else {}
  {
    hide Met;
  }

  lemma NoHeads(c: Cursor, skip: seq<Anchor>, rows: seq<Row>, head: Option<Time>)
    requires c.floor.Some?
    ensures VisitedHeads(c, skip, rows, 0, head) == {}
  {
  }

  lemma TakesStep(c: Cursor, head: Option<Time>, t: Taken, skip: seq<Anchor>, rows: seq<Row>, n: nat)
    requires c.floor.Some? && n < |rows|
    ensures TakeRows(c, head, t, skip, rows, n + 1) ==
            var before := TakeRows(c, head, t, skip, rows, n);
            if Visits(c, skip, rows, n + 1, n) then Take(c, head, before, rows[n]) else before
  {
    MetIs(c, rows[n]);
    hide Take;
  }

  lemma {:induction false} TakesTies(c: Cursor, head: Option<Time>, t: Taken, skip: seq<Anchor>, rows: seq<Row>, n: nat)
    requires c.floor.Some? && n <= |rows|
    ensures var r := TakeRows(c, head, t, skip, rows, n);
            TiesAre(t.headAll, t.headSeen, VisitedHeads(c, skip, rows, n, head), r.headAll, r.headSeen)
  {
    hide TiesAre, Take, TakeRows, VisitedHeads, Visits;
    if n == 0 {
      NoHeads(c, skip, rows, head);
      NothingTaken(c, head, t, skip, rows);
      NoTies(t.headAll, t.headSeen);
    } else {
      var before, row := TakeRows(c, head, t, skip, rows, n - 1), rows[n - 1];
      TakesTies(c, head, t, skip, rows, n - 1);
      VisitedHeadsSnoc(c, skip, rows, n - 1, head);
      TakesStep(c, head, t, skip, rows, n - 1);
      TakeTies(c, head, before, row);
      NoTies(before.headAll, before.headSeen);
      var one := if Visits(c, skip, rows, n, n - 1) && Some(row.updated) == head then {row.number} else {};
      var r := TakeRows(c, head, t, skip, rows, n);
      TiesCompose(t.headAll, t.headSeen, VisitedHeads(c, skip, rows, n - 1, head), before.headAll, before.headSeen, one,
                  r.headAll, r.headSeen);
    }
  }

  lemma NothingTaken(c: Cursor, head: Option<Time>, t: Taken, skip: seq<Anchor>, rows: seq<Row>)
    requires c.floor.Some?
    ensures TakeRows(c, head, t, skip, rows, 0) == t
  {
  }

  lemma LooksAt(c: Cursor, rows: seq<Row>, cut: int, stop: nat, i: int)
    requires c.floor.Some? && -1 <= cut < |rows| && stop <= |rows| - cut - 1
    ensures Looks(c, rows, cut, stop, i) <==>
              || Visits(c, if cut < 0 then [] else c.anchors, rows, cut + 1, i)
              || (cut < i < |rows| && Visits(c, [], rows[cut + 1..], stop, i - cut - 1))
  {
    hide Met;
    if cut < i < |rows| {
      assert rows[cut + 1..][i - cut - 1] == rows[i];
    }
  }

  ghost function KeptAt(c: Cursor, cut: int): seq<Anchor> {
    if cut < 0 then [] else c.anchors
  }

  /** Both loops of a page: above the resume point without its anchors, then under it until the stop. */
  ghost function BothLoops(c: Cursor, head: Option<Time>, t: Taken, rows: seq<Row>, cut: int, stop: nat): Taken
    requires c.floor.Some? && -1 <= cut < |rows| && stop <= |rows| - cut - 1
  {
    TakeRows(c, head, TakeRows(c, head, t, KeptAt(c, cut), rows, cut + 1), [], rows[cut + 1..], stop)
  }

  lemma LoopsRecord(c: Cursor, head: Option<Time>, t: Taken, rows: seq<Row>, cut: int, stop: nat, record: Record)
    requires c.floor.Some? && -1 <= cut < |rows| && stop <= |rows| - cut - 1
    ensures record in BothLoops(c, head, t, rows, cut, stop).records <==>
              || record in t.records
              || exists i :: Looks(c, rows, cut, stop, i) && !Repeated(c, rows[i]) && Reports(rows[i], record)
  {
    hide Repeated, Reports, TakeRows, Met;
    var down := rows[cut + 1..];
    TakesRecords(c, head, t, KeptAt(c, cut), rows, cut + 1, record);
    TakesRecords(c, head, TakeRows(c, head, t, KeptAt(c, cut), rows, cut + 1), [], down, stop, record);
    if i :| Looks(c, rows, cut, stop, i) && !Repeated(c, rows[i]) && Reports(rows[i], record) {
      LooksAt(c, rows, cut, stop, i);
      if i > cut {
        assert down[i - cut - 1] == rows[i];
      }
    } else {
      forall i | Visits(c, KeptAt(c, cut), rows, cut + 1, i) ensures Looks(c, rows, cut, stop, i) {
        LooksAt(c, rows, cut, stop, i);
      }
      forall k | Visits(c, [], down, stop, k)
        ensures Looks(c, rows, cut, stop, k + cut + 1) && rows[k + cut + 1] == down[k]
      {
        LooksAt(c, rows, cut, stop, k + cut + 1);
      }
    }
  }

  lemma LoopsNews(c: Cursor, head: Option<Time>, t: Taken, rows: seq<Row>, cut: int, stop: nat)
    requires c.floor.Some? && -1 <= cut < |rows| && stop <= |rows| - cut - 1 && t.counted == c.counted
    ensures BothLoops(c, head, t, rows, cut, stop).counted == 0 <==> NoNews(c, rows, cut, stop)
  {
    hide News, TakeRows, Met;
    var down := rows[cut + 1..];
    TakesNews(c, head, t, KeptAt(c, cut), rows, cut + 1);
    TakesNews(c, head, TakeRows(c, head, t, KeptAt(c, cut), rows, cut + 1), [], down, stop);
    forall i | Looks(c, rows, cut, stop, i)
      ensures Visits(c, KeptAt(c, cut), rows, cut + 1, i)
              || (i > cut && Visits(c, [], down, stop, i - cut - 1) && down[i - cut - 1] == rows[i])
    {
      LooksAt(c, rows, cut, stop, i);
    }
    forall i | Visits(c, KeptAt(c, cut), rows, cut + 1, i) ensures Looks(c, rows, cut, stop, i) {
      LooksAt(c, rows, cut, stop, i);
    }
    forall k | Visits(c, [], down, stop, k)
      ensures Looks(c, rows, cut, stop, k + cut + 1) && rows[k + cut + 1] == down[k]
    {
      LooksAt(c, rows, cut, stop, k + cut + 1);
    }
  }

  lemma LoopsTies(c: Cursor, head: Option<Time>, t: Taken, rows: seq<Row>, cut: int, stop: nat)
    requires c.floor.Some? && -1 <= cut < |rows| && stop <= |rows| - cut - 1
    ensures var r := BothLoops(c, head, t, rows, cut, stop);
            TiesAre(t.headAll, t.headSeen, HeadNumbers(c, rows, cut, stop, head), r.headAll, r.headSeen)
  {
    hide TakeRows, TiesAre;
    var down, first := rows[cut + 1..], TakeRows(c, head, t, KeptAt(c, cut), rows, cut + 1);
    TakesTies(c, head, t, KeptAt(c, cut), rows, cut + 1);
    TakesTies(c, head, first, [], down, stop);
    HeadsSplit(c, rows, cut, stop, head);
    var r := BothLoops(c, head, t, rows, cut, stop);
    TiesCompose(t.headAll, t.headSeen, VisitedHeads(c, KeptAt(c, cut), rows, cut + 1, head), first.headAll,
                first.headSeen,
                VisitedHeads(c, [], down, stop, head), r.headAll, r.headSeen);
  }

  lemma HeadsSplit(c: Cursor, rows: seq<Row>, cut: int, stop: nat, head: Option<Time>)
    requires c.floor.Some? && -1 <= cut < |rows| && stop <= |rows| - cut - 1
    ensures HeadNumbers(c, rows, cut, stop, head) ==
            VisitedHeads(c, KeptAt(c, cut), rows, cut + 1, head) + VisitedHeads(c, [], rows[cut + 1..], stop, head)
  {
    hide Met;
    var down := rows[cut + 1..];
    forall n | n in HeadNumbers(c, rows, cut, stop, head)
      ensures n in VisitedHeads(c, KeptAt(c, cut), rows, cut + 1, head) + VisitedHeads(c, [], down, stop, head)
    {
      var i :| 0 <= i < |rows| && Looks(c, rows, cut, stop, i) && Some(rows[i].updated) == head && rows[i].number == n;
      LooksAt(c, rows, cut, stop, i);
      if i > cut {
        assert down[i - cut - 1] == rows[i];
      }
    }
    forall n | n in VisitedHeads(c, [], down, stop, head) ensures n in HeadNumbers(c, rows, cut, stop, head) {
      var k :| 0 <= k < stop && Visits(c, [], down, stop, k) && Some(down[k].updated) == head && down[k].number == n;
      LooksAt(c, rows, cut, stop, k + cut + 1);
      assert rows[k + cut + 1] == down[k];
    }
    forall n | n in VisitedHeads(c, KeptAt(c, cut), rows, cut + 1, head)
      ensures n in HeadNumbers(c, rows, cut, stop, head)
    {
      var i :| 0 <= i < cut + 1 && Visits(c, KeptAt(c, cut), rows, cut + 1, i) && Some(rows[i].updated) == head
               && rows[i].number == n;
      LooksAt(c, rows, cut, stop, i);
    }
  }

  lemma {:induction false} NewestIs(rows: seq<Row>)
    ensures var newest := Newest(rows);
            if rows == [] then newest.None?
            else newest.Some? && (exists r <- rows :: r.updated == newest.value) &&
                 forall r <- rows :: r.updated <= newest.value
  {
    if rows != [] {
      NewestIs(rows[1..]);
      assert rows == [rows[0]] + rows[1..];
    }
  }

  lemma MarksSnoc(rows: seq<Row>, n: nat)
    requires n < |rows|
    ensures Marks(rows, n + 1) == Marks(rows, n) + [Identity(rows[n])]
  {
  }

  /** Keeping the last ones at every step keeps the last ones of all. */
  lemma RecentOfRecent(all: seq<Anchor>, last: Anchor)
    ensures Recent(Recent(all) + [last]) == Recent(all + [last])
  {
  }

  lemma {:induction false} PassesAll(kept: seq<Anchor>, down: seq<Row>, stop: nat)
    requires stop <= |down|
    ensures PassRows(kept, down, stop) == if stop == 0 then kept else Recent(kept + Marks(down, stop))
  {
    if stop > 0 {
      PassesAll(kept, down, stop - 1);
      MarksSnoc(down, stop - 1);
      var before, last := kept + Marks(down, stop - 1), Identity(down[stop - 1]);
      assert kept + Marks(down, stop) == before + [last];
      if stop > 1 {
        hide Recent, Marks;
        RecentOfRecent(before, last);
      } else {
        assert before == kept;
      }
    }
  }

  lemma PassesRows(c: Cursor, down: seq<Row>, cut: int, stop: nat)
    requires stop <= |down|
    ensures LastPassed(c, down, cut, stop, PassRows(KeptAt(c, cut), down, stop))
  {
    PassesAll(KeptAt(c, cut), down, stop);
    hide PassRows, Marks;
  }

  lemma ContinueIs(records: seq<Record>, d: Cursor, length: Cursor -> nat)
    ensures var reply := Continue(records, d, length);
            && !reply.Finished?
            && (reply.More? ==>
                && reply.records == records && length(reply.cursor) <= 4096
                && (reply.cursor == d || (length(d) > 4096 && Forgets(d, reply.cursor))))
            && (reply.Refused? ==> exists e :: Forgets(d, e) && length(d) > 4096 && length(e) > 4096)
  {
    var e := d.(floorAll := d.floorAll || d.floorSeen != {}, floorSeen := {},
                headAll := d.headAll || d.headSeen != {}, headSeen := {});
    assert Forgets(d, e);
  }

  /** The cursor of the conclusion, before it is cut to size. */
  ghost function Onwards(c: Cursor, count: nat, w: Window, head: Option<Time>, taken: Taken, anchors: seq<Anchor>,
                         belows: nat, stopped: bool): Cursor {
    if count < w.size || stopped then
      Cursor(c.requests + 1, c.pass + 1, head, taken.headSeen, taken.headAll, None, {}, false, 0, [], 0, 0, 0)
    else
      c.(requests := c.requests + 1, inPass := c.inPass + 1, counted := taken.counted, head := head,
         headSeen := taken.headSeen, headAll := taken.headAll, belows := belows, anchors := anchors,
         offset := Max(0, w.start + count - 1 - RECENT_OVERLAP))
  }

  lemma ConcludeAnswers(c: Cursor, rows: seq<Row>, w: Window, length: Cursor -> nat, cut: int, walked: Walked,
                        head: Option<Time>, taken: Taken, anchors: seq<Anchor>)
    requires c.floor.Some? && -1 <= cut < |rows| && walked.stop <= |rows| - cut - 1
    requires taken == BothLoops(c, head, Taken(c.counted, c.headSeen, c.headAll, []), rows, cut, walked.stop)
    requires HeadIs(c, rows, head) && anchors == PassRows(KeptAt(c, cut), rows[cut + 1..], walked.stop)
    requires !walked.ended ==> Trails(c, rows[cut + 1..], Carried(c, cut), walked.stop, walked.belows)
    ensures Answers(c, rows, w, length, cut, walked,
                    Conclude(c, |rows|, w, head, taken, anchors, walked.belows, walked.ended, length))
  {
    hide BothLoops, HeadIs, PassRows, Trails, Met, Repeated, Reports, NoNews, Continue, TiesAre, HeadNumbers,
        LastPassed;
    var start := Taken(c.counted, c.headSeen, c.headAll, []);
    forall record ensures record in taken.records <==>
        exists i :: Looks(c, rows, cut, walked.stop, i) && !Repeated(c, rows[i]) && Reports(rows[i], record) {
      LoopsRecord(c, head, start, rows, cut, walked.stop, record);
    }
    LoopsNews(c, head, start, rows, cut, walked.stop);
    LoopsTies(c, head, start, rows, cut, walked.stop);
    PassesRows(c, rows[cut + 1..], cut, walked.stop);
    var d := Onwards(c, |rows|, w, head, taken, anchors, walked.belows, walked.ended);
    assert GoesOn(c, rows, w, cut, walked, d);
    ContinueIs(taken.records, d, length);
  }

  lemma PageWalks(c: Cursor, rows: seq<Row>)
    requires c.floor.Some?
    ensures var cut, w := Cut(rows, c.anchors), WalkPage(c, rows);
            Stops(c, rows[cut + 1..], Carried(c, cut), w) &&
            (!w.ended ==> Trails(c, rows[cut + 1..], Carried(c, cut), w.stop, w.belows))
  {
    hide Cut, Walk, Stops, Trails;
    WalkFromTop(c, Down(c, rows), Carried(c, Cut(rows, c.anchors)));
  }

  lemma WalkFromTop(c: Cursor, rows: seq<Row>, carried: nat)
    requires c.floor.Some?
    ensures var w := Walk(c, rows, 0, carried);
            Stops(c, rows, carried, w) && (!w.ended ==> Trails(c, rows, carried, |rows|, w.belows))
  {
    hide Walk;
    WalkStops(c, rows, 0, carried, carried);
  }

  lemma LoopsAre(c: Cursor, rows: seq<Row>)
    requires c.floor.Some?
    ensures var cut, stop := Cut(rows, c.anchors), WalkPage(c, rows).stop;
            && TakePage(c, rows) ==
               BothLoops(c, HeadOf(c, rows), Taken(c.counted, c.headSeen, c.headAll, []), rows, cut, stop)
            && Passed(c, rows) == PassRows(KeptAt(c, cut), rows[cut + 1..], stop)
  {
    hide Cut, WalkPage, TakeRows, PassRows, HeadOf;
  }

  lemma ReadsBy(c: Cursor, rows: seq<Row>, w: Window, length: Cursor -> nat, cut: int, walked: Walked, reply: Reply)
    requires c.floor.Some? && Resumes(c, rows, cut) && walked.stop <= |rows| - cut - 1
    requires Stops(c, rows[cut + 1..], Carried(c, cut), walked) && Answers(c, rows, w, length, cut, walked, reply)
    ensures Reads(c, rows, w, length, reply)
  {
    hide FirstAnchor, Stops, Answers, Carried;
  }

  /** What the page has worked out before it concludes. */
  ghost predicate WorkedOut(c: Cursor, rows: seq<Row>, cut: int, walked: Walked, head: Option<Time>, taken: Taken,
                            anchors: seq<Anchor>)
    requires c.floor.Some?
  {
    && Resumes(c, rows, cut) && walked.stop <= |rows| - cut - 1
    && Stops(c, rows[cut + 1..], Carried(c, cut), walked)
    && (!walked.ended ==> Trails(c, rows[cut + 1..], Carried(c, cut), walked.stop, walked.belows))
    && taken == BothLoops(c, head, Taken(c.counted, c.headSeen, c.headAll, []), rows, cut, walked.stop)
    && HeadIs(c, rows, head) && anchors == PassRows(KeptAt(c, cut), rows[cut + 1..], walked.stop)
  }

  lemma ReadsWith(c: Cursor, rows: seq<Row>, w: Window, length: Cursor -> nat, cut: int, walked: Walked,
                  head: Option<Time>, taken: Taken, anchors: seq<Anchor>)
    requires c.floor.Some? && WorkedOut(c, rows, cut, walked, head, taken, anchors)
    ensures Reads(c, rows, w, length,
                  Conclude(c, |rows|, w, head, taken, anchors, walked.belows, walked.ended, length))
  {
    hide Conclude, Answers, Stops, Trails, HeadIs, BothLoops, Carried, FirstAnchor, PassRows, Reads;
    ConcludeAnswers(c, rows, w, length, cut, walked, head, taken, anchors);
    ReadsBy(c, rows, w, length, cut, walked,
            Conclude(c, |rows|, w, head, taken, anchors, walked.belows, walked.ended, length));
  }

  lemma PageWorksOut(c: Cursor, rows: seq<Row>)
    requires c.floor.Some?
    ensures WorkedOut(c, rows, Cut(rows, c.anchors), WalkPage(c, rows), HeadOf(c, rows), TakePage(c, rows),
                      Passed(c, rows))
  {
    hide Conclude, TakePage, Passed, WalkPage, Walk, Stops, Trails, HeadIs, Cut, HeadOf, BothLoops, Carried,
        FirstAnchor,
         Resumes, PassRows, KeptAt;
    ResumePoint(c, rows);
    PageWalks(c, rows);
    HeadOfIs(c, rows);
    LoopsAre(c, rows);
  }

  lemma PageReads(c: Cursor, rows: seq<Row>, w: Window, length: Cursor -> nat)
    requires c.floor.Some?
    ensures Reads(c, rows, w, length, Conclude(c, |rows|, w, HeadOf(c, rows), TakePage(c, rows), Passed(c, rows),
                                               WalkPage(c, rows).belows, WalkPage(c, rows).ended, length))
  {
    hide *;
    PageWorksOut(c, rows);
    ReadsWith(c, rows, w, length, Cut(rows, c.anchors), WalkPage(c, rows), HeadOf(c, rows), TakePage(c, rows),
              Passed(c, rows));
  }

  lemma NoneSurvives(c: Cursor, rows: seq<Row>)
    ensures Cut(rows, c.anchors) < 0 <==> forall r <- rows :: Anchor(r.number, r.updated) !in c.anchors
  {
    var cut := Cut(rows, c.anchors);
    if cut >= 0 {
      assert rows[cut] in rows && Anchor(rows[cut].number, rows[cut].updated) in c.anchors;
    }
  }

  /** Every page answers so. */
  lemma PageReplies(c: Cursor, rows: seq<Row>, w: Window, length: Cursor -> nat)
    requires c.floor.Some?
    ensures Replies(c, rows, w, length, Page(c, rows, w, length))
  {
    hide Conclude, TakePage, Passed, WalkPage, Cut, HeadOf, Reads;
    PageReads(c, rows, w, length);
    NoneSurvives(c, rows);
  }

  lemma HeadOfIs(c: Cursor, rows: seq<Row>)
    ensures HeadIs(c, rows, HeadOf(c, rows))
  {
    NewestIs(rows);
  }

  // ----- facts about one page ---------------------------------------------------------------------------

  lemma {:induction false} PassedAnchors(anchors: seq<Anchor>, rows: seq<Row>, n: nat)
    requires n <= |rows|
    ensures var r := PassRows(anchors, rows, n);
            && (forall a <- r :: a in anchors || a in Identities(rows[..n]))
            && (|anchors| <= RECENT_ANCHORS ==> |r| <= RECENT_ANCHORS)
            && (n > 0 || anchors != [] ==> r != [])
  {
    if n > 0 {
      PassedAnchors(anchors, rows, n - 1);
      assert rows[..n] == rows[..n - 1] + [rows[n - 1]];
      assert rows[n - 1] in rows[..n];
      forall a | a in Identities(rows[..n - 1]) ensures a in Identities(rows[..n]) {
        var r :| r in rows[..n - 1] && Identity(r) == a;
        assert r in rows[..n];
      }
    }
  }

  ghost predicate Listed(list: seq<Row>) {
    && (forall i, j :: 0 <= i < j < |list| ==> list[i].number != list[j].number)
    && (forall r <- list :: r.number > 0)
  }

  ghost predicate GoodTies(t: Taken) {
    Ties(t.headSeen) && !(t.headAll && t.headSeen != {})
  }

  /** Why a processed row needs no further report: it lies below the floor, or its record has been handed out. */
  ghost predicate Settled(c: Cursor, reported: set<Record>, row: Row)
    requires c.floor.Some?
  {
    Below(c, row) || (Mergeable(row) ==> RecordOf(row) in reported)
  }

  /**
   The numbers remembered for a second are those of rows that were listed with it, and whichever of these rows is
   listed still has its record, if it is a merge, among those handed out.
   */
  ghost predicate Told(list: seq<Row>, used: set<Anchor>, reported: set<Record>, second: Option<Time>,
                       numbers: set<int>) {
    && (forall n <- numbers :: second.Some? && Anchor(n, second.value) in used)
    && forall r <- list :: Some(r.updated) == second && r.number in numbers && Mergeable(r) ==> RecordOf(r) in reported
  }

  ghost predicate Within(rows: seq<Row>, list: seq<Row>) {
    forall r <- rows :: r in list
  }

  lemma DownWithin(c: Cursor, rows: seq<Row>, list: seq<Row>)
    requires Within(rows, list)
    ensures Within(Down(c, rows), list)
  {
    forall r | r in Down(c, rows) ensures r in list {
      assert r in rows;
    }
  }

  lemma {:induction false} TakenRows(c: Cursor, head: Option<Time>, t: Taken, skip: seq<Anchor>, rows: seq<Row>, n: nat,
                                     list: seq<Row>, used: set<Anchor>, reported: set<Record>)
    requires c.floor.Some? && n <= |rows| && GoodTies(t) && Listed(list) && Within(rows, list)
    requires Told(list, used, reported, c.floor, c.floorSeen)
    ensures var r := TakeRows(c, head, t, skip, rows, n);
            && Elements(t.records) <= Elements(r.records) && GoodTies(r)
            && forall i :: 0 <= i < n && Identity(rows[i]) !in skip ==>
                 Settled(c, reported + Elements(r.records), rows[i])
  {
    if n > 0 {
      TakenRows(c, head, t, skip, rows, n - 1, list, used, reported);
      var before := TakeRows(c, head, t, skip, rows, n - 1);
      assert rows[n - 1] in rows;
      TakenOne(c, head, before, rows[n - 1], list, used, reported);
    }
  }

  lemma TakenOne(c: Cursor, head: Option<Time>, t: Taken, row: Row, list: seq<Row>, used: set<Anchor>,
                 reported: set<Record>)
    requires c.floor.Some? && GoodTies(t) && Listed(list) && row in list
    requires Told(list, used, reported, c.floor, c.floorSeen)
    ensures var r := Take(c, head, t, row);
            Elements(t.records) <= Elements(r.records) && GoodTies(r) && Settled(c, reported + Elements(r.records), row)
  {
    if Mergeable(row) {
      assert RecordOf(row) in t.records + [RecordOf(row)];
    }
  }

  /** What a page remembers of the newest second is told of. */
  lemma {:induction false} HeadRows(c: Cursor, head: Option<Time>, t: Taken, skip: seq<Anchor>, rows: seq<Row>, n: nat,
                                    list: seq<Row>, used: set<Anchor>, reported: set<Record>)
    requires c.floor.Some? && n <= |rows| && Listed(list) && Identities(list) <= used && Within(rows, list)
    requires Told(list, used, reported, c.floor, c.floorSeen)
    requires Told(list, used, reported + Elements(t.records), head, t.headSeen)
    ensures var r := TakeRows(c, head, t, skip, rows, n);
            Told(list, used, reported + Elements(r.records), head, r.headSeen)
  {
    if n > 0 {
      hide Take, Told, Below, Identities;
      HeadRows(c, head, t, skip, rows, n - 1, list, used, reported);
      assert rows[n - 1] in rows;
      HeadOne(c, head, TakeRows(c, head, t, skip, rows, n - 1), rows[n - 1], list, used, reported);
    }
  }

  lemma HeadOne(c: Cursor, head: Option<Time>, t: Taken, row: Row, list: seq<Row>, used: set<Anchor>,
                reported: set<Record>)
    requires c.floor.Some? && Listed(list) && Identities(list) <= used && row in list
    requires Told(list, used, reported, c.floor, c.floorSeen)
    requires Told(list, used, reported + Elements(t.records), head, t.headSeen)
    ensures var r := Take(c, head, t, row); Told(list, used, reported + Elements(r.records), head, r.headSeen)
  {
    var r := Take(c, head, t, row);
    assert Identity(row) in Identities(list);
    if Mergeable(row) {
      assert RecordOf(row) in t.records + [RecordOf(row)];
      assert RecordOf(row) in reported + Elements(r.records);
    }
    assert Elements(t.records) <= Elements(r.records);
    forall q | q in list && Some(q.updated) == head && q.number in r.headSeen && Mergeable(q)
      ensures RecordOf(q) in reported + Elements(r.records)
    {
      if q.number == row.number {
        assert q == row;
      }
    }
  }

  /** Every row of the window the page processes, from its resume point to its stop. */
  ghost function Processed(c: Cursor, rows: seq<Row>): set<Row>
    requires c.floor.Some?
  {
    Elements(Down(c, rows)[..WalkPage(c, rows).stop])
  }

  lemma PageSettles(c: Cursor, rows: seq<Row>, row: Row, list: seq<Row>, used: set<Anchor>, reported: set<Record>)
    requires c.floor.Some? && row in Processed(c, rows) && Listed(list) && Within(rows, list)
    requires Ties(c.headSeen) && !(c.headAll && c.headSeen != {}) && Told(list, used, reported, c.floor, c.floorSeen)
    ensures Settled(c, reported + Elements(TakePage(c, rows).records), row)
  {
    hide TakeRows, Take, WalkPage, Cut, Settled, Kept, HeadOf, Told, Within, Down, Ties, Listed;
    var start, above, head := Taken(c.counted, c.headSeen, c.headAll, []), Cut(rows, c.anchors) + 1, HeadOf(c, rows);
    TakenRows(c, head, start, Kept(c, rows), rows, above, list, used, reported);
    var first := TakeRows(c, head, start, Kept(c, rows), rows, above);
    var down, stop := Down(c, rows), WalkPage(c, rows).stop;
    DownWithin(c, rows, list);
    TakenRows(c, head, first, [], down, stop, list, used, reported);
    assert row in down[..stop];
    var i :| 0 <= i < stop && down[i] == row;
  }

  lemma PageTies(c: Cursor, rows: seq<Row>, list: seq<Row>, used: set<Anchor>, reported: set<Record>)
    requires c.floor.Some? && Listed(list) && Within(rows, list)
    requires Ties(c.headSeen) && !(c.headAll && c.headSeen != {}) && Told(list, used, reported, c.floor, c.floorSeen)
    ensures GoodTies(TakePage(c, rows))
  {
    hide TakeRows, Take, WalkPage, Cut, Settled, Kept, HeadOf, Told, Within, Down, Ties, Listed;
    var start, above, head := Taken(c.counted, c.headSeen, c.headAll, []), Cut(rows, c.anchors) + 1, HeadOf(c, rows);
    DownWithin(c, rows, list);
    TakenRows(c, head, start, Kept(c, rows), rows, above, list, used, reported);
    TakenRows(c, head, TakeRows(c, head, start, Kept(c, rows), rows, above), [], Down(c, rows), WalkPage(c, rows).stop,
              list, used, reported);
  }

  lemma AboveHead(c: Cursor, rows: seq<Row>, list: seq<Row>, used: set<Anchor>, reported: set<Record>)
    requires c.floor.Some? && Listed(list) && Identities(list) <= used && Within(rows, list)
    requires Told(list, used, reported, c.floor, c.floorSeen)
    requires Told(list, used, reported, c.head, c.headSeen) && (c.inPass == 0 ==> c.headSeen == {})
    ensures var t := TakenAbove(c, rows); Told(list, used, reported + Elements(t.records), HeadOf(c, rows), t.headSeen)
  {
    HeadStart(c, rows, list, used, reported);
    hide TakeRows, Cut, Kept, HeadOf, Told, Identities, Within, Listed, Elements;
    HeadRows(c, HeadOf(c, rows), Taken(c.counted, c.headSeen, c.headAll, []), Kept(c, rows), rows,
             Cut(rows, c.anchors) + 1, list, used, reported);
  }

  lemma PageHead(c: Cursor, rows: seq<Row>, list: seq<Row>, used: set<Anchor>, reported: set<Record>)
    requires c.floor.Some? && Listed(list) && Identities(list) <= used && Within(rows, list)
    requires Told(list, used, reported, c.floor, c.floorSeen)
    requires Told(list, used, reported, c.head, c.headSeen) && (c.inPass == 0 ==> c.headSeen == {})
    ensures var t := TakePage(c, rows); Told(list, used, reported + Elements(t.records), HeadOf(c, rows), t.headSeen)
  {
    hide TakeRows, WalkPage, Cut, Kept, HeadOf, Told, Identities, Within, Down, Listed, Elements;
    AboveHead(c, rows, list, used, reported);
    DownWithin(c, rows, list);
    var t := TakenAbove(c, rows);
    HeadRows(c, HeadOf(c, rows), t, [], Down(c, rows), WalkPage(c, rows).stop, list, used, reported);
  }

  lemma HeadStart(c: Cursor, rows: seq<Row>, list: seq<Row>, used: set<Anchor>, reported: set<Record>)
    requires Told(list, used, reported, c.head, c.headSeen) && (c.inPass == 0 ==> c.headSeen == {})
    ensures Told(list, used, reported + Elements<Record>([]), HeadOf(c, rows), c.headSeen)
  {
    assert reported + Elements<Record>([]) == reported;
  }

  // ----- the scan as a run ------------------------------------------------------------------------------

  /**
   The scan between two requests. original, seen and reported are bookkeeping for the statements: the
   rows listed when the pass started, the rows the pass has processed, and every record handed out so
   far. used holds every (number, updated_at) pair ever listed, and past every row.
   */
  datatype Scan = Scan(list: seq<Row>, cursor: Cursor, used: set<Anchor>, past: set<Row>,
                       original: set<Row>, seen: set<Row>, reported: set<Record>)

  /** Between requests rows vanish, change updated_at in place, or appear at the top with a new updated_at. */
  ghost predicate Churned(before: seq<Row>, after: seq<Row>, used: set<Anchor>, top: nat, origin: seq<nat>) {
    && top + |origin| == |after| && Listed(after)
    && (forall i :: 0 <= i < top ==> Identity(after[i]) !in used)
    && (forall i :: 0 <= i < |origin| ==> origin[i] < |before|)
    && (forall i, j :: 0 <= i < j < |origin| ==> origin[i] < origin[j])
    && (forall i :: 0 <= i < |origin| ==> after[top + i] == before[origin[i]] || Identity(after[top + i]) !in used)
  }

  function Slice(list: seq<Row>, w: Window): seq<Row>
    requires 0 <= w.start && 0 <= w.size
  {
    var from := if w.start <= |list| then w.start else |list|;
    var to := if w.start + w.size <= |list| then w.start + w.size else |list|;
    list[from..to]
  }

  /** The rows a request returns. */
  function Answer(s: Scan): (rows: seq<Row>)
    ensures Within(rows, s.list)
  {
    WindowHoldsOffset(s.cursor.offset);
    Slice(s.list, RecentWindow(s.cursor.offset))
  }

  function Respond(s: Scan, length: Cursor -> nat): Reply
    requires s.cursor.floor.Some?
  {
    Page(s.cursor, Answer(s), RecentWindow(s.cursor.offset), length)
  }

  /** A pass starts with its first request. */
  ghost function Started(s: Scan): Scan {
    if s.cursor.inPass > 0 then s else s.(original := Elements(s.list), seen := {})
  }

  ghost function Noted(s: Scan): Scan
    requires s.cursor.floor.Some?
  {
    var rows := Answer(s);
    if BacksOff(s.cursor, rows, RecentWindow(s.cursor.offset).start) then Started(s)
    else Started(s).(seen := Started(s).seen + Processed(s.cursor, rows),
                     reported := s.reported + Elements(TakePage(s.cursor, rows).records))
  }

  ghost function Requested(s: Scan, length: Cursor -> nat): Scan
    requires s.cursor.floor.Some?
  {
    match Respond(s, length)
    case More(_, cursor) => Noted(s).(cursor := cursor)
    case _ => s
  }

  /** Every listed row of the pass's start that the pass has not looked at lies below every surviving anchor. */
  ghost predicate NothingAbove(s: Scan) {
    forall i, j :: (0 <= i < |s.list| && 0 <= j < |s.list| && Identity(s.list[i]) in s.cursor.anchors
                    && s.list[j] in s.original && s.list[j] !in s.seen) ==> i < j
  }

  /** What a pass keeps while it goes on. */
  ghost predicate PassSound(s: Scan)
    requires s.cursor.floor.Some?
  {
    && NothingAbove(s)
    && (forall r <- s.original :: Identity(r) in s.used)
    && (forall r <- s.seen :: Settled(s.cursor, s.reported, r))
  }

  ghost predicate Invariant(s: Scan, after: Time) {
    && Acceptable(s.cursor, after) && Listed(s.list)
    && (s.cursor.inPass > 0 ==> s.cursor.head.Some?)
    && Identities(s.list) <= s.used
    && (forall a <- s.cursor.anchors :: a in s.used)
    && Told(s.list, s.used, s.reported, s.cursor.floor, s.cursor.floorSeen)
    && Told(s.list, s.used, s.reported, s.cursor.head, s.cursor.headSeen)
    && (s.cursor.inPass == 0 ==> s.cursor.headSeen == {})
    && (s.cursor.inPass > 0 ==> PassSound(s))
  }

  /** A row that was listed before comes back as it was, or not at all. */
  lemma ChurnTells(before: seq<Row>, after: seq<Row>, used: set<Anchor>, top: nat, origin: seq<nat>,
                   reported: set<Record>,
                   second: Option<Time>, numbers: set<int>)
    requires Churned(before, after, used, top, origin) && Told(before, used, reported, second, numbers)
    ensures Told(after, used + Identities(after), reported, second, numbers)
  {
    forall r | r in after && Some(r.updated) == second && r.number in numbers && Mergeable(r)
      ensures RecordOf(r) in reported
    {
      var i :| 0 <= i < |after| && after[i] == r;
      assert Identity(r) in used;
      assert i >= top && after[top + (i - top)] == before[origin[i - top]];
    }
  }

  lemma ChurnKeeps(s: Scan, list: seq<Row>, top: nat, origin: seq<nat>, after: Time)
    requires Invariant(s, after) && Churned(s.list, list, s.used, top, origin)
    ensures Invariant(s.(list := list, used := s.used + Identities(list), past := s.past + Elements(list)), after)
  {
    var s' := s.(list := list, used := s.used + Identities(list), past := s.past + Elements(list));
    ChurnTells(s.list, list, s.used, top, origin, s.reported, s.cursor.floor, s.cursor.floorSeen);
    ChurnTells(s.list, list, s.used, top, origin, s.reported, s.cursor.head, s.cursor.headSeen);
    hide Told, Settled;
    if s.cursor.inPass > 0 {
      forall i, j | 0 <= i < |list| && 0 <= j < |list| && Identity(list[i]) in s.cursor.anchors
                    && list[j] in s.original && list[j] !in s.seen
        ensures i < j
      {
        assert i >= top && list[top + (i - top)] == s.list[origin[i - top]];
        assert j >= top && list[top + (j - top)] == s.list[origin[j - top]];
        assert origin[i - top] < origin[j - top];
      }
    }
  }

  /** Where the processed part of the window ends in the list. */
  ghost function Reached(s: Scan): int
    requires s.cursor.floor.Some?
  {
    var rows := Answer(s);
    RecentWindow(s.cursor.offset).start + Cut(rows, s.cursor.anchors) + 1 + WalkPage(s.cursor, rows).stop
  }

  /** The window is a slice of the list, and what the page keeps of it starts where nothing unread is left above. */
  lemma NoAnchorsAtTop(s: Scan, after: Time)
    requires Invariant(s, after)
    ensures s.cursor.floor.Some? && (s.cursor.anchors == [] ==> s.cursor.offset == 0)
  {
  }

  lemma WindowPosition(s: Scan, after: Time)
    requires Invariant(s, after) && !BacksOff(s.cursor, Answer(s), RecentWindow(s.cursor.offset).start)
    ensures var rows, start := Answer(s), RecentWindow(s.cursor.offset).start;
            && 0 <= start && start + |rows| <= |s.list|
            && (forall k :: 0 <= k < |rows| ==> rows[k] == s.list[start + k])
            && (|rows| < RecentWindow(s.cursor.offset).size ==> start + |rows| == |s.list|)
            && (Cut(rows, s.cursor.anchors) < 0 ==> start == 0)
  {
    hide Cut, WindowEnd, Invariant, RecentWindow, Slice, BestSize;
    NoAnchorsAtTop(s, after);
    var w := RecentWindow(s.cursor.offset);
    WindowHoldsOffset(s.cursor.offset);
    TopWindow();
    SliceIs(s.list, w);
    assert Answer(s) == Slice(s.list, w);
  }

  lemma SliceIs(list: seq<Row>, w: Window)
    requires 0 <= w.start && 0 <= w.size
    ensures var rows := Slice(list, w);
            rows != [] || w.start == 0 ==>
              && w.start + |rows| <= |list| && (|rows| < w.size ==> w.start + |rows| == |list|)
              && forall k :: 0 <= k < |rows| ==> rows[k] == list[w.start + k]
  {
  }

  lemma TopWindow()
    ensures RecentWindow(0).start == 0
  {
  }

  lemma ProcessedAt(c: Cursor, rows: seq<Row>, k: int)
    requires c.floor.Some? && Cut(rows, c.anchors) < k <= Cut(rows, c.anchors) + WalkPage(c, rows).stop
    ensures rows[k] in Processed(c, rows)
  {
    hide WalkPage, Cut;
    assert Down(c, rows)[..WalkPage(c, rows).stop][k - Cut(rows, c.anchors) - 1] == rows[k];
  }

  /** Whatever of the pass's start is still listed, unchanged and not looked at lies below the rows processed. */
  lemma UnreadIsBelow(s: Scan, after: Time, j: nat)
    requires Invariant(s, after) && !BacksOff(s.cursor, Answer(s), RecentWindow(s.cursor.offset).start)
    requires j < |s.list| && s.list[j] in Started(s).original
    requires s.list[j] !in Started(s).seen && s.list[j] !in Processed(s.cursor, Answer(s))
    ensures j >= Reached(s)
  {
    hide WalkPage, Processed, RecentWindow, Answer, BacksOff, Cut, Settled;
    WindowPosition(s, after);
    var rows, start := Answer(s), RecentWindow(s.cursor.offset).start;
    var cut := Cut(rows, s.cursor.anchors);
    if cut >= 0 {
      AnchorAbove(s, after, start + cut, j);
    }
    if j < Reached(s) {
      ProcessedAt(s.cursor, rows, j - start);
    }
  }

  lemma AnchorAbove(s: Scan, after: Time, i: nat, j: nat)
    requires Invariant(s, after) && i < |s.list| && j < |s.list|
    requires Identity(s.list[i]) in s.cursor.anchors
    requires s.list[j] in Started(s).original && s.list[j] !in Started(s).seen
    ensures i < j
  {
    hide Settled;
    assert s.cursor.inPass > 0;
  }

  lemma AnchorsAreRead(s: Scan, after: Time, i: nat)
    requires Invariant(s, after) && !BacksOff(s.cursor, Answer(s), RecentWindow(s.cursor.offset).start)
    requires i < |s.list| && Identity(s.list[i]) in Passed(s.cursor, Answer(s))
    ensures i < Reached(s) || Identity(s.list[i]) in s.cursor.anchors
  {
    hide WalkPage, Cut, PassRows, RecentWindow, NothingAbove, BacksOff, Answer;
    WindowPosition(s, after);
    var rows, start := Answer(s), RecentWindow(s.cursor.offset).start;
    var down, stop := Down(s.cursor, rows), WalkPage(s.cursor, rows).stop;
    PassedAnchors(Kept(s.cursor, rows), down, stop);
    if Identity(s.list[i]) !in s.cursor.anchors {
      var r :| r in down[..stop] && Identity(r) == Identity(s.list[i]);
      var k :| 0 <= k < stop && down[k] == r;
      SameNumber(s.list, i, start + Cut(rows, s.cursor.anchors) + 1 + k);
    }
  }

  lemma SameNumber(list: seq<Row>, i: nat, j: nat)
    requires Listed(list) && i < |list| && j < |list| && list[i].number == list[j].number
    ensures i == j
  {
  }

  lemma ReplyShape(c: Cursor, rows: seq<Row>, w: Window, length: Cursor -> nat)
    requires c.floor.Some?
    ensures var reply := Page(c, rows, w, length);
            reply.More? && reply.cursor.inPass > 0 ==>
              && reply.cursor.floor == c.floor && reply.cursor.pass == c.pass && reply.cursor.floorSeen <= c.floorSeen
              && (reply.cursor.anchors == if BacksOff(c, rows, w.start) then c.anchors else Passed(c, rows))
              && (!BacksOff(c, rows, w.start) ==> |rows| == w.size && !WalkPage(c, rows).ended)
  {
    hide TakePage, Passed, WalkPage;
  }

  lemma PassedShape(c: Cursor, rows: seq<Row>)
    requires c.floor.Some? && |c.anchors| <= RECENT_ANCHORS
    ensures |Passed(c, rows)| <= RECENT_ANCHORS
    ensures rows != [] && !WalkPage(c, rows).ended ==> Passed(c, rows) != []
    ensures forall a <- Passed(c, rows) :: a in c.anchors || a in Identities(rows)
  {
    hide WalkPage, PassRows, Cut, Identities;
    var down, stop := Down(c, rows), WalkPage(c, rows).stop;
    PassedAnchors(Kept(c, rows), down, stop);
    SubsetIdentities(rows, Cut(rows, c.anchors) + 1, stop);
  }

  lemma SubsetIdentities(rows: seq<Row>, from: nat, stop: nat)
    requires from <= |rows| && stop <= |rows| - from
    ensures Identities(rows[from..][..stop]) <= Identities(rows)
  {
    forall a | a in Identities(rows[from..][..stop]) ensures a in Identities(rows) {
      var r :| r in rows[from..][..stop] && Identity(r) == a;
      assert r in rows;
    }
  }

  lemma AcceptableConclusion(c: Cursor, after: Time, count: nat, w: Window, head: Option<Time>, taken: Taken,
                             anchors: seq<Anchor>, belows: nat, stopped: bool, length: Cursor -> nat)
    requires Acceptable(c, after) && GoodTies(taken) && (count > 0 || c.inPass > 0 ==> head.Some?)
    requires |anchors| <= RECENT_ANCHORS && forall a <- anchors :: a.number > 0
    requires w.size >= 1 && (count > 0 && !stopped ==> anchors != [])
    ensures var reply := Conclude(c, count, w, head, taken, anchors, belows, stopped, length);
            reply.More? ==> Acceptable(reply.cursor, after) && (reply.cursor.inPass > 0 ==> reply.cursor.head.Some?)
  {
    assert Ties({});
  }

  lemma AcceptableReply(s: Scan, after: Time, length: Cursor -> nat)
    requires Invariant(s, after) && Respond(s, length).More?
    ensures Acceptable(Respond(s, length).cursor, after)
    ensures Respond(s, length).cursor.inPass > 0 ==> Respond(s, length).cursor.head.Some?
  {
    hide TakePage, WalkPage, Cut, Passed, Answer, RecentWindow, NothingAbove, Conclude, Ties, Identities, Told, Settled;
    var c, rows, w := s.cursor, Answer(s), RecentWindow(s.cursor.offset);
    WindowHoldsOffset(c.offset);
    if !BacksOff(c, rows, w.start) {
      PageTies(c, rows, s.list, s.used, s.reported);
      PassedShape(c, rows);
      PositiveAnchors(c, rows, Passed(c, rows));
      AcceptableConclusion(c, after, |rows|, w, HeadOf(c, rows), TakePage(c, rows), Passed(c, rows),
                           WalkPage(c, rows).belows, WalkPage(c, rows).ended, length);
    }
  }

  lemma PositiveAnchors(c: Cursor, rows: seq<Row>, anchors: seq<Anchor>)
    requires (forall r <- rows :: r.number > 0) && forall a <- c.anchors :: a.number > 0
    requires forall a <- anchors :: a in c.anchors || a in Identities(rows)
    ensures forall a <- anchors :: a.number > 0
  {
  }

  /** What a request inside a pass changes. */
  lemma RequestedShape(s: Scan, length: Cursor -> nat)
    requires s.cursor.floor.Some? && Respond(s, length).More? && Respond(s, length).cursor.inPass > 0
    requires !BacksOff(s.cursor, Answer(s), RecentWindow(s.cursor.offset).start)
    ensures var s', c := Requested(s, length), s.cursor;
            && s'.list == s.list && s'.used == s.used && s'.original == Started(s).original
            && s'.seen == Started(s).seen + Processed(c, Answer(s))
            && s'.reported == s.reported + Elements(TakePage(c, Answer(s)).records)
            && s'.cursor.anchors == Passed(c, Answer(s))
            && s'.cursor.floor == c.floor && s'.cursor.pass == c.pass && s'.cursor.floorSeen <= c.floorSeen
  {
    hide TakePage, WalkPage, Passed, RecentWindow, Answer, Processed, Page;
    ReplyShape(s.cursor, Answer(s), RecentWindow(s.cursor.offset), length);
  }

  lemma NextAnchors(s: Scan, after: Time)
    requires Invariant(s, after)
    ensures forall a <- Passed(s.cursor, Answer(s)) :: a in s.used
  {
    hide WalkPage, Passed, RecentWindow, Answer, NothingAbove, Settled;
    PassedShape(s.cursor, Answer(s));
    forall a | a in Identities(Answer(s)) ensures a in Identities(s.list) {
    }
  }

  lemma NextAbove(s: Scan, after: Time, i: nat, j: nat)
    requires Invariant(s, after) && !BacksOff(s.cursor, Answer(s), RecentWindow(s.cursor.offset).start)
    requires i < |s.list| && j < |s.list| && Identity(s.list[i]) in Passed(s.cursor, Answer(s))
    requires s.list[j] in Started(s).original && s.list[j] !in Started(s).seen + Processed(s.cursor, Answer(s))
    ensures i < j
  {
    hide WalkPage, Passed, RecentWindow, Answer, Processed, Settled, BacksOff, Reached;
    UnreadIsBelow(s, after, j);
    AnchorsAreRead(s, after, i);
    if Identity(s.list[i]) in s.cursor.anchors {
      assert s.cursor.inPass > 0;
    }
  }

  lemma StaysSettled(c: Cursor, d: Cursor, small: set<Record>, large: set<Record>, row: Row)
    requires c.floor.Some? && d.floor == c.floor && d.pass == c.pass && small <= large && Settled(c, small, row)
    ensures Settled(d, large, row)
  {
  }

  /** What a reply remembers is told of, whether it goes on with the pass, ends it or forgets its ties. */
  lemma ConcludeTells(c: Cursor, count: nat, w: Window, head: Option<Time>, taken: Taken, anchors: seq<Anchor>,
                      belows: nat,
                      stopped: bool, length: Cursor -> nat, list: seq<Row>, used: set<Anchor>, reported: set<Record>)
    requires Told(list, used, reported, c.floor, c.floorSeen) && Told(list, used, reported, head, taken.headSeen)
    ensures var reply := Conclude(c, count, w, head, taken, anchors, belows, stopped, length);
            reply.More? ==>
              && Told(list, used, reported, reply.cursor.floor, reply.cursor.floorSeen)
              && Told(list, used, reported, reply.cursor.head, reply.cursor.headSeen)
              && (reply.cursor.inPass == 0 ==> reply.cursor.headSeen == {})
  {
  }

  lemma TellMore(list: seq<Row>, used: set<Anchor>, small: set<Record>, large: set<Record>, second: Option<Time>,
                 numbers: set<int>)
    requires Told(list, used, small, second, numbers) && small <= large
    ensures Told(list, used, large, second, numbers)
  {
  }

  /** A request keeps the numbers its cursor remembers told of. */
  lemma RequestTells(s: Scan, after: Time, length: Cursor -> nat)
    requires Invariant(s, after) && Respond(s, length).More?
    ensures var s' := Requested(s, length);
            && Told(s'.list, s'.used, s'.reported, s'.cursor.floor, s'.cursor.floorSeen)
            && Told(s'.list, s'.used, s'.reported, s'.cursor.head, s'.cursor.headSeen)
            && (s'.cursor.inPass == 0 ==> s'.cursor.headSeen == {})
  {
    hide TakePage, WalkPage, Cut, Passed, Answer, RecentWindow, NothingAbove, Conclude, Ties, Identities, Told, Settled,
        BacksOff;
    hide HeadOf, Processed;
    var c, rows, w := s.cursor, Answer(s), RecentWindow(s.cursor.offset);
    if !BacksOff(c, rows, w.start) {
      var t := TakePage(c, rows);
      var reported := s.reported + Elements(t.records);
      PageHead(c, rows, s.list, s.used, s.reported);
      TellMore(s.list, s.used, s.reported, reported, c.floor, c.floorSeen);
      ConcludeTells(c, |rows|, w, HeadOf(c, rows), t, Passed(c, rows), WalkPage(c, rows).belows,
                    WalkPage(c, rows).ended, length,
                    s.list, s.used, reported);
    }
  }

  /** A request keeps the scan sound: the cursor it returns is accepted, and nothing unread is left above an anchor. */
  lemma RequestKeeps(s: Scan, after: Time, length: Cursor -> nat)
    requires Invariant(s, after)
    ensures Invariant(Requested(s, length), after)
  {
    var c, s' := s.cursor, Requested(s, length);
    if Respond(s, length).More? {
      hide Told, Settled, NothingAbove, Answer, RecentWindow, BacksOff, TakePage, Processed, Page;
      AcceptableReply(s, after, length);
      RequestTells(s, after, length);
      if s'.cursor.inPass == 0 {
      } else if BacksOff(c, Answer(s), RecentWindow(c.offset).start) {
        BackOffKeeps(s, after, length);
      } else {
        ReadKeeps(s, after, length, s');
      }
    }
  }

  lemma BackOffKeeps(s: Scan, after: Time, length: Cursor -> nat)
    requires Invariant(s, after) && BacksOff(s.cursor, Answer(s), RecentWindow(s.cursor.offset).start)
    requires Respond(s, length).More?
    ensures PassSound(Requested(s, length)) && Identities(s.list) <= s.used
    ensures forall a <- s.cursor.anchors :: a in s.used
    ensures var s' := Requested(s, length);
            s'.cursor.anchors == s.cursor.anchors && s'.list == s.list && s'.used == s.used
  {
    hide RecentWindow, Answer, Told, Settled, Identities;
    var s' := Requested(s, length);
    forall r | r in s'.seen ensures Settled(s'.cursor, s'.reported, r) {
      StaysSettled(s.cursor, s'.cursor, s.reported, s'.reported, r);
    }
  }

  lemma ReadAbove(s: Scan, after: Time, s': Scan)
    requires Invariant(s, after) && !BacksOff(s.cursor, Answer(s), RecentWindow(s.cursor.offset).start)
    requires s'.list == s.list && s'.original == Started(s).original && s'.cursor.anchors == Passed(s.cursor, Answer(s))
    requires s'.seen == Started(s).seen + Processed(s.cursor, Answer(s))
    ensures NothingAbove(s')
  {
    hide TakePage, WalkPage, Passed, RecentWindow, Answer, Processed, BacksOff, Settled, Told, Invariant;
    forall i, j | 0 <= i < |s.list| && 0 <= j < |s.list| && Identity(s.list[i]) in s'.cursor.anchors
                  && s.list[j] in s'.original && s.list[j] !in s'.seen
      ensures i < j
    {
      NextAbove(s, after, i, j);
    }
  }

  lemma ReadSettles(s: Scan, after: Time, s': Scan)
    requires Invariant(s, after) && !BacksOff(s.cursor, Answer(s), RecentWindow(s.cursor.offset).start)
    requires s'.seen == Started(s).seen + Processed(s.cursor, Answer(s))
    requires s'.reported == s.reported + Elements(TakePage(s.cursor, Answer(s)).records)
    requires s'.cursor.floor == s.cursor.floor && s'.cursor.pass == s.cursor.pass
    ensures forall r <- s'.seen :: Settled(s'.cursor, s'.reported, r)
  {
    hide TakePage, WalkPage, Passed, RecentWindow, Answer, Processed, BacksOff, Settled, Told, NothingAbove;
    var c := s.cursor;
    forall r | r in s'.seen ensures Settled(s'.cursor, s'.reported, r) {
      if r in Processed(c, Answer(s)) {
        PageSettles(c, Answer(s), r, s.list, s.used, s.reported);
        StaysSettled(c, s'.cursor, s'.reported, s'.reported, r);
      } else {
        StaysSettled(c, s'.cursor, s.reported, s'.reported, r);
      }
    }
  }

  lemma ReadKeeps(s: Scan, after: Time, length: Cursor -> nat, s': Scan)
    requires Invariant(s, after) && !BacksOff(s.cursor, Answer(s), RecentWindow(s.cursor.offset).start)
    requires Respond(s, length).More? && Respond(s, length).cursor.inPass > 0
    requires s' == Requested(s, length) && s'.cursor.floor.Some?
    ensures PassSound(s') && forall a <- s'.cursor.anchors :: a in s.used
    ensures s'.list == s.list && s'.used == s.used
  {
    hide TakePage, WalkPage, Passed, RecentWindow, Answer, Processed, BacksOff, Settled, Page, Told, NothingAbove;
    hide Respond, Requested, Invariant;
    OriginalsUsed(s, after);
    RequestedShape(s, length);
    NextAnchors(s, after);
    ReadAbove(s, after, s');
    ReadSettles(s, after, s');
  }

  lemma OriginalsUsed(s: Scan, after: Time)
    requires Invariant(s, after)
    ensures s.cursor.floor.Some? && forall r <- Started(s).original :: Identity(r) in s.used
  {
    hide Told, Settled, NothingAbove;
    forall r | r in s.list ensures Identity(r) in Identities(s.list) {
    }
  }

  // ----- whole runs -------------------------------------------------------------------------------------

  datatype Step = Churn(list: seq<Row>, top: nat, origin: seq<nat>) | Request

  ghost predicate Next(s: Scan, s': Scan, step: Step, length: Cursor -> nat) {
    match step
    case Churn(list, top, origin) =>
      Churned(s.list, list, s.used, top, origin) &&
          s' == s.(list := list, used := s.used + Identities(list), past := s.past + Elements(list))
    case Request => s.cursor.floor.Some? && s' == Requested(s, length)
  }

  ghost predicate Initial(s: Scan, after: Time) {
    && s.cursor == FreshCursor(after) && Listed(s.list) && s.used == Identities(s.list) && s.past == Elements(s.list)
    && s.original == {} && s.seen == {} && s.reported == {}
  }

  ghost predicate Advances(s: Scan, s': Scan, length: Cursor -> nat) {
    exists step :: Next(s, s', step, length)
  }

  ghost predicate Run(trace: seq<Scan>, after: Time, length: Cursor -> nat) {
    trace != [] &&
    var n := |trace| - 1;
    if n == 0 then Initial(trace[0], after)
    else Run(trace[..n], after, length) && Advances(trace[n - 1], trace[n], length)
  }

  lemma InitialHolds(s: Scan, after: Time)
    requires Initial(s, after)
    ensures Invariant(s, after)
  {
  }

  lemma NextKeeps(s: Scan, s': Scan, after: Time, length: Cursor -> nat)
    requires Invariant(s, after) && Advances(s, s', length)
    ensures Invariant(s', after)
  {
    hide Invariant, Requested, Churned, Identities;
    var step :| Next(s, s', step, length);
    if step.Churn? {
      ChurnKeeps(s, step.list, step.top, step.origin, after);
    } else {
      RequestKeeps(s, after, length);
    }
  }

  /** In every reachable state the cursor decodes, and every untouched, unread row lies below the surviving anchors. */
  lemma {:induction false} ScanInvariant(trace: seq<Scan>, after: Time, length: Cursor -> nat)
    requires Run(trace, after, length)
    ensures Invariant(trace[|trace| - 1], after)
  {
    hide Invariant, Initial, Advances;
    var n := |trace| - 1;
    if n == 0 {
      InitialHolds(trace[0], after);
    } else {
      ScanInvariant(trace[..n], after, length);
      NextKeeps(trace[n - 1], trace[n], after, length);
    }
  }

  /** What a request hands out it hands out of the rows that were listed when it was made. */
  lemma RequestReports(s: Scan, length: Cursor -> nat, record: Record)
    requires s.cursor.floor.Some? && record in Requested(s, length).reported && record !in s.reported
    ensures exists row <- s.list :: Reports(row, record) && Met(s.cursor, row)
  {
    hide TakePage, Answer, RecentWindow, BacksOff, Processed, Looks, Repeated, Page;
    var c, rows := s.cursor, Answer(s);
    assert record in TakePage(c, rows).records;
    hide Requested, Respond;
    HandedOut(c, rows, record);
  }

  lemma HandedOut(c: Cursor, rows: seq<Row>, record: Record)
    requires c.floor.Some? && record in TakePage(c, rows).records
    ensures exists row <- rows :: Reports(row, record) && Met(c, row)
  {
    hide BothLoops, Cut, WalkPage, HeadOf, Repeated;
    LoopsAre(c, rows);
    var cut, stop := Cut(rows, c.anchors), WalkPage(c, rows).stop;
    LoopsRecord(c, HeadOf(c, rows), Taken(c.counted, c.headSeen, c.headAll, []), rows, cut, stop, record);
    var i :| Looks(c, rows, cut, stop, i) && !Repeated(c, rows[i]) && Reports(rows[i], record);
    assert rows[i] in rows;
  }

  ghost predicate Reported(s: Scan) {
    && (forall r <- s.list :: r in s.past)
    && forall record <- s.reported :: exists row <- s.past :: Reports(row, record)
  }

  lemma NextReports(s: Scan, s': Scan, length: Cursor -> nat)
    requires Reported(s) && Advances(s, s', length)
    ensures Reported(s')
  {
    hide Requested, Churned, Identities, Reports, Met;
    var step :| Next(s, s', step, length);
    if step.Request? {
      RequestedKeeps(s, length);
    }
    forall record | record in s'.reported ensures exists row <- s'.past :: Reports(row, record) {
      if record in s.reported {
        var row :| row in s.past && Reports(row, record);
        assert row in s'.past;
      } else {
        RequestReports(s, length, record);
        var row :| row in s.list && Reports(row, record);
        assert row in s'.past;
      }
    }
  }

  lemma RequestedKeeps(s: Scan, length: Cursor -> nat)
    requires s.cursor.floor.Some?
    ensures Requested(s, length).list == s.list && Requested(s, length).past == s.past
  {
    hide Answer, RecentWindow, BacksOff, TakePage, Processed, Respond;
  }

  /**
   Over every run, each record handed out is the number, merge time, merge commit and head of a row that was listed
   as a merge into a discovery branch. Nothing else is ever reported.
   */
  lemma {:induction false} OnlyMergesAreReported(trace: seq<Scan>, after: Time, length: Cursor -> nat)
    requires Run(trace, after, length)
    ensures Reported(trace[|trace| - 1])
  {
    hide Advances, Reports;
    var n := |trace| - 1;
    if n > 0 {
      OnlyMergesAreReported(trace[..n], after, length);
      NextReports(trace[n - 1], trace[n], length);
    }
  }

  /** The request that ends a pass, by running off the list or by the look-ahead. */
  ghost predicate EndsPass(s: Scan, length: Cursor -> nat)
    requires s.cursor.floor.Some?
  {
    var reply := Respond(s, length);
    reply.Finished? || (reply.More? && reply.cursor.inPass == 0)
  }

  /**
   A pass skips no untouched row. Whatever churn, back-off or anchor loss went before, when a pass
   ends every row that was listed at its start and is still listed unchanged either is settled (it
   lies below the floor, is no merge into a discovery branch, or its record has been handed out), or the
   pass stopped at its look-ahead and the row lies under the row it stopped at.
   */
  lemma PassSkipsNothing(trace: seq<Scan>, after: Time, length: Cursor -> nat, j: nat)
    requires Run(trace, after, length)
    requires var s := trace[|trace| - 1]; s.cursor.floor.Some? && EndsPass(s, length)
    requires var s := trace[|trace| - 1]; j < |s.list| && s.list[j] in Started(s).original
    ensures var s := trace[|trace| - 1];
            var row, done := s.list[j], s.reported + Elements(TakePage(s.cursor, Answer(s)).records);
            || Settled(s.cursor, done, row)
            || (WalkPage(s.cursor, Answer(s)).ended && WalkPage(s.cursor, Answer(s)).belows >= RECENT_LOOKAHEAD &&
                j >= Reached(s))
  {
    var s := trace[|trace| - 1];
    ScanInvariant(trace, after, length);
    EndReached(s, after, length);
    EndSettles(s, after, j);
  }

  lemma EndReads(s: Scan, length: Cursor -> nat)
    requires s.cursor.floor.Some? && EndsPass(s, length)
    ensures !BacksOff(s.cursor, Answer(s), RecentWindow(s.cursor.offset).start)
    ensures WalkPage(s.cursor, Answer(s)).ended || |Answer(s)| < RecentWindow(s.cursor.offset).size
  {
    hide TakePage, Passed, RecentWindow, Answer, WalkPage, HeadOf, BacksOff;
  }

  lemma EndReached(s: Scan, after: Time, length: Cursor -> nat)
    requires Invariant(s, after) && EndsPass(s, length)
    ensures !BacksOff(s.cursor, Answer(s), RecentWindow(s.cursor.offset).start)
    ensures WalkPage(s.cursor, Answer(s)).ended || Reached(s) == |s.list|
    ensures WalkPage(s.cursor, Answer(s)).ended ==> WalkPage(s.cursor, Answer(s)).belows >= RECENT_LOOKAHEAD
  {
    EndReads(s, length);
    PageLookahead(s.cursor, Answer(s));
    hide Invariant, EndsPass, RecentWindow, Answer, WalkPage, Cut, BacksOff;
    WindowPosition(s, after);
  }

  lemma PageLookahead(c: Cursor, rows: seq<Row>)
    requires c.floor.Some?
    ensures WalkPage(c, rows).ended ==> WalkPage(c, rows).belows >= RECENT_LOOKAHEAD
  {
    Lookahead(c, Down(c, rows), 0, if Cut(rows, c.anchors) < 0 && c.anchors != [] then 0 else c.belows);
    hide Walk, Cut;
  }

  lemma {:induction false} Lookahead(c: Cursor, rows: seq<Row>, i: nat, belows: nat)
    requires c.floor.Some? && i <= |rows|
    ensures Walk(c, rows, i, belows).ended ==> Walk(c, rows, i, belows).belows >= RECENT_LOOKAHEAD
    decreases |rows| - i
  {
    if i < |rows| {
      Lookahead(c, rows, i + 1, if Below(c, rows[i]) then belows + 1 else 0);
    }
  }

  lemma EndSettles(s: Scan, after: Time, j: nat)
    requires Invariant(s, after) && !BacksOff(s.cursor, Answer(s), RecentWindow(s.cursor.offset).start)
    requires j < |s.list| && s.list[j] in Started(s).original
    ensures Settled(s.cursor, s.reported + Elements(TakePage(s.cursor, Answer(s)).records), s.list[j])
            || j >= Reached(s)
  {
    hide TakePage, WalkPage, Passed, RecentWindow, Answer, Processed, Settled, NothingAbove, BacksOff, Reached;
    var c, rows := s.cursor, Answer(s);
    var done := s.reported + Elements(TakePage(c, rows).records);
    if s.list[j] in Processed(c, rows) {
      PageSettles(c, rows, s.list[j], s.list, s.used, s.reported);
    } else if s.list[j] in Started(s).seen {
      StaysSettled(c, c, s.reported, done, s.list[j]);
    } else {
      UnreadIsBelow(s, after, j);
    }
  }
}
