/** The leaderboard page: rows joined from the tables, sorted in place, ranked one after the other. */
module Board {
  import opened Prelude
  import opened Tables
  import opened Text
  import opened Lists
  import opened Standings

  datatype Row = Row(user: UserId, value: real, at: Time, track: string, scores: seq<(MetricId, real)>, rank: nat)

  // ----- the metric

  // resolveMetric
  method ResolveMetric(m: Manifest, choice: string) returns (r: Option<Metric>)
    ensures
      var wanted := if TrimSpace(choice) == "" then m.rankBy else TrimSpace(choice);
      if r.None? then forall k | 0 <= k < |m.metrics| :: m.metrics[k].id != wanted
      else exists i ::
             && 0 <= i < |m.metrics| && m.metrics[i] == r.value && r.value.id == wanted
             && forall k | 0 <= k < i :: m.metrics[k].id != wanted
  {
    var wanted := TrimSpace(choice);
    if wanted == "" {
      wanted := m.rankBy;
    }
    for i := 0 to |m.metrics|
      invariant forall k | 0 <= k < i :: m.metrics[k].id != wanted
    {
      if m.metrics[i].id == wanted {
        return Some(m.metrics[i]);
      }
    }
    return None;
  }

  function Wanted(m: Manifest, choice: string): MetricId {
    if TrimSpace(choice) == "" then m.rankBy else TrimSpace(choice)
  }

  // ----- one row

  function ScoresOf(db: Tables, a: Account): map<MetricId, real> {
    if a in db.board then GetOr(db.scores, db.board[a].submission, map[]) else map[]
  }

  function ValueOf(db: Tables, a: Account, metric: MetricId): real { GetOr(ScoresOf(db, a), metric, 0.0) }

  function TimeOf(db: Tables, a: Account): Time { if a in db.board then db.board[a].updatedAt else 0 }

  function ScoreRow(db: Tables, m: Manifest, a: Account): seq<(MetricId, real)> {
    seq(|m.metrics|, i requires 0 <= i < |m.metrics| => (m.metrics[i].id, ValueOf(db, a, m.metrics[i].id)))
  }

  function TrackOf(m: Manifest, tracks: map<UserId, string>, user: UserId): string {
    if m.pick && user in tracks then TrimSpace(tracks[user]) else ""
  }

  function RowOf(db: Tables, m: Manifest, metric: MetricId, tracks: map<UserId, string>, a: Account): Row {
    Row(a.user, ValueOf(db, a, metric), TimeOf(db, a), TrackOf(m, tracks, a.user), ScoreRow(db, m, a), 0)
  }

  // ----- the order

  predicate Before(dir: MetricSort, x: Row, y: Row) {
    if x.value != y.value then (if dir == Asc then x.value < y.value else x.value > y.value)
    else if x.at != y.at then (if dir == Asc then x.at < y.at else x.at > y.at)
    else x.user < y.user
  }

  function Order(dir: MetricSort): (Row, Row) -> bool { (x, y) => Before(dir, x, y) }

  ghost predicate OnePerUser(rows: seq<Row>) {
    forall x, y | x in rows && y in rows && x.user == y.user :: x == y
  }

  /** Value, then time, then user is a strict total order on rows of different users. */
  lemma OrderIsTotal(rows: seq<Row>, dir: MetricSort)
    requires OnePerUser(rows)
    ensures Total(rows, Order(dir))
  {}

  // ----- ranks

  predicate Takes(m: Manifest, selected: MetricId, equalFold: (string, string) -> bool, row: Row) {
    (m.rankAll.None? || m.rankAll.value) || !m.pick || equalFold(row.track, selected)
  }

  function Taking(rows: seq<Row>, takes: Row -> bool): nat {
    if rows == [] then 0 else Taking(rows[..|rows| - 1], takes) + if takes(rows[|rows| - 1]) then 1 else 0
  }

  // Ranked rows carry 1, 2, 3 and so on in board order, all others 0.
  ghost predicate RankedInOrder(sorted: seq<Row>, board: seq<Row>, takes: Row -> bool) {
    && |board| == |sorted|
    && forall i | 0 <= i < |sorted| ::
         board[i] == sorted[i].(rank := if takes(sorted[i]) then Taking(sorted[..i], takes) + 1 else 0)
  }

  method AssignRanks(a: array<Row>, takes: Row -> bool)
    requires forall row | row in a[..] :: row.rank == 0
    modifies a
    ensures RankedInOrder(old(a[..]), a[..], takes)
  {
    ghost var was := a[..];
    var nextRank := 1;
    for i := 0 to a.Length
      invariant nextRank == Taking(was[..i], takes) + 1
      invariant a[i..] == was[i..]
      invariant RankedInOrder(was[..i], a[..i], takes)
    {
      assert a[i] == a[i..][0] && a[i] == was[i];
      assert was[..i + 1][..i] == was[..i];
      assert forall k | 0 <= k < i :: was[..i + 1][..k] == was[..i][..k];
      if takes(a[i]) {
        a[i] := a[i].(rank := nextRank);
        nextRank := nextRank + 1;
      }
      assert a[i + 1..] == was[i + 1..];
    }
    assert was[..a.Length] == was && a[..a.Length] == a[..];
  }

  // ----- the page

  // The rows of the join by metric, in whatever order the database returns them.
  ghost predicate ListsJoin(db: Tables, lab: LabId, metric: MetricId, listed: seq<Account>) {
    && Distinct(listed) && (forall a | a in listed :: a in MetricJoin(db, lab, metric))
    && forall a | a in MetricJoin(db, lab, metric) :: a in listed
  }

  function Joined(db: Tables, m: Manifest, metric: MetricId, tracks: map<UserId, string>,
                  listed: seq<Account>): seq<Row>
  {
    seq(|listed|, i requires 0 <= i < |listed| => RowOf(db, m, metric, tracks, listed[i]))
  }

  /** GetBoard: the joined rows, sorted and ranked. */
  method GetBoard(db: Tables, m: Manifest, metric: Metric, tracks: map<UserId, string>, listed: seq<Account>,
                  equalFold: (string, string) -> bool)
    returns (board: seq<Row>)
    ensures IsPage(db, m, metric, tracks, listed, board, row => Takes(m, metric.id, equalFold, row))
  {
    ghost var joined := Joined(db, m, metric.id, tracks, listed);
    var rows := new Row[|listed|](_ => Row(0, 0.0, 0, "", [], 0));
    for i := 0 to |listed|
      invariant forall k | 0 <= k < i :: rows[k] == joined[k]
    {
      rows[i] := BuildRow(db, m, metric.id, tracks, listed[i]);
    }
    assert rows[..] == joined;
    SortInPlace(rows, Order(metric.sort));
    Unranked(db, m, metric, tracks, listed);
    AssignRanks(rows, row => Takes(m, metric.id, equalFold, row));
    return rows[..];
  }

  method BuildRow(db: Tables, m: Manifest, metric: MetricId, tracks: map<UserId, string>, a: Account) returns (row: Row)
    ensures row == RowOf(db, m, metric, tracks, a)
  {
    var scores: seq<(MetricId, real)> := [];
    for k := 0 to |m.metrics|
      invariant scores == ScoreRow(db, m, a)[..k]
    {
      scores := scores + [(m.metrics[k].id, ValueOf(db, a, m.metrics[k].id))];
    }
    assert scores == ScoreRow(db, m, a);
    return Row(a.user, ValueOf(db, a, metric), TimeOf(db, a), TrackOf(m, tracks, a.user), scores, 0);
  }

  lemma Unranked(db: Tables, m: Manifest, metric: Metric, tracks: map<UserId, string>, listed: seq<Account>)
    ensures forall row | row in Sort(Joined(db, m, metric.id, tracks, listed), Order(metric.sort)) :: row.rank == 0
  {
    var joined := Joined(db, m, metric.id, tracks, listed);
    forall row | row in Sort(joined, Order(metric.sort)) ensures row.rank == 0 {
      SortMembers(joined, Order(metric.sort), row);
    }
  }

  // ----- what a page looks like

  lemma JoinedOnePerUser(db: Tables, m: Manifest, lab: LabId, metric: MetricId, tracks: map<UserId, string>,
                         listed: seq<Account>)
    requires forall a | a in listed :: a.lab == lab
    ensures OnePerUser(Joined(db, m, metric, tracks, listed))
  {
    var rows := Joined(db, m, metric, tracks, listed);
    forall x, y | x in rows && y in rows && x.user == y.user ensures x == y {
      var i :| 0 <= i < |rows| && rows[i] == x;
      var k :| 0 <= k < |rows| && rows[k] == y;
      assert listed[i] in listed && listed[k] in listed;
      assert listed[i] == listed[k];
    }
  }

  /** The page does not depend on the order in which the database returned the rows. */
  lemma BoardIgnoresRowOrder(db: Tables, m: Manifest, lab: LabId, metric: Metric, tracks: map<UserId, string>,
                             listed: seq<Account>, listed': seq<Account>)
    requires ListsJoin(db, lab, metric.id, listed) && ListsJoin(db, lab, metric.id, listed')
    ensures Sort(Joined(db, m, metric.id, tracks, listed), Order(metric.sort))
         == Sort(Joined(db, m, metric.id, tracks, listed'), Order(metric.sort))
  {
    var f := a => RowOf(db, m, metric.id, tracks, a);
    assert Joined(db, m, metric.id, tracks, listed) == Map(f, listed);
    assert Joined(db, m, metric.id, tracks, listed') == Map(f, listed');
    SameListing(listed, listed');
    MapCounts(f, listed, listed');
    JoinedOnePerUser(db, m, lab, metric.id, tracks, listed);
    OrderIsTotal(Map(f, listed), metric.sort);
    SortForgetsOrder(Map(f, listed), Map(f, listed'), Order(metric.sort));
  }

  lemma SameListing<T>(s: seq<T>, t: seq<T>)
    requires Distinct(s) && Distinct(t) && SameMembers(s, t)
    ensures multiset(s) == multiset(t)
  {
    DistinctCounts(s);
    DistinctCounts(t);
    forall x | x in multiset(s) || x in multiset(t) ensures multiset(s)[x] == multiset(t)[x] {
      assert x in s && x in t;
    }
  }

  // The rows that GetBoard returns.
  ghost predicate IsPage(db: Tables, m: Manifest, metric: Metric, tracks: map<UserId, string>, listed: seq<Account>,
                         board: seq<Row>, takes: Row -> bool)
  {
    RankedInOrder(Sort(Joined(db, m, metric.id, tracks, listed), Order(metric.sort)), board, takes)
  }

  /** The rows of a page are strictly ordered: for an ascending metric by smaller value, then earlier time,
      for a descending one by larger value, then later time, and then by smaller user id. */
  lemma PageIsOrdered(db: Tables, m: Manifest, lab: LabId, metric: Metric, tracks: map<UserId, string>,
                      listed: seq<Account>, board: seq<Row>, takes: Row -> bool, i: nat, j: nat)
    requires ListsJoin(db, lab, metric.id, listed) && IsPage(db, m, metric, tracks, listed, board, takes)
             && i < j < |board|
    ensures
      var x, y := board[i], board[j];
      || (if metric.sort == Asc then x.value < y.value else x.value > y.value)
      || (x.value == y.value && if metric.sort == Asc then x.at < y.at else x.at > y.at)
      || (x.value == y.value && x.at == y.at && x.user < y.user)
  {
    hide ListsJoin;
    var rows := Joined(db, m, metric.id, tracks, listed);
    SortedPage(db, m, lab, metric, tracks, listed);
    var sorted := Sort(rows, Order(metric.sort));
    assert !Order(metric.sort)(sorted[j], sorted[i]);
    assert sorted[i] in sorted && sorted[j] in sorted && sorted[i] != sorted[j];
  }

  lemma SortedPage(db: Tables, m: Manifest, lab: LabId, metric: Metric, tracks: map<UserId, string>,
                   listed: seq<Account>)
    requires ListsJoin(db, lab, metric.id, listed)
    ensures
      var sorted := Sort(Joined(db, m, metric.id, tracks, listed), Order(metric.sort));
      Ordered(sorted, Order(metric.sort)) && Distinct(sorted) && OnePerUser(sorted)
  {
    var rows := Joined(db, m, metric.id, tracks, listed);
    JoinedOnePerUser(db, m, lab, metric.id, tracks, listed);
    UsersDistinct(db, m, lab, metric.id, tracks, listed);
    OrderIsTotal(rows, metric.sort);
    SortOrdered(rows, Order(metric.sort));
    SortCounts(rows, Order(metric.sort));
    Rearranged(rows, Sort(rows, Order(metric.sort)));
  }

  /** A page shows every joined account, once, with its scores, and nobody else. */
  lemma PageIsComplete(db: Tables, m: Manifest, lab: LabId, metric: Metric, tracks: map<UserId, string>,
                       listed: seq<Account>, board: seq<Row>, takes: Row -> bool, a: Account)
    requires ListsJoin(db, lab, metric.id, listed) && IsPage(db, m, metric, tracks, listed, board, takes)
    ensures |board| == |MetricJoin(db, lab, metric.id)|
    ensures a in MetricJoin(db, lab, metric.id) ==>
              exists i :: 0 <= i < |board| && board[i].(rank := 0) == RowOf(db, m, metric.id, tracks, a)
  {
    var rows := Joined(db, m, metric.id, tracks, listed);
    var sorted := Sort(rows, Order(metric.sort));
    ListCard(listed, MetricJoin(db, lab, metric.id));
    SortCounts(rows, Order(metric.sort));
    Rearranged(rows, sorted);
    if a in MetricJoin(db, lab, metric.id) {
      var k :| 0 <= k < |listed| && listed[k] == a;
      assert rows[k] in sorted by { assert rows[k] in rows; }
      var i :| 0 <= i < |sorted| && sorted[i] == rows[k];
      assert board[i].(rank := 0) == rows[k];
    }
  }

  lemma {:induction false} RanksIncrease(sorted: seq<Row>, board: seq<Row>, takes: Row -> bool, n: nat)
    requires RankedInOrder(sorted, board, takes) && n <= |sorted|
    ensures forall i | 0 <= i < n && takes(sorted[i]) :: 1 <= board[i].rank <= Taking(sorted[..n], takes)
    ensures forall i, j | 0 <= i < j < n && takes(sorted[i]) && takes(sorted[j]) :: board[i].rank < board[j].rank
  {
    if n > 0 {
      RanksIncrease(sorted, board, takes, n - 1);
      assert sorted[..n][..n - 1] == sorted[..n - 1];
    }
  }

  lemma {:induction false} RankGiven(sorted: seq<Row>, board: seq<Row>, takes: Row -> bool, n: nat, r: nat)
    requires RankedInOrder(sorted, board, takes) && n <= |sorted| && 1 <= r <= Taking(sorted[..n], takes)
    ensures exists i :: 0 <= i < n && takes(sorted[i]) && board[i].rank == r
  {
    if n > 0 {
      assert sorted[..n][..n - 1] == sorted[..n - 1];
      if r <= Taking(sorted[..n - 1], takes) {
        RankGiven(sorted, board, takes, n - 1, r);
      } else {
        assert takes(sorted[n - 1]) && board[n - 1].rank == r;
      }
    }
  }

  /** The ranks given out are 1, 2, 3 and so on without a gap, down the page; the others are 0. */
  lemma RanksAreConsecutive(sorted: seq<Row>, board: seq<Row>, takes: Row -> bool, i: nat, j: nat, r: nat)
    requires RankedInOrder(sorted, board, takes)
    ensures i < j < |sorted| && takes(sorted[i]) && takes(sorted[j]) ==> board[i].rank < board[j].rank
    ensures i < |sorted| ==> (takes(sorted[i]) <==> board[i].rank > 0) && board[i].rank <= Taking(sorted, takes)
    ensures 1 <= r <= Taking(sorted, takes) ==> exists k :: 0 <= k < |board| && board[k].rank == r
  {
    assert sorted[..|sorted|] == sorted;
    RanksIncrease(sorted, board, takes, |sorted|);
    if 1 <= r <= Taking(sorted, takes) {
      RankGiven(sorted, board, takes, |sorted|, r);
    }
  }

  // The row takes part in the ranking: unless the lab ranks only those who picked the shown metric.
  predicate TakesPart(m: Manifest, metric: MetricId, equalFold: (string, string) -> bool, row: Row) {
    m.rankAll != Some(false) || !m.pick || equalFold(row.track, metric)
  }

  // The positions of the first n rows that take part.
  function Places(rows: seq<Row>, takes: Row -> bool, n: nat): set<nat>
    requires n <= |rows|
  {
    set k | 0 <= k < n && takes(rows[k])
  }

  lemma {:induction false} TakingCounts(rows: seq<Row>, takes: Row -> bool, n: nat)
    requires n <= |rows|
    ensures Taking(rows[..n], takes) == |Places(rows, takes, n)|
  {
    if n == 0 {
      assert Places(rows, takes, 0) == {};
    } else {
      TakingCounts(rows, takes, n - 1);
      assert rows[..n][..n - 1] == rows[..n - 1];
      MorePlaces(rows, takes, n - 1);
    }
  }

  lemma MorePlaces(rows: seq<Row>, takes: Row -> bool, n: nat)
    requires n < |rows|
    ensures |Places(rows, takes, n + 1)| == |Places(rows, takes, n)| + if takes(rows[n]) then 1 else 0
  {
    var before := Places(rows, takes, n);
    assert Places(rows, takes, n + 1) == if takes(rows[n]) then before + {n} else before;
  }

  lemma RankCounts(sorted: seq<Row>, board: seq<Row>, takes: Row -> bool, i: nat)
    requires RankedInOrder(sorted, board, takes) && i < |board|
    ensures board[i].rank == if takes(sorted[i]) then |Places(sorted, takes, i + 1)| else 0
  {
    hide Places;
    TakingCounts(sorted, takes, i);
    MorePlaces(sorted, takes, i);
  }

  /** The rank of a row on the page is the number of rows down to it that take part, if it does, and 0
      otherwise. */
  lemma PageRanks(db: Tables, m: Manifest, metric: Metric, tracks: map<UserId, string>, listed: seq<Account>,
                  board: seq<Row>, equalFold: (string, string) -> bool, i: nat)
    requires IsPage(db, m, metric, tracks, listed, board, row => Takes(m, metric.id, equalFold, row)) && i < |board|
    ensures
      board[i].rank == if TakesPart(m, metric.id, equalFold, board[i])
                       then |set k | 0 <= k <= i && TakesPart(m, metric.id, equalFold, board[k])|
                       else 0
  {
    hide Joined, Sort;
    var takes := row => Takes(m, metric.id, equalFold, row);
    var sorted := Sort(Joined(db, m, metric.id, tracks, listed), Order(metric.sort));
    RankCounts(sorted, board, takes, i);
    SamePlaces(m, metric.id, equalFold, sorted, board, i);
  }

  lemma SamePlaces(m: Manifest, metric: MetricId, equalFold: (string, string) -> bool, sorted: seq<Row>,
                   board: seq<Row>, i: nat)
    requires |sorted| == |board| && i < |board|
    requires forall k | 0 <= k < |board| :: board[k].(rank := 0) == sorted[k].(rank := 0)
    ensures Takes(m, metric, equalFold, sorted[i]) <==> TakesPart(m, metric, equalFold, board[i])
    ensures Places(sorted, row => Takes(m, metric, equalFold, row), i + 1)
         == set k | 0 <= k <= i && TakesPart(m, metric, equalFold, board[k])
  {
    forall k | 0 <= k <= i ensures sorted[k].track == board[k].track {
      assert board[k].(rank := 0) == sorted[k].(rank := 0);
    }
  }

  lemma UsersDistinct(db: Tables, m: Manifest, lab: LabId, metric: MetricId, tracks: map<UserId, string>,
                      listed: seq<Account>)
    requires Distinct(listed) && forall a | a in listed :: a.lab == lab
    ensures Distinct(Joined(db, m, metric, tracks, listed))
  {
    var rows := Joined(db, m, metric, tracks, listed);
    forall i, j | 0 <= i < j < |rows| ensures rows[i] != rows[j] {
      assert listed[i] in listed && listed[j] in listed;
    }
  }
}
