/** The grade export: a second sort of the same rows, with another comparator, and when the two
    agree. */
module Export {
  import opened Prelude
  import opened Tables
  import opened Text
  import opened Lists
  import opened Protocol
  import opened Standings
  import opened Board

  datatype GradeRow = GradeRow(user: UserId, sortValue: real, at: Time, track: string, scores: seq<real>, rank: nat)

  // ----- the metric of a row

  // resolveMetric of the administration service.  Unlike that of the leaderboard it is also asked for
  // the declared ranking metric, trims that, and falls back to the first metric for no name at all.
  method Resolve(m: Manifest, choice: string) returns (r: Option<Metric>)
    ensures r == Resolved(m, choice)
    ensures
      var wanted := if TrimSpace(choice) == "" then m.rankBy else TrimSpace(choice);
      && (wanted != "" ==>
           && (r.Some? <==> wanted in MetricIds(m)) && (r.Some? ==> FirstNamed(m.metrics, wanted, r.value)))
      && (wanted == "" ==> if m.metrics == [] then r.None? else r == Some(m.metrics[0]))
  {
    hide TrimSpace;
    ResolvedMeans(m, choice);
    var wanted := TrimSpace(choice);
    if wanted == "" {
      wanted := m.rankBy;
    }
    if wanted == "" && |m.metrics| > 0 {
      return Some(m.metrics[0]);
    }
    for i := 0 to |m.metrics|
      invariant forall k | 0 <= k < i :: m.metrics[k].id != wanted
      invariant Named(m.metrics, wanted) == Named(m.metrics[i..], wanted)
    {
      assert m.metrics[i..][0] == m.metrics[i] && m.metrics[i..][1..] == m.metrics[i + 1..];
      if m.metrics[i].id == wanted {
        return Some(m.metrics[i]);
      }
    }
    return None;
  }

  function Named(metrics: seq<Metric>, id: MetricId): Option<Metric> {
    if metrics == [] then None else if metrics[0].id == id then Some(metrics[0]) else Named(metrics[1..], id)
  }

  function Resolved(m: Manifest, choice: string): Option<Metric> {
    if Wanted(m, choice) == "" && m.metrics != [] then Some(m.metrics[0]) else Named(m.metrics, Wanted(m, choice))
  }

  lemma {:induction false} NamedMeans(metrics: seq<Metric>, id: MetricId)
    ensures Named(metrics, id).None? <==> forall i | 0 <= i < |metrics| :: metrics[i].id != id
    ensures Named(metrics, id).Some? ==> FirstNamed(metrics, id, Named(metrics, id).value)
  {
    if metrics != [] {
      NamedMeans(metrics[1..], id);
      assert forall i | 1 <= i < |metrics| :: metrics[i] == metrics[1..][i - 1];
      if metrics[0].id != id && Named(metrics[1..], id).Some? {
        var metric := Named(metrics[1..], id).value;
        var i :| 0 <= i < |metrics[1..]| && metrics[1..][i] == metric
                 && forall k | 0 <= k < i :: metrics[1..][k].id != id;
        assert metrics[i + 1] == metric;
      }
    }
  }

  /** A wanted name resolves to the first metric of that id, if one is declared; with no name wanted at
      all it is the first metric; and under a valid manifest a blank choice is the ranking metric. */
  lemma ResolvedMeans(m: Manifest, choice: string)
    ensures
      var wanted := if TrimSpace(choice) == "" then m.rankBy else TrimSpace(choice);
      var r := Resolved(m, choice);
      && (wanted != "" ==> (r.Some? <==> wanted in MetricIds(m)))
      && (wanted != "" && r.Some? ==> FirstNamed(m.metrics, wanted, r.value))
      && (wanted == "" ==> (r.Some? <==> m.metrics != []) && (r.Some? ==> r.value == m.metrics[0]))
      && (ValidManifest(m) && TrimSpace(choice) == "" ==> r.Some? && r.value in m.metrics && r.value.id == m.rankBy)
  {
    hide TrimSpace;
    NamedMeans(m.metrics, Wanted(m, choice));
    if ValidManifest(m) && TrimSpace(choice) == "" {
      var i :| 0 <= i < |m.metrics| && m.metrics[i].id == m.rankBy;
      assert m.rankBy != "";
    }
  }

  ghost predicate FirstNamed(metrics: seq<Metric>, id: MetricId, metric: Metric) {
    exists i ::
      && 0 <= i < |metrics| && metrics[i] == metric && metric.id == id
      && forall k | 0 <= k < i :: metrics[k].id != id
  }

  // With picking on, a user is ranked by the metric of the chosen track, if there is one.
  function RowMetric(m: Manifest, rankMetric: Metric, tracks: map<UserId, string>, user: UserId): Metric {
    if m.pick && user in tracks && TrimSpace(tracks[user]) != "" && Resolved(m, tracks[user]).Some?
    then Resolved(m, tracks[user]).value else rankMetric
  }

  function NormalizedScore(value: real, dir: MetricSort): real { if dir == Asc then -value else value }

  function GradeOf(db: Tables, m: Manifest, rankMetric: Metric, tracks: map<UserId, string>, a: Account): GradeRow {
    var metric := RowMetric(m, rankMetric, tracks, a.user);
    GradeRow(a.user, NormalizedScore(ValueOf(db, a, metric.id), metric.sort), TimeOf(db, a),
             if a.user in tracks then TrimSpace(tracks[a.user]) else "", ScoreColumns(db, m, a), 0)
  }

  function ScoreColumns(db: Tables, m: Manifest, a: Account): seq<real> {
    seq(|m.metrics|, i requires 0 <= i < |m.metrics| => ValueOf(db, a, m.metrics[i].id))
  }

  // ----- the sort

  predicate GradeBefore(x: GradeRow, y: GradeRow) {
    if x.sortValue != y.sortValue then x.sortValue > y.sortValue
    else if x.at != y.at then x.at > y.at
    else x.user < y.user
  }

  function Grades(db: Tables, m: Manifest, rankMetric: Metric, tracks: map<UserId, string>,
                  listed: seq<Account>): seq<GradeRow>
  {
    seq(|listed|, i requires 0 <= i < |listed| => GradeOf(db, m, rankMetric, tracks, listed[i]))
  }

  // The rows that ExportGrades returns: sorted and numbered from 1.
  ghost predicate IsExport(db: Tables, m: Manifest, rankMetric: Metric, tracks: map<UserId, string>,
                           listed: seq<Account>, sheet: seq<GradeRow>)
  {
    Numbered(Sort(Grades(db, m, rankMetric, tracks, listed), GradeBefore), sheet)
  }

  method BuildRow(db: Tables, m: Manifest, rankMetric: Metric, tracks: map<UserId, string>, a: Account)
    returns (row: GradeRow)
    ensures row == GradeOf(db, m, rankMetric, tracks, a)
  {
    var rowMetric := rankMetric;
    if m.pick && a.user in tracks && TrimSpace(tracks[a.user]) != "" {
      var metric := Resolve(m, tracks[a.user]);
      if metric.Some? {
        rowMetric := metric.value;
      }
    }
    var columns: seq<real> := [];
    for k := 0 to |m.metrics|
      invariant columns == ScoreColumns(db, m, a)[..k]
    {
      columns := columns + [ValueOf(db, a, m.metrics[k].id)];
    }
    assert columns == ScoreColumns(db, m, a);
    return GradeRow(a.user, NormalizedScore(ValueOf(db, a, rowMetric.id), rowMetric.sort), TimeOf(db, a),
                    if a.user in tracks then TrimSpace(tracks[a.user]) else "", columns, 0);
  }

  ghost predicate Numbered(sorted: seq<GradeRow>, rows: seq<GradeRow>) {
    |rows| == |sorted| && forall i | 0 <= i < |sorted| :: rows[i] == sorted[i].(rank := i + 1)
  }

  method NumberRows(rows: array<GradeRow>)
    modifies rows
    ensures Numbered(old(rows[..]), rows[..])
  {
    ghost var was := rows[..];
    for i := 0 to rows.Length
      invariant forall k | i <= k < rows.Length :: rows[k] == was[k]
      invariant forall k | 0 <= k < i :: rows[k] == was[k].(rank := k + 1)
    {
      rows[i] := rows[i].(rank := i + 1);
    }
  }

  method ExportGrades(db: Tables, m: Manifest, tracks: map<UserId, string>, listed: seq<Account>)
    returns (r: Option<seq<GradeRow>>)
    ensures r.Some? <==> Resolved(m, m.rankBy).Some?
    ensures r.Some? ==> IsExport(db, m, Resolved(m, m.rankBy).value, tracks, listed, r.value)
  {
    var rankMetric := Resolve(m, m.rankBy);
    if rankMetric.None? {
      return None;
    }
    ghost var grades := Grades(db, m, rankMetric.value, tracks, listed);
    var rows := new GradeRow[|listed|](_ => GradeRow(0, 0.0, 0, "", [], 0));
    for i := 0 to |listed|
      invariant forall k | 0 <= k < i :: rows[k] == grades[k]
    {
      rows[i] := BuildRow(db, m, rankMetric.value, tracks, listed[i]);
    }
    assert rows[..] == grades;
    SortInPlace(rows, GradeBefore);
    NumberRows(rows);
    return Some(rows[..]);
  }

  // ----- agreement with the leaderboard

  datatype Key = Key(user: UserId, value: real, at: Time)

  function KeyOf(db: Tables, metric: MetricId): Account -> Key {
    (a: Account) => Key(a.user, ValueOf(db, a, metric), TimeOf(db, a))
  }

  predicate BoardKeyBefore(dir: MetricSort, x: Key, y: Key) {
    if x.value != y.value then (if dir == Asc then x.value < y.value else x.value > y.value)
    else if x.at != y.at then (if dir == Asc then x.at < y.at else x.at > y.at)
    else x.user < y.user
  }

  predicate GradeKeyBefore(dir: MetricSort, x: Key, y: Key) {
    if x.value != y.value then (if dir == Asc then x.value < y.value else x.value > y.value)
    else if x.at != y.at then x.at > y.at
    else x.user < y.user
  }

  function BoardKeyOrder(dir: MetricSort): (Key, Key) -> bool { (x, y) => BoardKeyBefore(dir, x, y) }

  function GradeKeyOrder(dir: MetricSort): (Key, Key) -> bool { (x, y) => GradeKeyBefore(dir, x, y) }

  function BoardKey(row: Row): Key { Key(row.user, row.value, row.at) }

  function GradeKey(dir: MetricSort): GradeRow -> Key {
    (row: GradeRow) => Key(row.user, NormalizedScore(row.sortValue, dir), row.at)
  }

  lemma BoardKeys(db: Tables, m: Manifest, metric: Metric, tracks: map<UserId, string>, listed: seq<Account>)
    ensures Map(BoardKey, Sort(Joined(db, m, metric.id, tracks, listed), Order(metric.sort)))
         == Sort(Map(KeyOf(db, metric.id), listed), BoardKeyOrder(metric.sort))
  {
    var rows := Joined(db, m, metric.id, tracks, listed);
    SortMaps(rows, BoardKey, Order(metric.sort), BoardKeyOrder(metric.sort));
    assert Map(BoardKey, rows) == Map(KeyOf(db, metric.id), listed);
  }

  lemma GradeKeys(db: Tables, m: Manifest, metric: Metric, tracks: map<UserId, string>, listed: seq<Account>)
    requires !m.pick
    ensures Map(GradeKey(metric.sort), Sort(Grades(db, m, metric, tracks, listed), GradeBefore))
         == Sort(Map(KeyOf(db, metric.id), listed), GradeKeyOrder(metric.sort))
  {
    var rows := Grades(db, m, metric, tracks, listed);
    SortMaps(rows, GradeKey(metric.sort), GradeBefore, GradeKeyOrder(metric.sort));
    assert Map(GradeKey(metric.sort), rows) == Map(KeyOf(db, metric.id), listed);
  }

  // No two entries have the same value but different times.
  ghost predicate NoSplitTies(keys: seq<Key>) {
    forall x, y | x in keys && y in keys && x.value == y.value :: x.at == y.at
  }

  ghost predicate KeyPerUser(keys: seq<Key>) {
    forall x, y | x in keys && y in keys && x.user == y.user :: x == y
  }

  lemma KeyOrdersTotal(keys: seq<Key>, dir: MetricSort)
    requires KeyPerUser(keys)
    ensures Total(keys, BoardKeyOrder(dir)) && Total(keys, GradeKeyOrder(dir))
  {}

  lemma OrdersCoincide(u: seq<Key>, dir: MetricSort)
    requires Ordered(u, BoardKeyOrder(dir)) && (dir == Desc || NoSplitTies(u))
    ensures Ordered(u, GradeKeyOrder(dir))
  {
    forall i, j | 0 <= i < j < |u| ensures !GradeKeyOrder(dir)(u[j], u[i]) {
      assert u[i] in u && u[j] in u && !BoardKeyOrder(dir)(u[j], u[i]);
    }
  }

  lemma SameOrder(s: seq<Key>, t: seq<Key>, dir: MetricSort)
    requires multiset(s) == multiset(t) && KeyPerUser(s)
    requires dir == Desc || NoSplitTies(s)
    ensures Sort(s, BoardKeyOrder(dir)) == Sort(t, GradeKeyOrder(dir))
  {
    hide BoardKeyOrder, GradeKeyOrder;
    var u := Sort(s, BoardKeyOrder(dir));
    KeyOrdersTotal(s, dir);
    SortForgetsOrder(s, t, GradeKeyOrder(dir));
    SortOrdered(s, BoardKeyOrder(dir));
    SortCounts(s, BoardKeyOrder(dir));
    SortCounts(s, GradeKeyOrder(dir));
    Rearranged(s, u);
    OrdersCoincide(u, dir);
    KeyOrdersTotal(u, dir);
    OneArrangement(u, Sort(s, GradeKeyOrder(dir)), GradeKeyOrder(dir));
  }

  lemma SplitTieDiffers(s: seq<Key>, t: seq<Key>)
    requires multiset(s) == multiset(t) && KeyPerUser(s) && !NoSplitTies(s)
    ensures |Sort(s, BoardKeyOrder(Asc))| == |Sort(t, GradeKeyOrder(Asc))| == |s|
    ensures exists i :: 0 <= i < |s| && Sort(s, BoardKeyOrder(Asc))[i].user != Sort(t, GradeKeyOrder(Asc))[i].user
  {
    var u, v := Sort(s, BoardKeyOrder(Asc)), Sort(t, GradeKeyOrder(Asc));
    KeyOrdersTotal(s, Asc);
    SortForgetsOrder(t, s, GradeKeyOrder(Asc));
    SortOrdered(s, BoardKeyOrder(Asc));
    SortCounts(s, BoardKeyOrder(Asc));
    SortCounts(t, GradeKeyOrder(Asc));
    Rearranged(s, u);
    Rearranged(u, v);
    var x, y :| x in s && y in s && x.value == y.value && x.at < y.at;
    TieSwapped(u, v, x, y);
  }

  lemma TieSwapped(u: seq<Key>, v: seq<Key>, x: Key, y: Key)
    requires |u| == |v| && SameMembers(u, v) && KeyPerUser(u)
    requires Ordered(u, BoardKeyOrder(Asc)) && Ordered(v, GradeKeyOrder(Asc))
    requires x in u && y in u && x.value == y.value && x.at < y.at
    ensures exists i :: 0 <= i < |u| && u[i].user != v[i].user
  {
    var i :| 0 <= i < |u| && u[i] == x;
    var j :| 0 <= j < |u| && u[j] == y;
    assert BoardKeyOrder(Asc)(x, y) && GradeKeyOrder(Asc)(y, x);
    assert i < j;
    assert v[i] in v && v[j] in v;
    assert v[i].user == x.user ==> v[i] == x;
    assert v[j].user == y.user ==> v[j] == y;
  }

  // Position by position the same users with the same ranks.
  ghost predicate Agree(board: seq<Row>, sheet: seq<GradeRow>) {
    |board| == |sheet| && forall i | 0 <= i < |board| ::
      board[i].user == sheet[i].user && board[i].rank == sheet[i].rank
  }

  lemma {:induction false} AllTake(rows: seq<Row>, takes: Row -> bool)
    requires forall row | row in rows :: takes(row)
    ensures Taking(rows, takes) == |rows|
  {
    if rows != [] {
      AllTake(rows[..|rows| - 1], takes);
    }
  }

  lemma EveryoneRanked(sorted: seq<Row>, board: seq<Row>, takes: Row -> bool, i: nat)
    requires RankedInOrder(sorted, board, takes) && (forall row | row in sorted :: takes(row)) && i < |board|
    ensures board[i].rank == i + 1 && BoardKey(board[i]) == BoardKey(sorted[i])
  {
    AllTake(sorted[..i], takes);
  }

  lemma EntryKeys(db: Tables, lab: LabId, metric: MetricId, listed: seq<Account>)
    requires Distinct(listed) && forall a | a in listed :: a.lab == lab
    ensures KeyPerUser(Map(KeyOf(db, metric), listed))
  {
    var keys := Map(KeyOf(db, metric), listed);
    forall x, y | x in keys && y in keys && x.user == y.user ensures x == y {
      var i :| 0 <= i < |keys| && keys[i] == x;
      var k :| 0 <= k < |keys| && keys[k] == y;
      assert listed[i] in listed && listed[k] in listed;
    }
  }

  /** With picking off, the leaderboard by the ranking metric and the export of the same tables show
      the same users in the same order with the same ranks: for a descending metric always, for an
      ascending one exactly when no two entries tie in value at different times, because the two
      break such ties in opposite directions. */
  lemma ExportAgreesIff(db: Tables, m: Manifest, lab: LabId, metric: Metric, tracks: map<UserId, string>,
                        joined: seq<Account>, listed: seq<Account>, board: seq<Row>, sheet: seq<GradeRow>,
                        equalFold: (string, string) -> bool)
    requires !m.pick && Resolved(m, m.rankBy) == Some(metric)
    requires MetricJoin(db, lab, metric.id) == BoardRows(db, lab)
    requires ListsJoin(db, lab, metric.id, joined) && ListsBoard(db, lab, listed)
    requires IsPage(db, m, metric, tracks, joined, board, row => Takes(m, metric.id, equalFold, row))
    requires IsExport(db, m, metric, tracks, listed, sheet)
    ensures Agree(board, sheet) <==> metric.sort == Desc || NoSplitTies(Map(KeyOf(db, metric.id), listed))
  {
    hide IsPage, IsExport, Takes, ListsJoin, ListsBoard, MetricJoin, BoardRows;
    hide KeyOf, NoSplitTies, Sort, Resolved, BoardKeyOrder, GradeKeyOrder;
    var s, t := Map(KeyOf(db, metric.id), joined), Map(KeyOf(db, metric.id), listed);
    var u, v := Sort(s, BoardKeyOrder(metric.sort)), Sort(t, GradeKeyOrder(metric.sort));
    KeysAgree(db, lab, metric.id, joined, listed);
    PageShowsKeys(db, m, metric, tracks, joined, board, equalFold);
    ExportShowsKeys(db, m, metric, tracks, listed, sheet);
    if metric.sort == Desc || NoSplitTies(t) {
      SameOrder(s, t, metric.sort);
    } else {
      SplitTieDiffers(s, t);
      var i :| 0 <= i < |s| && u[i].user != v[i].user;
      assert board[i].user != sheet[i].user;
    }
  }

  lemma PageShowsKeys(db: Tables, m: Manifest, metric: Metric, tracks: map<UserId, string>, joined: seq<Account>,
                      board: seq<Row>, equalFold: (string, string) -> bool)
    requires !m.pick && IsPage(db, m, metric, tracks, joined, board, row => Takes(m, metric.id, equalFold, row))
    ensures
      var u := Sort(Map(KeyOf(db, metric.id), joined), BoardKeyOrder(metric.sort));
      |board| == |u| && forall i | 0 <= i < |u| :: board[i].user == u[i].user && board[i].rank == i + 1
  {
    var sorted := Sort(Joined(db, m, metric.id, tracks, joined), Order(metric.sort));
    var u := Sort(Map(KeyOf(db, metric.id), joined), BoardKeyOrder(metric.sort));
    BoardKeys(db, m, metric, tracks, joined);
    forall i | 0 <= i < |u| ensures board[i].user == u[i].user && board[i].rank == i + 1 {
      EveryoneRanked(sorted, board, row => Takes(m, metric.id, equalFold, row), i);
      assert u[i] == BoardKey(sorted[i]);
    }
  }

  lemma ExportShowsKeys(db: Tables, m: Manifest, metric: Metric, tracks: map<UserId, string>, listed: seq<Account>,
                        sheet: seq<GradeRow>)
    requires !m.pick && IsExport(db, m, metric, tracks, listed, sheet)
    ensures
      var v := Sort(Map(KeyOf(db, metric.id), listed), GradeKeyOrder(metric.sort));
      |sheet| == |v| && forall i | 0 <= i < |v| :: sheet[i].user == v[i].user && sheet[i].rank == i + 1
  {
    var sorted := Sort(Grades(db, m, metric, tracks, listed), GradeBefore);
    var v := Sort(Map(KeyOf(db, metric.id), listed), GradeKeyOrder(metric.sort));
    GradeKeys(db, m, metric, tracks, listed);
    forall i | 0 <= i < |v| ensures sheet[i].user == v[i].user && sheet[i].rank == i + 1 {
      assert v[i] == GradeKey(metric.sort)(sorted[i]);
    }
  }

  lemma KeysAgree(db: Tables, lab: LabId, metric: MetricId, joined: seq<Account>, listed: seq<Account>)
    requires MetricJoin(db, lab, metric) == BoardRows(db, lab)
    requires ListsJoin(db, lab, metric, joined) && ListsBoard(db, lab, listed)
    ensures
      var s, t := Map(KeyOf(db, metric), joined), Map(KeyOf(db, metric), listed);
      && multiset(s) == multiset(t) && |s| == |t| && KeyPerUser(s) && (NoSplitTies(s) <==> NoSplitTies(t))
  {
    var s, t := Map(KeyOf(db, metric), joined), Map(KeyOf(db, metric), listed);
    forall a | a in joined || a in listed ensures a in joined && a in listed && a.lab == lab {
      assert a in MetricJoin(db, lab, metric) <==> a in BoardRows(db, lab);
    }
    SameListing(joined, listed);
    MapCounts(KeyOf(db, metric), joined, listed);
    Rearranged(s, t);
    EntryKeys(db, lab, metric, joined);
  }

  // ----- what a sheet looks like

  /** The rows of a sheet are numbered from 1 and ordered by larger sort value, then later time, then
      smaller user id. */
  lemma SheetIsOrdered(db: Tables, m: Manifest, lab: LabId, metric: Metric, tracks: map<UserId, string>,
                       listed: seq<Account>, sheet: seq<GradeRow>, i: nat, j: nat)
    requires ListsBoard(db, lab, listed) && IsExport(db, m, metric, tracks, listed, sheet) && i < j < |sheet|
    ensures
      var x, y := sheet[i], sheet[j];
      && x.rank == i + 1 && y.rank == j + 1
      && (|| x.sortValue > y.sortValue || (x.sortValue == y.sortValue && x.at > y.at)
          || (x.sortValue == y.sortValue && x.at == y.at && x.user < y.user))
  {
    var rows := Grades(db, m, metric, tracks, listed);
    var sorted := Sort(rows, GradeBefore);
    GradesDiffer(db, m, lab, metric, tracks, listed);
    SortOrdered(rows, GradeBefore);
    SortCounts(rows, GradeBefore);
    Rearranged(rows, sorted);
    assert !GradeBefore(sorted[j], sorted[i]);
    assert sorted[i] in rows && sorted[j] in rows && sorted[i] != sorted[j];
  }

  lemma GradesDiffer(db: Tables, m: Manifest, lab: LabId, metric: Metric, tracks: map<UserId, string>,
                     listed: seq<Account>)
    requires ListsBoard(db, lab, listed)
    ensures Distinct(Grades(db, m, metric, tracks, listed)) && Weak(Grades(db, m, metric, tracks, listed), GradeBefore)
    ensures
      var rows := Grades(db, m, metric, tracks, listed);
      forall x, y | x in rows && y in rows && x.user == y.user :: x == y
  {
    hide GradeOf, RowMetric;
    var rows := Grades(db, m, metric, tracks, listed);
    forall i | 0 <= i < |rows| ensures rows[i].user == listed[i].user && listed[i].lab == lab {
      GradeUser(db, m, metric, tracks, listed[i]);
      assert listed[i] in listed;
    }
    forall x, y | x in rows && y in rows && x.user == y.user ensures x == y {
      var i :| 0 <= i < |rows| && rows[i] == x;
      var k :| 0 <= k < |rows| && rows[k] == y;
      assert listed[i] == listed[k];
    }
  }

  lemma GradeUser(db: Tables, m: Manifest, metric: Metric, tracks: map<UserId, string>, a: Account)
    ensures GradeOf(db, m, metric, tracks, a).user == a.user
  {}

  // The metric by which the export ranks a user: with picking on, that of the user's track if there is one.
  function RankedBy(m: Manifest, metric: Metric, tracks: map<UserId, string>, user: UserId): Metric {
    if !m.pick || user !in tracks || TrimSpace(tracks[user]) == "" || Resolved(m, tracks[user]).None? then metric
    else Resolved(m, tracks[user]).value
  }

  // The row shows the entry, with the value of the metric turned round if smaller values are better.
  ghost predicate GradesEntry(db: Tables, m: Manifest, metric: Metric, tracks: map<UserId, string>, a: Account,
                          row: GradeRow)
    requires a in db.board
  {
    var scores := if db.board[a].submission in db.scores then db.scores[db.board[a].submission] else map[];
    var ranked := RankedBy(m, metric, tracks, a.user);
    var value := if ranked.id in scores then scores[ranked.id] else 0.0;
    && row.user == a.user && row.at == db.board[a].updatedAt
    && row.sortValue == (if ranked.sort == Asc then 0.0 - value else value)
    && row.track == (if a.user in tracks then TrimSpace(tracks[a.user]) else "")
    && |row.scores| == |m.metrics|
    && forall k | 0 <= k < |m.metrics| ::
         row.scores[k] == if m.metrics[k].id in scores then scores[m.metrics[k].id] else 0.0
  }

  lemma EntryShown(db: Tables, m: Manifest, metric: Metric, tracks: map<UserId, string>, a: Account, row: GradeRow)
    requires a in db.board && row.(rank := 0) == GradeOf(db, m, metric, tracks, a).(rank := 0)
    ensures GradesEntry(db, m, metric, tracks, a, row)
  {
    hide TrimSpace, Resolved;
  }

  lemma SheetSorted(db: Tables, m: Manifest, lab: LabId, metric: Metric, tracks: map<UserId, string>,
               listed: seq<Account>)
    requires ListsBoard(db, lab, listed)
    ensures
      var rows := Grades(db, m, metric, tracks, listed);
      var sorted := Sort(rows, GradeBefore);
      && SameMembers(rows, sorted) && |sorted| == |listed| == |BoardRows(db, lab)| && Distinct(sorted)
      && forall x, y | x in sorted && y in sorted && x.user == y.user :: x == y
  {
    hide GradeOf;
    var rows := Grades(db, m, metric, tracks, listed);
    assert forall b :: b in listed <==> b in BoardRows(db, lab);
    ListCard(listed, BoardRows(db, lab));
    GradesDiffer(db, m, lab, metric, tracks, listed);
    SortCounts(rows, GradeBefore);
    Rearranged(rows, Sort(rows, GradeBefore));
  }

  /** A sheet has one row for every entry of the lab, with its own values, and no other rows. */
  lemma SheetIsComplete(db: Tables, m: Manifest, lab: LabId, metric: Metric, tracks: map<UserId, string>,
                        listed: seq<Account>, sheet: seq<GradeRow>, a: Account)
    requires ListsBoard(db, lab, listed) && IsExport(db, m, metric, tracks, listed, sheet)
    requires a in db.board && a.lab == lab
    ensures |sheet| == |BoardRows(db, lab)|
    ensures exists i :: 0 <= i < |sheet| && GradesEntry(db, m, metric, tracks, a, sheet[i])
                        && forall k | 0 <= k < |sheet| && sheet[k].user == a.user :: k == i
  {
    hide GradesEntry, GradeOf, BoardRows, Sort, GradeBefore;
    var rows := Grades(db, m, metric, tracks, listed);
    var sorted := Sort(rows, GradeBefore);
    SheetSorted(db, m, lab, metric, tracks, listed);
    var n :| 0 <= n < |listed| && listed[n] == a;
    assert rows[n] in rows;
    var i :| 0 <= i < |sorted| && sorted[i] == rows[n];
    EntryShown(db, m, metric, tracks, a, sheet[i]);
    GradeUser(db, m, metric, tracks, a);
    forall k | 0 <= k < |sheet| && sheet[k].user == a.user ensures k == i {
      assert sorted[k] in sorted && sorted[i] in sorted;
    }
  }
}
