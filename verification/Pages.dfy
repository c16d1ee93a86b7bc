/** The pages of a running system: what leaderboard and grade export show in any reachable state, and
    whatever lab updates, retries and interleavings led there. */
module Pages {
  import opened Prelude
  import opened Tables
  import opened Text
  import opened Lists
  import opened Protocol
  import opened Credits
  import opened Standings
  import opened Board
  import opened Export

  // ----- the leaderboard page

  // The row shows the standing, in the columns of the manifest.
  ghost predicate Presents(m: Manifest, metric: MetricId, tracks: map<UserId, string>, row: Row, user: UserId,
                           x: Standing)
  {
    && row.user == user && row.at == x.at
    && row.track == (if m.pick && user in tracks then TrimSpace(tracks[user]) else "")
    && x.scores.Keys == MetricIds(m) && metric in x.scores && row.value == x.scores[metric]
    && |row.scores| == |m.metrics|
    && forall i | 0 <= i < |m.metrics| ::
         m.metrics[i].id in x.scores && row.scores[i] == (m.metrics[i].id, x.scores[m.metrics[i].id])
  }

  // The page has one row for the user, and it shows the standing.
  ghost predicate PresentsOnce(m: Manifest, metric: MetricId, tracks: map<UserId, string>, board: seq<Row>,
                               user: UserId, x: Standing)
  {
    exists i ::
      && 0 <= i < |board| && Presents(m, metric, tracks, board[i], user, x)
      && forall k | 0 <= k < |board| && board[k].user == user :: k == i
  }

  /** In every reachable state the page by a declared metric has as many rows as the lab has entries.  It
      shows each user who ever committed a scored settlement in the lab in exactly one row, with the
      scores the evaluator reported last and the time of that settlement, and nobody else. */
  lemma PageIsLastScored(r: Run, n: nat, metric: Metric, tracks: map<UserId, string>, listed: seq<Account>,
                         board: seq<Row>, takes: Row -> bool, a: Account)
    requires IsRun(r) && n < |r.states| && a.lab in r.states[n].db.labs
    requires metric in r.states[n].db.labs[a.lab].metrics
    requires ListsJoin(r.states[n].db, a.lab, metric.id, listed)
    requires IsPage(r.states[n].db, r.states[n].db.labs[a.lab], metric, tracks, listed, board, takes)
    ensures |board| == |BoardRows(r.states[n].db, a.lab)|
    ensures
      match LastScored(r, n, a)
      case None => forall i | 0 <= i < |board| :: board[i].user != a.user
      case Some(x) => PresentsOnce(r.states[n].db.labs[a.lab], metric.id, tracks, board, a.user, x)
  {
    hide IsRun, IsPage, ListsJoin, MetricJoin, LastScored, PresentsOnce;
    var db := r.states[n].db;
    var m := db.labs[a.lab];
    assert metric.id in MetricIds(m);
    JoinDropsNobody(r, n, a.lab, metric.id);
    BoardIsLastScored(r, n, a);
    PageIsComplete(db, m, a.lab, metric, tracks, listed, board, takes, a);
    if a in BoardRows(db, a.lab) {
      EntriesAreScored(r, n, a);
      RowPresents(db, m, metric.id, tracks, a);
      OneRowPresents(db, m, metric, tracks, listed, board, takes, a);
    } else {
      PageShowsJoined(db, m, a.lab, metric, tracks, listed, board, takes);
    }
  }

  lemma RowPresents(db: Tables, m: Manifest, metric: MetricId, tracks: map<UserId, string>, a: Account)
    requires a in db.board && db.board[a].submission in db.scores && metric in MetricIds(m)
    requires db.scores[db.board[a].submission].Keys == MetricIds(m)
    ensures Presents(m, metric, tracks, RowOf(db, m, metric, tracks, a), a.user, Shown(db, a).value)
  {
    forall i | 0 <= i < |m.metrics| ensures m.metrics[i].id in MetricIds(m) {}
  }

  // Every row of a page belongs to a joined account.
  lemma PageShowsJoined(db: Tables, m: Manifest, lab: LabId, metric: Metric, tracks: map<UserId, string>,
                        listed: seq<Account>, board: seq<Row>, takes: Row -> bool)
    requires ListsJoin(db, lab, metric.id, listed) && IsPage(db, m, metric, tracks, listed, board, takes)
    ensures forall i | 0 <= i < |board| :: Account(board[i].user, lab) in MetricJoin(db, lab, metric.id)
  {
    var rows := Joined(db, m, metric.id, tracks, listed);
    var sorted := Sort(rows, Order(metric.sort));
    SortCounts(rows, Order(metric.sort));
    Rearranged(rows, sorted);
    forall i | 0 <= i < |board| ensures Account(board[i].user, lab) in MetricJoin(db, lab, metric.id) {
      assert sorted[i] in sorted;
      var k :| 0 <= k < |rows| && rows[k] == sorted[i];
      assert listed[k] in listed;
    }
  }

  lemma OneRowPresents(db: Tables, m: Manifest, metric: Metric, tracks: map<UserId, string>, listed: seq<Account>,
                       board: seq<Row>, takes: Row -> bool, a: Account)
    requires ListsJoin(db, a.lab, metric.id, listed) && IsPage(db, m, metric, tracks, listed, board, takes)
    requires a in MetricJoin(db, a.lab, metric.id)
    requires Presents(m, metric.id, tracks, RowOf(db, m, metric.id, tracks, a), a.user, Shown(db, a).value)
    ensures PresentsOnce(m, metric.id, tracks, board, a.user, Shown(db, a).value)
  {
    hide ListsJoin, MetricJoin, RowOf, TrimSpace, Sort, Order, Joined;
    PageIsComplete(db, m, a.lab, metric, tracks, listed, board, takes, a);
    SortedPage(db, m, a.lab, metric, tracks, listed);
    var sorted := Sort(Joined(db, m, metric.id, tracks, listed), Order(metric.sort));
    var i :| 0 <= i < |board| && board[i].(rank := 0) == RowOf(db, m, metric.id, tracks, a);
    forall k | 0 <= k < |board| && board[k].user == a.user ensures k == i {
      assert sorted[k] in sorted && sorted[i] in sorted && sorted[k].user == sorted[i].user;
    }
  }

  // ----- page and export

  // Two users of the lab got the same value by their last scored settlements, at different times.
  ghost predicate SplitTie(r: Run, n: nat, lab: LabId, metric: MetricId, u: UserId, v: UserId)
    requires n < |r.states| && n <= |r.steps|
  {
    var x, y := LastScored(r, n, Account(u, lab)), LastScored(r, n, Account(v, lab));
    && x.Some? && y.Some? && x.value.at != y.value.at
    && GetOr(x.value.scores, metric, 0.0) == GetOr(y.value.scores, metric, 0.0)
  }

  /** In every reachable state, with picking off: page and export of a lab agree in users, order and ranks
      exactly if the ranking metric is descending or no two last scored settlements of the lab tie in
      value at different times. */
  lemma RunExportAgreesIff(r: Run, n: nat, lab: LabId, metric: Metric, tracks: map<UserId, string>,
                           joined: seq<Account>, listed: seq<Account>, board: seq<Row>, sheet: seq<GradeRow>,
                           equalFold: (string, string) -> bool)
    requires IsRun(r) && n < |r.states| && lab in r.states[n].db.labs
    requires !r.states[n].db.labs[lab].pick
    requires Resolved(r.states[n].db.labs[lab], r.states[n].db.labs[lab].rankBy) == Some(metric)
    requires ListsJoin(r.states[n].db, lab, metric.id, joined) && ListsBoard(r.states[n].db, lab, listed)
    requires IsPage(r.states[n].db, r.states[n].db.labs[lab], metric, tracks, joined, board,
                    row => Takes(r.states[n].db.labs[lab], metric.id, equalFold, row))
    requires IsExport(r.states[n].db, r.states[n].db.labs[lab], metric, tracks, listed, sheet)
    ensures Agree(board, sheet) <==> metric.sort == Desc || forall u, v :: !SplitTie(r, n, lab, metric.id, u, v)
  {
    hide IsRun, IsPage, IsExport, ListsJoin, MetricJoin, Resolved, Agree, Takes, NoSplitTies, SplitTie;
    var db := r.states[n].db;
    ResolvedDeclared(db.labs[lab], db.labs[lab].rankBy);
    JoinDropsNobody(r, n, lab, metric.id);
    ExportAgreesIff(db, db.labs[lab], lab, metric, tracks, joined, listed, board, sheet, equalFold);
    SplitTies(r, n, lab, metric.id, listed);
  }

  lemma ResolvedDeclared(m: Manifest, choice: string)
    requires Resolved(m, choice).Some?
    ensures Resolved(m, choice).value.id in MetricIds(m)
  {
    ResolvedMeans(m, choice);
    if Wanted(m, choice) == "" {
      assert m.metrics[0] == Resolved(m, choice).value;
    }
  }

  ghost function StandingKey(r: Run, n: nat, lab: LabId, metric: MetricId, user: UserId): Key
    requires n < |r.states| && n <= |r.steps| && LastScored(r, n, Account(user, lab)).Some?
  {
    var x := LastScored(r, n, Account(user, lab)).value;
    Key(user, GetOr(x.scores, metric, 0.0), x.at)
  }

  lemma KeyOfStanding(r: Run, n: nat, lab: LabId, metric: MetricId, listed: seq<Account>, user: UserId)
    requires IsRun(r) && n < |r.states| && ListsBoard(r.states[n].db, lab, listed)
    ensures LastScored(r, n, Account(user, lab)).Some? <==> Account(user, lab) in listed
    ensures LastScored(r, n, Account(user, lab)).Some? ==>
              KeyOf(r.states[n].db, metric)(Account(user, lab)) == StandingKey(r, n, lab, metric, user)
  {
    hide LastScored;
    BoardIsLastScored(r, n, Account(user, lab));
  }

  lemma SplitTies(r: Run, n: nat, lab: LabId, metric: MetricId, listed: seq<Account>)
    requires IsRun(r) && n < |r.states| && ListsBoard(r.states[n].db, lab, listed)
    ensures NoSplitTies(Map(KeyOf(r.states[n].db, metric), listed)) <==>
            forall u, v :: !SplitTie(r, n, lab, metric, u, v)
  {
    hide LastScored, KeyOf;
    var key := KeyOf(r.states[n].db, metric);
    var keys := Map(key, listed);
    if u, v :| SplitTie(r, n, lab, metric, u, v) {
      KeyOfStanding(r, n, lab, metric, listed, u);
      KeyOfStanding(r, n, lab, metric, listed, v);
      MapHas(key, listed, Account(u, lab));
      MapHas(key, listed, Account(v, lab));
      assert !NoSplitTies(keys);
    }
    if x, y :| x in keys && y in keys && x.value == y.value && x.at != y.at {
      var i :| 0 <= i < |keys| && keys[i] == x;
      var k :| 0 <= k < |keys| && keys[k] == y;
      assert listed[i] in listed && listed[k] in listed;
      KeyOfStanding(r, n, lab, metric, listed, listed[i].user);
      KeyOfStanding(r, n, lab, metric, listed, listed[k].user);
      assert SplitTie(r, n, lab, metric, listed[i].user, listed[k].user);
    }
  }

  lemma MapHas(key: Account -> Key, listed: seq<Account>, a: Account)
    requires a in listed
    ensures key(a) in Map(key, listed)
  {
    var i :| 0 <= i < |listed| && listed[i] == a;
    assert Map(key, listed)[i] == key(a);
  }
}
