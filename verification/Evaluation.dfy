/** What the worker makes of an evaluator result: validation, the new quota state, and
    the settlement one Persist transaction writes. */
module Evaluation {
  import opened Prelude
  import opened Tables

  // detail is the Format of the optional structured payload.
  datatype EvalResult = EvalResult(verdict: Verdict, scores: map<MetricId, real>, detail: Option<string>,
                                   message: string)

  // ----- validation

  // Scored results carry exactly the declared metrics, other results carry none.
  ghost predicate ExactScores(m: Manifest, scores: map<MetricId, real>) {
    scores.Keys == MetricIds(m) && scores.Keys != {}
  }

  ghost predicate ValidResult(m: Manifest, r: EvalResult) {
    && !r.verdict.Unknown?
    && (r.detail.Some? ==> r.detail.value == "text" || r.detail.value == "markdown")
    && (if r.verdict == Scored then ExactScores(m, r.scores) else r.scores == map[])
  }

  // ValidateScores: one pass over the declared metrics, one over the submitted keys.
  method ValidateScores(m: Manifest, scores: map<MetricId, real>) returns (ok: bool)
    ensures ok <==> ExactScores(m, scores)
    ensures ok <==>
              && scores != map[]
              && forall k :: k in scores <==> exists i :: 0 <= i < |m.metrics| && m.metrics[i].id == k
  {
    if |scores| == 0 {
      return false;
    }
    assert scores.Keys != {} by {
      var k :| k in scores;
    }
    var declared: set<MetricId> := {};
    for i := 0 to |m.metrics|
      invariant declared == set j | 0 <= j < i :: m.metrics[j].id
      invariant declared <= scores.Keys
    {
      if m.metrics[i].id !in scores {
        assert m.metrics[i].id in MetricIds(m);
        return false;
      }
      declared := declared + {m.metrics[i].id};
    }
    var todo := scores.Keys;
    while todo != {}
      invariant todo <= scores.Keys
      invariant scores.Keys - todo <= declared
      decreases |todo|
    {
      var key :| key in todo;
      if key !in declared {
        return false;
      }
      todo := todo - {key};
    }
    return true;
  }

  method ValidateResult(m: Manifest, r: EvalResult) returns (ok: bool)
    ensures ok <==> ValidResult(m, r)
    ensures
      var formed := r.detail == None || r.detail == Some("text") || r.detail == Some("markdown");
      var declared := r.scores != map[] && forall k ::
                        k in r.scores <==> exists i :: 0 <= i < |m.metrics| && m.metrics[i].id == k;
      ok <==> formed && if r.verdict == Scored then declared
                        else r.scores == map[] && r.verdict in {BuildFailed, Rejected, Failed}
  {
    if r.verdict.Unknown? {
      return false;
    }
    if r.detail.Some? && r.detail.value != "text" && r.detail.value != "markdown" {
      return false;
    }
    if r.verdict == Scored {
      ok := ValidateScores(m, r.scores);
    } else {
      ok := |r.scores| == 0;
    }
  }

  // ----- settlement

  function SubmissionStatusFor(v: Verdict): SubmissionStatus {
    if v == Failed then SubmissionError else SubmissionDone
  }

  function QuotaStateFor(m: Manifest, v: Verdict): QuotaState {
    match v
    case Failed => Free
    case Scored => Charged
    case BuildFailed => if v in m.free then Free else Charged
    case Rejected => if v in m.free then Free else Charged
    case Unknown(_) => Charged
  }

  /** Under a valid manifest a verdict costs nothing exactly if it is the verdict error or the lab
      declares it free; a scored submission always counts. */
  lemma FreeVerdicts(m: Manifest, v: Verdict)
    requires ValidManifest(m)
    ensures QuotaStateFor(m, v) == Free <==> v == Failed || v in m.free
    ensures QuotaStateFor(m, v) == Charged <==> v != Failed && v !in m.free
    ensures QuotaStateFor(m, Scored) == Charged
  {
    assert v in m.free ==> v == BuildFailed || v == Rejected;
    assert Scored !in m.free;
  }

  // The state Persist decides on, from the submission as it was loaded.
  function NewQuotaState(m: Manifest, v: Verdict, loaded: QuotaState): QuotaState {
    if loaded == Free then Free else QuotaStateFor(m, v)
  }

  // Persist asks for a refund instead of an unconditional update.
  predicate WantsRefund(m: Manifest, v: Verdict, loaded: QuotaState) {
    loaded == Bonus && NewQuotaState(m, v, loaded) == Free
  }

  function ResultRow(row: Submission, v: Verdict): Submission {
    row.(status := SubmissionStatusFor(v), verdict := Some(v))
  }

  // The row after the quota statement.  The refund is guarded by the current row, the
  // other two updates are not.
  function QuotaRow(row: Submission, m: Manifest, v: Verdict, loaded: QuotaState): Submission {
    if WantsRefund(m, v, loaded) then
      if row.quota == Bonus then row.(quota := Free) else row
    else if loaded == Bonus then row.(quota := Bonus)
    else row.(quota := NewQuotaState(m, v, loaded))
  }

  // The credit the refund statement writes back, if it touches a row at all.
  function RefundedCredit(db: Tables, row: Submission, m: Manifest, v: Verdict, loaded: QuotaState): Option<int> {
    if WantsRefund(m, v, loaded) && row.quota == Bonus && row.Owner() in db.bonus
    then Some(db.bonus[row.Owner()] + 1) else None
  }

  // The whole Persist transaction run alone: manifest and snapshot are what the worker loaded.
  function Settle(db: Tables, m: Manifest, sub: SubId, loaded: Submission, r: EvalResult, now: Time): Tables
    requires sub in db.subs
  {
    var row := ResultRow(db.subs[sub], r.verdict);
    var credit := RefundedCredit(db, row, m, r.verdict, loaded.quota);
    db.(subs := db.subs[sub := QuotaRow(row, m, r.verdict, loaded.quota)],
        bonus := if credit.Some? then db.bonus[row.Owner() := credit.value] else db.bonus,
        scores := if r.verdict == Scored then db.scores[sub := GetOr(db.scores, sub, map[]) + r.scores] else db.scores,
        board := if r.verdict == Scored then db.board[loaded.Owner() := Entry(sub, now)] else db.board)
  }

  /** What a settlement leaves, field by field.  The row shows the verdict, and the status error
      exactly for the verdict error.  A verdict is free if it is error or one of the two that the lab
      may declare free and does.  A row loaded as free stays free, one loaded as bonus stays bonus or
      is refunded if it still is bonus, any other is free or charged by its verdict.  One credit goes
      back to the owner's counter exactly if a bonus row becomes free.  Scores and leaderboard change
      for the verdict scored only, and nothing else changes. */
  lemma SettleMeans(db: Tables, m: Manifest, sub: SubId, loaded: Submission, r: EvalResult, now: Time)
    requires sub in db.subs
    ensures IsSettlement(db, m, sub, loaded, r, now, Settle(db, m, sub, loaded, r, now))
  {}

  ghost predicate IsSettlement(db: Tables, m: Manifest, sub: SubId, loaded: Submission, r: EvalResult, now: Time,
                               db': Tables)
    requires sub in db.subs
  {
    var row, free := db.subs[sub], r.verdict == Failed || (r.verdict in m.free && r.verdict in {BuildFailed, Rejected});
    var refunded := loaded.quota == Bonus && row.quota == Bonus && free;
    var quota :=
      if loaded.quota == Bonus then (if !free then Bonus else if refunded then Free else row.quota)
      else if loaded.quota == Free || free then Free
      else Charged;
    && db'.subs == db.subs[sub := Submission(row.user, row.lab, row.artifactKey, row.contentHash,
                                             if r.verdict == Failed then SubmissionError else SubmissionDone,
                                             Some(r.verdict), quota, row.createdAt)]
    && db'.bonus.Keys == db.bonus.Keys
    && (forall a | a in db.bonus ::
          db'.bonus[a] == db.bonus[a] + if refunded && a.user == row.user && a.lab == row.lab then 1 else 0)
    && (if r.verdict == Scored then
          && db'.scores.Keys == db.scores.Keys + {sub}
          && (forall x | x in db.scores && x != sub :: db'.scores[x] == db.scores[x])
          && db'.scores[sub].Keys == r.scores.Keys + (if sub in db.scores then db.scores[sub].Keys else {})
          && (forall k | k in db'.scores[sub] ::
                if k in r.scores then db'.scores[sub][k] == r.scores[k]
                else db'.scores[sub][k] == db.scores[sub][k])
          && db'.board == db.board[Account(loaded.user, loaded.lab) := Entry(sub, now)]
        else db'.scores == db.scores && db'.board == db.board)
    && db'.labs == db.labs && db'.jobs == db.jobs && db'.nonces == db.nonces
  }

  // ----- when one settlement conserves credits

  // What a caller could check before Persist: the snapshot and the row agree on being
  // bonus-funded, or the guarded refund is asked for a row that is no longer bonus.
  // A refunded row needs its counter row, which ConsumeBonusQuota proved to exist.
  predicate SettlesFairly(db: Tables, m: Manifest, sub: SubId, loaded: QuotaState, v: Verdict)
    requires sub in db.subs
  {
    var row := db.subs[sub];
    if WantsRefund(m, v, loaded) then row.quota == Bonus ==> row.Owner() in db.bonus
    else (loaded == Bonus <==> row.quota == Bonus)
  }

  /** A settlement leaves the balance of every account as it was exactly when it is fair. */
  lemma SettleConservesIff(db: Tables, m: Manifest, sub: SubId, loaded: Submission, r: EvalResult, now: Time)
    requires sub in db.subs
    ensures SettlesFairly(db, m, sub, loaded.quota, r.verdict) <==>
            forall a :: Balance(Settle(db, m, sub, loaded, r, now), a) == Balance(db, a)
  {
    hide Balance, BonusRows;
    var after := Settle(db, m, sub, loaded, r, now);
    var row := db.subs[sub];
    forall a | a != row.Owner() ensures Balance(after, a) == Balance(db, a) {
      OtherSettled(db, m, sub, loaded, r, now, a);
    }
    OwnerSettled(db, m, sub, loaded, r, now);
    if !SettlesFairly(db, m, sub, loaded.quota, r.verdict) {
      assert Balance(after, row.Owner()) != Balance(db, row.Owner());
    }
  }

  function One(b: bool): int { if b then 1 else 0 }

  lemma RowRewritten(subs: map<SubId, Submission>, sub: SubId, row': Submission)
    requires sub in subs && row'.Owner() == subs[sub].Owner()
    ensures |BonusRows(subs[sub := row'], row'.Owner())| ==
            |BonusRows(subs, row'.Owner())| + One(row'.quota == Bonus) - One(subs[sub].quota == Bonus)
    ensures forall a | a != row'.Owner() :: BonusRows(subs[sub := row'], a) == BonusRows(subs, a)
  {
    var before, after := BonusRows(subs, row'.Owner()), BonusRows(subs[sub := row'], row'.Owner());
    assert after == if row'.quota == Bonus then before + {sub} else before - {sub};
  }

  lemma OtherSettled(db: Tables, m: Manifest, sub: SubId, loaded: Submission, r: EvalResult, now: Time, a: Account)
    requires sub in db.subs && a != db.subs[sub].Owner()
    ensures Balance(Settle(db, m, sub, loaded, r, now), a) == Balance(db, a)
  {
    hide BonusRows;
    RowRewritten(db.subs, sub, Settle(db, m, sub, loaded, r, now).subs[sub]);
  }

  lemma OwnerSettled(db: Tables, m: Manifest, sub: SubId, loaded: Submission, r: EvalResult, now: Time)
    requires sub in db.subs
    ensures
      var row := db.subs[sub];
      var row' := QuotaRow(ResultRow(row, r.verdict), m, r.verdict, loaded.quota);
      var credit := RefundedCredit(db, ResultRow(row, r.verdict), m, r.verdict, loaded.quota);
      Balance(Settle(db, m, sub, loaded, r, now), row.Owner()) ==
        Balance(db, row.Owner()) + One(credit.Some?) + One(row'.quota == Bonus) - One(row.quota == Bonus)
  {
    hide BonusRows;
    RowRewritten(db.subs, sub, Settle(db, m, sub, loaded, r, now).subs[sub]);
  }

  /** The guard of the refund alone does not make refunds happen at most once: after a failed
      evaluation refunds a bonus submission, a stale worker that still holds the bonus snapshot
      and a chargeable result rewrites the row to bonus, and a second refund can follow.
      One spent credit is paid back twice. */
  lemma StaleSettlementRefundsTwice(sub: SubId, row: Submission, left: nat, m: Manifest, charged: EvalResult, now: Time)
    requires row.quota == Bonus
    requires ValidResult(m, charged) && QuotaStateFor(m, charged.verdict) == Charged
    ensures
      var failed := EvalResult(Failed, map[], None, "");
      var db := EMPTY.(subs := map[sub := row], bonus := map[row.Owner() := left]);
      var first := Settle(db, m, sub, row, failed, now);
      var stale := Settle(first, m, sub, row, charged, now);
      var second := Settle(stale, m, sub, row, failed, now);
      && ValidResult(m, failed)
      && Remaining(first, row.Owner()) == left + 1 && first.subs[sub].quota == Free
      && stale.subs[sub].quota == Bonus
      && Remaining(second, row.Owner()) == left + 2 && second.subs[sub].quota == Free
      && Balance(second, row.Owner()) == Balance(db, row.Owner()) + 1
  {
    var failed := EvalResult(Failed, map[], None, "");
    var db := EMPTY.(subs := map[sub := row], bonus := map[row.Owner() := left]);
    var first := Settle(db, m, sub, row, failed, now);
    var stale := Settle(first, m, sub, row, charged, now);
    var second := Settle(stale, m, sub, row, failed, now);
    assert BonusRows(db.subs, row.Owner()) == {sub};
    assert BonusRows(second.subs, row.Owner()) == {};
  }

  // ----- many settlements of one row

  // A Persist call for the row: the manifest and quota state the caller loaded, and its verdict.
  datatype Call = Call(m: Manifest, v: Verdict, loaded: QuotaState)

  function RowAfter(row: Submission, calls: seq<Call>): Submission {
    if calls == [] then row
    else
      var last := calls[|calls| - 1];
      QuotaRow(ResultRow(RowAfter(row, calls[..|calls| - 1]), last.v), last.m, last.v, last.loaded)
  }

  predicate AsksRefund(call: Call) { WantsRefund(call.m, call.v, call.loaded) }

  // The call has loaded the row as bonus and charges it.
  predicate Recharges(call: Call) { call.loaded == Bonus && !AsksRefund(call) }

  // The k-th call flips the row from bonus to free and pays the credit back.
  predicate RefundsAt(row: Submission, calls: seq<Call>, k: nat) {
    && k < |calls| && RowAfter(row, calls[..k]).quota == Bonus
    && RowAfter(row, calls[..k + 1]).quota == Free && AsksRefund(calls[k])
  }

  /** A settlement leaves a bonus row exactly if it loaded the row as bonus and charges it, whatever
      the row was: this is how a refunded row becomes bonus again. */
  lemma BonusAfterIff(row: Submission, call: Call)
    ensures QuotaRow(row, call.m, call.v, call.loaded).quota == Bonus <==> Recharges(call)
  {}

  /** Over any list of settlements, the k-th pays a credit back exactly if it asks for a refund and
      the row was bonus to begin with or the settlement just before it charged it as bonus. */
  lemma RefundsAtIff(row: Submission, calls: seq<Call>, k: nat)
    requires k < |calls|
    ensures RefundsAt(row, calls, k) <==>
              AsksRefund(calls[k]) && if k == 0 then row.quota == Bonus else Recharges(calls[k - 1])
  {
    assert calls[..k + 1][..k] == calls[..k];
    if k > 0 {
      assert calls[..k][..k - 1] == calls[..k - 1];
      BonusAfterIff(ResultRow(RowAfter(row, calls[..k - 1]), calls[k - 1].v), calls[k - 1]);
    }
  }

  /** So a row is refunded again after a refund exactly if some later settlement charges it from a
      bonus snapshot and the next one asks for a refund. */
  lemma RefundsAgainIff(row: Submission, calls: seq<Call>, i: nat)
    requires RefundsAt(row, calls, i)
    ensures (exists k :: i < k && RefundsAt(row, calls, k)) <==>
            (exists j :: i < j < |calls| - 1 && Recharges(calls[j]) && AsksRefund(calls[j + 1]))
  {
    hide RowAfter, WantsRefund;
    RefundsAtIff(row, calls, i);
    if k: nat :| i < k && RefundsAt(row, calls, k) {
      RefundsAtIff(row, calls, k);
      assert Recharges(calls[k - 1]) && AsksRefund(calls[k - 1 + 1]);
    }
    if j: nat :| i < j < |calls| - 1 && Recharges(calls[j]) && AsksRefund(calls[j + 1]) {
      RefundsAtIff(row, calls, j + 1);
    }
  }
}
