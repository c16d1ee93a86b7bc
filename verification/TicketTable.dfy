/** The ticket table under concurrent transactions: creation is serialised by one advisory lock,
    redemption by row locks.  NOW() is the time at which a transaction began. */
module TicketTable {
  import opened Prelude
  import opened Text
  import opened Tickets

  type Pid = nat

  datatype Phase = Waiting | Locked | Counted | Inserted

  datatype Proc =
    | Creating(began: Time, hash: string, ticket: Ticket, phase: Phase)
    | Consuming(began: Time, hash: string, deleted: Option<Ticket>)

  // drawn, issued and redeemed record what happened; no statement reads them.
  datatype State = State(table: TicketMap, clock: Time, procs: map<Pid, Proc>,
                         drawn: set<string>, issued: TicketMap, redeemed: set<string>)

  predicate Init(s: State) {
    s.table == map[] && s.procs == map[] && s.drawn == {} && s.issued == map[] && s.redeemed == {}
  }

  predicate HoldsCreateLock(x: Proc) { x.Creating? && x.phase != Waiting }

  predicate HoldsRow(x: Proc, h: string) { x.Consuming? && x.hash == h && x.deleted.Some? }

  function With(s: State, p: Pid, x: Proc): State { s.(procs := s.procs[p := x]) }

  function Without(s: State, p: Pid): State { s.(procs := s.procs - {p}) }

  ghost predicate Creates(s: State, p: Pid, ph: Phase) {
    p in s.procs && s.procs[p].Creating? && s.procs[p].phase == ph
  }

  datatype Step =
    | Tick(to: Time)
    | CreateBegin(p: Pid, hash: string, ticket: Ticket)
    | CreateLock(p: Pid)
    | CreateCount(p: Pid)
    | CreateInsert(p: Pid)
    | CreateCommit(p: Pid)
    | ConsumeBegin(p: Pid, hash: string)
    | ConsumeDelete(p: Pid)
    | ConsumeCommit(p: Pid)
    | Abort(p: Pid)

  // The hash of a freshly drawn token was never seen before.
  ghost predicate Next(c: Config, s: State, step: Step, s': State) {
    match step
    case Tick(to) => s.clock <= to && s' == s.(clock := to)
    case CreateBegin(p, hash, ticket) =>
      && p !in s.procs && hash !in s.drawn
      && s' == With(s, p, Creating(s.clock, hash, ticket, Waiting)).(drawn := s.drawn + {hash})
    case CreateLock(p) =>
      && Creates(s, p, Waiting) && (forall q | q in s.procs :: !HoldsCreateLock(s.procs[q]))
      && s' == With(s, p, s.procs[p].(phase := Locked))
    case CreateCount(p) =>
      && Creates(s, p, Locked) && |Active(Cleaned(s.table, s.procs[p].began), s.procs[p].began)| < Limit(c)
      && s' == With(s, p, s.procs[p].(phase := Counted))
    case CreateInsert(p) =>
      && Creates(s, p, Counted) && s.procs[p].hash !in Cleaned(s.table, s.procs[p].began)
      && s' == With(s, p, s.procs[p].(phase := Inserted))
    case CreateCommit(p) =>
      && Creates(s, p, Inserted)
      && var x := s.procs[p];
         s' == Without(s, p).(table := Cleaned(s.table, x.began)[x.hash := x.ticket],
             issued := s.issued[x.hash := x.ticket])
    case ConsumeBegin(p, hash) => p !in s.procs && s' == With(s, p, Consuming(s.clock, hash, None))
    case ConsumeDelete(p) =>
      && p in s.procs && s.procs[p].Consuming? && s.procs[p].deleted.None?
      && var x := s.procs[p];
         && x.hash in s.table && x.began < s.table[x.hash].expires
         && (forall q | q in s.procs :: !HoldsRow(s.procs[q], x.hash))
         && s' == With(s, p, x.(deleted := Some(s.table[x.hash])))
    case ConsumeCommit(p) =>
      && p in s.procs && s.procs[p].Consuming? && s.procs[p].deleted.Some?
      && var x := s.procs[p];
         s' == Without(s, p).(table := Cleaned(s.table, x.began) - {x.hash}, redeemed := s.redeemed + {x.hash})
    case Abort(p) => p in s.procs && s' == Without(s, p)
  }

  // ----- the invariant

  ghost predicate TableInv(s: State) {
    && (forall h | h in s.table :: h in s.issued && s.table[h] == s.issued[h] && h !in s.redeemed)
    && s.issued.Keys <= s.drawn && s.redeemed <= s.drawn
  }

  ghost predicate Begun(s: State) {
    forall p | p in s.procs :: s.procs[p].began <= s.clock
  }

  ghost predicate FreshCreations(s: State) {
    && (forall p | p in s.procs && s.procs[p].Creating? ::
          s.procs[p].hash in s.drawn && s.procs[p].hash !in s.issued && s.procs[p].hash !in s.redeemed)
    && (forall p, q | p in s.procs && q in s.procs && p != q && s.procs[p].Creating? && s.procs[q].Creating? ::
          s.procs[p].hash != s.procs[q].hash)
  }

  ghost predicate HeldRows(s: State) {
    && (forall p | p in s.procs && HoldsRow(s.procs[p], s.procs[p].hash) ::
          && s.procs[p].hash in s.issued && s.procs[p].deleted.value == s.issued[s.procs[p].hash]
          && s.procs[p].began < s.procs[p].deleted.value.expires && s.procs[p].hash !in s.redeemed)
    && (forall p, q | p in s.procs && q in s.procs && p != q && HoldsRow(s.procs[p], s.procs[p].hash) ::
          !HoldsRow(s.procs[q], s.procs[p].hash))
  }

  ghost predicate OneLock(s: State) {
    forall p, q | p in s.procs && q in s.procs && HoldsCreateLock(s.procs[p]) && HoldsCreateLock(s.procs[q]) :: p == q
  }

  predicate HasCounted(x: Proc) { x.Creating? && (x.phase == Counted || x.phase == Inserted) }

  // Active tickets stay within the limit, and below it while a counted creation is under way.
  ghost predicate Bounded(c: Config, s: State) {
    && |Active(s.table, s.clock)| <= Limit(c)
    && (forall p | p in s.procs && HasCounted(s.procs[p]) :: |Active(s.table, s.clock)| < Limit(c))
  }

  ghost predicate Inv(c: Config, s: State) {
    TableInv(s) && Begun(s) && FreshCreations(s) && HeldRows(s) && OneLock(s) && Bounded(c, s)
  }

  lemma FewerActive(t: TicketMap, t': TicketMap, before: Time, now: Time)
    requires before <= now && forall h | h in t' && now < t'[h].expires :: h in t && t[h] == t'[h]
    ensures |Active(t', now)| <= |Active(t, before)|
  {
    SubsetCard(Active(t', now), Active(t, before));
  }

  lemma OneMoreActive(t: TicketMap, began: Time, h: string, ticket: Ticket, now: Time)
    requires began <= now
    ensures |Active(Cleaned(t, began)[h := ticket], now)| <= |Active(t, now)| + 1
  {
    var all := Active(t, now) + {h};
    SubsetCard(Active(Cleaned(t, began)[h := ticket], now), all);
    SubsetCard(all - {h}, Active(t, now));
    assert |all - {h}| + 1 == |all|;
  }

  lemma StepTable(c: Config, s: State, step: Step, s': State)
    requires Next(c, s, step, s') && TableInv(s) && FreshCreations(s) && HeldRows(s)
    ensures TableInv(s')
  {}

  lemma StepBegun(c: Config, s: State, step: Step, s': State)
    requires Next(c, s, step, s') && Begun(s)
    ensures Begun(s')
  {}

  lemma StepFresh(c: Config, s: State, step: Step, s': State)
    requires Next(c, s, step, s') && TableInv(s) && FreshCreations(s) && HeldRows(s)
    ensures FreshCreations(s')
  {}

  lemma StepHeld(c: Config, s: State, step: Step, s': State)
    requires Next(c, s, step, s') && TableInv(s) && FreshCreations(s) && HeldRows(s)
    ensures HeldRows(s')
  {}

  lemma StepLock(c: Config, s: State, step: Step, s': State)
    requires Next(c, s, step, s') && OneLock(s)
    ensures OneLock(s')
  {}

  lemma StepBound(c: Config, s: State, step: Step, s': State)
    requires Next(c, s, step, s') && Begun(s) && OneLock(s) && Bounded(c, s)
    ensures Bounded(c, s')
  {
    match step
    case Tick(to) => FewerActive(s.table, s.table, s.clock, to);
    case CreateCount(p) => FewerActive(Cleaned(s.table, s.procs[p].began), s.table, s.procs[p].began, s.clock);
    case CreateCommit(p) => CommitBound(c, s, p, s');
    case ConsumeCommit(p) => FewerActive(s.table, s'.table, s.clock, s.clock);
    case _ =>
  }

  lemma CommitBound(c: Config, s: State, p: Pid, s': State)
    requires Next(c, s, CreateCommit(p), s') && Begun(s) && OneLock(s) && Bounded(c, s)
    ensures Bounded(c, s')
  {
    OneMoreActive(s.table, s.procs[p].began, s.procs[p].hash, s.procs[p].ticket, s.clock);
    assert HasCounted(s.procs[p]);
    forall q | q in s'.procs ensures !HasCounted(s'.procs[q]) {
      assert q != p && s'.procs[q] == s.procs[q] && HoldsCreateLock(s.procs[p]);
    }
  }

  // ----- runs

  ghost predicate IsRun(c: Config, states: seq<State>, steps: seq<Step>) {
    && |states| == |steps| + 1 && Init(states[0])
    && forall i | 0 <= i < |steps| :: Next(c, states[i], steps[i], states[i + 1])
  }

  lemma {:induction false} RunKeeps(c: Config, states: seq<State>, steps: seq<Step>, n: nat)
    requires IsRun(c, states, steps) && n < |states|
    ensures Inv(c, states[n])
  {
    hide TableInv, Begun, FreshCreations, HeldRows, OneLock, Bounded, Next;
    if n == 0 {
      InitKeeps(c, states[0]);
    } else {
      var s, step, s' := states[n - 1], steps[n - 1], states[n];
      RunKeeps(c, states, steps, n - 1);
      StepTable(c, s, step, s');
      StepBegun(c, s, step, s');
      StepFresh(c, s, step, s');
      StepHeld(c, s, step, s');
      StepLock(c, s, step, s');
      StepBound(c, s, step, s');
    }
  }

  lemma InitKeeps(c: Config, s: State)
    requires Init(s)
    ensures Inv(c, s)
  {
    assert Active(s.table, s.clock) == {};
  }

  /** However creations and redemptions interleave, at most the configured number of tickets is
      active at any time. */
  lemma ActiveBounded(c: Config, states: seq<State>, steps: seq<Step>, n: nat)
    requires IsRun(c, states, steps) && n < |states|
    ensures
      var s := states[n];
      |set h | h in s.table && s.clock < s.table[h].expires| <= if c.maxOutstanding > 0 then c.maxOutstanding else 64
  {
    hide TableInv, Begun, FreshCreations, HeldRows;
    RunKeeps(c, states, steps, n);
  }

  ghost predicate Redeems(s: State, step: Step, h: string) {
    step.ConsumeCommit? && step.p in s.procs && s.procs[step.p].Consuming? && s.procs[step.p].hash == h
  }

  ghost function Redemptions(states: seq<State>, steps: seq<Step>, n: nat, h: string): nat
    requires n < |states| && n <= |steps|
  {
    if n == 0 then 0
    else Redemptions(states, steps, n - 1, h) + if Redeems(states[n - 1], steps[n - 1], h) then 1 else 0
  }

  lemma RedeemedStep(c: Config, s: State, step: Step, s': State, h: string)
    requires Next(c, s, step, s') && HeldRows(s)
    ensures Redeems(s, step, h) ==> h !in s.redeemed && h in s'.redeemed
    ensures !Redeems(s, step, h) ==> (h in s'.redeemed <==> h in s.redeemed)
  {}

  /** A ticket is redeemed at most once, whoever competes for it. */
  lemma {:induction false} RedeemedAtMostOnce(c: Config, states: seq<State>, steps: seq<Step>, n: nat, h: string)
    requires IsRun(c, states, steps) && n < |states|
    ensures Redemptions(states, steps, n, h) == if h in states[n].redeemed then 1 else 0
  {
    hide TableInv, Begun, FreshCreations, HeldRows, OneLock, Bounded, Next;
    if n > 0 {
      RedeemedAtMostOnce(c, states, steps, n - 1, h);
      RunKeeps(c, states, steps, n - 1);
      RedeemedStep(c, states[n - 1], steps[n - 1], states[n], h);
    }
  }

  /** A committed redemption returns the very ticket that was created under that hash, and began
      before the ticket expired. */
  lemma RedemptionIsGenuine(c: Config, states: seq<State>, steps: seq<Step>, n: nat, h: string)
    requires IsRun(c, states, steps) && n < |steps| && Redeems(states[n], steps[n], h)
    ensures
      var x := states[n].procs[steps[n].p];
      && x.deleted.Some? && h in states[n].issued && x.deleted.value == states[n].issued[h]
      && x.began < x.deleted.value.expires
  {
    hide TableInv, Begun, FreshCreations, OneLock, Bounded;
    RunKeeps(c, states, steps, n);
    assert Next(c, states[n], steps[n], states[n + 1]);
  }

  // ----- a transaction that runs alone

  // The creation has just reached the phase and nobody else has moved.
  function CreatingState(s: State, p: Pid, hash: string, ticket: Ticket, ph: Phase): State {
    s.(procs := s.procs[p := Creating(s.clock, hash, ticket, ph)], drawn := s.drawn + {hash})
  }

  lemma LockAlone(c: Config, s: State, p: Pid, h: string, ticket: Ticket)
    requires p !in s.procs && h !in s.drawn && forall q | q in s.procs :: !HoldsCreateLock(s.procs[q])
    ensures Next(c, s, CreateBegin(p, h, ticket), CreatingState(s, p, h, ticket, Waiting))
    ensures Next(c, CreatingState(s, p, h, ticket, Waiting), CreateLock(p), CreatingState(s, p, h, ticket, Locked))
  {
    var waiting, locked := CreatingState(s, p, h, ticket, Waiting), CreatingState(s, p, h, ticket, Locked);
    assert locked.procs == waiting.procs[p := waiting.procs[p].(phase := Locked)];
  }

  lemma CountAlone(c: Config, s: State, p: Pid, h: string, ticket: Ticket)
    ensures
      var locked, counted := CreatingState(s, p, h, ticket, Locked), CreatingState(s, p, h, ticket, Counted);
      if |Active(Cleaned(s.table, s.clock), s.clock)| < Limit(c) then Next(c, locked, CreateCount(p), counted)
      else forall s' :: !Next(c, locked, CreateCount(p), s')
  {
    var locked, counted := CreatingState(s, p, h, ticket, Locked), CreatingState(s, p, h, ticket, Counted);
    assert counted.procs == locked.procs[p := locked.procs[p].(phase := Counted)];
  }

  lemma CommitAlone(c: Config, s: State, p: Pid, h: string, ticket: Ticket)
    requires p !in s.procs && h !in s.table
    ensures Next(c, CreatingState(s, p, h, ticket, Counted), CreateInsert(p), CreatingState(s, p, h, ticket, Inserted))
    ensures Next(c, CreatingState(s, p, h, ticket, Inserted), CreateCommit(p),
                 s.(table := Cleaned(s.table, s.clock)[h := ticket], drawn := s.drawn + {h},
                     issued := s.issued[h := ticket]))
  {
    var counted, inserted := CreatingState(s, p, h, ticket, Counted), CreatingState(s, p, h, ticket, Inserted);
    assert inserted.procs == counted.procs[p := counted.procs[p].(phase := Inserted)];
    assert inserted.procs - {p} == s.procs;
  }

  /** A creation that runs alone does to the table what the service over the table does in one call:
      it commits exactly when that issues a ticket, and is stopped by the count exactly when that
      refuses for the limit. */
  lemma CreateAlone(c: Config, hash: string -> string, s: State, p: Pid, op: Op)
    requires op.Create? && Rejection(c, op).None? && op.now == s.clock
    requires TableInv(s) && p !in s.procs && hash(op.token) !in s.drawn
    requires forall q | q in s.procs :: !HoldsCreateLock(s.procs[q])
    ensures
      var h, ticket := hash(op.token), TicketFor(c, op);
      var waiting, locked := CreatingState(s, p, h, ticket, Waiting), CreatingState(s, p, h, ticket, Locked);
      var counted, inserted := CreatingState(s, p, h, ticket, Counted), CreatingState(s, p, h, ticket, Inserted);
      var (table, reply) := TableStep(c, hash, s.table, op);
      var committed := s.(table := table, drawn := s.drawn + {h}, issued := s.issued[h := ticket]);
      && Next(c, s, CreateBegin(p, h, ticket), waiting) && Next(c, waiting, CreateLock(p), locked)
      && (reply == Refused(LimitReached) ==> table == s.table && forall s' :: !Next(c, locked, CreateCount(p), s'))
      && (reply != Refused(LimitReached) ==>
            && reply.Issued? && Next(c, locked, CreateCount(p), counted) && Next(c, counted, CreateInsert(p), inserted)
            && Next(c, inserted, CreateCommit(p), committed))
  {
    hide Rejection, Next, Limit, TicketFor;
    LockAlone(c, s, p, hash(op.token), TicketFor(c, op));
    CountAlone(c, s, p, hash(op.token), TicketFor(c, op));
    CommitAlone(c, s, p, hash(op.token), TicketFor(c, op));
  }

  function ConsumingState(s: State, p: Pid, hash: string, deleted: Option<Ticket>): State {
    s.(procs := s.procs[p := Consuming(s.clock, hash, deleted)])
  }

  /** A redemption that runs alone does to the table what the service over the table does in one call,
      and finds the row exactly when that redeems the ticket. */
  lemma ConsumeAlone(c: Config, hash: string -> string, s: State, p: Pid, op: Op)
    requires op.Consume? && Rejection(c, op).None? && op.now == s.clock && p !in s.procs
    requires forall q | q in s.procs :: !HoldsRow(s.procs[q], hash(TrimSpace(op.ticket)))
    ensures
      var h := hash(TrimSpace(op.ticket));
      var (table, reply) := TableStep(c, hash, s.table, op);
      var begun := ConsumingState(s, p, h, None);
      && Next(c, s, ConsumeBegin(p, h), begun)
      && (reply.Refused? ==> table == s.table && forall s' :: !Next(c, begun, ConsumeDelete(p), s'))
      && (!reply.Refused? ==>
            && h in s.table && reply == Redeem(s.table[h])
            && Next(c, begun, ConsumeDelete(p), ConsumingState(s, p, h, Some(s.table[h])))
            && Next(c, ConsumingState(s, p, h, Some(s.table[h])), ConsumeCommit(p),
                    s.(table := table, redeemed := s.redeemed + {h})))
  {
    hide Rejection, TrimSpace;
    var h := hash(TrimSpace(op.ticket));
    var begun := ConsumingState(s, p, h, None);
    if h in s.table && s.clock < s.table[h].expires {
      var deleted := ConsumingState(s, p, h, Some(s.table[h]));
      assert deleted.procs == begun.procs[p := begun.procs[p].(deleted := Some(s.table[h]))];
      assert deleted.procs - {p} == s.procs;
    }
  }
}
