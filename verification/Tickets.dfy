/** One-time browser session tickets: the service that keeps them in memory, the one that keeps them
    in a table, and why a user cannot tell them apart. */
module Tickets {
  import opened Prelude
  import opened Text

  type Time = int

  datatype Ticket = Ticket(user: int, key: int, path: string, expires: Time)

  datatype TicketError = InvalidTicket | InvalidRedirectPath | LimitReached | StoreFailed

  // What a caller asks for, with the token drawn for it and the time at which it is served.
  datatype Op =
    | Create(user: int, key: int, path: string, token: string, now: Time)
    | Consume(ticket: string, now: Time)

  datatype Reply =
    | Issued(token: string, expires: Time)
    | Redeemed(user: int, key: int, path: string)
    | Refused(error: TicketError)

  // isLocal: the path parses as a URL without scheme and host.
  datatype Config = Config(ttl: int, maxOutstanding: int, isLocal: string -> bool)

  type TicketMap = map<string, Ticket>

  function Limit(c: Config): nat { if c.maxOutstanding <= 0 then 64 else c.maxOutstanding }

  predicate ValidPath(c: Config, path: string) {
    path != "" && path[0] == '/' && !(|path| > 1 && path[1] == '/') && c.isLocal(path)
  }

  // The checks made before any ticket is looked at.
  function Rejection(c: Config, op: Op): Option<TicketError> {
    match op
    case Create(user, key, path, _, _) =>
      if user <= 0 || key <= 0 then Some(InvalidTicket)
      else if !ValidPath(c, TrimSpace(path)) then Some(InvalidRedirectPath)
      else None
    case Consume(ticket, _) => if TrimSpace(ticket) == "" then Some(InvalidTicket) else None
  }

  function TicketFor(c: Config, op: Op): Ticket
    requires op.Create?
  {
    Ticket(op.user, op.key, TrimSpace(op.path), op.now + c.ttl)
  }

  function Redeem(t: Ticket): Reply { Redeemed(t.user, t.key, t.path) }

  // ----- what a caller can tell before the call

  // A path on this site: it begins with one slash, and not with two.
  predicate OnSite(c: Config, path: string) {
    |path| > 0 && path[0] == '/' && (|path| == 1 || path[1] != '/') && c.isLocal(path)
  }

  // How many tickets may be outstanding: 64 unless configured.
  function MostTickets(c: Config): int { if c.maxOutstanding > 0 then c.maxOutstanding else 64 }

  // The reply to a creation that finds so many tickets outstanding.
  function CreateReply(c: Config, op: Op, outstanding: nat): Reply
    requires op.Create?
  {
    if op.user <= 0 || op.key <= 0 then Refused(InvalidTicket)
    else if !OnSite(c, TrimSpace(op.path)) then Refused(InvalidRedirectPath)
    else if outstanding >= MostTickets(c) then Refused(LimitReached)
    else Issued(op.token, op.now + c.ttl)
  }

  // The reply to a redemption that finds the ticket stored, or none.
  function ConsumeReply(op: Op, found: Option<Ticket>): Reply
    requires op.Consume?
  {
    if TrimSpace(op.ticket) == "" || found.None? then Refused(InvalidTicket)
    else Redeemed(found.value.user, found.value.key, found.value.path)
  }

  // ----- in memory

  // The clean-up keeps a ticket through the very instant at which it expires.
  function Swept(m: TicketMap, now: Time): TicketMap { map k | k in m && now <= m[k].expires :: m[k] }

  function MemoryStep(c: Config, m: TicketMap, op: Op): (TicketMap, Reply) {
    if Rejection(c, op).Some? then (m, Refused(Rejection(c, op).value)) else
      var left := Swept(m, op.now);
      match op
      case Create(_, _, _, token, _) =>
        if |left| >= Limit(c) then (left, Refused(LimitReached))
        else (left[token := TicketFor(c, op)], Issued(token, op.now + c.ttl))
      case Consume(ticket, _) =>
        var token := TrimSpace(ticket);
        if token !in left then (left, Refused(InvalidTicket)) else (left - {token}, Redeem(left[token]))
  }

  class MemoryService {
    var tickets: TicketMap
    const config: Config

    constructor (config: Config)
      ensures tickets == map[] && this.config == config
    {
      this.config := config;
      tickets := map[];
    }

    method CleanupExpired(now: Time)
      modifies this
      ensures tickets == Swept(old(tickets), now)
    {
      var todo := tickets.Keys;
      while todo != {}
        invariant todo <= tickets.Keys <= old(tickets).Keys
        invariant forall k | k in tickets :: tickets[k] == old(tickets)[k]
        invariant forall k | k in old(tickets) :: k in tickets <==> k in todo || now <= old(tickets)[k].expires
        decreases |todo|
      {
        var token :| token in todo;
        if now > tickets[token].expires {
          tickets := tickets - {token};
        }
        todo := todo - {token};
      }
    }

    method CreateTicket(op: Op) returns (r: Reply)
      requires op.Create?
      modifies this
      ensures (tickets, r) == MemoryStep(config, old(tickets), op)
      ensures
        var left := map k | k in old(tickets) && old(tickets)[k].expires >= op.now :: old(tickets)[k];
        && r == CreateReply(config, op, |left|)
        && tickets == if r.Issued?
                      then left[op.token := Ticket(op.user, op.key, TrimSpace(op.path), op.now + config.ttl)]
                      else if r == Refused(LimitReached) then left else old(tickets)
    {
      hide TrimSpace;
      if op.user <= 0 || op.key <= 0 {
        return Refused(InvalidTicket);
      }
      var redirectPath := TrimSpace(op.path);
      if !ValidPath(config, redirectPath) {
        return Refused(InvalidRedirectPath);
      }
      CleanupExpired(op.now);
      assert tickets == map k | k in old(tickets) && old(tickets)[k].expires >= op.now :: old(tickets)[k];
      var expiresAt := op.now + config.ttl;
      if |tickets| >= Limit(config) {
        return Refused(LimitReached);
      }
      tickets := tickets[op.token := Ticket(op.user, op.key, redirectPath, expiresAt)];
      return Issued(op.token, expiresAt);
    }

    method ConsumeTicket(op: Op) returns (r: Reply)
      requires op.Consume?
      modifies this
      ensures (tickets, r) == MemoryStep(config, old(tickets), op)
      ensures
        var token, left := TrimSpace(op.ticket),
                           map k | k in old(tickets) && old(tickets)[k].expires >= op.now :: old(tickets)[k];
        && r == ConsumeReply(op, if token in left then Some(left[token]) else None)
        && tickets == if token == "" then old(tickets) else left - {token}
    {
      hide TrimSpace;
      var token := TrimSpace(op.ticket);
      if token == "" {
        return Refused(InvalidTicket);
      }
      CleanupExpired(op.now);
      if token !in tickets {
        return Refused(InvalidTicket);
      }
      var row := tickets[token];
      tickets := tickets - {token};
      return Redeemed(row.user, row.key, row.path);
    }
  }

  // ----- in a table, keyed by the hash of the token

  // DELETE ... WHERE expires_at <= NOW()
  function Cleaned(t: TicketMap, now: Time): TicketMap { map h | h in t && now < t[h].expires :: t[h] }

  function Active(t: TicketMap, now: Time): set<string> { set h | h in t && now < t[h].expires }

  // A refused request rolls its transaction back, the clean-up included.
  function TableStep(c: Config, hash: string -> string, t: TicketMap, op: Op): (TicketMap, Reply) {
    if Rejection(c, op).Some? then (t, Refused(Rejection(c, op).value)) else
      var left := Cleaned(t, op.now);
      match op
      case Create(_, _, _, token, _) =>
        if |Active(left, op.now)| >= Limit(c) then (t, Refused(LimitReached))
        else if hash(token) in left then (t, Refused(StoreFailed))
        else (left[hash(token) := TicketFor(c, op)], Issued(token, op.now + c.ttl))
      case Consume(ticket, _) =>
        var h := hash(TrimSpace(ticket));
        if h in left && op.now < left[h].expires then (left - {h}, Redeem(left[h])) else (t, Refused(InvalidTicket))
  }

  class TableService {
    var table: TicketMap   // committed
    const config: Config
    const hash: string -> string

    constructor (config: Config, hash: string -> string)
      ensures table == map[] && this.config == config && this.hash == hash
    {
      this.config, this.hash := config, hash;
      table := map[];
    }

    method CreateTicket(op: Op) returns (r: Reply)
      requires op.Create?
      modifies this
      ensures (table, r) == TableStep(config, hash, old(table), op)
      ensures
        var left := map h | h in old(table) && old(table)[h].expires > op.now :: old(table)[h];
        && r == (if CreateReply(config, op, |left|).Issued? && hash(op.token) in left then Refused(StoreFailed)
                 else CreateReply(config, op, |left|))
        && table == if r.Issued?
                    then left[hash(op.token) := Ticket(op.user, op.key, TrimSpace(op.path), op.now + config.ttl)]
                    else old(table)
    {
      hide TrimSpace;
      if op.user <= 0 || op.key <= 0 {
        return Refused(InvalidTicket);
      }
      var redirectPath := TrimSpace(op.path);
      if !ValidPath(config, redirectPath) {
        return Refused(InvalidRedirectPath);
      }
      var draft := Cleaned(table, op.now);
      var expiresAt := op.now + config.ttl;
      var count := |Active(draft, op.now)|;
      assert draft == map h | h in table && table[h].expires > op.now :: table[h];
      assert Active(draft, op.now) == draft.Keys;
      if count >= Limit(config) {
        return Refused(LimitReached);
      }
      if hash(op.token) in draft {
        return Refused(StoreFailed);
      }
      draft := draft[hash(op.token) := Ticket(op.user, op.key, redirectPath, expiresAt)];
      table := draft;
      return Issued(op.token, expiresAt);
    }

    method ConsumeTicket(op: Op) returns (r: Reply)
      requires op.Consume?
      modifies this
      ensures (table, r) == TableStep(config, hash, old(table), op)
      ensures
        var h, left := hash(TrimSpace(op.ticket)),
                       map k | k in old(table) && old(table)[k].expires > op.now :: old(table)[k];
        && r == ConsumeReply(op, if h in left then Some(left[h]) else None)
        && table == if r.Redeemed? then left - {h} else old(table)
    {
      hide TrimSpace;
      var token := TrimSpace(op.ticket);
      if token == "" {
        return Refused(InvalidTicket);
      }
      var draft := Cleaned(table, op.now);
      if hash(token) !in draft || draft[hash(token)].expires <= op.now {
        return Refused(InvalidTicket);
      }
      var row := draft[hash(token)];
      draft := draft - {hash(token)};
      table := draft;
      return Redeemed(row.user, row.key, row.path);
    }
  }

  // ----- histories

  function MemoryAfter(c: Config, ops: seq<Op>): TicketMap {
    if ops == [] then map[] else MemoryStep(c, MemoryAfter(c, ops[..|ops| - 1]), ops[|ops| - 1]).0
  }

  function TableAfter(c: Config, hash: string -> string, ops: seq<Op>): TicketMap {
    if ops == [] then map[] else TableStep(c, hash, TableAfter(c, hash, ops[..|ops| - 1]), ops[|ops| - 1]).0
  }

  function MemoryReply(c: Config, ops: seq<Op>, n: nat): Reply
    requires n < |ops|
  {
    MemoryStep(c, MemoryAfter(c, ops[..n]), ops[n]).1
  }

  function TableReply(c: Config, hash: string -> string, ops: seq<Op>, n: nat): Reply
    requires n < |ops|
  {
    TableStep(c, hash, TableAfter(c, hash, ops[..n]), ops[n]).1
  }

  // One clock, and every token drawn is new and has no white space around it.
  ghost predicate Proper(ops: seq<Op>) {
    && (forall i, j | 0 <= i <= j < |ops| :: ops[i].now <= ops[j].now)
    && (forall i | 0 <= i < |ops| && ops[i].Create? :: ops[i].token != "" && IsTrimmed(ops[i].token))
    && (forall i, j | 0 <= i < j < |ops| && ops[i].Create? && ops[j].Create? :: ops[i].token != ops[j].token)
  }

  ghost predicate Injective(hash: string -> string) {
    forall x, y | hash(x) == hash(y) :: x == y
  }

  // Every stored ticket was issued by an earlier request, under its own token.
  ghost predicate From(c: Config, key: string -> string, ops: seq<Op>, m: TicketMap) {
    forall k | k in m :: exists i :: 0 <= i < |ops| && IssuedBy(c, key, ops[i], k, m[k])
  }

  predicate IssuedBy(c: Config, key: string -> string, op: Op, k: string, t: Ticket) {
    op.Create? && key(op.token) == k && t == TicketFor(c, op)
  }

  lemma FromMore(c: Config, key: string -> string, ops: seq<Op>, op: Op, m: TicketMap, m': TicketMap)
    requires From(c, key, ops, m)
    requires forall k | k in m' :: (k in m && m'[k] == m[k]) || IssuedBy(c, key, op, k, m'[k])
    ensures From(c, key, ops + [op], m')
  {
    hide TicketFor, IssuedBy;
    forall k | k in m' ensures exists i :: 0 <= i < |ops + [op]| && IssuedBy(c, key, (ops + [op])[i], k, m'[k]) {
      if IssuedBy(c, key, op, k, m'[k]) {
        assert (ops + [op])[|ops|] == op;
      } else {
        var i :| 0 <= i < |ops| && IssuedBy(c, key, ops[i], k, m[k]);
        assert (ops + [op])[i] == ops[i];
      }
    }
  }

  function Same(s: string): string { s }

  // A step keeps stored tickets as they are and adds none but the one it issues.
  lemma MemoryStepAdds(c: Config, m: TicketMap, op: Op)
    ensures
      var m' := MemoryStep(c, m, op).0;
      forall k | k in m' :: (k in m && m'[k] == m[k]) || IssuedBy(c, Same, op, k, m'[k])
  {
    hide Rejection, TrimSpace;
  }

  lemma TableStepAdds(c: Config, hash: string -> string, t: TicketMap, op: Op)
    ensures
      var t' := TableStep(c, hash, t, op).0;
      forall h | h in t' :: (h in t && t'[h] == t[h]) || IssuedBy(c, hash, op, h, t'[h])
  {
    hide Rejection, TrimSpace;
  }

  lemma {:induction false} MemoryFrom(c: Config, ops: seq<Op>)
    ensures From(c, Same, ops, MemoryAfter(c, ops))
  {
    hide MemoryStep, TicketFor, Rejection, IssuedBy;
    if ops != [] {
      var init, op := ops[..|ops| - 1], ops[|ops| - 1];
      MemoryFrom(c, init);
      MemoryStepAdds(c, MemoryAfter(c, init), op);
      FromMore(c, Same, init, op, MemoryAfter(c, init), MemoryAfter(c, ops));
      assert ops == init + [op];
    }
  }

  lemma {:induction false} TableFrom(c: Config, hash: string -> string, ops: seq<Op>)
    ensures From(c, hash, ops, TableAfter(c, hash, ops))
  {
    hide TableStep, TicketFor, Rejection, IssuedBy;
    if ops != [] {
      var init, op := ops[..|ops| - 1], ops[|ops| - 1];
      TableFrom(c, hash, init);
      TableStepAdds(c, hash, TableAfter(c, hash, init), op);
      FromMore(c, hash, init, op, TableAfter(c, hash, init), TableAfter(c, hash, ops));
      assert ops == init + [op];
    }
  }

  // ----- refinement

  // No request is served at the very instant at which an earlier ticket expires.
  ghost predicate OffExpiry(c: Config, ops: seq<Op>) {
    forall i, j | 0 <= i < j < |ops| && ops[i].Create? :: ops[j].now != ops[i].now + c.ttl
  }

  // The tickets that live past now are the same on both sides.
  ghost predicate SameLive(hash: string -> string, m: TicketMap, t: TicketMap, now: Time) {
    && (forall k | k in m && now < m[k].expires :: hash(k) in t && t[hash(k)] == m[k])
    && (forall h | h in t && now < t[h].expires :: exists k :: k in m && hash(k) == h && m[k] == t[h])
  }

  // The tickets that memory still holds past now.
  function Live(m: TicketMap, now: Time): set<string> { set k | k in m && now < m[k].expires }

  // The request parts the two services: it redeems a ticket at the very instant of its expiry, or it
  // is kept out by tickets that expire at this very instant.
  predicate Parts(c: Config, m: TicketMap, op: Op) {
    && Rejection(c, op).None?
    && match op
       case Create(_, _, _, _, now) => |Live(m, now)| < Limit(c) <= |Swept(m, now)|
       case Consume(ticket, now) => TrimSpace(ticket) in m && m[TrimSpace(ticket)].expires == now
  }

  lemma {:induction false} HashedCard(hash: string -> string, keys: set<string>, hashes: set<string>)
    requires Injective(hash) && (forall k | k in keys :: hash(k) in hashes)
    requires forall h | h in hashes :: exists k :: k in keys && hash(k) == h
    ensures |keys| == |hashes|
  {
    if keys == {} {
      assert hashes == {};
    } else {
      var k :| k in keys;
      HashedCard(hash, keys - {k}, hashes - {hash(k)});
    }
  }

  lemma LiveCount(hash: string -> string, m: TicketMap, t: TicketMap, now: Time)
    requires Injective(hash) && SameLive(hash, m, t, now)
    ensures |Live(m, now)| == |Active(Cleaned(t, now), now)| && |Live(m, now)| <= |Swept(m, now)|
  {
    var live, active := Live(m, now), Active(Cleaned(t, now), now);
    forall h | h in active ensures exists k :: k in live && hash(k) == h {
      var k :| k in m && hash(k) == h && m[k] == t[h];
      assert k in live;
    }
    HashedCard(hash, live, active);
    SubsetCard(live, Swept(m, now).Keys);
  }

  lemma LiveLater(hash: string -> string, m: TicketMap, t: TicketMap, before: Time, now: Time)
    requires SameLive(hash, m, t, before) && before <= now
    ensures SameLive(hash, m, t, now)
  {}

  // Sweeping and cleaning keep the live tickets; so does adding the same one on both sides.
  lemma LiveSwept(hash: string -> string, m: TicketMap, t: TicketMap, now: Time)
    requires SameLive(hash, m, t, now)
    ensures SameLive(hash, Swept(m, now), Cleaned(t, now), now) && SameLive(hash, Swept(m, now), t, now)
  {
    var m', t' := Swept(m, now), Cleaned(t, now);
    forall h | h in t && now < t[h].expires ensures exists k :: k in m' && hash(k) == h && m'[k] == t[h] {
      var k :| k in m && hash(k) == h && m[k] == t[h];
      assert k in m';
    }
  }

  lemma LiveAdded(hash: string -> string, m: TicketMap, t: TicketMap, now: Time, token: string, ticket: Ticket)
    requires Injective(hash) && SameLive(hash, m, t, now) && token !in m && hash(token) !in t
    ensures SameLive(hash, m[token := ticket], t[hash(token) := ticket], now)
  {
    var m', t' := m[token := ticket], t[hash(token) := ticket];
    forall h | h in t' && now < t'[h].expires ensures exists k :: k in m' && hash(k) == h && m'[k] == t'[h] {
      if h == hash(token) {
        assert token in m';
      } else {
        var k :| k in m && hash(k) == h && m[k] == t[h];
        assert k in m';
      }
    }
  }

  lemma LiveRemoved(hash: string -> string, m: TicketMap, t: TicketMap, now: Time, token: string)
    requires Injective(hash) && SameLive(hash, m, t, now)
    ensures SameLive(hash, m - {token}, t - {hash(token)}, now)
  {
    var m', t' := m - {token}, t - {hash(token)};
    forall h | h in t' && now < t'[h].expires ensures exists k :: k in m' && hash(k) == h && m'[k] == t'[h] {
      var k :| k in m && hash(k) == h && m[k] == t[h];
      assert k in m';
    }
  }

  lemma CreateAgreesIff(c: Config, hash: string -> string, m: TicketMap, t: TicketMap, op: Op)
    requires op.Create? && Rejection(c, op).None?
    requires Injective(hash) && SameLive(hash, m, t, op.now) && op.token !in m && hash(op.token) !in t
    ensures MemoryStep(c, m, op).1 == TableStep(c, hash, t, op).1 <==> !Parts(c, m, op)
    ensures !Parts(c, m, op) ==> SameLive(hash, MemoryStep(c, m, op).0, TableStep(c, hash, t, op).0, op.now)
  {
    hide Rejection, TrimSpace, SameLive, Injective, Live, TicketFor;
    LiveCount(hash, m, t, op.now);
    LiveSwept(hash, m, t, op.now);
    LiveAdded(hash, Swept(m, op.now), Cleaned(t, op.now), op.now, op.token, TicketFor(c, op));
  }

  lemma ConsumeAgreesIff(c: Config, hash: string -> string, m: TicketMap, t: TicketMap, op: Op)
    requires op.Consume? && Rejection(c, op).None? && Injective(hash) && SameLive(hash, m, t, op.now)
    ensures MemoryStep(c, m, op).1 == TableStep(c, hash, t, op).1 <==> !Parts(c, m, op)
    ensures !Parts(c, m, op) ==> SameLive(hash, MemoryStep(c, m, op).0, TableStep(c, hash, t, op).0, op.now)
  {
    hide Rejection, TrimSpace, SameLive, Injective;
    var token := TrimSpace(op.ticket);
    LiveSwept(hash, m, t, op.now);
    LiveRemoved(hash, Swept(m, op.now), Cleaned(t, op.now), op.now, token);
    SameTicket(hash, m, t, op.now, token);
  }

  /** One request gets the same reply from both services exactly if it does not part them, and then
      they go on with the same live tickets. */
  lemma StepAgreesIff(c: Config, hash: string -> string, m: TicketMap, t: TicketMap, op: Op)
    requires Injective(hash) && SameLive(hash, m, t, op.now)
    requires op.Create? ==> op.token !in m && hash(op.token) !in t
    ensures MemoryStep(c, m, op).1 == TableStep(c, hash, t, op).1 <==> !Parts(c, m, op)
    ensures !Parts(c, m, op) ==> SameLive(hash, MemoryStep(c, m, op).0, TableStep(c, hash, t, op).0, op.now)
  {
    if Rejection(c, op).None? {
      hide Rejection, TrimSpace, SameLive, Injective, MemoryStep, TableStep, Parts;
      if op.Create? {
        CreateAgreesIff(c, hash, m, t, op);
      } else {
        ConsumeAgreesIff(c, hash, m, t, op);
      }
    }
  }

  lemma SameTicket(hash: string -> string, m: TicketMap, t: TicketMap, now: Time, token: string)
    requires Injective(hash) && SameLive(hash, m, t, now)
    ensures token in m && now < m[token].expires <==> hash(token) in t && now < t[hash(token)].expires
    ensures token in m && now < m[token].expires ==> t[hash(token)] == m[token]
  {
    if hash(token) in t && now < t[hash(token)].expires {
      var k :| k in m && hash(k) == hash(token) && m[k] == t[hash(token)];
    }
  }

  // No request among the first n parts the two services.
  ghost predicate Together(c: Config, ops: seq<Op>, n: nat)
    requires n <= |ops|
  {
    forall i | 0 <= i < n :: !Parts(c, MemoryAfter(c, ops[..i]), ops[i])
  }

  lemma {:induction false} SameLiveAfter(c: Config, hash: string -> string, ops: seq<Op>, n: nat, now: Time)
    requires Injective(hash) && Proper(ops) && n <= |ops| && Together(c, ops, n)
    requires n > 0 ==> ops[n - 1].now <= now
    ensures SameLive(hash, MemoryAfter(c, ops[..n]), TableAfter(c, hash, ops[..n]), now)
  {
    hide MemoryStep, TableStep, SameLive, Injective, Parts;
    if n == 0 {
      NothingLive(hash, now);
    } else {
      SameLiveAfter(c, hash, ops, n - 1, ops[n - 1].now);
      FreshFor(c, hash, ops, n - 1);
      assert ops[..n][..n - 1] == ops[..n - 1];
      StepAgreesIff(c, hash, MemoryAfter(c, ops[..n - 1]), TableAfter(c, hash, ops[..n - 1]), ops[n - 1]);
      LiveLater(hash, MemoryAfter(c, ops[..n]), TableAfter(c, hash, ops[..n]), ops[n - 1].now, now);
    }
  }

  lemma NothingLive(hash: string -> string, now: Time)
    ensures SameLive(hash, map[], map[], now)
  {}

  // The next request finds no ticket of its token.
  lemma FreshFor(c: Config, hash: string -> string, ops: seq<Op>, n: nat)
    requires Injective(hash) && Proper(ops) && n < |ops|
    ensures ops[n].Create? ==>
              ops[n].token !in MemoryAfter(c, ops[..n])
              && hash(ops[n].token) !in TableAfter(c, hash, ops[..n])
  {
    hide MemoryAfter, TableAfter, IsTrimmed, TrimSpace;
    var m, t := MemoryAfter(c, ops[..n]), TableAfter(c, hash, ops[..n]);
    MemoryFrom(c, ops[..n]);
    TableFrom(c, hash, ops[..n]);
    forall k | k in m ensures ops[n].Create? ==> k != ops[n].token {
      var i :| 0 <= i < n && IssuedBy(c, Same, ops[..n][i], k, m[k]);
    }
    forall h | h in t ensures ops[n].Create? ==> h != hash(ops[n].token) {
      var i :| 0 <= i < n && IssuedBy(c, hash, ops[..n][i], h, t[h]);
    }
  }

  // As long as the services have not parted, the next replies agree exactly if they do not part now.
  lemma ReplyAgreesIff(c: Config, hash: string -> string, ops: seq<Op>, n: nat)
    requires Injective(hash) && Proper(ops) && n < |ops| && Together(c, ops, n)
    ensures MemoryReply(c, ops, n) == TableReply(c, hash, ops, n) <==> !Parts(c, MemoryAfter(c, ops[..n]), ops[n])
  {
    hide MemoryStep, TableStep, SameLive, Injective, Parts, MemoryAfter, TableAfter;
    assert n > 0 ==> ops[n - 1].now <= ops[n].now;
    SameLiveAfter(c, hash, ops, n, ops[n].now);
    FreshFor(c, hash, ops, n);
    StepAgreesIff(c, hash, MemoryAfter(c, ops[..n]), TableAfter(c, hash, ops[..n]), ops[n]);
  }

  ghost predicate SameReplies(c: Config, hash: string -> string, ops: seq<Op>, n: nat)
    requires n <= |ops|
  {
    forall i | 0 <= i < n :: MemoryReply(c, ops, i) == TableReply(c, hash, ops, i)
  }

  /** The first n requests of a history get the same replies from both services if and only if none of
      them parts the two: none redeems a ticket at the very instant of its expiry, and none is a
      creation that only tickets expiring at this very instant keep out. */
  lemma {:induction false} SameRepliesIff(c: Config, hash: string -> string, ops: seq<Op>, n: nat)
    requires Injective(hash) && Proper(ops) && n <= |ops|
    ensures SameReplies(c, hash, ops, n) <==> Together(c, ops, n)
  {
    hide Injective, Parts, MemoryReply, TableReply, MemoryAfter;
    if n > 0 {
      SameRepliesIff(c, hash, ops, n - 1);
      if Together(c, ops, n - 1) {
        ReplyAgreesIff(c, hash, ops, n - 1);
      }
    }
  }

  lemma NothingExpiresNow(c: Config, ops: seq<Op>, n: nat)
    requires OffExpiry(c, ops) && n < |ops|
    ensures forall k | k in MemoryAfter(c, ops[..n]) :: MemoryAfter(c, ops[..n])[k].expires != ops[n].now
  {
    hide MemoryAfter, TrimSpace;
    var m := MemoryAfter(c, ops[..n]);
    MemoryFrom(c, ops[..n]);
    forall k | k in m ensures m[k].expires != ops[n].now {
      var i :| 0 <= i < n && IssuedBy(c, Same, ops[..n][i], k, m[k]);
    }
  }

  lemma NotPartedOffExpiry(c: Config, m: TicketMap, op: Op)
    requires forall k | k in m :: m[k].expires != op.now
    ensures !Parts(c, m, op)
  {
    hide Rejection, TrimSpace;
    assert Live(m, op.now) == Swept(m, op.now).Keys;
  }

  /** In particular every history in which no request falls exactly on an expiry. */
  lemma SameRepliesOffExpiry(c: Config, hash: string -> string, ops: seq<Op>)
    requires Injective(hash) && Proper(ops) && OffExpiry(c, ops)
    ensures SameReplies(c, hash, ops, |ops|)
  {
    hide Injective, Parts, OffExpiry, Proper, SameReplies, MemoryAfter;
    forall i | 0 <= i < |ops| ensures !Parts(c, MemoryAfter(c, ops[..i]), ops[i]) {
      NothingExpiresNow(c, ops, i);
      NotPartedOffExpiry(c, MemoryAfter(c, ops[..i]), ops[i]);
    }
    SameRepliesIff(c, hash, ops, |ops|);
  }

  // The first request ever, if it is in order.
  lemma FirstTicket(c: Config, hash: string -> string, op: Op)
    requires op.Create? && Rejection(c, op).None?
    ensures MemoryAfter(c, [op]) == map[op.token := TicketFor(c, op)]
    ensures TableAfter(c, hash, [op]) == map[hash(op.token) := TicketFor(c, op)]
  {
    hide Rejection, TrimSpace;
    assert [op][..0] == [];
    assert MemoryAfter(c, []) == map[] && TableAfter(c, hash, []) == map[];
    assert Swept(map[], op.now) == map[] && Cleaned(map[], op.now) == map[] && Active(map[], op.now) == {};
  }

  lemma ConsumeAtExpiry(c: Config, hash: string -> string, token: string, ticket: Ticket)
    requires TrimSpace(token) == token && token != ""
    ensures MemoryStep(c, map[token := ticket], Consume(token, ticket.expires)).1 == Redeem(ticket)
    ensures TableStep(c, hash, map[hash(token) := ticket], Consume(token, ticket.expires)).1 == Refused(InvalidTicket)
  {
    hide TrimSpace;
    assert token in Swept(map[token := ticket], ticket.expires);
    assert hash(token) !in Cleaned(map[hash(token) := ticket], ticket.expires);
  }

  /** At the very instant of expiry they differ: memory still honours the ticket, the table does not. */
  lemma DifferAtExpiry(c: Config, hash: string -> string, op: Op)
    requires op.Create? && Rejection(c, op).None? && op.token != "" && IsTrimmed(op.token)
    ensures
      var ops := [op, Consume(op.token, op.now + c.ttl)];
      && MemoryReply(c, ops, 1) == Redeemed(op.user, op.key, TrimSpace(op.path))
      && TableReply(c, hash, ops, 1) == Refused(InvalidTicket)
  {
    hide MemoryAfter, TableAfter, TrimSpace, MemoryStep, TableStep, Rejection, IsTrimmed;
    TrimSpaceTrims(op.token);
    FirstTicket(c, hash, op);
    var ops := [op, Consume(op.token, op.now + c.ttl)];
    assert ops[..1] == [op];
    ConsumeAtExpiry(c, hash, op.token, TicketFor(c, op));
  }

  lemma CreateAtExpiry(c: Config, hash: string -> string, token: string, ticket: Ticket, op: Op)
    requires op.Create? && Rejection(c, op).None? && op.now == ticket.expires && Limit(c) == 1
    ensures MemoryStep(c, map[token := ticket], op).1 == Refused(LimitReached)
    ensures TableStep(c, hash, map[hash(token) := ticket], op).1 == Issued(op.token, op.now + c.ttl)
  {
    hide Rejection, TrimSpace, Limit;
    assert Swept(map[token := ticket], op.now) == map[token := ticket];
    assert Cleaned(map[hash(token) := ticket], op.now) == map[];
    assert Active(map[], op.now) == {};
  }

  /** With room for one ticket, a creation at the instant at which that ticket expires is refused by
      memory and served by the table. */
  lemma DifferOnCreation(c: Config, hash: string -> string, op: Op, next: Op)
    requires op.Create? && Rejection(c, op).None? && Limit(c) == 1
    requires next.Create? && Rejection(c, next).None? && next.now == op.now + c.ttl
    ensures
      var ops := [op, next];
      && MemoryReply(c, ops, 1) == Refused(LimitReached)
      && TableReply(c, hash, ops, 1) == Issued(next.token, next.now + c.ttl)
  {
    hide MemoryAfter, TableAfter, TrimSpace, MemoryStep, TableStep, Rejection, Limit;
    FirstTicket(c, hash, op);
    assert [op, next][..1] == [op];
    CreateAtExpiry(c, hash, op.token, TicketFor(c, op), next);
  }

  // ----- bound and single use

  /** At most the configured number of tickets is ever held in memory. */
  lemma {:induction false} MemoryBounded(c: Config, ops: seq<Op>)
    ensures |MemoryAfter(c, ops)| <= if c.maxOutstanding > 0 then c.maxOutstanding else 64
  {
    if ops != [] {
      var m, op := MemoryAfter(c, ops[..|ops| - 1]), ops[|ops| - 1];
      MemoryBounded(c, ops[..|ops| - 1]);
      var left := Swept(m, op.now);
      assert left.Keys <= m.Keys;
      SubsetCard(left.Keys, m.Keys);
      var after := MemoryAfter(c, ops);
      if Rejection(c, op).None? && op.Consume? {
        assert after.Keys <= left.Keys;
        SubsetCard(after.Keys, left.Keys);
      }
    }
  }

  // Request n redeems the ticket that request i issued.
  predicate Redeems(c: Config, ops: seq<Op>, i: nat, n: nat) {
    && i < n < |ops| && ops[i].Create? && ops[n].Consume? && TrimSpace(ops[n].ticket) == ops[i].token
    && MemoryReply(c, ops, n) == Redeemed(ops[i].user, ops[i].key, TrimSpace(ops[i].path))
    && ops[n].now <= ops[i].now + c.ttl
  }

  /** Whoever is let in was issued a ticket: the reply names the user, key and path it was created
      with, and it had not expired. */
  lemma OnlyIssuedTicketsRedeem(c: Config, ops: seq<Op>, n: nat)
    requires n < |ops| && MemoryReply(c, ops, n).Redeemed?
    ensures exists i :: Redeems(c, ops, i, n)
  {
    hide MemoryAfter, TrimSpace;
    var m := MemoryAfter(c, ops[..n]);
    MemoryFrom(c, ops[..n]);
    var token := TrimSpace(ops[n].ticket);
    assert token in Swept(m, ops[n].now);
    assert m[token] == Swept(m, ops[n].now)[token];
    var i :| 0 <= i < n && IssuedBy(c, Same, ops[..n][i], token, m[token]);
    assert Redeems(c, ops, i, n);
  }

  lemma {:induction false} GoneForGood(c: Config, ops: seq<Op>, token: string, i: nat, n: nat)
    requires i <= n <= |ops| && token !in MemoryAfter(c, ops[..i])
    requires forall k | i <= k < n && ops[k].Create? :: ops[k].token != token
    ensures token !in MemoryAfter(c, ops[..n])
  {
    hide MemoryStep, TicketFor, Rejection, TrimSpace;
    if i < n {
      GoneForGood(c, ops, token, i, n - 1);
      assert ops[..n][..n - 1] == ops[..n - 1];
      MemoryStepAdds(c, MemoryAfter(c, ops[..n - 1]), ops[n - 1]);
    }
  }

  /** No token is redeemed twice. */
  lemma RedeemedOnce(c: Config, ops: seq<Op>, i: nat, n: nat)
    requires Proper(ops) && i < n < |ops| && ops[i].Consume? && ops[n].Consume?
    requires TrimSpace(ops[i].ticket) == TrimSpace(ops[n].ticket) && MemoryReply(c, ops, i).Redeemed?
    ensures !MemoryReply(c, ops, n).Redeemed?
  {
    hide MemoryAfter, MemoryReply, TrimSpace;
    var token := TrimSpace(ops[i].ticket);
    OnlyIssuedTicketsRedeem(c, ops, i);
    var k :| Redeems(c, ops, k, i);
    RemovedByRedemption(c, ops, i);
    GoneForGood(c, ops, token, i + 1, n);
    StillGone(c, ops, n);
  }

  lemma RemovedByRedemption(c: Config, ops: seq<Op>, i: nat)
    requires i < |ops| && MemoryReply(c, ops, i).Redeemed?
    ensures TrimSpace(ops[i].ticket) !in MemoryAfter(c, ops[..i + 1])
  {
    hide TrimSpace;
    assert ops[..i + 1][..i] == ops[..i];
  }

  lemma StillGone(c: Config, ops: seq<Op>, n: nat)
    requires n < |ops| && ops[n].Consume? && TrimSpace(ops[n].ticket) !in MemoryAfter(c, ops[..n])
    ensures !MemoryReply(c, ops, n).Redeemed?
  {
    hide TrimSpace, MemoryAfter;
  }
}
