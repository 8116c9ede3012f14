/** What every run of the balance store keeps, under any requests in any order: stale, duplicated, delayed. */
module LedgerRuns {
  import opened Sums
  import opened Ledger

  // ---- Refunding ----

  lemma {:induction false} HeldForRemove(holds: map<HoldId, Hold>, id: HoldId, h: Hash)
    requires id in holds
    ensures HeldFor(holds, h) == HeldFor(holds - {id}, h) + if holds[id].hash == h then holds[id].micros else 0
  {
    if holds[id].hash == h {
      SumRemove(AmountsOf(holds, h), id);
      assert AmountsOf(holds, h) - {id} == AmountsOf(holds - {id}, h);
    } else {
      assert AmountsOf(holds, h) == AmountsOf(holds - {id}, h);
    }
  }

  lemma {:induction false} HeldForInsert(holds: map<HoldId, Hold>, id: HoldId, hold: Hold, h: Hash)
    requires id !in holds
    ensures HeldFor(holds[id := hold], h) == HeldFor(holds, h) + if hold.hash == h then hold.micros else 0
  {
    HeldForRemove(holds[id := hold], id, h);
    assert holds[id := hold] - {id} == holds;
  }

  lemma {:induction false} HeldRemove(holds: map<HoldId, Hold>, id: HoldId)
    requires id in holds
    ensures Held(holds) == Held(holds - {id}) + holds[id].micros
  {
    SumRemove(Amounts(holds), id);
    assert Amounts(holds) - {id} == Amounts(holds - {id});
  }

  /** Refunding any one row first, then the others, is refunding them all: the order of the rows is immaterial. */
  lemma {:induction false} RefundOne(tokens: map<Hash, int>, holds: map<HoldId, Hold>, id: HoldId)
    requires id in holds
    ensures Refunded(tokens, holds) == Refunded(Credited(tokens, holds[id].hash, holds[id].micros), holds - {id})
  {
    var t, rest := Credited(tokens, holds[id].hash, holds[id].micros), holds - {id};
    assert Refunded(tokens, holds).Keys == Refunded(t, rest).Keys by {
      RefundKeys(tokens, holds);
      RefundKeys(t, rest);
      HashesRemove(holds, id);
    }
    forall h | h in Refunded(t, rest) ensures Refunded(tokens, holds)[h] == Refunded(t, rest)[h] {
      HeldForRemove(holds, id, h);
    }
  }

  ghost function Hashes(holds: map<HoldId, Hold>): set<Hash> {
    set id | id in holds :: holds[id].hash
  }

  lemma RefundKeys(tokens: map<Hash, int>, holds: map<HoldId, Hold>)
    ensures Refunded(tokens, holds).Keys == tokens.Keys + Hashes(holds)
  {
  }

  lemma HashesRemove(holds: map<HoldId, Hold>, id: HoldId)
    requires id in holds
    ensures Hashes(holds) == {holds[id].hash} + Hashes(holds - {id})
  {
    forall h | h in Hashes(holds) && h != holds[id].hash ensures h in Hashes(holds - {id}) {
      var i :| i in holds && holds[i].hash == h;
      assert i in holds - {id};
    }
    forall h | h in Hashes(holds - {id}) ensures h in Hashes(holds) {
      var i :| i in holds - {id} && (holds - {id})[i].hash == h;
      assert i in holds;
    }
  }

  lemma RefundNone(tokens: map<Hash, int>)
    ensures Refunded(tokens, map[]) == tokens
  {
    forall h ensures HeldFor(map[], h) == 0 {
      assert AmountsOf(map[], h) == map[];
    }
    assert Refunded(tokens, map[]).Keys == tokens.Keys;
  }

  lemma {:induction false} SumCredited(tokens: map<Hash, int>, h: Hash, micros: int)
    ensures Sum(Credited(tokens, h, micros)) == Sum(tokens) + micros
  {
    if h in tokens {
      SumUpdate(tokens, h, tokens[h] + micros);
    } else {
      SumInsert(tokens, h, 0 + micros);
    }
  }

  /** A recovery moves money from the journal to the balances and creates none. */
  lemma {:induction false} SumRefunded(tokens: map<Hash, int>, holds: map<HoldId, Hold>)
    ensures Sum(Refunded(tokens, holds)) == Sum(tokens) + Held(holds)
    decreases |holds|
  {
    if holds == map[] {
      RefundNone(tokens);
      assert Amounts(map[]) == map[];
    } else {
      var id :| id in holds;
      RefundOne(tokens, holds, id);
      SumRefunded(Credited(tokens, holds[id].hash, holds[id].micros), holds - {id});
      SumCredited(tokens, holds[id].hash, holds[id].micros);
      HeldRemove(holds, id);
    }
  }

  // ---- The invariant ----

  ghost predicate Inv(s: State) {
    && (s.session.None? ==> s.holds == map[] && s.settled == map[] && s.retired == {})
    && (s.session.Some? ==> s.session.value.id !in s.retired)
    && (forall id :: id in s.holds ==> s.Current(s.holds[id].session) && SafeMicros(s.holds[id].micros))
    && (forall id :: id in s.settled ==> s.Current(s.settled[id].session))
    && s.holds.Keys !! s.settled.Keys
    && (forall h :: h in s.tokens ==> s.tokens[h] >= 0)
  }

  lemma HeldForNonNegative(s: State, h: Hash)
    requires Inv(s)
    ensures HeldFor(s.holds, h) >= 0
  {
    SumNonNegative(AmountsOf(s.holds, h));
  }

  /** Every transaction keeps the invariant. */
  lemma InvStep(s: State, r: Request)
    requires Inv(s)
    ensures Inv(Next(s, r))
  {
    if r.Start? {
      forall h ensures HeldFor(s.holds, h) >= 0 {
        HeldForNonNegative(s, h);
      }
    }
  }

  lemma {:induction false} InvRun(s: State, rs: seq<Request>)
    requires Inv(s)
    ensures Inv(Run(s, rs))
    decreases |rs|
  {
    if rs != [] {
      InvStep(s, rs[0]);
      InvRun(Next(s, rs[0]), rs[1..]);
    }
  }

  /** The fence, in every state any run can reach. */
  lemma Fencing(rs: seq<Request>)
    ensures var s := Run(EMPTY_STATE, rs);
            && (s.session.Some? ==> s.session.value.id !in s.retired)
            && (forall id :: id in s.holds ==> s.Current(s.holds[id].session))
            && (forall id :: id in s.settled ==> s.Current(s.settled[id].session))
            && s.holds.Keys !! s.settled.Keys
            && (forall h :: h in s.tokens ==> s.tokens[h] >= 0)
  {
    InvRun(EMPTY_STATE, rs);
  }

  // ---- Conservation ----

  /** What one token owns: its balance and what is reserved from it. */
  ghost function Wealth(s: State, h: Hash): int {
    Balanced(s.tokens, h) + HeldFor(s.holds, h)
  }

  ghost function Deposit(s: State, r: Request, h: Hash): int {
    if OutcomeOf(s, r) == Applied && r.hash == h then r.amount else 0
  }

  ghost function Charge(s: State, r: Request, h: Hash): int {
    if OutcomeOf(s, r) == Settled && r.holdId in s.holds && s.holds[r.holdId].hash == h then r.charge else 0
  }

  ghost function Deposits(s: State, rs: seq<Request>, h: Hash): int
    decreases |rs|
  {
    if rs == [] then 0 else Deposit(s, rs[0], h) + Deposits(Next(s, rs[0]), rs[1..], h)
  }

  ghost function Charges(s: State, rs: seq<Request>, h: Hash): int
    decreases |rs|
  {
    if rs == [] then 0 else Charge(s, rs[0], h) + Charges(Next(s, rs[0]), rs[1..], h)
  }

  lemma RefundKeepsWealth(s: State, h: Hash)
    ensures Balanced(Refunded(s.tokens, s.holds), h) + HeldFor(map[], h) == Wealth(s, h)
  {
    assert AmountsOf(map[], h) == map[];
    if h !in s.tokens && !exists id :: id in s.holds && s.holds[id].hash == h {
      assert AmountsOf(s.holds, h) == map[];
    }
  }

  lemma WealthOpen(s: State, r: Request, h: Hash)
    requires r.Open? && OutcomeOf(s, r) == Opened
    ensures Wealth(Next(s, r), h) == Wealth(s, h)
  {
    HeldForInsert(s.holds, r.holdId, Hold(r.hash, r.micros, r.session), h);
  }

  lemma WealthSettle(s: State, r: Request, h: Hash)
    requires r.Settle? && OutcomeOf(s, r) == Settled
    ensures Wealth(Next(s, r), h) == Wealth(s, h) - Charge(s, r, h)
  {
    HeldForRemove(s.holds, r.holdId, h);
  }

  lemma WealthStep(s: State, r: Request, h: Hash)
    ensures Wealth(Next(s, r), h) == Wealth(s, h) + Deposit(s, r, h) - Charge(s, r, h)
  {
    match r
    case Start(_) => RefundKeepsWealth(s, h);
    case Balance(_, _) =>
    case Credit(_, _, _) =>
    case Open(_, _, _, _) =>
      if OutcomeOf(s, r) == Opened {
        WealthOpen(s, r, h);
      }
    case Settle(_, _, _) =>
      if OutcomeOf(s, r) == Settled {
        WealthSettle(s, r, h);
      }
  }

  /** Conservation, token by token, over every run: balance + reserved + charged = credited. */
  lemma {:induction false} Conservation(s: State, rs: seq<Request>, h: Hash)
    ensures Wealth(Run(s, rs), h) + Charges(s, rs, h) == Wealth(s, h) + Deposits(s, rs, h)
    decreases |rs|
  {
    if rs != [] {
      WealthStep(s, rs[0], h);
      Conservation(Next(s, rs[0]), rs[1..], h);
    }
  }

  ghost function TotalDeposits(s: State, rs: seq<Request>): int
    decreases |rs|
  {
    if rs == [] then 0 else
      (if OutcomeOf(s, rs[0]) == Applied then rs[0].amount else 0) + TotalDeposits(Next(s, rs[0]), rs[1..])
  }

  ghost function TotalCharges(s: State, rs: seq<Request>): int
    decreases |rs|
  {
    if rs == [] then 0 else
      (if OutcomeOf(s, rs[0]) == Settled then rs[0].charge else 0) + TotalCharges(Next(s, rs[0]), rs[1..])
  }

  /** All the money in the store. */
  ghost function Worth(s: State): int {
    Sum(s.tokens) + Held(s.holds)
  }

  lemma WorthOpen(s: State, r: Request)
    requires r.Open? && OutcomeOf(s, r) == Opened
    ensures Worth(Next(s, r)) == Worth(s)
  {
    var hold := Hold(r.hash, r.micros, r.session);
    SumUpdate(s.tokens, r.hash, s.tokens[r.hash] - r.micros);
    HeldRemove(s.holds[r.holdId := hold], r.holdId);
    assert s.holds[r.holdId := hold] - {r.holdId} == s.holds;
  }

  lemma WorthSettle(s: State, r: Request)
    requires r.Settle? && OutcomeOf(s, r) == Settled
    ensures Worth(Next(s, r)) == Worth(s) - r.charge
  {
    var hold := s.holds[r.holdId];
    HeldRemove(s.holds, r.holdId);
    SumCredited(s.tokens, hold.hash, hold.micros - r.charge);
  }

  lemma WorthStart(s: State, r: Request)
    requires r.Start?
    ensures Worth(Next(s, r)) == Worth(s)
  {
    SumRefunded(s.tokens, s.holds);
    assert Amounts(map[]) == map[];
  }

  lemma WorthStep(s: State, r: Request)
    ensures Worth(Next(s, r)) == Worth(s)
              + (if OutcomeOf(s, r) == Applied then r.amount else 0)
              - (if OutcomeOf(s, r) == Settled then r.charge else 0)
  {
    match r
    case Start(_) => WorthStart(s, r);
    case Balance(_, _) =>
    case Credit(hash, amount, _) => SumCredited(s.tokens, hash, amount);
    case Open(_, _, _, _) =>
      if OutcomeOf(s, r) == Opened {
        WorthOpen(s, r);
      }
    case Settle(_, _, _) =>
      if OutcomeOf(s, r) == Settled {
        WorthSettle(s, r);
      }
  }

  /** Conservation over the whole store: sum of balances + sum of open holds + total charged = total credited. */
  lemma {:induction false} TotalConservation(s: State, rs: seq<Request>)
    ensures Worth(Run(s, rs)) + TotalCharges(s, rs) == Worth(s) + TotalDeposits(s, rs)
    decreases |rs|
  {
    if rs != [] {
      WorthStep(s, rs[0]);
      TotalConservation(Next(s, rs[0]), rs[1..]);
    }
  }

  // ---- Every request takes effect at most once ----

  ghost predicate Live(s: State, id: SessionId, holdId: HoldId) {
    holdId in s.holds && s.holds[holdId].session == id
  }

  /** The life of this hold is over: it was settled, or its session was superseded (and the hold recovered). */
  ghost predicate Spent(s: State, id: SessionId, holdId: HoldId) {
    id in s.retired || (holdId in s.settled && s.settled[holdId].session == id)
  }

  /** The request has nothing left to do, now or ever. */
  ghost predicate Consumed(s: State, r: Request) {
    match r
    case Start(id) => s.Current(id) || id in s.retired
    case Balance(_, _) => true
    case Open(id, _, _, holdId) => Live(s, id, holdId) || Spent(s, id, holdId)
    case Settle(id, holdId, _) => Spent(s, id, holdId)
    case Credit(_, _, key) => key in s.applied
  }

  lemma ConsumedIsInert(s: State, r: Request)
    requires Inv(s) && Consumed(s, r)
    ensures Next(s, r) == s
  {
  }

  lemma SpentForever(s: State, id: SessionId, holdId: HoldId, q: Request)
    requires Inv(s) && Spent(s, id, holdId)
    ensures Spent(Next(s, q), id, holdId)
  {
  }

  lemma LiveOrSpent(s: State, id: SessionId, holdId: HoldId, q: Request)
    requires Inv(s) && Live(s, id, holdId)
    ensures Live(Next(s, q), id, holdId) || Spent(Next(s, q), id, holdId)
  {
    match q
    case Start(_) =>
    case Balance(_, _) =>
    case Credit(_, _, _) =>
    case Open(_, _, _, _) =>
    case Settle(_, _, _) =>
  }

  lemma ConsumedForever(s: State, r: Request, q: Request)
    requires Inv(s) && Consumed(s, r)
    ensures Consumed(Next(s, q), r)
  {
    match r
    case Start(_) =>
    case Balance(_, _) =>
    case Credit(_, _, _) =>
    case Settle(id, holdId, _) => SpentForever(s, id, holdId, q);
    case Open(id, _, _, holdId) =>
      if Spent(s, id, holdId) {
        SpentForever(s, id, holdId, q);
      } else {
        LiveOrSpent(s, id, holdId, q);
      }
  }

  lemma EffectConsumes(s: State, r: Request)
    requires Inv(s) && Next(s, r) != s
    ensures Consumed(Next(s, r), r)
  {
  }

  lemma {:induction false} ConsumedRun(s: State, r: Request, rs: seq<Request>)
    requires Inv(s) && Consumed(s, r)
    ensures Consumed(Run(s, rs), r) && Inv(Run(s, rs)) && Next(Run(s, rs), r) == Run(s, rs)
    decreases |rs|
  {
    if rs != [] {
      ConsumedForever(s, r, rs[0]);
      InvStep(s, rs[0]);
      ConsumedRun(Next(s, rs[0]), r, rs[1..]);
    } else {
      ConsumedIsInert(s, r);
    }
  }

  /** In every run, however it is duplicated and delayed, a byte-identical request changes the store at most once.
      For a hold this is: debited once, charged once, its remainder refunded once. */
  lemma EffectiveAtMostOnce(s: State, rs: seq<Request>, i: nat, j: nat)
    requires Inv(s) && i < j < |rs| && rs[i] == rs[j]
    requires Next(Run(s, rs[..i]), rs[i]) != Run(s, rs[..i])
    ensures Next(Run(s, rs[..j]), rs[j]) == Run(s, rs[..j])
  {
    var a := Run(s, rs[..i]);
    InvRun(s, rs[..i]);
    EffectConsumes(a, rs[i]);
    InvStep(a, rs[i]);
    RunTo(s, rs, i, j);
    ConsumedRun(Next(a, rs[i]), rs[i], rs[i + 1..j]);
  }

  /** The state before step j, seen from the state after step i. */
  lemma RunTo(s: State, rs: seq<Request>, i: nat, j: nat)
    requires i < j <= |rs|
    ensures Run(s, rs[..j]) == Run(Next(Run(s, rs[..i]), rs[i]), rs[i + 1..j])
  {
    RunSplit(s, rs[..j], i + 1);
    assert rs[..j][..i + 1] == rs[..i] + [rs[i]] && rs[..j][i + 1..] == rs[i + 1..j];
    RunAppend(s, rs[..i], rs[i]);
  }

  lemma TombstoneStays(s: State, q: Request, id: SessionId, holdId: HoldId, charge: int)
    requires Inv(s) && holdId in s.settled && s.settled[holdId] == Tombstone(id, charge)
    ensures id in Next(s, q).retired
            || (holdId in Next(s, q).settled && Next(s, q).settled[holdId] == Tombstone(id, charge))
  {
  }

  lemma {:induction false} TombstoneKept(s: State, rs: seq<Request>, id: SessionId, holdId: HoldId, charge: int)
    requires Inv(s)
    requires id in s.retired || (holdId in s.settled && s.settled[holdId] == Tombstone(id, charge))
    ensures id in Run(s, rs).retired
            || (holdId in Run(s, rs).settled && Run(s, rs).settled[holdId] == Tombstone(id, charge))
    decreases |rs|
  {
    hide Next;
    if rs != [] {
      InvStep(s, rs[0]);
      if id in s.retired {
        CurrentOrRetired(s, [rs[0]], id);
        RunOne(s, rs[0]);
      } else {
        TombstoneStays(s, rs[0], id, holdId, charge);
      }
      TombstoneKept(Next(s, rs[0]), rs[1..], id, holdId, charge);
    }
  }

  lemma RunOne(s: State, r: Request)
    ensures Run(s, [r]) == Next(s, r)
  {
    assert [r][1..] == [];
  }

  /** Whatever the payloads, one hold of one session is settled by at most one request of a run; a later settlement with
      another charge is told so. */
  lemma SettledOnce(s: State, rs: seq<Request>, i: nat, j: nat)
    requires Inv(s) && i < j < |rs|
    requires rs[i].Settle? && OutcomeOf(Run(s, rs[..i]), rs[i]) == Settled
    requires rs[j].Settle? || rs[j].Open?
    requires rs[j].session == rs[i].session && rs[j].holdId == rs[i].holdId
    ensures Next(Run(s, rs[..j]), rs[j]) == Run(s, rs[..j])
    ensures OutcomeOf(Run(s, rs[..j]), rs[j]) in {AlreadySettled, Conflict, StaleSession, InvalidAmount}
    ensures rs[j].Settle? && rs[j].charge != rs[i].charge ==>
              OutcomeOf(Run(s, rs[..j]), rs[j]) in {Conflict, StaleSession}
  {
    hide Run;
    var a := Run(s, rs[..i]);
    InvRun(s, rs[..i]);
    InvStep(a, rs[i]);
    RunTo(s, rs, i, j);
    SettledTombstone(a, rs[i]);
    TombstoneKept(Next(a, rs[i]), rs[i + 1..j], rs[i].session, rs[i].holdId, rs[i].charge);
    InvRun(s, rs[..j]);
    AfterTombstone(Run(s, rs[..j]), rs[j], rs[i].charge);
  }

  lemma SettledTombstone(s: State, r: Request)
    requires r.Settle? && OutcomeOf(s, r) == Settled
    ensures r.holdId in Next(s, r).settled && Next(s, r).settled[r.holdId] == Tombstone(r.session, r.charge)
  {
  }

  lemma AfterTombstone(s: State, r: Request, charge: int)
    requires Inv(s) && (r.Settle? || r.Open?)
    requires r.session in s.retired || (r.holdId in s.settled && s.settled[r.holdId] == Tombstone(r.session, charge))
    ensures Next(s, r) == s && OutcomeOf(s, r) in {AlreadySettled, Conflict, StaleSession, InvalidAmount}
    ensures r.Settle? && r.charge != charge ==> OutcomeOf(s, r) in {Conflict, StaleSession}
  {
  }

  /** The step that ends the life of an open hold. */
  ghost predicate Closes(s: State, r: Request, id: SessionId, holdId: HoldId) {
    Live(s, id, holdId) && !Live(Next(s, r), id, holdId)
  }

  /** A hold of a session closes at most once in a run, and once closed it is never open again. */
  lemma ClosedOnce(s: State, rs: seq<Request>, i: nat, j: nat, id: SessionId, holdId: HoldId)
    requires Inv(s) && i < j <= |rs|
    requires Closes(Run(s, rs[..i]), rs[i], id, holdId)
    ensures !Live(Run(s, rs[..j]), id, holdId)
  {
    var a := Run(s, rs[..i]);
    InvRun(s, rs[..i]);
    LiveOrSpent(a, id, holdId, rs[i]);
    InvStep(a, rs[i]);
    RunTo(s, rs, i, j);
    SpentRun(Next(a, rs[i]), id, holdId, rs[i + 1..j]);
  }

  lemma {:induction false} SpentRun(s: State, id: SessionId, holdId: HoldId, rs: seq<Request>)
    requires Inv(s) && Spent(s, id, holdId)
    ensures !Live(Run(s, rs), id, holdId)
    decreases |rs|
  {
    if rs != [] {
      InvStep(s, rs[0]);
      SpentForever(s, id, holdId, rs[0]);
      SpentRun(Next(s, rs[0]), id, holdId, rs[1..]);
    }
  }

  /** What closes a hold is its settlement or the start of another session. A start gives every reserved micro of
      the token back, so no charge is kept of a recovered hold. */
  lemma HowHoldsClose(s: State, r: Request, id: SessionId, holdId: HoldId)
    requires Inv(s) && Closes(s, r, id, holdId)
    ensures (exists charge :: r == Settle(id, holdId, charge) && OutcomeOf(s, r) == Settled)
            || (r.Start? && r.session != id && OutcomeOf(s, r).Started?)
    ensures r.Start? ==>
              var h := s.holds[holdId].hash;
              && Balanced(Next(s, r).tokens, h) == Balanced(s.tokens, h) + HeldFor(s.holds, h)
              && HeldFor(s.holds, h) >= s.holds[holdId].micros
  {
    if r.Start? {
      var h := s.holds[holdId].hash;
      SumNonNegative(AmountsOf(s.holds, h));
      assert AmountsOf(s.holds, h)[holdId] == s.holds[holdId].micros;
    } else {
      assert r.Settle? && r == Settle(id, holdId, r.charge);
    }
  }

  /** Charged plus refunded is exactly what was reserved, and the refund reaches the token that was debited. */
  lemma SettlementSplits(s: State, id: SessionId, holdId: HoldId, charge: int, h: Hash)
    requires Inv(s) && OutcomeOf(s, Settle(id, holdId, charge)) == Settled
    ensures holdId in s.holds && 0 <= charge <= s.holds[holdId].micros
    ensures var t := Next(s, Settle(id, holdId, charge));
            && Balanced(t.tokens, h) - Balanced(s.tokens, h)
                 == (if h == s.holds[holdId].hash then s.holds[holdId].micros - charge else 0)
            && holdId !in t.holds && t.settled == s.settled[holdId := Tombstone(id, charge)]
  {
  }

  /** What a closing step charges for the hold, and what a start gives back to the same token besides it. */
  ghost function ClosingCharge(r: Request): int {
    if r.Settle? then r.charge else 0
  }

  ghost function OthersRecovered(s: State, r: Request, holdId: HoldId, h: Hash): int {
    if r.Start? then HeldFor(s.holds - {holdId}, h) else 0
  }

  /** The closing step: what is charged and what is refunded make up the reserve, and the refund reaches the token the
      hold was opened on. */
  ghost predicate RefundsRest(s: State, r: Request, hold: Hold, holdId: HoldId) {
    && 0 <= ClosingCharge(r) <= hold.micros
    && Balanced(Next(s, r).tokens, hold.hash) - Balanced(s.tokens, hold.hash)
       == hold.micros - ClosingCharge(r) + OthersRecovered(s, r, holdId, hold.hash)
  }

  lemma ClosingRefunds(s: State, r: Request, id: SessionId, holdId: HoldId)
    requires Inv(s) && Closes(s, r, id, holdId)
    ensures RefundsRest(s, r, s.holds[holdId], holdId)
  {
    HowHoldsClose(s, r, id, holdId);
    HeldForRemove(s.holds, holdId, s.holds[holdId].hash);
    if r.Settle? {
      SettlementSplits(s, id, holdId, r.charge, s.holds[holdId].hash);
    }
  }

  lemma LiveKeepsHold(s: State, r: Request, id: SessionId, holdId: HoldId)
    requires Inv(s) && Live(s, id, holdId) && Live(Next(s, r), id, holdId)
    ensures Next(s, r).holds[holdId] == s.holds[holdId]
  {
    match r
    case Start(_) =>
    case Balance(_, _) =>
    case Credit(_, _, _) =>
    case Open(_, _, _, _) =>
    case Settle(_, _, _) =>
  }

  /** Step k of a run closes the hold and refunds its rest. */
  ghost predicate ClosesAt(s: State, rs: seq<Request>, k: nat, id: SessionId, holdId: HoldId, hold: Hold) {
    && k < |rs|
    && Closes(Run(s, rs[..k]), rs[k], id, holdId)
    && Run(s, rs[..k]).holds[holdId] == hold
    && RefundsRest(Run(s, rs[..k]), rs[k], hold, holdId)
  }

  /** Over every run: a hold that is open at one time and no longer at a later one has been closed by exactly one step
      in between, and that step charged and refunded, together, exactly what was reserved. */
  lemma RefundedExactlyOnce(s: State, rs: seq<Request>, i: nat, j: nat, id: SessionId, holdId: HoldId)
    requires Inv(s) && i < j <= |rs|
    requires Live(Run(s, rs[..i]), id, holdId) && !Live(Run(s, rs[..j]), id, holdId)
    ensures exists k: nat ::
              && i <= k < j
              && ClosesAt(s, rs, k, id, holdId, Run(s, rs[..i]).holds[holdId])
              && forall l: nat :: i <= l < j && l != k ==> !Closes(Run(s, rs[..l]), rs[l], id, holdId)
  {
    var k := ClosingStep(s, rs, i, j, id, holdId);
    forall l: nat | i <= l < j && l != k ensures !Closes(Run(s, rs[..l]), rs[l], id, holdId) {
      if Closes(Run(s, rs[..l]), rs[l], id, holdId) {
        if l < k {
          ClosedOnce(s, rs, l, k, id, holdId);
        } else {
          ClosedOnce(s, rs, k, l, id, holdId);
        }
      }
    }
  }

  lemma {:induction false} ClosingStep(s: State, rs: seq<Request>, i: nat, j: nat, id: SessionId, holdId: HoldId)
    returns (k: nat)
    requires Inv(s) && i < j <= |rs|
    requires Live(Run(s, rs[..i]), id, holdId) && !Live(Run(s, rs[..j]), id, holdId)
    ensures i <= k < j && ClosesAt(s, rs, k, id, holdId, Run(s, rs[..i]).holds[holdId])
    decreases j - i
  {
    hide Next, Run, Inv, RefundsRest;
    var a := Run(s, rs[..i]);
    InvRun(s, rs[..i]);
    RunAppend(s, rs[..i], rs[i]);
    assert rs[..i + 1] == rs[..i] + [rs[i]];
    if Live(Run(s, rs[..i + 1]), id, holdId) {
      LiveKeepsHold(a, rs[i], id, holdId);
      k := ClosingStep(s, rs, i + 1, j, id, holdId);
    } else {
      ClosingRefunds(a, rs[i], id, holdId);
      k := i;
    }
  }

  /** The hold is open as it was opened, or its life is over. */
  ghost predicate AsOpenedOrSpent(s: State, id: SessionId, holdId: HoldId, hold: Hold) {
    (Live(s, id, holdId) && s.holds[holdId] == hold) || Spent(s, id, holdId)
  }

  lemma {:induction false} AsOpenedRun(s: State, rs: seq<Request>, id: SessionId, holdId: HoldId, hold: Hold)
    requires Inv(s) && AsOpenedOrSpent(s, id, holdId, hold)
    ensures AsOpenedOrSpent(Run(s, rs), id, holdId, hold)
    decreases |rs|
  {
    hide Next, Inv, Live, Spent;
    if rs != [] {
      InvStep(s, rs[0]);
      if Spent(s, id, holdId) {
        SpentForever(s, id, holdId, rs[0]);
      } else {
        LiveOrSpent(s, id, holdId, rs[0]);
        if Live(Next(s, rs[0]), id, holdId) {
          LiveKeepsHold(s, rs[0], id, holdId);
        }
      }
      AsOpenedRun(Next(s, rs[0]), rs[1..], id, holdId, hold);
    }
  }

  /** Over every run: once a hold is opened, an open of it with another token or amount never moves money, whether the
      hold is still open or already settled. */
  lemma ChangedOpenConflicts(s: State, rs: seq<Request>, i: nat, j: nat)
    requires Inv(s) && i < j < |rs| && rs[i].Open? && rs[j].Open?
    requires OutcomeOf(Run(s, rs[..i]), rs[i]) == Opened
    requires rs[j].session == rs[i].session && rs[j].holdId == rs[i].holdId
    requires rs[j].hash != rs[i].hash || rs[j].micros != rs[i].micros
    ensures Next(Run(s, rs[..j]), rs[j]) == Run(s, rs[..j])
    ensures OutcomeOf(Run(s, rs[..j]), rs[j]) in {Conflict, StaleSession, InvalidAmount}
  {
    hide Run;
    var a, hold := Run(s, rs[..i]), Hold(rs[i].hash, rs[i].micros, rs[i].session);
    InvRun(s, rs[..i]);
    InvStep(a, rs[i]);
    RunTo(s, rs, i, j);
    OpenedAsAsked(a, rs[i]);
    AsOpenedRun(Next(a, rs[i]), rs[i + 1..j], rs[i].session, rs[i].holdId, hold);
    InvRun(s, rs[..j]);
    OtherOpen(Run(s, rs[..j]), rs[j], hold);
  }

  lemma OpenedAsAsked(s: State, r: Request)
    requires r.Open? && OutcomeOf(s, r) == Opened
    ensures AsOpenedOrSpent(Next(s, r), r.session, r.holdId, Hold(r.hash, r.micros, r.session))
  {
  }

  lemma OtherOpen(s: State, r: Request, hold: Hold)
    requires Inv(s) && r.Open? && AsOpenedOrSpent(s, r.session, r.holdId, hold)
    requires hold != Hold(r.hash, r.micros, r.session)
    ensures Next(s, r) == s && OutcomeOf(s, r) in {Conflict, StaleSession, InvalidAmount}
  {
  }

  // ---- Supersession ----

  /** A session that was current and is no longer current never becomes current again; whatever it still sends is
      answered `stale_session` and changes nothing. */
  lemma Superseded(s: State, rs: seq<Request>, i: nat, j: nat, id: SessionId, r: Request)
    requires Inv(s) && i <= j <= |rs|
    requires Run(s, rs[..i]).Current(id) && !Run(s, rs[..j]).Current(id)
    requires !r.Credit? && r.session == id
    ensures forall k :: j <= k <= |rs| ==> !Run(s, rs[..k]).Current(id)
    ensures Step(Run(s, rs), r) == (Run(s, rs), StaleSession)
  {
    InvRun(s, rs[..i]);
    RunSplit(s, rs[..j], i);
    assert rs[..j][..i] == rs[..i] && rs[..j][i..] == rs[i..j];
    CurrentOrRetired(Run(s, rs[..i]), rs[i..j], id);
    InvRun(s, rs[..j]);
    forall k | j <= k <= |rs| ensures id in Run(s, rs[..k]).retired && !Run(s, rs[..k]).Current(id) {
      RunSplit(s, rs[..k], j);
      assert rs[..k][..j] == rs[..j] && rs[..k][j..] == rs[j..k];
      CurrentOrRetired(Run(s, rs[..j]), rs[j..k], id);
      InvRun(s, rs[..k]);
    }
    assert rs[..|rs|] == rs;
    InvRun(s, rs);
  }

  lemma {:induction false} CurrentOrRetired(s: State, rs: seq<Request>, id: SessionId)
    requires Inv(s) && (s.Current(id) || id in s.retired)
    ensures Run(s, rs).Current(id) || id in Run(s, rs).retired
    ensures id in s.retired ==> id in Run(s, rs).retired
    decreases |rs|
  {
    if rs != [] {
      InvStep(s, rs[0]);
      CurrentOrRetired(Next(s, rs[0]), rs[1..], id);
    }
  }

  /** A replayed start of the current session changes nothing and reports the totals of the original start. */
  lemma ReplayedStart(s: State, rs: seq<Request>, id: SessionId)
    requires Inv(s) && OutcomeOf(s, Start(id)).Started?
    ensures var t := Run(Next(s, Start(id)), rs);
            var first := OutcomeOf(s, Start(id));
            Next(t, Start(id)) == t
            && OutcomeOf(t, Start(id)) ==
                 (if t.Current(id) then AlreadyCurrent(first.holds, first.micros) else StaleSession)
  {
    InvStep(s, Start(id));
    SessionKept(Next(s, Start(id)), rs, id);
    ConsumedRun(Next(s, Start(id)), Start(id), rs);
  }

  lemma {:induction false} SessionKept(s: State, rs: seq<Request>, id: SessionId)
    requires Inv(s) && s.Current(id)
    ensures Run(s, rs).session == s.session || id in Run(s, rs).retired
    decreases |rs|
  {
    if rs != [] {
      InvStep(s, rs[0]);
      if Next(s, rs[0]).Current(id) {
        SessionKept(Next(s, rs[0]), rs[1..], id);
      } else {
        CurrentOrRetired(Next(s, rs[0]), rs[1..], id);
      }
    }
  }

  // ---- Duplicates collapse ----

  /** The same messages without any copy of r. */
  function Strip(rs: seq<Request>, r: Request): seq<Request> {
    if rs == [] then []
    else if rs[0] == r then Strip(rs[1..], r)
    else [rs[0]] + Strip(rs[1..], r)
  }

  lemma RunCons(s: State, q: Request, rs: seq<Request>)
    ensures Run(s, [q] + rs) == Run(Next(s, q), rs)
  {
    assert ([q] + rs)[1..] == rs;
  }

  lemma {:induction false} StripConsumed(s: State, rs: seq<Request>, r: Request)
    requires Inv(s) && Consumed(s, r)
    ensures Run(s, rs) == Run(s, Strip(rs, r))
    decreases |rs|
  {
    if rs != [] {
      InvStep(s, rs[0]);
      ConsumedForever(s, r, rs[0]);
      StripConsumed(Next(s, rs[0]), rs[1..], r);
      if rs[0] == r {
        ConsumedIsInert(s, r);
      } else {
        RunCons(s, rs[0], Strip(rs[1..], r));
      }
    }
  }

  /** Any run containing any number of copies of r is a run in which r occurs not at all, or once, at the moment it
      took effect. */
  lemma {:induction false} DuplicatesCollapse(s: State, rs: seq<Request>, r: Request)
    requires Inv(s)
    ensures Run(s, rs) == Run(s, Strip(rs, r))
            || exists i: nat :: TakesEffectAt(s, rs, r, i)
    decreases |rs|
  {
    if rs != [] {
      InvStep(s, rs[0]);
      if rs[0] == r && Next(s, r) != s {
        EffectConsumes(s, r);
        StripConsumed(Next(s, r), rs[1..], r);
        assert rs[..0] == [];
        assert TakesEffectAt(s, rs, r, 0);
      } else {
        DuplicatesCollapse(Next(s, rs[0]), rs[1..], r);
        if rs[0] != r {
          RunCons(s, rs[0], Strip(rs[1..], r));
        }
        if i: nat :| TakesEffectAt(Next(s, rs[0]), rs[1..], r, i) {
          TakesEffectLater(s, rs, r, i);
        }
      }
    }
  }

  lemma TakesEffectLater(s: State, rs: seq<Request>, r: Request, i: nat)
    requires rs != [] && TakesEffectAt(Next(s, rs[0]), rs[1..], r, i)
    requires rs[0] == r ==> Next(s, r) == s
    ensures TakesEffectAt(s, rs, r, i + 1)
  {
    var head := Strip(rs[1..][..i], r);
    assert rs[..i + 1][1..] == rs[1..][..i] && rs[1..][i + 1..] == rs[i + 2..];
    if rs[0] != r {
      assert Strip(rs[..i + 1], r) == [rs[0]] + head;
      RunCons(s, rs[0], head);
    }
  }

  /** r takes effect at position i, on the state the other requests alone have produced, and the rest of the run is
      as if no other copy of r had been sent. */
  ghost predicate TakesEffectAt(s: State, rs: seq<Request>, r: Request, i: nat) {
    && i < |rs| && rs[i] == r
    && var before := Run(s, Strip(rs[..i], r));
       && Next(before, r) != before
       && Run(s, rs) == Run(Next(before, r), Strip(rs[i + 1..], r))
  }
}
