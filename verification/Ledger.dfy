/** The balance store of core/src/ledger/db.ts: its tables, and every transaction as a step on them.
    Money is in whole micro-dollars. Session, hold and token identifiers are opaque strings. */
module Ledger {
  import opened Wrappers
  import opened Sums

  type SessionId = string
  type HoldId = string
  type Hash = string
  type Key = string

  /** JavaScript's Number.MAX_SAFE_INTEGER. */
  const MAX_SAFE_INTEGER: int := 9007199254740991

  predicate SafeMicros(n: int) {
    0 <= n <= MAX_SAFE_INTEGER
  }

  datatype Hold = Hold(hash: Hash, micros: int, session: SessionId)
  datatype Tombstone = Tombstone(session: SessionId, charged: int)
  datatype Session = Session(id: SessionId, recoveredHolds: int, recoveredMicros: int)

  /** The tables tokens, holds, settled_holds, applied_orders, ledger_session and retired_ledger_sessions. */
  datatype State = State(
    tokens: map<Hash, int>,
    holds: map<HoldId, Hold>,
    settled: map<HoldId, Tombstone>,
    applied: set<Key>,
    session: Option<Session>,
    retired: set<SessionId>
  ) {
    predicate Current(id: SessionId) {
      session.Some? && session.value.id == id
    }
  }

  const EMPTY_STATE := State(map[], map[], map[], {}, None, {})

  datatype Request =
    | Start(session: SessionId)
    | Balance(session: SessionId, hash: Hash)
    | Open(session: SessionId, hash: Hash, micros: int, holdId: HoldId)
    | Settle(session: SessionId, holdId: HoldId, charge: int)
    | Credit(hash: Hash, amount: nat, key: Key)

  datatype Outcome =
    | Started(holds: int, micros: int)
    | AlreadyCurrent(holds: int, micros: int)
    | StaleSession
    | Missing
    | Found(balance: int)
    | Opened
    | AlreadyOpen
    | Conflict
    | InvalidAmount
    | UnknownToken
    | InsufficientBalance
    | Settled
    | AlreadySettled
    | UnknownHold
    | InvalidCharge
    | Applied
    | AlreadyApplied

  /** INSERT INTO tokens … ON CONFLICT DO UPDATE SET balance = balance + micros. */
  function Credited(tokens: map<Hash, int>, hash: Hash, micros: int): map<Hash, int> {
    tokens[hash := (if hash in tokens then tokens[hash] else 0) + micros]
  }

  function Balanced(tokens: map<Hash, int>, hash: Hash): int {
    if hash in tokens then tokens[hash] else 0
  }

  /** The reserved amounts of the open holds, and of those held against one token. */
  function Amounts(holds: map<HoldId, Hold>): map<HoldId, int> {
    map id | id in holds :: holds[id].micros
  }

  function AmountsOf(holds: map<HoldId, Hold>, hash: Hash): map<HoldId, int> {
    map id | id in holds && holds[id].hash == hash :: holds[id].micros
  }

  ghost function HeldFor(holds: map<HoldId, Hold>, hash: Hash): int {
    Sum(AmountsOf(holds, hash))
  }

  ghost function Held(holds: map<HoldId, Hold>): int {
    Sum(Amounts(holds))
  }

  /** Every open hold given back in full, stated token by token: no order of the rows is involved. */
  ghost function Refunded(tokens: map<Hash, int>, holds: map<HoldId, Hold>): map<Hash, int> {
    map h | h in tokens.Keys + (set id | id in holds :: holds[id].hash) :: Balanced(tokens, h) + HeldFor(holds, h)
  }

  ghost function BeginSession(s: State, id: SessionId): (State, Outcome) {
    if s.Current(id) then
      (s, AlreadyCurrent(s.session.value.recoveredHolds, s.session.value.recoveredMicros))
    else if id in s.retired then
      (s, StaleSession)
    else
      var rows, micros := |s.holds|, Held(s.holds);
      (s.(tokens := Refunded(s.tokens, s.holds),
          holds := map[],
          settled := map[],
          retired := if s.session.Some? then s.retired + {s.session.value.id} else s.retired,
          session := Some(Session(id, rows, micros))),
       Started(rows, micros))
  }

  function SessionBalance(s: State, id: SessionId, hash: Hash): Outcome {
    if !s.Current(id) then StaleSession
    else if hash !in s.tokens then Missing
    else Found(s.tokens[hash])
  }

  function OpenSessionHold(s: State, id: SessionId, hash: Hash, micros: int, holdId: HoldId): (State, Outcome) {
    if !s.Current(id) then (s, StaleSession)
    else if !SafeMicros(micros) then (s, InvalidAmount)
    else if holdId in s.holds then
      (s, if s.holds[holdId] == Hold(hash, micros, id) then AlreadyOpen else Conflict)
    else if holdId in s.settled then (s, Conflict)
    else if hash !in s.tokens then (s, UnknownToken)
    else if s.tokens[hash] < micros then (s, InsufficientBalance)
    else
      (s.(tokens := s.tokens[hash := s.tokens[hash] - micros],
          holds := s.holds[holdId := Hold(hash, micros, id)]),
       Opened)
  }

  function SettleSessionHold(s: State, id: SessionId, holdId: HoldId, charge: int): (State, Outcome) {
    if !s.Current(id) then (s, StaleSession)
    else if holdId in s.settled then
      (s, if s.settled[holdId] == Tombstone(id, charge) then AlreadySettled else Conflict)
    else if holdId !in s.holds then (s, UnknownHold)
    else if s.holds[holdId].session != id then (s, Conflict)
    else if !SafeMicros(charge) || charge > s.holds[holdId].micros then (s, InvalidCharge)
    else
      var hold := s.holds[holdId];
      (s.(tokens := if hold.micros - charge > 0 then Credited(s.tokens, hold.hash, hold.micros - charge) else s.tokens,
          holds := s.holds - {holdId},
          settled := s.settled[holdId := Tombstone(id, charge)]),
       Settled)
  }

  function CreditOnce(s: State, hash: Hash, amount: int, key: Key): (State, Outcome) {
    if key in s.applied then (s, AlreadyApplied)
    else (s.(applied := s.applied + {key}, tokens := Credited(s.tokens, hash, amount)), Applied)
  }

  /** One request, run to completion as one transaction. */
  ghost function Step(s: State, r: Request): (State, Outcome) {
    match r
    case Start(id) => BeginSession(s, id)
    case Balance(id, hash) => (s, SessionBalance(s, id, hash))
    case Open(id, hash, micros, holdId) => OpenSessionHold(s, id, hash, micros, holdId)
    case Settle(id, holdId, charge) => SettleSessionHold(s, id, holdId, charge)
    case Credit(hash, amount, key) => CreditOnce(s, hash, amount, key)
  }

  ghost function Next(s: State, r: Request): State {
    Step(s, r).0
  }

  ghost function OutcomeOf(s: State, r: Request): Outcome {
    Step(s, r).1
  }

  /** Any run: the requests in the order in which the store happened to process them. */
  ghost function Run(s: State, rs: seq<Request>): State
    decreases |rs|
  {
    if rs == [] then s else Run(Next(s, rs[0]), rs[1..])
  }

  lemma {:induction false} RunSplit(s: State, rs: seq<Request>, k: nat)
    requires k <= |rs|
    ensures Run(s, rs) == Run(Run(s, rs[..k]), rs[k..])
    decreases k
  {
    if k == 0 {
      assert rs[..0] == [] && rs[0..] == rs;
    } else {
      RunSplit(Next(s, rs[0]), rs[1..], k - 1);
      assert rs[..k][1..] == rs[1..][..k - 1] && rs[1..][k - 1..] == rs[k..];
    }
  }

  lemma {:induction false} RunAppend(s: State, rs: seq<Request>, r: Request)
    ensures Run(s, rs + [r]) == Next(Run(s, rs), r)
  {
    RunSplit(s, rs + [r], |rs|);
    assert (rs + [r])[..|rs|] == rs && (rs + [r])[|rs|..] == [r];
    assert Run(Run(s, rs), [r]) == Run(Next(Run(s, rs), r), []);
  }

  // ---- The simple, session-free ledger that request handling is written against (db.ts openHold and settleHold,
  // through port.ts). It sees only balances and the holds journal.

  datatype Simple = Simple(tokens: map<Hash, int>, holds: map<HoldId, (Hash, int)>)

  function Forget(s: State): Simple {
    Simple(s.tokens, map id | id in s.holds :: (s.holds[id].hash, s.holds[id].micros))
  }

  datatype SimpleAnswer = Yes | No | Threw

  /** Debit and journal, or refuse and write nothing. A second row under one hold id violates the primary key. */
  function SimpleOpen(s: Simple, hash: Hash, micros: int, holdId: HoldId): (Simple, SimpleAnswer) {
    if hash !in s.tokens || s.tokens[hash] < micros then (s, No)
    else if holdId in s.holds then (s, Threw)
    else (Simple(s.tokens[hash := s.tokens[hash] - micros], s.holds[holdId := (hash, micros)]), Yes)
  }

  /** Close the hold and refund what was not charged; an unknown hold is a no-op, a charge outside it an error. */
  function SimpleSettle(s: Simple, holdId: HoldId, charge: int): (Simple, SimpleAnswer) {
    if holdId !in s.holds then (s, No)
    else
      var (hash, micros) := s.holds[holdId];
      if !SafeMicros(charge) || charge > micros then (s, Threw)
      else
        (Simple(if micros - charge > 0 then Credited(s.tokens, hash, micros - charge) else s.tokens,
                s.holds - {holdId}),
         Yes)
  }
}
