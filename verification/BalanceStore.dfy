/** The balance store as an object whose tables are updated in place, transaction by transaction
    (core/src/ledger/db.ts). Each method is proved to be one step of the ledger. */
module BalanceStore {
  import opened Wrappers
  import opened Ledger
  import opened LedgerRuns

  class Store {
    var tokens: map<Hash, int>
    var holds: map<HoldId, Hold>
    var settled: map<HoldId, Tombstone>
    var applied: set<Key>
    var session: Option<Session>
    var retired: set<SessionId>

    ghost function Abs(): State
      reads this
    {
      State(tokens, holds, settled, applied, session, retired)
    }

    constructor ()
      ensures Abs() == EMPTY_STATE
    {
      tokens, holds, settled, applied, session, retired := map[], map[], map[], {}, None, {};
    }

    method AddBalance(hash: Hash, micros: int)
      modifies this`tokens
      ensures tokens == Credited(old(tokens), hash, micros)
    {
      if hash in tokens {
        tokens := tokens[hash := tokens[hash] + micros];
      } else {
        tokens := tokens[hash := micros];
      }
    }

    /** The refund loop shared by beginSession and recoverHolds: one row at a time, in any order. */
    method RefundAll() returns (count: int, micros: int)
      modifies this`tokens, this`holds
      ensures tokens == Refunded(old(tokens), old(holds)) && holds == map[]
      ensures count == |old(holds)| && micros == Held(old(holds))
    {
      var rows := holds;
      count, micros := |rows|, 0;
      while rows != map[]
        invariant Refunded(tokens, rows) == Refunded(old(tokens), old(holds))
        invariant micros + Held(rows) == Held(old(holds))
        decreases |rows|
      {
        var id :| id in rows;
        RefundOne(tokens, rows, id);
        HeldRemove(rows, id);
        AddBalance(rows[id].hash, rows[id].micros);
        micros := micros + rows[id].micros;
        rows := rows - {id};
      }
      RefundNone(tokens);
      assert Amounts(map[]) == map[];
      holds := map[];
    }

    method BeginSession(id: SessionId) returns (r: Outcome)
      modifies this
      ensures (Abs(), r) == Step(old(Abs()), Start(id))
    {
      if session.Some? && session.value.id == id {
        return AlreadyCurrent(session.value.recoveredHolds, session.value.recoveredMicros);
      }
      if id in retired {
        return StaleSession;
      }
      var count, micros := RefundAll();
      settled := map[];
      if session.Some? {
        retired := retired + {session.value.id};
      }
      session := Some(Session(id, count, micros));
      r := Started(count, micros);
    }

    method GetSessionBalance(id: SessionId, hash: Hash) returns (r: Outcome)
      ensures r == OutcomeOf(Abs(), Balance(id, hash))
    {
      if session.None? || session.value.id != id {
        return StaleSession;
      }
      r := if hash in tokens then Found(tokens[hash]) else Missing;
    }

    method OpenSessionHold(id: SessionId, hash: Hash, micros: int, holdId: HoldId) returns (r: Outcome)
      modifies this`tokens, this`holds
      ensures (Abs(), r) == Step(old(Abs()), Open(id, hash, micros, holdId))
    {
      if session.None? || session.value.id != id {
        return StaleSession;
      }
      if micros < 0 || micros > MAX_SAFE_INTEGER {
        return InvalidAmount;
      }
      if holdId in holds {
        var row := holds[holdId];
        return if row.session == id && row.hash == hash && row.micros == micros then AlreadyOpen else Conflict;
      }
      if holdId in settled {
        return Conflict;
      }
      if hash !in tokens {
        return UnknownToken;
      }
      if tokens[hash] < micros {
        return InsufficientBalance;
      }
      tokens := tokens[hash := tokens[hash] - micros];
      holds := holds[holdId := Hold(hash, micros, id)];
      r := Opened;
    }

    method SettleSessionHold(id: SessionId, holdId: HoldId, charge: int) returns (r: Outcome)
      modifies this`tokens, this`holds, this`settled
      ensures (Abs(), r) == Step(old(Abs()), Settle(id, holdId, charge))
    {
      if session.None? || session.value.id != id {
        return StaleSession;
      }
      if holdId in settled {
        var row := settled[holdId];
        return if row.session == id && row.charged == charge then AlreadySettled else Conflict;
      }
      if holdId !in holds {
        return UnknownHold;
      }
      var hold := holds[holdId];
      if hold.session != id {
        return Conflict;
      }
      if charge < 0 || charge > MAX_SAFE_INTEGER || charge > hold.micros {
        return InvalidCharge;
      }
      holds := holds - {holdId};
      var refund := hold.micros - charge;
      if refund > 0 {
        AddBalance(hold.hash, refund);
      }
      settled := settled[holdId := Tombstone(id, charge)];
      r := Settled;
    }

    method CreditOnce(hash: Hash, amount: nat, key: Key) returns (r: Outcome)
      modifies this`tokens, this`applied
      ensures (Abs(), r) == Step(old(Abs()), Credit(hash, amount, key))
    {
      if key in applied {
        return AlreadyApplied;
      }
      applied := applied + {key};
      AddBalance(hash, amount);
      r := Applied;
    }

    /** The endpoints of core/src/ledger/server.ts and core/src/credit-server.ts: one request, one transaction. */
    method Serve(q: Request) returns (r: Outcome)
      modifies this
      ensures (Abs(), r) == Step(old(Abs()), q)
    {
      match q {
        case Start(id) => r := BeginSession(id);
        case Balance(id, hash) => r := GetSessionBalance(id, hash);
        case Open(id, hash, micros, holdId) => r := OpenSessionHold(id, hash, micros, holdId);
        case Settle(id, holdId, charge) => r := SettleSessionHold(id, holdId, charge);
        case Credit(hash, amount, key) => r := CreditOnce(hash, amount, key);
      }
    }

    /** Recovery without a session change: every open hold is given back, and no money is made or lost. */
    method RecoverHolds() returns (count: int, micros: int)
      modifies this`tokens, this`holds
      ensures tokens == Refunded(old(tokens), old(holds)) && holds == map[]
      ensures count == |old(holds)| && micros == Held(old(holds))
      ensures Worth(Abs()) == old(Worth(Abs()))
    {
      SumRefunded(tokens, holds);
      assert Amounts(map[]) == map[];
      count, micros := RefundAll();
    }
  }
}
