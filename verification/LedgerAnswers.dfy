/** When the balance store gives which answer (core/src/ledger/db.ts), and what each answer means for the tables: the
    decision tables of the four session operations and of the credit. */
module LedgerAnswers {
  import opened Wrappers
  import opened Sums
  import opened Ledger
  import opened LedgerRuns

  /** Neither open nor settled. */
  predicate Unused(s: State, holdId: HoldId) {
    holdId !in s.holds && holdId !in s.settled
  }

  /** An open is answered by the first of its checks that fails; one that passes them all reserves the amount, and
      every other leaves the tables alone. */
  lemma OpenAnswers(s: State, q: Request)
    requires q.Open?
    ensures var o := OutcomeOf(s, q);
            var valid := s.Current(q.session) && 0 <= q.micros <= 9007199254740991;
            && (o == StaleSession <==> !s.Current(q.session))
            && (o == InvalidAmount <==> s.Current(q.session) && !(0 <= q.micros <= 9007199254740991))
            && (o == AlreadyOpen <==>
                valid && q.holdId in s.holds && s.holds[q.holdId] == Hold(q.hash, q.micros, q.session))
            && (o == Conflict <==>
                && valid && !Unused(s, q.holdId)
                && !(q.holdId in s.holds && s.holds[q.holdId] == Hold(q.hash, q.micros, q.session)))
            && (o == UnknownToken <==> valid && Unused(s, q.holdId) && q.hash !in s.tokens)
            && (o == InsufficientBalance <==>
                valid && Unused(s, q.holdId) && q.hash in s.tokens && s.tokens[q.hash] < q.micros)
            && (o == Opened <==>
                valid && Unused(s, q.holdId) && q.hash in s.tokens && s.tokens[q.hash] >= q.micros)
    ensures OutcomeOf(s, q) == Opened ==>
              && q.hash in s.tokens
              && Next(s, q) == s.(tokens := s.tokens[q.hash := s.tokens[q.hash] - q.micros],
                                  holds := s.holds[q.holdId := Hold(q.hash, q.micros, q.session)])
    ensures OutcomeOf(s, q) != Opened ==> Next(s, q) == s
  {
  }

  /** A settlement is answered likewise; one that takes effect closes the hold, gives back what is not charged and
      leaves a tombstone. */
  lemma SettleAnswers(s: State, q: Request)
    requires q.Settle? && Inv(s)
    ensures var o := OutcomeOf(s, q);
            var known := q.holdId in s.holds;
            && (o == StaleSession <==> !s.Current(q.session))
            && (o == AlreadySettled <==>
                && s.Current(q.session) && q.holdId in s.settled
                && s.settled[q.holdId] == Tombstone(q.session, q.charge))
            && (o == Conflict <==>
                && s.Current(q.session) && q.holdId in s.settled
                && s.settled[q.holdId] != Tombstone(q.session, q.charge))
            && (o == UnknownHold <==> s.Current(q.session) && Unused(s, q.holdId))
            && (o == InvalidCharge <==>
                s.Current(q.session) && known && !(0 <= q.charge <= s.holds[q.holdId].micros))
            && (o == Settled <==> s.Current(q.session) && known && 0 <= q.charge <= s.holds[q.holdId].micros)
    ensures OutcomeOf(s, q) == Settled ==>
              && q.holdId in s.holds
              && var hold, t := s.holds[q.holdId], Next(s, q);
                 && t.holds == s.holds - {q.holdId}
                 && t.settled == s.settled[q.holdId := Tombstone(q.session, q.charge)]
                 && (forall h :: Balanced(t.tokens, h) ==
                       Balanced(s.tokens, h) + if h == hold.hash then hold.micros - q.charge else 0)
                 && t.applied == s.applied && t.session == s.session && t.retired == s.retired
    ensures OutcomeOf(s, q) != Settled ==> Next(s, q) == s
  {
  }

  /** A start recovers unless the session is current or superseded, and then reports what it recovered: how many holds
      were open, and how much they reserved. */
  lemma StartAnswers(s: State, q: Request)
    requires q.Start?
    ensures var o, t := OutcomeOf(s, q), Next(s, q);
            && (o == StaleSession <==> !s.Current(q.session) && q.session in s.retired)
            && (o.AlreadyCurrent? <==> s.Current(q.session))
            && (o.AlreadyCurrent? ==>
                  o == AlreadyCurrent(s.session.value.recoveredHolds, s.session.value.recoveredMicros))
            && (o.Started? <==> !s.Current(q.session) && q.session !in s.retired)
            && (o.Started? ==>
                  && o == Started(|s.holds|, Sum(map id | id in s.holds :: s.holds[id].micros))
                  && t.session == Some(Session(q.session, o.holds, o.micros))
                  && t.retired == s.retired + (if s.session.Some? then {s.session.value.id} else {})
                  && t.holds == map[] && t.settled == map[] && t.applied == s.applied
                  && forall h :: Balanced(t.tokens, h) == Balanced(s.tokens, h)
                       + Sum(map id | id in s.holds && s.holds[id].hash == h :: s.holds[id].micros))
            && (!o.Started? ==> t == s)
  {
    hide Refunded, Sum;
    assert Amounts(s.holds) == map id | id in s.holds :: s.holds[id].micros;
    if !s.Current(q.session) && q.session !in s.retired {
      StartRefunds(s, q);
    }
  }

  lemma StartRefunds(s: State, q: Request)
    requires q.Start? && !s.Current(q.session) && q.session !in s.retired
    ensures forall h :: Balanced(Next(s, q).tokens, h)
              == Balanced(s.tokens, h) + Sum(map id | id in s.holds && s.holds[id].hash == h :: s.holds[id].micros)
  {
    hide Refunded, Sum;
    forall h
      ensures Balanced(Next(s, q).tokens, h)
           == Balanced(s.tokens, h) + Sum(map id | id in s.holds && s.holds[id].hash == h :: s.holds[id].micros)
    {
      RefundedBalance(s.tokens, s.holds, h);
      assert AmountsOf(s.holds, h) == map id | id in s.holds && s.holds[id].hash == h :: s.holds[id].micros;
    }
  }

  lemma RefundedBalance(tokens: map<Hash, int>, holds: map<HoldId, Hold>, h: Hash)
    ensures Balanced(Refunded(tokens, holds), h) == Balanced(tokens, h) + HeldFor(holds, h)
  {
    if h !in Refunded(tokens, holds) {
      assert AmountsOf(holds, h) == map[];
    }
  }

  /** A balance read moves nothing, and answers the current session what the token has left. */
  lemma BalanceAnswers(s: State, q: Request)
    requires q.Balance?
    ensures Next(s, q) == s
    ensures var o := OutcomeOf(s, q);
            && (o == StaleSession <==> !s.Current(q.session))
            && (o == Missing <==> s.Current(q.session) && q.hash !in s.tokens)
            && forall b :: o == Found(b) <==> s.Current(q.session) && q.hash in s.tokens && s.tokens[q.hash] == b
  {
  }

  /** A credit adds its amount to its token and marks its key, once. */
  lemma CreditAnswers(s: State, q: Request)
    requires q.Credit?
    ensures OutcomeOf(s, q) == (if q.key in s.applied then AlreadyApplied else Applied)
    ensures q.key in s.applied ==> Next(s, q) == s
    ensures q.key !in s.applied ==>
              && Next(s, q) == s.(tokens := Next(s, q).tokens, applied := s.applied + {q.key})
              && Next(s, q).tokens.Keys == s.tokens.Keys + {q.hash}
              && forall h :: Balanced(Next(s, q).tokens, h)
                   == Balanced(s.tokens, h) + if h == q.hash then q.amount else 0
  {
  }
}
