/** What other call sites do to the shared ledger while one call awaits its model. */
module OtherSites {
  import opened CostSafety
  import CostProtocol

  /** An adapter records a call; a narrator client whose baselines are its own books one; or a session's
      baselines end. A call whose alarm was lost reaches the ledger not at all. */
  datatype Other =
    | Records(session: string, caller: string, bill: Bill, alarmPublishes: bool, ceilingPublishes: bool)
    | Charges(session: string, cost: real, ceilingPublishes: bool)
    | Resets(session: string)

  /** Nobody is billed less than nothing. */
  ghost predicate Sane(os: seq<Other>) {
    forall i | 0 <= i < |os| ::
      (os[i].Records? ==> os[i].bill.cost >= 0.0) && (os[i].Charges? ==> os[i].cost >= 0.0)
  }

  function Act(l: Ledger, o: Other, ceiling: real): (r: Ledger)
    requires l.windows.Paired()
    ensures r.windows.Paired()
  {
    match o
    case Records(session, caller, b, alarmPublishes, ceilingPublishes) =>
      Record(l, AdapterKey(session, caller), b, ceiling, alarmPublishes, ceilingPublishes).0
    case Charges(session, cost, publishes) => l.(books := Charge(l.books, session, cost, ceiling, publishes).books)
    case Resets(session) => ClearBaselines(l, session)
  }

  function ActAll(l: Ledger, os: seq<Other>, ceiling: real): (r: Ledger)
    requires l.windows.Paired()
    ensures r.windows.Paired()
  {
    if os == [] then l else Act(ActAll(l, os[..|os| - 1], ceiling), os[|os| - 1], ceiling)
  }

  lemma RecordSpends(l: Ledger, key: AdapterKey, b: Bill, ceiling: real,
                     alarmPublishes: bool, ceilingPublishes: bool, session: string)
    requires l.windows.Paired()
    ensures var (l', p) := Record(l, key, b, ceiling, alarmPublishes, ceilingPublishes);
            && Spent(l'.books, session)
               == Spent(l.books, session) + (if p.Booked? && key.session == session then b.cost else 0.0)
            && (p.Booked? ==> (p.raise.NoRaise? <==> Spent(l'.books, key.session) < ceiling))
  {
    hide Judge, Windows.Observe, Charge;
    CostProtocol.ChargeSpends(l.books, key.session, b.cost, ceiling, ceilingPublishes, session);
    CostProtocol.ChargeSpends(l.books, key.session, b.cost, ceiling, ceilingPublishes, key.session);
  }

  /** Whatever the other sites do, resets included, a session's total never falls. */
  lemma {:induction false} OthersOnlyAdd(l: Ledger, os: seq<Other>, ceiling: real, session: string)
    requires l.windows.Paired() && Sane(os)
    ensures Spent(ActAll(l, os, ceiling).books, session) >= Spent(l.books, session)
  {
    if os != [] {
      var n := |os| - 1;
      OthersOnlyAdd(l, os[..n], ceiling, session);
      ActAdds(ActAll(l, os[..n], ceiling), os[n], ceiling, session);
    }
  }

  lemma ActAdds(l: Ledger, o: Other, ceiling: real, session: string)
    requires l.windows.Paired() && Sane([o])
    ensures Spent(Act(l, o, ceiling).books, session) >= Spent(l.books, session)
  {
    assert [o][0] == o;
    hide Record, Charge;
    match o
    case Records(s, caller, b, alarmPublishes, ceilingPublishes) =>
      RecordSpends(l, AdapterKey(s, caller), b, ceiling, alarmPublishes, ceilingPublishes, session);
    case Charges(s, cost, publishes) =>
      CostProtocol.ChargeSpends(l.books, s, cost, ceiling, publishes, session);
    case Resets(_) =>
  }

  method ActOn(ledger: SessionCostLedger, o: Other, ceiling: real)
    requires ledger.Valid()
    modifies ledger
    ensures ledger.Valid() && ledger.Value() == Act(old(ledger.Value()), o, ceiling)
  {
    hide Windows.Paired, Record, Charge, ClearBaselines;
    match o
    case Records(session, caller, b, alarmPublishes, ceilingPublishes) =>
      var _ := ledger.RecordCall(session, caller, b, ceiling, alarmPublishes, ceilingPublishes);
    case Charges(session, cost, publishes) =>
      var _, _ := ledger.UpdateCumulative(session, cost, ceiling, publishes);
    case Resets(session) =>
      ledger.ResetBaselines(session);
  }

  /** The other sites at work on the ledger object. */
  method Disturb(ledger: SessionCostLedger, os: seq<Other>, ceiling: real)
    requires ledger.Valid()
    modifies ledger
    ensures ledger.Valid() && ledger.Value() == ActAll(old(ledger.Value()), os, ceiling)
  {
    hide Act;
    for i := 0 to |os|
      invariant ledger.Valid() && ledger.Value() == ActAll(old(ledger.Value()), os[..i], ceiling)
    {
      ActOn(ledger, os[i], ceiling);
      assert os[..i + 1][..i] == os[..i];
    }
    assert os[..|os|] == os;
  }
}
