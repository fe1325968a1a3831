/**
 * The composite-status rule of a PNR (`calculateStatus`) and the pre-save
 * hook that stores its result on every save.
 */
module StatusEngine {
  import opened Records

  /** `passengers.every(p => p.status === st)`. */
  predicate AllHave(ps: seq<Passenger>, st: Status)
  {
    forall i :: 0 <= i < |ps| ==> ps[i].status == st
  }

  /** Two passengers of the list disagree on their status. */
  predicate Mixed(ps: seq<Passenger>)
  {
    exists i, j :: 0 <= i < |ps| && 0 <= j < |ps| && ps[i].status != ps[j].status
  }

  /** `calculateStatus`: first match wins among empty, all pending, all approved, all declined. */
  function CalculateStatus(ps: seq<Passenger>): Status
  {
    if |ps| == 0 then Pending
    else if AllHave(ps, Pending) then Pending
    else if AllHave(ps, Approved) then Approved
    else if AllHave(ps, Declined) then Declined
    else Partially
  }

  /** An empty passenger list is pending. */
  lemma EmptyIsPending(ps: seq<Passenger>)
    requires |ps| == 0
    ensures CalculateStatus(ps) == Pending
  {
  }

  /**
   * The rule, characterised outcome by outcome: pending exactly when every
   * passenger is pending, approved or declined exactly when the list is non-empty
   * and unanimous, and partially exactly when two passengers disagree.
   */
  lemma CalculateStatusCases(ps: seq<Passenger>)
    ensures CalculateStatus(ps) == Pending <==> AllHave(ps, Pending)
    ensures CalculateStatus(ps) == Approved <==> |ps| > 0 && AllHave(ps, Approved)
    ensures CalculateStatus(ps) == Declined <==> |ps| > 0 && AllHave(ps, Declined)
    ensures CalculateStatus(ps) == Partially <==> Mixed(ps)
  {
    if |ps| > 0 {
      var st := ps[0].status;
      assert AllHave(ps, Approved) ==> !AllHave(ps, Pending);
      assert AllHave(ps, Declined) ==> !AllHave(ps, Approved) && !AllHave(ps, Pending);
      if !AllHave(ps, st) {
        var j :| 0 <= j < |ps| && ps[j].status != st;
        assert ps[0].status != ps[j].status;
      } else {
        assert !Mixed(ps);
      }
    }
  }

  /** The rule looks at the passengers only through `every`, so it cannot see their order. */
  lemma AllHavePermutation(ps: seq<Passenger>, qs: seq<Passenger>, st: Status)
    requires multiset(ps) == multiset(qs)
    requires AllHave(ps, st)
    ensures AllHave(qs, st)
  {
    forall j | 0 <= j < |qs|
      ensures qs[j].status == st
    {
      assert qs[j] in multiset(qs);
      assert qs[j] in ps;
    }
  }

  /** Reordering the passengers does not change the composite status. */
  lemma CalculateStatusPermutation(ps: seq<Passenger>, qs: seq<Passenger>)
    requires multiset(ps) == multiset(qs)
    ensures CalculateStatus(ps) == CalculateStatus(qs)
  {
    assert |ps| == |multiset(ps)| == |multiset(qs)| == |qs|;
    forall st: Status
      ensures AllHave(ps, st) <==> AllHave(qs, st)
    {
      if AllHave(ps, st) { AllHavePermutation(ps, qs, st); }
      if AllHave(qs, st) { AllHavePermutation(qs, ps, st); }
    }
  }

  /** The `pre('save')` hook: `this.status = this.calculateStatus()`. */
  function PreSave(p: Pnr): (r: Pnr)
    ensures r.status == CalculateStatus(r.passengers)
    ensures r.(status := p.status) == p
  {
    p.(status := CalculateStatus(p.passengers))
  }

  /** A record whose status is already that of its passengers passes the hook unchanged. */
  lemma PreSaveKeepsConsistent(p: Pnr)
    requires p.status == CalculateStatus(p.passengers)
    ensures PreSave(p) == p
  {
  }
}
