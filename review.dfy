/**
 * What the two review mutations do to the passengers of one PNR, as values:
 * setting one passenger's status (with its rejection reason) and approving
 * every pending passenger; each followed by the pre-save hook.
 */
module Review {
  import opened Wrappers
  import opened Records
  import opened StatusEngine

  /** JavaScript truthiness of an optional string: present and non-empty. */
  predicate Truthy(s: Option<string>)
  {
    s.Some? && s.value != ""
  }

  /**
   * `passenger.status = status`, then the reason: stored when declining with a
   * truthy reason, cleared for any other status, kept when declining without one.
   */
  function ApplyStatus(p: Passenger, st: PassengerStatus, reason: Option<string>): (r: Passenger)
    ensures r.status == st
    ensures r.(status := p.status, rejectionReason := p.rejectionReason) == p
    ensures st == Declined && Truthy(reason) ==> r.rejectionReason == reason
    ensures st != Declined ==> r.rejectionReason == None
    ensures st == Declined && !Truthy(reason) ==> r.rejectionReason == p.rejectionReason
  {
    var q := p.(status := st);
    if st == Declined && Truthy(reason) then q.(rejectionReason := reason)
    else if st != Declined then q.(rejectionReason := None)
    else q
  }

  /** After an update the passenger carries a reason only if it is declined. */
  lemma ApplyStatusReasonOnlyWhenDeclined(p: Passenger, st: PassengerStatus, reason: Option<string>)
    ensures ApplyStatus(p, st, reason).rejectionReason.Some? ==> st == Declined
  {
  }

  /** The saved record after updating passenger `i`: only that passenger changes, then the hook. */
  function UpdatedRecord(p: Pnr, i: nat, st: PassengerStatus, reason: Option<string>): (r: Pnr)
    requires i < |p.passengers|
    ensures |r.passengers| == |p.passengers|
    ensures r.passengers[i] == ApplyStatus(p.passengers[i], st, reason)
    ensures forall j :: 0 <= j < |p.passengers| && j != i ==> r.passengers[j] == p.passengers[j]
    ensures r.status == CalculateStatus(r.passengers)
    ensures r.(passengers := p.passengers, status := p.status) == p
  {
    PreSave(p.(passengers := p.passengers[i := ApplyStatus(p.passengers[i], st, reason)]))
  }

  /** One step of the `forEach` in `approveAllPending`. */
  function ApprovePending(p: Passenger): Passenger
  {
    if p.status == Pending then p.(status := Approved, rejectionReason := None) else p
  }

  /** Every passenger after `approveAllPending`'s loop, position by position. */
  function ApproveAll(ps: seq<Passenger>): (r: seq<Passenger>)
    ensures |r| == |ps|
    ensures forall i :: 0 <= i < |ps| ==> r[i] == ApprovePending(ps[i])
  {
    seq(|ps|, i requires 0 <= i < |ps| => ApprovePending(ps[i]))
  }

  /**
   * Pending passengers become approved with no reason; approved and declined
   * passengers are untouched; nothing is left pending.
   */
  lemma ApproveAllEffect(ps: seq<Passenger>)
    ensures forall i :: 0 <= i < |ps| && ps[i].status == Pending ==>
      ApproveAll(ps)[i] == ps[i].(status := Approved, rejectionReason := None)
    ensures forall i :: 0 <= i < |ps| && ps[i].status != Pending ==> ApproveAll(ps)[i] == ps[i]
    ensures forall i :: 0 <= i < |ps| ==> ApproveAll(ps)[i].status != Pending
    ensures forall i :: 0 <= i < |ps| ==> ApproveAll(ps)[i].id == ps[i].id
  {
  }

  /** With no pending passenger the loop changes nothing. */
  lemma ApproveAllNoPending(ps: seq<Passenger>)
    requires forall i :: 0 <= i < |ps| ==> ps[i].status != Pending
    ensures ApproveAll(ps) == ps
  {
  }

  lemma ApproveAllIdempotent(ps: seq<Passenger>)
    ensures ApproveAll(ApproveAll(ps)) == ApproveAll(ps)
  {
    ApproveAllEffect(ps);
    ApproveAllNoPending(ApproveAll(ps));
  }

  /** The saved record after `approveAllPending`. */
  function ApprovedRecord(p: Pnr): (r: Pnr)
    ensures r.passengers == ApproveAll(p.passengers)
    ensures r.status == CalculateStatus(r.passengers)
    ensures r.(passengers := p.passengers, status := p.status) == p
  {
    PreSave(p.(passengers := ApproveAll(p.passengers)))
  }

  /** Approving twice stores the same record as approving once. */
  lemma ApprovedRecordIdempotent(p: Pnr)
    ensures ApprovedRecord(ApprovedRecord(p)) == ApprovedRecord(p)
  {
    ApproveAllIdempotent(p.passengers);
  }

  /** On a consistently saved record with nothing pending, approve-all is a no-op. */
  lemma ApprovedRecordNoPending(p: Pnr)
    requires p.status == CalculateStatus(p.passengers)
    requires forall i :: 0 <= i < |p.passengers| ==> p.passengers[i].status != Pending
    ensures ApprovedRecord(p) == p
  {
    ApproveAllNoPending(p.passengers);
  }

  /** After approve-all a non-empty PNR is never pending: approved, declined or partially. */
  lemma ApprovedRecordNotPending(p: Pnr)
    requires |p.passengers| > 0
    ensures ApprovedRecord(p).status != Pending
  {
    var ps := ApproveAll(p.passengers);
    ApproveAllEffect(p.passengers);
    assert ps[0].status != Pending;
    CalculateStatusCases(ps);
  }

  /**
   * The review scenario: three pending passengers; decline the first
   * (partially); approve the rest (still partially, one is declined).
   * A single pending passenger approved by approve-all gives approved.
   */
  lemma ReviewScenario(a: Passenger, b: Passenger, c: Passenger)
    requires a.status == b.status == c.status == Pending
    ensures CalculateStatus([a, b, c]) == Pending
    ensures CalculateStatus([ApplyStatus(a, Declined, None), b, c]) == Partially
    ensures CalculateStatus(ApproveAll([ApplyStatus(a, Declined, None), b, c])) == Partially
    ensures CalculateStatus(ApproveAll([a])) == Approved
  {
    var ps := [ApplyStatus(a, Declined, None), b, c];
    assert ps[0].status != ps[1].status;
    var qs := ApproveAll(ps);
    assert qs[0].status == Declined && qs[1].status == Approved;
    assert !AllHave(qs, Pending) && !AllHave(qs, Approved) && !AllHave(qs, Declined);
    assert ApproveAll([a])[0].status == Approved;
    assert !AllHave(ApproveAll([a]), Pending);
  }
}
