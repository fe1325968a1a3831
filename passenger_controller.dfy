/**
 * The PNR store and the passenger controller: scoped reads, creation with a
 * unique booking code, per-passenger review, approve-all and deletion. Every
 * insert and update goes through `Save`, which runs the pre-save hook;
 * deletion removes the record directly.
 */
module PassengerController {
  import opened Wrappers
  import opened Records
  import opened StatusEngine
  import opened Review
  import opened Validation
  import opened Collection
  import opened Stats

  /** A store filter, built field by field as the controllers build their `query` objects. */
  datatype PnrQuery = PnrQuery(id: Option<ObjectId>, owner: Option<ObjectId>, code: Option<string>, status: Option<Status>)

  const AnyPnr := PnrQuery(None, None, None, None)

  predicate Matches(q: PnrQuery, p: Pnr)
  {
    && (q.id.Some? ==> p.id == q.id.value)
    && (q.owner.Some? ==> p.createdBy == q.owner.value)
    && (q.code.Some? ==> p.code == q.code.value)
    && (q.status.Some? ==> p.status == q.status.value)
  }

  function CreatedAt(p: Pnr): nat
  {
    p.createdAt
  }

  /** `s` is what `find(q).sort({ createdAt: -1 })` returns on `m`: each matching record once, newest first. */
  ghost predicate IsSortedResult(m: map<ObjectId, Pnr>, q: PnrQuery, s: seq<Pnr>)
  {
    && (forall i :: 0 <= i < |s| ==> s[i].id in m && m[s[i].id] == s[i] && Matches(q, s[i]))
    && (forall k :: k in m && Matches(q, m[k]) ==> exists i :: 0 <= i < |s| && s[i].id == k)
    && (forall i, j :: 0 <= i < j < |s| ==> s[i].id != s[j].id)
    && SortedDesc(s, CreatedAt)
  }

  /**
   * `s` lists exactly the PNRs `owner` created that pass the status filter
   * (no filter when it is absent), each once, newest first.
   */
  ghost predicate IsListing(m: map<ObjectId, Pnr>, owner: ObjectId, filter: Option<Status>, s: seq<Pnr>)
  {
    && (forall i :: 0 <= i < |s| ==>
          s[i].id in m && m[s[i].id] == s[i] && s[i].createdBy == owner
          && (filter.Some? ==> s[i].status == filter.value))
    && (forall k :: k in m && m[k].createdBy == owner && (filter.Some? ==> m[k].status == filter.value) ==>
          exists i :: 0 <= i < |s| && s[i].id == k)
    && (forall i, j :: 0 <= i < j < |s| ==> s[i].id != s[j].id)
    && (forall i, j :: 0 <= i < j < |s| ==> s[i].createdAt >= s[j].createdAt)
  }

  /** The owner-and-status query returns the listing of that owner under that filter. */
  lemma ListingOfQuery(m: map<ObjectId, Pnr>, owner: ObjectId, filter: Option<Status>, s: seq<Pnr>)
    requires IsSortedResult(m, AnyPnr.(owner := Some(owner), status := filter), s)
    ensures IsListing(m, owner, filter, s)
  {
    forall i, j | 0 <= i < j < |s|
      ensures s[i].createdAt >= s[j].createdAt
    {
      assert CreatedAt(s[i]) >= CreatedAt(s[j]);
    }
  }

  /** Admins review any PNR; agents only their own. */
  predicate MayReview(c: Caller, p: Pnr)
  {
    c.role == Admin || p.createdBy == c.userId
  }

  ghost predicate CodeTaken(m: map<ObjectId, Pnr>, code: string)
  {
    exists k :: k in m && m[k].code == code
  }

  /** `passengers.id(passengerId)`: the first passenger with that id. */
  function FindPassenger(ps: seq<Passenger>, id: ObjectId): (r: Option<nat>)
    ensures r.Some? ==> r.value < |ps| && ps[r.value].id == id
    ensures r.Some? ==> forall j :: 0 <= j < r.value ==> ps[j].id != id
    ensures r.None? ==> forall j :: 0 <= j < |ps| ==> ps[j].id != id
  {
    if ps == [] then None
    else if ps[0].id == id then Some(0)
    else match FindPassenger(ps[1..], id)
      case Some(i) => Some(i + 1)
      case None => None
  }

  // ---- the passenger schema ----

  /** What the passenger schema accepts: a name of at most 100 characters and a status from its enum. */
  predicate PassengerSchemaAccepts(p: PassengerInput)
  {
    |p.name| <= 100 && (p.status.Some? ==> ParsePassengerStatus(p.status.value).Some?)
  }

  predicate SchemaAccepts(body: CreatePnrRequest)
  {
    forall i :: 0 <= i < |body.passengers| ==> PassengerSchemaAccepts(body.passengers[i])
  }

  /** A passenger sub-document as the schema builds it, with its defaults. */
  function NewPassenger(p: PassengerInput, id: ObjectId): (r: Passenger)
    requires PassengerSchemaAccepts(p)
    ensures r.id == id && r.name == p.name && r.documentId == p.documentId
    ensures r.image == p.image && r.rejectionReason == p.rejectionReason
    ensures p.status.None? ==> r.status == Pending
    ensures p.status.Some? ==> StatusName(r.status) == p.status.value
  {
    Passenger(id, p.name, p.documentId,
      if p.status.Some? then ParsePassengerStatus(p.status.value).value else Pending,
      p.image, p.rejectionReason)
  }

  /** The document `PNR.create` saves: passenger ids follow the PNR id. */
  function NewRecord(id: ObjectId, owner: ObjectId, body: CreatePnrRequest, now: nat): (r: Pnr)
    requires SchemaAccepts(body)
    ensures r.id == id && r.code == body.pnr && r.tag == body.tag
    ensures r.createdBy == owner && r.createdAt == now
    ensures |r.passengers| == |body.passengers|
    ensures forall i :: 0 <= i < |body.passengers| ==> r.passengers[i] == NewPassenger(body.passengers[i], id + 1 + i)
    ensures r.status == CalculateStatus(r.passengers)
    ensures (forall i :: 0 <= i < |body.passengers| ==> body.passengers[i].status.None?) ==> r.status == Pending
  {
    var ps := seq(|body.passengers|, i requires 0 <= i < |body.passengers| =>
      NewPassenger(body.passengers[i], id + 1 + i));
    PreSave(Pnr(id, body.pnr, body.tag, ps, Pending, owner, now))
  }

  // ---- the store ----

  class PnrStore {
    var records: map<ObjectId, Pnr>
    /** The next identifier the store hands out. */
    var nextId: ObjectId

    /**
     * Every record sits under its own id, below `nextId`; its status is that
     * of its passengers (the pre-save hook ran on it); booking codes are unique.
     */
    ghost predicate Valid()
      reads this
    {
      && (forall k :: k in records ==> records[k].id == k && k < nextId)
      && (forall k :: k in records ==> records[k].status == CalculateStatus(records[k].passengers))
      && (forall k1, k2 :: k1 in records && k2 in records && k1 != k2 ==> records[k1].code != records[k2].code)
    }

    constructor ()
      ensures Valid() && records == map[]
    {
      records := map[];
      nextId := 0;
    }

    /** `PNR.find(q).sort({ createdAt: -1 })`. */
    method FindMany(q: PnrQuery) returns (s: seq<Pnr>)
      requires Valid()
      ensures IsSortedResult(records, q, s)
    {
      var r, keys := FindSorted(records, (p: Pnr) => Matches(q, p), CreatedAt);
      s := r;
      forall k | k in records && Matches(q, records[k])
        ensures exists i :: 0 <= i < |s| && s[i].id == k
      {
        assert k in keys;
        var i :| 0 <= i < |keys| && keys[i] == k;
        assert s[i].id == k;
      }
    }

    /** `PNR.findOne(q)`. */
    method FindOne(q: PnrQuery) returns (r: Option<Pnr>)
      requires Valid()
      ensures r.Some? ==> r.value.id in records && records[r.value.id] == r.value && Matches(q, r.value)
      ensures r.None? ==> forall k :: k in records ==> !Matches(q, records[k])
    {
      var s := FindMany(q);
      if |s| > 0 {
        r := Some(s[0]);
      } else {
        r := None;
      }
    }

    /** `PNR.find({ createdBy: owner })`, as the stats read it. */
    method FindOwned(owner: ObjectId) returns (all: seq<Pnr>)
      requires Valid()
      ensures Tally(all) == OwnerStats(records, owner)
      ensures AgentTally(all) == OwnerAgentStats(records, owner)
    {
      all := FindMany(AnyPnr.(owner := Some(owner)));
      ghost var keys := seq(|all|, i requires 0 <= i < |all| => all[i].id);
      forall k
        ensures k in keys <==> k in Owned(records, owner)
      {
        if k in Owned(records, owner) {
          var i :| 0 <= i < |all| && all[i].id == k;
          assert keys[i] == k;
        }
      }
      TallyOfOwned(records, owner, keys, all);
    }

    /** The `save()` of a record: the pre-save hook recomputes the status, then the record is stored. */
    method Save(p: Pnr)
      requires Valid()
      requires p.id < nextId
      requires forall k :: k in records && k != p.id ==> records[k].code != p.code
      modifies this`records
      ensures Valid()
      ensures records == old(records)[p.id := PreSave(p)]
    {
      records := records[p.id := PreSave(p)];
    }

    /** `getPNRs`: the caller's PNRs under an optional status filter, and stats over all of them. */
    method GetPnrs(caller: Caller, status: Option<string>) returns (pnrs: seq<Pnr>, stats: Stats)
      requires Valid()
      ensures IsListing(records, caller.userId, StatusFilter(status), pnrs)
      ensures stats == OwnerStats(records, caller.userId)
    {
      var query := AnyPnr.(owner := Some(caller.userId));
      var filter := StatusFilter(status);
      if filter.Some? {
        query := query.(status := filter);
      }
      assert query == AnyPnr.(owner := Some(caller.userId), status := filter);
      pnrs := FindMany(query);
      ListingOfQuery(records, caller.userId, filter, pnrs);
      var all := FindOwned(caller.userId);
      stats := Tally(all);
    }

    /** `getPNRById`: owner-only; someone else's PNR reads as missing. */
    method GetPnrById(caller: Caller, id: ObjectId) returns (r: Result<Pnr, Error>)
      requires Valid()
      ensures r.Ok? <==> id in records && records[id].createdBy == caller.userId
      ensures r.Ok? ==> r.value == records[id]
      ensures r.Err? ==> r.error == PnrNotFound
    {
      var found := FindOne(AnyPnr.(id := Some(id), owner := Some(caller.userId)));
      if found.None? {
        return Err(PnrNotFound);
      }
      r := Ok(found.value);
    }

    /**
     * `createPNR`: validate, refuse a booking code already in the store, let the
     * schema check the passengers, then insert the new record owned by the caller.
     */
    method CreatePnr(caller: Caller, req: CreatePnrRequest, now: nat) returns (r: Result<Pnr, Error>)
      requires Valid()
      modifies this
      ensures Valid()
      ensures !ValidCreatePnr(req) ==> r == Err(ValidationFailed)
      ensures ValidCreatePnr(req) && CodeTaken(old(records), Trim(req.pnr)) ==> r == Err(DuplicatePnr)
      ensures ValidCreatePnr(req) && !CodeTaken(old(records), Trim(req.pnr)) && !SchemaAccepts(SanitizeCreate(req))
        ==> r == Err(ServerError)
      ensures r.Ok? <==>
        ValidCreatePnr(req) && !CodeTaken(old(records), Trim(req.pnr)) && SchemaAccepts(SanitizeCreate(req))
      ensures r.Err? ==> records == old(records) && nextId == old(nextId)
      ensures r.Ok? ==>
        && old(nextId) !in old(records)
        && r.value == NewRecord(old(nextId), caller.userId, SanitizeCreate(req), now)
        && records == old(records)[old(nextId) := r.value]
    {
      if !ValidCreatePnr(req) {
        return Err(ValidationFailed);
      }
      var body := SanitizeCreate(req);
      var existing := FindOne(AnyPnr.(code := Some(body.pnr)));
      if existing.Some? {
        return Err(DuplicatePnr);
      }
      if !SchemaAccepts(body) {
        return Err(ServerError);
      }
      var id := nextId;
      var p := NewRecord(id, caller.userId, body, now);
      nextId := nextId + 1 + |body.passengers|;
      Save(p);
      r := Ok(records[id]);
    }

    /**
     * `updatePassengerStatus`: validate, find the PNR under the review scope and
     * the passenger in it, set status and reason, save.
     */
    method UpdatePassengerStatus(caller: Caller, pnrId: ObjectId, passengerId: ObjectId, req: UpdateStatusRequest)
      returns (r: Result<Pnr, Error>)
      requires Valid()
      modifies this`records
      ensures Valid()
      ensures !ValidUpdateStatus(req) ==> r == Err(ValidationFailed)
      ensures ValidUpdateStatus(req) && !(pnrId in old(records) && MayReview(caller, old(records)[pnrId]))
        ==> r == Err(PnrNotFound)
      ensures (&& ValidUpdateStatus(req) && pnrId in old(records) && MayReview(caller, old(records)[pnrId])
               && FindPassenger(old(records)[pnrId].passengers, passengerId).None?)
        ==> r == Err(PassengerNotFound)
      ensures r.Ok? <==>
        && ValidUpdateStatus(req) && pnrId in old(records) && MayReview(caller, old(records)[pnrId])
        && FindPassenger(old(records)[pnrId].passengers, passengerId).Some?
      ensures r.Err? ==> records == old(records)
      ensures r.Ok? ==>
        && pnrId in old(records)
        && FindPassenger(old(records)[pnrId].passengers, passengerId).Some?
        && ParsePassengerStatus(req.status).Some?
        && r.value == UpdatedRecord(old(records)[pnrId],
                                    FindPassenger(old(records)[pnrId].passengers, passengerId).value,
                                    ParsePassengerStatus(req.status).value,
                                    TrimOption(req.rejectionReason))
        && records == old(records)[pnrId := r.value]
    {
      if !ValidUpdateStatus(req) {
        return Err(ValidationFailed);
      }
      var body := SanitizeUpdate(req);
      var status := ParsePassengerStatus(body.status).value;
      var query := AnyPnr.(id := Some(pnrId));
      if caller.role != Admin {
        query := query.(owner := Some(caller.userId));
      }
      var found := FindOne(query);
      if found.None? {
        return Err(PnrNotFound);
      }
      var pnr := found.value;
      var index := FindPassenger(pnr.passengers, passengerId);
      if index.None? {
        return Err(PassengerNotFound);
      }
      var i := index.value;
      var passenger := pnr.passengers[i].(status := status);
      if status == Declined && Truthy(body.rejectionReason) {
        passenger := passenger.(rejectionReason := body.rejectionReason);
      } else if status != Declined {
        passenger := passenger.(rejectionReason := None);
      }
      pnr := pnr.(passengers := pnr.passengers[i := passenger]);
      Save(pnr);
      r := Ok(records[pnrId]);
    }

    /** `approveAllPending`: under the review scope, approve every pending passenger and save. */
    method ApproveAllPending(caller: Caller, pnrId: ObjectId) returns (r: Result<Pnr, Error>)
      requires Valid()
      modifies this`records
      ensures Valid()
      ensures r.Ok? <==> pnrId in old(records) && MayReview(caller, old(records)[pnrId])
      ensures r.Err? ==> r.error == PnrNotFound && records == old(records)
      ensures r.Ok? ==> r.value == ApprovedRecord(old(records)[pnrId]) && records == old(records)[pnrId := r.value]
    {
      var query := AnyPnr.(id := Some(pnrId));
      if caller.role != Admin {
        query := query.(owner := Some(caller.userId));
      }
      var found := FindOne(query);
      if found.None? {
        return Err(PnrNotFound);
      }
      var pnr := found.value;
      var ps := pnr.passengers;
      var i := 0;
      while i < |ps|
        invariant 0 <= i <= |ps| == |pnr.passengers|
        invariant forall j :: 0 <= j < i ==> ps[j] == ApprovePending(pnr.passengers[j])
        invariant forall j :: i <= j < |ps| ==> ps[j] == pnr.passengers[j]
      {
        if ps[i].status == Pending {
          ps := ps[i := ps[i].(status := Approved, rejectionReason := None)];
        }
        i := i + 1;
      }
      assert ps == ApproveAll(pnr.passengers);
      Save(pnr.(passengers := ps));
      r := Ok(records[pnrId]);
    }

    /** `deletePNR`: owner-only, whatever the caller's role; anything else reads as missing. */
    method DeletePnr(caller: Caller, id: ObjectId) returns (r: Result<Pnr, Error>)
      requires Valid()
      modifies this`records
      ensures Valid()
      ensures r.Ok? <==> id in old(records) && old(records)[id].createdBy == caller.userId
      ensures r.Ok? ==> r.value == old(records)[id] && records == old(records) - {id}
      ensures r.Err? ==> r.error == PnrNotFound && records == old(records)
    {
      var found := FindOne(AnyPnr.(id := Some(id), owner := Some(caller.userId)));
      if found.None? {
        return Err(PnrNotFound);
      }
      records := records - {id};
      r := Ok(found.value);
    }
  }
}
