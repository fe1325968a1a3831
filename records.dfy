/**
 * The records of the PNR review workflow: passengers embedded in a PNR
 * (booking) record, the users that own them, and the status enums.
 */
module Records {
  import opened Wrappers

  /** Store-generated identifiers (document ids, passenger sub-document ids, user ids). */
  type ObjectId = nat

  /** The PNR status enum: 'pending', 'approved', 'declined', 'partially'. */
  datatype Status = Pending | Approved | Declined | Partially

  /** The passenger status enum is the PNR enum without 'partially'. */
  type PassengerStatus = s: Status | s != Partially witness Pending

  /** The string a status is stored and transmitted as. */
  function StatusName(s: Status): string
  {
    match s
    case Pending => "pending"
    case Approved => "approved"
    case Declined => "declined"
    case Partially => "partially"
  }

  /** Reads one of the four PNR status strings; anything else is not a status. */
  function ParseStatus(s: string): (r: Option<Status>)
    ensures r.Some? <==> s in ["pending", "approved", "declined", "partially"]
    ensures r.Some? ==> StatusName(r.value) == s
  {
    if s == "pending" then Some(Pending)
    else if s == "approved" then Some(Approved)
    else if s == "declined" then Some(Declined)
    else if s == "partially" then Some(Partially)
    else None
  }

  /** Reads one of the three passenger status strings. */
  function ParsePassengerStatus(s: string): (r: Option<PassengerStatus>)
    ensures r.Some? <==> s in ["pending", "approved", "declined"]
    ensures r.Some? ==> StatusName(r.value) == s
  {
    match ParseStatus(s)
    case Some(st) => if st == Partially then None else Some(st)
    case None => None
  }

  lemma StatusNameRoundTrip(st: Status)
    ensures ParseStatus(StatusName(st)) == Some(st)
    ensures st != Partially ==> ParsePassengerStatus(StatusName(st)) == Some(st)
  {
  }

  /** A passenger sub-document; `image` and `rejectionReason` default to null. */
  datatype Passenger = Passenger(
    id: ObjectId,
    name: string,
    documentId: string,
    status: PassengerStatus,
    image: Option<string>,
    rejectionReason: Option<string>)

  /** A PNR document: booking `code` (the `pnr` field), tag, embedded passengers, composite status, owner. */
  datatype Pnr = Pnr(
    id: ObjectId,
    code: string,
    tag: string,
    passengers: seq<Passenger>,
    status: Status,
    createdBy: ObjectId,
    createdAt: nat)

  datatype Role = Agent | Admin

  /** A user document, as far as the core reads it. */
  datatype User = User(id: ObjectId, name: string, email: string, role: Role, isActive: bool, createdAt: nat)

  /** The identity the bearer token carries: `req.user = { userId, role }`. */
  datatype Caller = Caller(userId: ObjectId, role: Role)

  /** The error responses of the controllers (the HTTP status is noted per constructor). */
  datatype Error =
    | ValidationFailed   // 400, express-validator errors
    | DuplicatePnr       // 400, 'PNR already exists'
    | PnrNotFound        // 404
    | PassengerNotFound  // 404
    | AgentNotFound      // 404
    | NotAnAgent         // 400, 'User is not an agent'
    | ServerError        // 500, a write the schema rejects

  /** The `status` query parameter: applied only when it is one of the four PNR statuses. */
  function StatusFilter(query: Option<string>): (r: Option<Status>)
    ensures r.Some? <==> query.Some? && query.value in ["pending", "approved", "declined", "partially"]
    ensures r.Some? ==> StatusName(r.value) == query.value
  {
    if query.Some? then ParseStatus(query.value) else None
  }
}
