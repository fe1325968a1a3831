/**
 * The express-validator chains of the register, login, create-PNR and
 * update-status routes: sanitisers (`trim`) that rewrite the request body and
 * the checks run on the rewritten values, as predicates.
 */
module Validation {
  import opened Wrappers
  import opened Records

  /** The whitespace `trim()` strips (the ASCII whitespace characters and no-break space). */
  predicate IsSpace(c: char)
  {
    c == ' ' || c == '\t' || c == '\n' || c == '\r' || c == '\U{0B}' || c == '\U{0C}' || c == '\U{A0}'
  }

  /** Drops the leading whitespace. */
  function TrimStart(s: string): (r: string)
    ensures |r| <= |s| && r == s[|s| - |r|..]
    ensures r == [] || !IsSpace(r[0])
    ensures forall i :: 0 <= i < |s| - |r| ==> IsSpace(s[i])
  {
    if s != [] && IsSpace(s[0]) then TrimStart(s[1..]) else s
  }

  /** Drops the trailing whitespace. */
  function TrimEnd(s: string): (r: string)
    ensures |r| <= |s| && r == s[..|r|]
    ensures r == [] || !IsSpace(r[|r| - 1])
    ensures forall i :: |r| <= i < |s| ==> IsSpace(s[i])
  {
    if s != [] && IsSpace(s[|s| - 1]) then TrimEnd(s[..|s| - 1]) else s
  }

  /** The `trim()` sanitiser. */
  function Trim(s: string): (r: string)
  {
    TrimEnd(TrimStart(s))
  }

  /** The number of leading whitespace characters `trim()` drops. */
  function Leading(s: string): (n: nat)
    ensures n <= |s|
    ensures forall i :: 0 <= i < n ==> IsSpace(s[i])
    ensures n < |s| ==> !IsSpace(s[n])
  {
    |s| - |TrimStart(s)|
  }

  /** Trim keeps the contiguous middle part of its input that starts after the leading whitespace. */
  lemma TrimIsInfix(s: string)
    ensures Leading(s) + |Trim(s)| <= |s|
    ensures Trim(s) == s[Leading(s)..Leading(s) + |Trim(s)|]
  {
  }

  /** What trim drops on either side is whitespace. */
  lemma TrimDropsSpace(s: string)
    ensures Leading(s) + |Trim(s)| <= |s|
    ensures forall k :: 0 <= k < Leading(s) ==> IsSpace(s[k])
    ensures forall k :: Leading(s) + |Trim(s)| <= k < |s| ==> IsSpace(s[k])
  {
    var t, i := TrimStart(s), Leading(s);
    var r := TrimEnd(t);
    forall k | i + |r| <= k < |s|
      ensures IsSpace(s[k])
    {
      assert s[k] == t[k - i];
    }
  }

  /** What trim keeps neither begins nor ends with whitespace. */
  lemma TrimEdges(s: string)
    ensures Trim(s) == [] || (!IsSpace(Trim(s)[0]) && !IsSpace(Trim(s)[|Trim(s)| - 1]))
  {
    var t := TrimStart(s);
    var r := TrimEnd(t);
    if r != [] {
      assert r[0] == t[0];
    }
  }

  /** A string without surrounding whitespace is its own trim. */
  lemma TrimFixedPoint(s: string)
    requires s == [] || (!IsSpace(s[0]) && !IsSpace(s[|s| - 1]))
    ensures Trim(s) == s
  {
  }

  lemma TrimIdempotent(s: string)
    ensures Trim(Trim(s)) == Trim(s)
  {
    TrimEdges(s);
    TrimFixedPoint(Trim(s));
  }

  /** Trimming an optional field: absent stays absent. */
  function TrimOption(s: Option<string>): (r: Option<string>)
    ensures r.Some? <==> s.Some?
    ensures r.Some? ==> r.value == Trim(s.value)
  {
    if s.Some? then Some(Trim(s.value)) else None
  }

  // ---- isEmail ----

  /** A domain with a dot that is neither its first nor its last character. */
  predicate IsDomain(d: string)
  {
    && |d| >= 3
    && d[0] != '.' && d[|d| - 1] != '.'
    && exists k :: 0 < k < |d| - 1 && d[k] == '.'
  }

  /** `isEmail()`, simplified: no whitespace, exactly one '@' with a non-empty local part and a dotted domain. */
  predicate IsEmail(s: string)
  {
    && (forall k :: 0 <= k < |s| ==> !IsSpace(s[k]))
    && exists a :: 0 < a < |s| && s[a] == '@'
         && (forall k :: 0 <= k < |s| && k != a ==> s[k] != '@')
         && IsDomain(s[a + 1..])
  }

  // ---- request bodies ----

  /** A passenger in a create body; `status` and `rejectionReason` pass through to the schema. */
  datatype PassengerInput = PassengerInput(
    name: string,
    documentId: string,
    image: Option<string>,
    status: Option<string>,
    rejectionReason: Option<string>)

  /** A missing string field reads as the empty string, a missing list as the empty list. */
  datatype CreatePnrRequest = CreatePnrRequest(pnr: string, tag: string, passengers: seq<PassengerInput>)

  datatype UpdateStatusRequest = UpdateStatusRequest(status: string, rejectionReason: Option<string>)

  datatype RegisterRequest = RegisterRequest(name: string, email: string, password: string, role: Option<string>)

  datatype LoginRequest = LoginRequest(email: string, password: string)

  predicate LengthBetween(s: string, lo: nat, hi: nat)
  {
    lo <= |s| <= hi
  }

  // ---- validateCreatePNR ----

  /** The body after the `trim()` sanitisers of `validateCreatePNR` have rewritten it. */
  function SanitizeCreate(req: CreatePnrRequest): (r: CreatePnrRequest)
    ensures r.pnr == Trim(req.pnr) && r.tag == Trim(req.tag)
    ensures |r.passengers| == |req.passengers|
    ensures forall i :: 0 <= i < |req.passengers| ==>
      r.passengers[i] == req.passengers[i].(name := Trim(req.passengers[i].name),
                                            documentId := Trim(req.passengers[i].documentId))
  {
    CreatePnrRequest(Trim(req.pnr), Trim(req.tag),
      seq(|req.passengers|, i requires 0 <= i < |req.passengers| =>
        var p := req.passengers[i];
        p.(name := Trim(p.name), documentId := Trim(p.documentId))))
  }

  predicate ValidPassengerInput(p: PassengerInput)
  {
    Trim(p.name) != [] && Trim(p.documentId) != []
  }

  /** `validateCreatePNR`. */
  predicate ValidCreatePnr(req: CreatePnrRequest)
  {
    && Trim(req.pnr) != [] && LengthBetween(Trim(req.pnr), 3, 20)
    && Trim(req.tag) != [] && LengthBetween(Trim(req.tag), 2, 10)
    && |req.passengers| >= 1
    && forall i :: 0 <= i < |req.passengers| ==> ValidPassengerInput(req.passengers[i])
  }

  /** Sanitising does not change the verdict. */
  lemma ValidCreateSanitized(req: CreatePnrRequest)
    ensures ValidCreatePnr(SanitizeCreate(req)) == ValidCreatePnr(req)
  {
    TrimIdempotent(req.pnr);
    TrimIdempotent(req.tag);
    var r := SanitizeCreate(req);
    forall i | 0 <= i < |req.passengers|
      ensures ValidPassengerInput(r.passengers[i]) == ValidPassengerInput(req.passengers[i])
    {
      TrimIdempotent(req.passengers[i].name);
      TrimIdempotent(req.passengers[i].documentId);
    }
  }

  /** A valid create body has a booking code of 3 to 20 and a tag of 2 to 10 non-blank-edged characters. */
  lemma ValidCreateShape(req: CreatePnrRequest)
    requires ValidCreatePnr(req)
    ensures var r := SanitizeCreate(req);
      && 3 <= |r.pnr| <= 20 && !IsSpace(r.pnr[0]) && !IsSpace(r.pnr[|r.pnr| - 1])
      && 2 <= |r.tag| <= 10 && !IsSpace(r.tag[0]) && !IsSpace(r.tag[|r.tag| - 1])
      && |r.passengers| >= 1
      && forall i :: 0 <= i < |r.passengers| ==> r.passengers[i].name != [] && r.passengers[i].documentId != []
  {
    TrimEdges(req.pnr);
    TrimEdges(req.tag);
  }

  // ---- validateUpdatePassengerStatus ----

  /** The body after `rejectionReason` has been trimmed. */
  function SanitizeUpdate(req: UpdateStatusRequest): (r: UpdateStatusRequest)
    ensures r.status == req.status && r.rejectionReason == TrimOption(req.rejectionReason)
  {
    req.(rejectionReason := TrimOption(req.rejectionReason))
  }

  /** `validateUpdatePassengerStatus`: a passenger status and, if given, a reason of at most 500 characters. */
  predicate ValidUpdateStatus(req: UpdateStatusRequest)
  {
    && req.status in ["pending", "approved", "declined"]
    && (req.rejectionReason.Some? ==> |Trim(req.rejectionReason.value)| <= 500)
  }

  /** The status check accepts exactly the passenger statuses: 'partially' is refused. */
  lemma ValidUpdateStatusParses(req: UpdateStatusRequest)
    ensures ValidUpdateStatus(req) <==>
      ParsePassengerStatus(req.status).Some?
      && (req.rejectionReason.Some? ==> |Trim(req.rejectionReason.value)| <= 500)
    ensures req.status == "partially" ==> !ValidUpdateStatus(req)
  {
  }

  // ---- validateRegister / validateLogin ----

  function ParseRole(s: string): (r: Option<Role>)
    ensures r.Some? <==> s in ["agent", "admin"]
    ensures r == Some(Agent) <==> s == "agent"
  {
    if s == "agent" then Some(Agent) else if s == "admin" then Some(Admin) else None
  }

  /** `validateRegister`. */
  predicate ValidRegister(req: RegisterRequest)
  {
    && Trim(req.name) != [] && LengthBetween(Trim(req.name), 2, 50)
    && Trim(req.email) != [] && IsEmail(Trim(req.email))
    && req.password != [] && |req.password| >= 6
    && (req.role.Some? ==> req.role.value in ["agent", "admin"])
  }

  /** `validateLogin`. */
  predicate ValidLogin(req: LoginRequest)
  {
    && Trim(req.email) != [] && IsEmail(Trim(req.email))
    && req.password != []
  }

  /** Whoever passes registration could log in with the same email and password. */
  lemma RegisterAdmitsLogin(req: RegisterRequest)
    requires ValidRegister(req)
    ensures ValidLogin(LoginRequest(req.email, req.password))
    ensures req.role.Some? ==> ParseRole(req.role.value).Some?
  {
  }
}
