# KYC PNR review — a verified model

This project models the core of a KYC back office for airline bookings. An
agent registers a PNR (a booking record): a booking code, a tag and one or
more passengers with identity documents. Each passenger is then approved or
declined, one at a time or all pending together. The PNR's own status is
derived from its passengers every time the record is saved. It is pending,
approved, declined or partially (mixed).

The model covers:

- the derived-status rule and the pre-save hook (`StatusEngine`);
- the two review mutations as values (`Review`);
- the request validators and their `trim` sanitisers (`Validation`);
- the PNR store and the passenger controller, as a class over a map of records (`PassengerController`);
- the admin's agent overview (`AgentController`);
- the status counts the dashboards show (`Stats`);
- the store's sorted query (`Collection`);
- the two client-side state slices, as classes updated in place (`PassengerSlice`, `AgentSlice`, `SliceErrors`).

The store's invariant `PnrStore.Valid()` is kept by every write. It has three parts:

- every record sits under its id, and every id is below the next id the store hands out;
- every record's status equals `CalculateStatus` of its passengers;
- booking codes are unique.

Three behaviours of the code that the model keeps as written:

- `getPNRById` is owner-only. An admin reading someone else's PNR gets "PNR not found".
- Declining a passenger without a (truthy) reason keeps the reason already stored rather than clearing it.
- `createPNR` passes the passenger objects of the body to the schema as they are. A client can therefore supply `status` and `rejectionReason`. A status outside the passenger enum, or a name over 100 characters, is refused by the schema, which the model treats as a server error with nothing stored.

## Model

| member | source | states |
|---|---|---|
| Records.ParseStatus | backend/Modals/Passenger.Modals.js:47-51 | a string is a PNR status exactly when it is one of the four enum names, and then it names that status |
| Records.ParsePassengerStatus | backend/Modals/Passenger.Modals.js:15-19 | a string is a passenger status exactly when it is 'pending', 'approved' or 'declined' |
| Records.StatusNameRoundTrip | backend/Modals/Passenger.Modals.js:47-51 | parsing a status's name gives the status back, for both enums |
| Records.StatusFilter | backend/Controllers/Passenger.controller.js:12-14 | the `status` query filters exactly when it is present and one of the four PNR statuses, and then filters on that status |
| StatusEngine.CalculateStatus | backend/Modals/Passenger.Modals.js:62-85 | defines the derived status: pending with no passengers or all pending, then approved, then declined when all agree, else partially (characterised by CalculateStatusCases) |
| StatusEngine.EmptyIsPending | backend/Modals/Passenger.Modals.js:63-65 | a PNR without passengers is pending |
| StatusEngine.CalculateStatusCases | backend/Modals/Passenger.Modals.js:62-85 | pending iff every passenger is pending; approved (declined) iff there are passengers and all are approved (declined); partially iff two passengers differ |
| StatusEngine.AllHavePermutation | backend/Modals/Passenger.Modals.js:67-69 | "every passenger has status st" does not depend on the order of the passengers |
| StatusEngine.CalculateStatusPermutation | backend/Modals/Passenger.Modals.js:62-85 | reordering the passengers does not change the derived status |
| StatusEngine.PreSave | backend/Modals/Passenger.Modals.js:88-91 | the saved record's status is the derived status of its passengers; nothing else changes |
| StatusEngine.PreSaveKeepsConsistent | backend/Modals/Passenger.Modals.js:88-91 | on a record whose status is already derived, the hook is the identity |
| Review.ApplyStatus | backend/Controllers/Passenger.controller.js:211-216 | the new status is stored; declining with a truthy reason stores it, any other status clears it, declining without one keeps the old reason; no other field changes |
| Review.ApplyStatusReasonOnlyWhenDeclined | backend/Controllers/Passenger.controller.js:211-216 | after an update the passenger carries a reason only if it is declined |
| Review.UpdatedRecord | backend/Controllers/Passenger.controller.js:203-218 | only the addressed passenger changes; the PNR status is re-derived; the other fields are kept |
| Review.ApprovePending | backend/Controllers/Passenger.controller.js:275-278 | defines one step of the loop: a pending passenger becomes approved with no reason, others stay |
| Review.ApproveAll | backend/Controllers/Passenger.controller.js:274-279 | the loop's result, position by position, is the one-step approve of each passenger |
| Review.ApproveAllEffect | backend/Controllers/Passenger.controller.js:274-279 | pending passengers become approved with no reason; the others are untouched; none is left pending; ids are kept |
| Review.ApproveAllNoPending | backend/Controllers/Passenger.controller.js:274-279 | with nothing pending the loop changes nothing |
| Review.ApproveAllIdempotent | backend/Controllers/Passenger.controller.js:274-279 | approving all twice equals approving all once |
| Review.ApprovedRecord | backend/Controllers/Passenger.controller.js:274-281 | the saved record after approve-all holds the approved passengers and their derived status; other fields are kept |
| Review.ApprovedRecordIdempotent | backend/Controllers/Passenger.controller.js:274-281 | a second approve-all stores the same record as the first |
| Review.ApprovedRecordNoPending | backend/Controllers/Passenger.controller.js:274-281 | on a consistent record with nothing pending, approve-all stores the record unchanged |
| Review.ApprovedRecordNotPending | backend/Controllers/Passenger.controller.js:274-281 | after approve-all a PNR with passengers is never pending |
| Review.ReviewScenario | backend/Modals/Passenger.Modals.js:62-85 | three pending passengers: pending; decline one: partially; approve the rest: still partially; approve a single pending passenger: approved |
| Validation.Trim | backend/middleware/validator.middleware.js:49-50 | defines `trim()` as dropping leading then trailing whitespace (its properties are the Trim lemmas below) |
| Validation.IsEmail | backend/middleware/validator.middleware.js:16-17 | defines the simplified email check: no whitespace, one '@' after a non-empty local part, a dotted domain |
| Validation.TrimStart | backend/middleware/validator.middleware.js:49-50 | the result is a suffix of the input that does not start with whitespace, and everything dropped is whitespace |
| Validation.TrimEnd | backend/middleware/validator.middleware.js:49-50 | the result is a prefix of the input that does not end with whitespace, and everything dropped is whitespace |
| Validation.Leading | backend/middleware/validator.middleware.js:49-50 | the number of leading characters trim drops is exactly the length of the leading whitespace run |
| Validation.TrimIsInfix | backend/middleware/validator.middleware.js:49-50 | the trimmed string is the contiguous slice of the input after the leading whitespace |
| Validation.TrimDropsSpace | backend/middleware/validator.middleware.js:49-50 | every character trim drops, on either side, is whitespace |
| Validation.TrimEdges | backend/middleware/validator.middleware.js:49-50 | the trimmed string neither begins nor ends with whitespace |
| Validation.TrimFixedPoint | backend/middleware/validator.middleware.js:49-50 | a string without surrounding whitespace is unchanged by trim |
| Validation.TrimIdempotent | backend/middleware/validator.middleware.js:49-50 | trimming twice equals trimming once |
| Validation.TrimOption | backend/middleware/validator.middleware.js:84-86 | an optional field stays absent or present, and a present one is trimmed |
| Validation.ValidCreatePnr | backend/middleware/validator.middleware.js:48-76 | defines the create check: trimmed code of 3 to 20 and tag of 2 to 10 characters, at least one passenger, every trimmed name and document id non-empty |
| Validation.SanitizeCreate | backend/middleware/validator.middleware.js:48-76 | the booking code, the tag and each passenger's name and document id are trimmed in place; nothing else changes |
| Validation.ValidCreateSanitized | backend/middleware/validator.middleware.js:48-76 | the create validator gives the same verdict on the sanitised body as on the raw one |
| Validation.ValidCreateShape | backend/middleware/validator.middleware.js:48-76 | an accepted body has a trimmed code of 3 to 20 and a trimmed tag of 2 to 10 characters, at least one passenger, and non-empty names and document ids |
| Validation.SanitizeUpdate | backend/middleware/validator.middleware.js:84-86 | only the rejection reason is trimmed |
| Validation.ValidUpdateStatus | backend/middleware/validator.middleware.js:79-89 | defines the update check: a passenger status string and, if present, a trimmed reason of at most 500 characters |
| Validation.ValidUpdateStatusParses | backend/middleware/validator.middleware.js:79-89 | the update validator accepts exactly a passenger status with an optional trimmed reason of at most 500 characters; 'partially' is refused |
| Validation.ParseRole | backend/middleware/validator.middleware.js:26-29 | a role string is accepted exactly when it is 'agent' or 'admin' |
| Validation.ValidRegister | backend/middleware/validator.middleware.js:4-30 | defines the register check: trimmed name of 2 to 50 characters, a valid trimmed email, a password of at least 6 characters, an optional role of agent or admin |
| Validation.ValidLogin | backend/middleware/validator.middleware.js:33-45 | defines the login check: a valid trimmed email and a non-empty password |
| Validation.RegisterAdmitsLogin | backend/middleware/validator.middleware.js:4-45 | a body that passes registration passes login with the same email and password, and its role, if any, parses |
| Collection.InsertPosition | backend/Controllers/Passenger.controller.js:16-17 | the insertion point has only newer-or-equal entries before it and an older entry at it |
| Collection.InsertAt | backend/Controllers/Passenger.controller.js:16-17 | inserting shifts the entries from that point on by one and keeps the rest |
| Collection.InsertKeepsSorted | backend/Controllers/Passenger.controller.js:16-17 | inserting at the insertion point keeps a newest-first sequence newest-first |
| Collection.InsertPair | backend/Controllers/Passenger.controller.js:16-17 | inserting a fresh accepted id and its record at one position keeps ids and records in step and distinct, and adds exactly that id |
| Collection.SkipStep | backend/Controllers/Passenger.controller.js:16 | visiting a record the filter rejects leaves the partial result as it is |
| Collection.KeepStep | backend/Controllers/Passenger.controller.js:16-17 | visiting a record the filter accepts inserts it at its place by date, and the partial result stays complete, distinct and newest first |
| Collection.FindSorted | backend/Controllers/Passenger.controller.js:16-17 | the query returns each matching record exactly once and nothing else, newest first |
| Stats.CountStatus | backend/Controllers/Passenger.controller.js:22-27 | a status count never exceeds the number of records |
| Stats.Tally | backend/Controllers/Passenger.controller.js:22-27 | defines the four status counts over a list of PNRs |
| Stats.AgentTally | backend/Controllers/Agent.controller.js:19-25 | defines the agent stats: the list length as total and the four status counts |
| Stats.TallyPartition | backend/Controllers/Agent.controller.js:19-25 | the four status counts add up to the number of records (the agent stats' `total`) |
| Stats.OwnerStatsPartition | backend/Controllers/Passenger.controller.js:21-27 | an owner's four counts add up to the number of PNRs the owner has |
| Stats.OwnerAgentStatsPartition | backend/Controllers/Agent.controller.js:19-25 | an agent's pending, approved, declined and partially counts add up to their total |
| Stats.KeysWithCons | backend/Controllers/Passenger.controller.js:22-27 | splitting off the first listed id adds it to the count of a status exactly when its record has that status |
| Stats.CountByKeys | backend/Controllers/Passenger.controller.js:22-27 | counting a status over distinct fetched records counts the stored records with that status |
| Stats.CountOwned | backend/Controllers/Passenger.controller.js:21-27 | counting over an owner's fetched records gives the number of the owner's stored PNRs with that status |
| Stats.TallyOfOwned | backend/Controllers/Passenger.controller.js:21-27 | the stats over an owner's fetched records are the owner's stats in the store |
| PassengerController.FindPassenger | backend/Controllers/Passenger.controller.js:203-209 | the first passenger with that id, or none when no passenger has it |
| PassengerController.MayReview | backend/Controllers/Passenger.controller.js:188-192 | defines the review scope: an admin may review any PNR, an agent only their own |
| PassengerController.PassengerSchemaAccepts | backend/Modals/Passenger.Modals.js:4-19 | defines what the passenger schema accepts: a name of at most 100 characters and, if given, a status from its enum |
| PassengerController.NewPassenger | backend/Modals/Passenger.Modals.js:3-30 | the sub-document keeps name, document id, image and reason; its status is the given one or the 'pending' default |
| PassengerController.NewRecord | backend/Controllers/Passenger.controller.js:133-138 | the created record has the body's code, tag and passengers, the caller as owner, and the derived status; with no status given it is pending |
| PassengerController.ListingOfQuery | backend/Controllers/Passenger.controller.js:10-18 | the owner query with the optional status filter returns exactly the owner's listing under that filter, newest first |
| PassengerController.PnrStore.Valid | backend/Modals/Passenger.Modals.js:32-91 | defines the store invariant: each record under its id and below the next id, its status derived by the pre-save hook, booking codes unique |
| PassengerController.PnrStore.constructor | backend/Modals/Passenger.Modals.js:32-59 | an empty store satisfies the invariant |
| PassengerController.PnrStore.FindMany | backend/Controllers/Passenger.controller.js:16-18 | exactly the matching records, each once, newest first |
| PassengerController.PnrStore.FindOne | backend/Controllers/Passenger.controller.js:125 | a stored matching record, or none when no record matches |
| PassengerController.PnrStore.FindOwned | backend/Controllers/Passenger.controller.js:21-27 | the counts over the fetched records are the owner's stats in the store |
| PassengerController.PnrStore.Save | backend/Modals/Passenger.Modals.js:88-91 | the record is stored after the pre-save hook; the invariant is kept |
| PassengerController.PnrStore.GetPnrs | backend/Controllers/Passenger.controller.js:7-27 | exactly the caller's PNRs passing the status filter, each once, newest first; stats over all the caller's PNRs |
| PassengerController.PnrStore.GetPnrById | backend/Controllers/Passenger.controller.js:64-76 | found iff the record exists and the caller owns it, whatever the role; otherwise PNR not found |
| PassengerController.PnrStore.CreatePnr | backend/Controllers/Passenger.controller.js:112-138 | validation error, then duplicate code, then schema failure, in that order, each leaving the store unchanged; otherwise the new record is added under a fresh id |
| PassengerController.PnrStore.UpdatePassengerStatus | backend/Controllers/Passenger.controller.js:175-218 | validation error; PNR not found unless it exists and the caller is its owner or an admin; passenger not found; success exactly when none of these applies, and then the stored record becomes the updated record |
| PassengerController.PnrStore.ApproveAllPending | backend/Controllers/Passenger.controller.js:255-281 | found iff the PNR exists and the caller is its owner or an admin; then the stored record becomes the approved record |
| PassengerController.PnrStore.DeletePnr | backend/Controllers/Passenger.controller.js:318-331 | deleted iff the record exists and the caller owns it, whatever the role; only that record goes |
| AgentController.FindAgents | backend/Controllers/Agent.controller.js:10-12 | exactly the users whose role is agent, each once, newest first |
| AgentController.WithStats | backend/Controllers/Agent.controller.js:15-38 | each agent, in order, paired with the tally of the PNRs they own |
| AgentController.GetAllAgents | backend/Controllers/Agent.controller.js:7-38 | exactly the agent users, each once, newest first, each with the stats of the PNRs they own; the four counts add up to the total |
| AgentController.GetAgentPassengers | backend/Controllers/Agent.controller.js:59-98 | agent not found; not an agent; otherwise the agent, their PNRs passing the filter newest first, and stats over all their PNRs |
| SliceErrors.RejectionMessage | frontend/src/Action/Passenger/passenger.slice.js:48-51 | a non-empty payload is the message; an absent or empty one gives the fixed fallback |
| PassengerSlice.IndexOfId | frontend/src/Action/Passenger/passenger.slice.js:88 | the first position holding the id, or -1 when no entry has it |
| PassengerSlice.WithoutId | frontend/src/Action/Passenger/passenger.slice.js:129 | no entry with the id remains, and every other entry stays |
| PassengerSlice.WithoutIdAppend | frontend/src/Action/Passenger/passenger.slice.js:129 | the filter distributes over concatenation, so it keeps the order of the rest |
| PassengerSlice.WithoutIdAbsent | frontend/src/Action/Passenger/passenger.slice.js:129 | filtering an id no entry has leaves the list as it is |
| PassengerSlice.CreateThenDelete | frontend/src/Action/Passenger/passenger.slice.js:71-75 | deleting a just-created PNR whose id was new restores the list |
| PassengerSlice.PassengerState.constructor | frontend/src/Action/Passenger/passenger.slice.js:11-22 | no PNRs, none on display, zero stats, idle, no error |
| PassengerSlice.PassengerState.ClearError | frontend/src/Action/Passenger/passenger.slice.js:28-30 | the error is cleared and nothing else changes |
| PassengerSlice.PassengerState.ClearCurrentPnr | frontend/src/Action/Passenger/passenger.slice.js:31-33 | the PNR on display is cleared and nothing else changes |
| PassengerSlice.PassengerState.RequestPending | frontend/src/Action/Passenger/passenger.slice.js:38-41 | loading, no error; the data are kept |
| PassengerSlice.PassengerState.RequestRejected | frontend/src/Action/Passenger/passenger.slice.js:48-51 | not loading, the payload or that request's fixed message; the data are kept |
| PassengerSlice.PassengerState.GetPnrsFulfilled | frontend/src/Action/Passenger/passenger.slice.js:42-47 | the list and the stats are those of the response |
| PassengerSlice.PassengerState.GetPnrByIdFulfilled | frontend/src/Action/Passenger/passenger.slice.js:57-61 | the PNR on display is the response |
| PassengerSlice.PassengerState.CreatePnrFulfilled | frontend/src/Action/Passenger/passenger.slice.js:71-75 | the new PNR is first and the old entries follow in order |
| PassengerSlice.PassengerState.PnrReplacedFulfilled | frontend/src/Action/Passenger/passenger.slice.js:85-96 | the first entry with the PNR's id is replaced and no other; the list is unchanged without one; the PNR on display is replaced only if it has that id |
| PassengerSlice.PassengerState.DeletePnrFulfilled | frontend/src/Action/Passenger/passenger.slice.js:127-134 | the list loses every entry with the id; the PNR on display is cleared only if it has that id |
| AgentSlice.AgentState.constructor | frontend/src/Action/Agent/agent.slice.js:7-19 | no agents, none selected, no PNRs, zero stats, idle, no error |
| AgentSlice.AgentState.ClearError | frontend/src/Action/Agent/agent.slice.js:25-27 | the error is cleared and nothing else changes |
| AgentSlice.AgentState.ClearSelectedAgent | frontend/src/Action/Agent/agent.slice.js:28-37 | no agent selected, no PNRs, zero stats; the agent list, flags and error are kept |
| AgentSlice.AgentState.RequestPending | frontend/src/Action/Agent/agent.slice.js:42-45 | loading, no error |
| AgentSlice.AgentState.RequestRejected | frontend/src/Action/Agent/agent.slice.js:51-54 | not loading, the payload or that request's fixed message |
| AgentSlice.AgentState.FetchAllAgentsFulfilled | frontend/src/Action/Agent/agent.slice.js:46-50 | the agent list is the response |
| AgentSlice.AgentState.FetchAgentPassengersFulfilled | frontend/src/Action/Agent/agent.slice.js:60-66 | agent, PNRs and stats are those of the response |

## Left out

- Authentication: the bearer token and the `authorize('admin')` gate on the agent routes sit in router middleware. The caller's id and role are parameters, and the agent overview is modelled for whoever calls it.
- Route order: in backend/Routers/Passenger.route.js the approve-all route is declared after the per-passenger route, so `approve-all` can be taken as a passenger id. Routing is not part of this model; both operations are modelled as reached.
- Uppercasing of booking code and tag by the schema is not modelled. Codes are compared as trimmed strings, so two codes differing only in case count as different here.
- The schema's own `trim` setters on name and document id are subsumed by the validators' sanitisers, which run first.
- Validation.IsEmail: a simplified shape check; `isEmail()` accepts a more involved grammar. `normalizeEmail()` is not modelled.
- Validation.IsSpace: covers the ASCII whitespace and no-break space; the other Unicode spaces that JavaScript `trim` removes are left out.
- String lengths are counted in characters. The schema's 100-character limit on a passenger name counts UTF-16 code units, so a name with characters outside the Basic Multilingual Plane can be refused there and accepted here. The validators' length checks count a surrogate pair as one character, as the model does, but skip the variation selectors U+FE0E and U+FE0F, which the model counts.
- A missing body field reads as the empty string and a missing list as the empty list. Values of other JSON types are not modelled.
- express-validator's `optional()` is modelled as "absent"; a JSON `null` is treated like an absent field.
- The store is a map of records; the mongoose document layer is not modelled. This covers `populate`, response shaping (`id`, and `passengers` sent as the passenger count), `updatedAt` and the per-passenger timestamps.
- PassengerController.NewRecord: always gives passengers fresh ids following the PNR id; mongoose would keep a valid `_id` a client supplies in a passenger object, which the model does not capture.
- The clock is the `now` parameter of `CreatePnr`. Identifiers come from a counter, `nextId`.
- Records with equal `createdAt` come back from the sorted query in an order the model leaves open.
- `Promise.all` in getAllAgents runs the per-agent queries concurrently. They only read, so the model runs them one after another.
- Database and network failures (the `catch` blocks' 500 responses) are not modelled, except the schema failure in createPNR.
- The client slices store the request payloads as they are. Their types reuse the backend's records, not the JSON shape the client receives.
- The thunks calling the API (passenger.thunk.js, agent.thunk.js) are not part of this model. Their effect reaches the slices as the payload of each reducer.
