/**
 * The client-side passenger slice: the cached PNR list, the PNR on display,
 * the dashboard stats and the request flags, updated in place by the reducers.
 */
module PassengerSlice {
  import opened Wrappers
  import opened Records
  import opened Stats
  import opened SliceErrors

  /** The six request thunks of the slice. */
  datatype PassengerThunk = GetPnrs | GetPnrById | CreatePnr | UpdatePassengerStatus | ApproveAllPending | DeletePnr

  /** The message each rejected case falls back to. */
  function DefaultError(t: PassengerThunk): string
  {
    match t
    case GetPnrs => "Failed to fetch PNRs"
    case GetPnrById => "Failed to fetch PNR"
    case CreatePnr => "Failed to create PNR"
    case UpdatePassengerStatus => "Failed to update passenger status"
    case ApproveAllPending => "Failed to approve all pending"
    case DeletePnr => "Failed to delete PNR"
  }

  /** `pnrs.findIndex(p => p.id === id)`: the first position holding that id, or -1. */
  function IndexOfId(s: seq<Pnr>, id: ObjectId): (i: int)
    ensures -1 <= i < |s|
    ensures i >= 0 ==> s[i].id == id && forall j :: 0 <= j < i ==> s[j].id != id
    ensures i == -1 ==> forall j :: 0 <= j < |s| ==> s[j].id != id
  {
    if s == [] then -1
    else if s[0].id == id then 0
    else var k := IndexOfId(s[1..], id); if k == -1 then -1 else k + 1
  }

  /** `pnrs.filter(p => p.id !== id)`. */
  function WithoutId(s: seq<Pnr>, id: ObjectId): (r: seq<Pnr>)
    ensures |r| <= |s|
    ensures forall i :: 0 <= i < |r| ==> r[i].id != id
    ensures forall p :: p in r <==> p in s && p.id != id
  {
    if s == [] then []
    else if s[0].id == id then WithoutId(s[1..], id)
    else [s[0]] + WithoutId(s[1..], id)
  }

  /** Filtering keeps the order of what remains: it distributes over concatenation. */
  lemma {:induction false} WithoutIdAppend(a: seq<Pnr>, b: seq<Pnr>, id: ObjectId)
    ensures WithoutId(a + b, id) == WithoutId(a, id) + WithoutId(b, id)
  {
    if a == [] {
      assert a + b == b;
    } else {
      assert (a + b)[0] == a[0];
      assert (a + b)[1..] == a[1..] + b;
      WithoutIdAppend(a[1..], b, id);
    }
  }

  /** With no entry of that id the list is unchanged. */
  lemma {:induction false} WithoutIdAbsent(s: seq<Pnr>, id: ObjectId)
    requires forall i :: 0 <= i < |s| ==> s[i].id != id
    ensures WithoutId(s, id) == s
  {
    if s != [] {
      WithoutIdAbsent(s[1..], id);
    }
  }

  /** Deleting a PNR just created (with an id not yet in the list) restores the list as it was. */
  lemma CreateThenDelete(s: seq<Pnr>, p: Pnr)
    requires forall i :: 0 <= i < |s| ==> s[i].id != p.id
    ensures WithoutId([p] + s, p.id) == s
  {
    WithoutIdAppend([p], s, p.id);
    WithoutIdAbsent(s, p.id);
  }

  class PassengerState {
    var pnrs: seq<Pnr>
    var currentPnr: Option<Pnr>
    var stats: Stats
    var loading: bool
    var error: Option<string>

    /** The initial state. */
    constructor ()
      ensures pnrs == [] && currentPnr == None && stats == NoStats && !loading && error == None
    {
      pnrs := [];
      currentPnr := None;
      stats := NoStats;
      loading := false;
      error := None;
    }

    /** `clearError`. */
    method ClearError()
      modifies this`error
      ensures error == None
    {
      error := None;
    }

    /** `clearCurrentPNR`. */
    method ClearCurrentPnr()
      modifies this`currentPnr
      ensures currentPnr == None
    {
      currentPnr := None;
    }

    /** Every `pending` case: a request is in flight. */
    method RequestPending()
      modifies this`loading, this`error
      ensures loading && error == None
    {
      loading := true;
      error := None;
    }

    /** Every `rejected` case: the payload or the thunk's fixed message; the cached data stay. */
    method RequestRejected(t: PassengerThunk, payload: Option<string>)
      modifies this`loading, this`error
      ensures !loading && error == Some(RejectionMessage(payload, DefaultError(t)))
    {
      loading := false;
      error := Some(RejectionMessage(payload, DefaultError(t)));
    }

    /** `getPNRs.fulfilled`: list and stats are overwritten. */
    method GetPnrsFulfilled(payloadPnrs: seq<Pnr>, payloadStats: Stats)
      modifies this`loading, this`pnrs, this`stats, this`error
      ensures !loading && error == None
      ensures pnrs == payloadPnrs && stats == payloadStats
    {
      loading := false;
      pnrs := payloadPnrs;
      stats := payloadStats;
      error := None;
    }

    /** `getPNRById.fulfilled`. */
    method GetPnrByIdFulfilled(p: Pnr)
      modifies this`loading, this`currentPnr, this`error
      ensures !loading && error == None && currentPnr == Some(p)
    {
      loading := false;
      currentPnr := Some(p);
      error := None;
    }

    /** `createPNR.fulfilled`: the new PNR goes in front, the old entries shift by one. */
    method CreatePnrFulfilled(p: Pnr)
      modifies this`loading, this`pnrs, this`error
      ensures !loading && error == None
      ensures |pnrs| == |old(pnrs)| + 1 && pnrs[0] == p
      ensures forall i :: 0 <= i < |old(pnrs)| ==> pnrs[i + 1] == old(pnrs)[i]
    {
      loading := false;
      pnrs := [p] + pnrs;
      error := None;
    }

    /**
     * `updatePassengerStatus.fulfilled` and `approveAllPending.fulfilled`: the
     * first entry with the PNR's id is replaced; the PNR on display only if it has that id.
     */
    method PnrReplacedFulfilled(p: Pnr)
      modifies this`loading, this`pnrs, this`currentPnr, this`error
      ensures !loading && error == None
      ensures |pnrs| == |old(pnrs)|
      ensures forall i :: 0 <= i < |pnrs| ==>
        pnrs[i] == if i == IndexOfId(old(pnrs), p.id) then p else old(pnrs)[i]
      ensures (forall i :: 0 <= i < |old(pnrs)| ==> old(pnrs)[i].id != p.id) ==> pnrs == old(pnrs)
      ensures currentPnr == if old(currentPnr).Some? && old(currentPnr).value.id == p.id then Some(p) else old(currentPnr)
    {
      loading := false;
      var index := IndexOfId(pnrs, p.id);
      if index != -1 {
        pnrs := pnrs[index := p];
      }
      if currentPnr.Some? && currentPnr.value.id == p.id {
        currentPnr := Some(p);
      }
      error := None;
    }

    /** `deletePNR.fulfilled`: every entry with that id goes; the PNR on display only if it has that id. */
    method DeletePnrFulfilled(id: ObjectId)
      modifies this`loading, this`pnrs, this`currentPnr, this`error
      ensures !loading && error == None
      ensures pnrs == WithoutId(old(pnrs), id)
      ensures currentPnr == if old(currentPnr).Some? && old(currentPnr).value.id == id then None else old(currentPnr)
    {
      loading := false;
      pnrs := WithoutId(pnrs, id);
      if currentPnr.Some? && currentPnr.value.id == id {
        currentPnr := None;
      }
      error := None;
    }
  }
}
