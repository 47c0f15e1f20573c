// The `POST /api/negotiate` handler of `src/app/api/negotiate/route.ts`: the
// two validation guards, in their order, in front of `createSession`.

module Route {
  import opened Wrappers
  import opened Types
  import opened SecondMe
  import opened Negotiation

  const MISSING_FIELDS := "Missing required fields"
  const INVALID_ID_FORMAT := "Invalid instance ID format"

  /** The HTTP statuses the handler answers with (`NextResponse.json`
      defaults to 200). */
  const STATUS_OK: nat := 200
  const STATUS_BAD_REQUEST: nat := 400

  /** The JSON body of the answer: `{ session_id }` or `{ error }`. */
  datatype Body = SessionCreated(sessionId: Uuid) | Rejected(error: string)

  datatype Response = Response(status: nat, body: Body)

  /** `!body.topic || … || !body.position_b` is false: none of the five
      checked fields is the empty string. The display names are not checked. */
  predicate HasRequiredFields(req: CreateRequest) {
    && req.topic != ""
    && req.instanceAId != ""
    && req.instanceBId != ""
    && req.positionA != ""
    && req.positionB != ""
  }

  /** The handler's guards in order: the error it answers with, or `None`
      when the request reaches `createSession`. */
  function Validate(req: CreateRequest): (r: Option<string>)
    ensures r.None? <==> HasRequiredFields(req) && ValidateInstanceId(req.instanceAId) && ValidateInstanceId(req.instanceBId)
    ensures r.Some? ==> r.value in {MISSING_FIELDS, INVALID_ID_FORMAT}
    ensures !HasRequiredFields(req) ==> r == Some(MISSING_FIELDS)
  {
    if !HasRequiredFields(req) then
      Some(MISSING_FIELDS)
    else if !ValidateInstanceId(req.instanceAId) || !ValidateInstanceId(req.instanceBId) then
      Some(INVALID_ID_FORMAT)
    else
      None
  }

  /** Spelled out character by character: a request is accepted exactly when
      topic and positions are non-empty and both instance ids are non-empty
      strings of letters, digits, `_` and `-`. An id is reported as
      malformed only when every field is present. */
  lemma AcceptedExactly(req: CreateRequest)
    ensures Validate(req).None? <==>
              && req.topic != "" && req.positionA != "" && req.positionB != ""
              && req.instanceAId != "" && (forall i :: 0 <= i < |req.instanceAId| ==> IsIdChar(req.instanceAId[i]))
              && req.instanceBId != "" && (forall i :: 0 <= i < |req.instanceBId| ==> IsIdChar(req.instanceBId[i]))
    ensures Validate(req) == Some(INVALID_ID_FORMAT) <==>
              && HasRequiredFields(req)
              && ((exists i :: 0 <= i < |req.instanceAId| && !IsIdChar(req.instanceAId[i]))
                  || (exists i :: 0 <= i < |req.instanceBId| && !IsIdChar(req.instanceBId[i])))
  {
    ValidateInstanceIdIff(req.instanceAId);
    ValidateInstanceIdIff(req.instanceBId);
  }

  /** `POST(req)`: a rejected request answers 400 with the first failing
      guard's message and leaves the store as it was; an accepted one creates
      exactly one pending session, under a fresh id, and answers that id. */
  method Post(store: Store, req: CreateRequest) returns (res: Response)
    requires store.Valid()
    modifies store
    ensures store.Valid()
    ensures Validate(req).Some? ==>
              && res == Response(STATUS_BAD_REQUEST, Rejected(Validate(req).value))
              && store.sessions == old(store.sessions) && store.nextUuid == old(store.nextUuid)
    ensures Validate(req).None? ==>
              && res.status == STATUS_OK && res.body.SessionCreated?
              && var id := res.body.sessionId;
              && id == old(store.nextUuid) && id !in old(store.sessions)
              && id in store.sessions && store.sessions == old(store.sessions)[id := store.sessions[id]]
              && fresh(store.sessions[id])
              && store.sessions[id].status == Pending
              && store.sessions[id].instanceAId == req.instanceAId
              && store.sessions[id].instanceBId == req.instanceBId
  {
    var error := Validate(req);
    if error.Some? {
      return Response(STATUS_BAD_REQUEST, Rejected(error.value));
    }
    var s := store.CreateSession(req);
    res := Response(STATUS_OK, SessionCreated(s.id));
  }
}
