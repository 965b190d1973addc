/**
  The user service as a whole, serving one call after another. The service
  holds nothing but its data-store client, which no handler changes, so a
  sequence of calls is served by handling each call on its own. What
  accumulates is the list of questions the data store was asked.

  This layer stands in for tonic's routing of each call to its handler; the
  routing and the serving of several calls are scaffolding over the
  handlers in `UserService`, which carry the behaviour.
 */
module UserServer {
  import opened Rpc
  import opened UserService

  /** One call to the service, paired with the store's answer to the question that call asks. */
  datatype Exchange =
    | GetRpc(get: GetRequest, users: ClientResult<seq<User>>)
    | GetByIdRpc(byId: GetByIdRequest, users: ClientResult<seq<User>>)
    | UpdateRpc(update: UpdateRequest, user: ClientResult<User>)
    | GetProfileRpc(profile: GetProfileRequest, user: ClientResult<User>)

  /** The response of whichever method was called. */
  datatype Reply =
    | Users(get: GetResponse)
    | ById(byId: GetByIdResponse)
    | Updated(update: UpdateResponse)
    | Profile(profile: GetProfileResponse)

  /** A call the service turns away without asking the data store. */
  predicate Rejected(x: Exchange) {
    x.GetProfileRpc? && |x.profile.userId| == 0
  }

  /** The question a call puts to the data store: the request's own fields, verbatim. */
  function Query(x: Exchange): (q: Option<ClientCall>)
    ensures q.None? <==> Rejected(x)
  {
    match x
    case GetRpc(r, _) => Some(ClientCall.Get(r.key, r.value))
    case GetByIdRpc(r, _) => Some(ClientCall.Get(UserIdKey, r.userId))
    case UpdateRpc(r, _) => Some(ClientCall.Update(r.userId, r.body))
    case GetProfileRpc(r, _) => if |r.userId| == 0 then None else Some(ClientCall.GetProfile(r.userId))
  }

  /** The store's error, when the store was asked and failed. */
  function StoreError(x: Exchange): Option<ClientError> {
    if Rejected(x) then None
    else match x
      case GetRpc(_, a) => if a.Err? then Some(a.error) else None
      case GetByIdRpc(_, a) => if a.Err? then Some(a.error) else None
      case UpdateRpc(_, a) => if a.Err? then Some(a.error) else None
      case GetProfileRpc(_, a) => if a.Err? then Some(a.error) else None
  }

  function Wrap<R>(h: Handled<R>, reply: R -> Reply): Handled<Reply> {
    match h.outcome
    case Respond(r) => Handled(Respond(reply(r)), h.query)
    case Reject(s) => Handled(Reject(s), h.query)
  }

  /**
    Route a call to its handler. Whatever the call, the store is asked
    `Query(x)`; the call fails exactly when it was turned away or the store
    failed; a turned-away call gets INVALID_ARGUMENT and a store failure gets
    its classified status; no other status code appears. A success carries
    the store's whole list for `get`, its head or no user for `get_by_id`,
    and the store's user for `update` and `get_profile`.
   */
  function Handle(x: Exchange): (h: Handled<Reply>)
    ensures h.query == Query(x)
    ensures h.outcome.Reject? <==> Rejected(x) || StoreError(x).Some?
    ensures Rejected(x) ==> h.outcome == Reject(Status(Code.InvalidArgument, EmptyUserIdMessage))
    ensures StoreError(x).Some? ==> h.outcome == Reject(ErrorStatus(StoreError(x).value))
    ensures h.outcome.Reject? ==> IsHandlerCode(h.outcome.status.code)
    ensures x.GetRpc? && x.users.Ok? ==> h.outcome == Respond(Users(GetResponse(x.users.value)))
    ensures x.GetByIdRpc? && x.users.Ok? ==> h.outcome == Respond(ById(GetByIdResponse(First(x.users.value))))
    ensures x.UpdateRpc? && x.user.Ok? ==> h.outcome == Respond(Updated(UpdateResponse(Some(x.user.value))))
    ensures x.GetProfileRpc? && !Rejected(x) && x.user.Ok? ==>
      h.outcome == Respond(Profile(GetProfileResponse(Some(x.user.value))))
  {
    match x
    case GetRpc(r, a) => Wrap(HandleGet(r, a), resp => Users(resp))
    case GetByIdRpc(r, a) => Wrap(HandleGetById(r, a), resp => ById(resp))
    case UpdateRpc(r, a) => Wrap(HandleUpdate(r, a), resp => Updated(resp))
    case GetProfileRpc(r, a) => Wrap(HandleGetProfile(r, a), resp => Profile(resp))
  }

  /** Serve calls in order against the same, unchanged service. */
  function Serve(xs: seq<Exchange>): (hs: seq<Handled<Reply>>)
    ensures |hs| == |xs|
    ensures forall i :: 0 <= i < |xs| ==> hs[i] == Handle(xs[i])
  {
    if xs == [] then [] else [Handle(xs[0])] + Serve(xs[1..])
  }

  /** The questions the data store was asked, in the order they were asked. */
  function Trace(hs: seq<Handled<Reply>>): seq<ClientCall> {
    if hs == [] then []
    else (match hs[0].query case Some(c) => [c] case None => []) + Trace(hs[1..])
  }

  /** How many of the calls were turned away. */
  function RejectedCount(xs: seq<Exchange>): (n: nat)
    ensures n <= |xs|
  {
    if xs == [] then 0 else (if Rejected(xs[0]) then 1 else 0) + RejectedCount(xs[1..])
  }

  /** Every call that is not turned away asks the data store exactly one question. */
  lemma {:induction false} StoreAskedOncePerAcceptedCall(xs: seq<Exchange>)
    ensures |Trace(Serve(xs))| == |xs| - RejectedCount(xs)
  {
    if xs != [] {
      StoreAskedOncePerAcceptedCall(xs[1..]);
      assert Serve(xs)[1..] == Serve(xs[1..]);
    }
  }

  /** The data store is never asked for the profile of an empty user id. */
  lemma {:induction false} NoProfileQueryForEmptyId(xs: seq<Exchange>)
    ensures forall c :: c in Trace(Serve(xs)) ==> !(c.GetProfile? && |c.userId| == 0)
  {
    if xs != [] {
      NoProfileQueryForEmptyId(xs[1..]);
      assert Serve(xs)[1..] == Serve(xs[1..]);
    }
  }

  /**
    Serving one batch and then another is serving them together, in this
    model, where each call is given its own store answer.
   */
  lemma ServeConcatenates(xs: seq<Exchange>, ys: seq<Exchange>)
    ensures Serve(xs + ys) == Serve(xs) + Serve(ys)
  {
  }
}
