/**
  The user service's RPC handlers. Each one unpacks its request, may reject
  it before the data store is asked anything, asks the data store
  (`UserClient`) one question, and turns the store's answer into a response
  or a status.

  The data store itself is not modelled: its answer to the one question a
  handler asks is a parameter of the handler, and the handler reports which
  question, if any, it asked (`Handled.query`).
 */
module UserService {
  import opened Rpc

  /** A user record as the data store returns it; its fields do not matter here. */
  type User(==)

  /** The body of an update request, passed to the data store untouched. */
  type UserBody(==)

  /**
    How a data-store call fails (`ClientErrorKind`). The message is the text
    the wrapped error renders with `to_string()`.
   */
  datatype ClientError = InternalError(message: string) | SupabaseError(message: string)

  /** The data store's answer to one question. */
  datatype ClientResult<+T> = Ok(value: T) | Err(error: ClientError)

  /** The questions a handler can put to the data store. */
  datatype ClientCall =
    | Get(key: string, value: string)
    | Update(userId: string, body: UserBody)
    | GetProfile(userId: string)

  datatype GetRequest = GetRequest(key: string, value: string)
  datatype GetByIdRequest = GetByIdRequest(userId: string)
  datatype UpdateRequest = UpdateRequest(userId: string, body: UserBody)
  datatype GetProfileRequest = GetProfileRequest(userId: string)

  datatype GetResponse = GetResponse(users: seq<User>)
  datatype GetByIdResponse = GetByIdResponse(user: Option<User>)
  datatype UpdateResponse = UpdateResponse(user: Option<User>)
  datatype GetProfileResponse = GetProfileResponse(user: Option<User>)

  /** What one handler invocation produced, and the data-store question it asked, if any. */
  datatype Handled<+R> = Handled(outcome: Outcome<R>, query: Option<ClientCall>)

  /** The column `get_by_id` looks users up by. */
  const UserIdKey: string := "user_id"

  /** The message `get_profile` rejects an empty user id with. */
  const EmptyUserIdMessage: string := "user id cannot be empty"

  /** The only status codes the handlers ever produce. */
  predicate IsHandlerCode(c: Code) {
    c == Code.Internal || c == Code.Unknown || c == Code.InvalidArgument
  }

  /**
    The classification table every handler applies to a failed data-store
    call: an internal error becomes INTERNAL, an error reported by the
    store becomes UNKNOWN, and the message is kept verbatim. Nothing is
    lost: `ClientErrorOf` recovers the error from the status.
   */
  function ErrorStatus(e: ClientError): (s: Status)
    ensures s.message == e.message
    ensures s.code == Code.Internal <==> e.InternalError?
    ensures s.code == Code.Unknown <==> e.SupabaseError?
    ensures IsHandlerCode(s.code) && s.code != Code.InvalidArgument
    ensures ClientErrorOf(s) == Some(e)
  {
    match e
    case InternalError(m) => Status(Code.Internal, m)
    case SupabaseError(m) => Status(Code.Unknown, m)
  }

  /** The data-store error a status reports, if it reports one. */
  function ClientErrorOf(s: Status): (e: Option<ClientError>)
    ensures e.Some? <==> s.code == Code.Internal || s.code == Code.Unknown
    ensures e.Some? ==> e.value.message == s.message
  {
    match s.code
    case Internal => Some(InternalError(s.message))
    case Unknown => Some(SupabaseError(s.message))
    case _ => None
  }

  /**
    `get`: look users up by an arbitrary column. Every user the store
    returns is passed on, in order; an empty list is an empty response,
    not an error.
   */
  function HandleGet(req: GetRequest, answer: ClientResult<seq<User>>): (h: Handled<GetResponse>)
    ensures h.query == Some(ClientCall.Get(req.key, req.value))
    ensures h.outcome.Respond? <==> answer.Ok?
    ensures answer.Ok? ==> h.outcome.response.users == answer.value
    ensures answer.Err? ==> h.outcome.status == ErrorStatus(answer.error)
  {
    var GetRequest(key, value) := req;
    var outcome :=
      match answer
      case Ok(values) => Respond(GetResponse(values))
      case Err(InternalError(e)) => Reject(Status(Code.Internal, e))
      case Err(SupabaseError(e)) => Reject(Status(Code.Unknown, e));
    Handled(outcome, Some(ClientCall.Get(key, value)))
  }

  /**
    `get_by_id`: look a user up by id through the store's `get` on the
    `user_id` column. The response holds the first user the store returns,
    or no user when it returns none; a missing user is not an error.
   */
  function HandleGetById(req: GetByIdRequest, answer: ClientResult<seq<User>>): (h: Handled<GetByIdResponse>)
    ensures h.query == Some(ClientCall.Get(UserIdKey, req.userId))
    ensures h.outcome.Respond? <==> answer.Ok?
    ensures answer.Ok? ==> (h.outcome.response.user.Some? <==> |answer.value| > 0)
    ensures answer.Ok? && |answer.value| > 0 ==> h.outcome.response.user.value == answer.value[0]
    ensures answer.Err? ==> h.outcome.status == ErrorStatus(answer.error)
  {
    var GetByIdRequest(userId) := req;
    var outcome :=
      match answer
      case Ok(values) => Respond(GetByIdResponse(First(values)))
      case Err(InternalError(e)) => Reject(Status(Code.Internal, e))
      case Err(SupabaseError(e)) => Reject(Status(Code.Unknown, e));
    Handled(outcome, Some(ClientCall.Get(UserIdKey, userId)))
  }

  /** `update`: send the body to the store; the response holds the user the store returns. */
  function HandleUpdate(req: UpdateRequest, answer: ClientResult<User>): (h: Handled<UpdateResponse>)
    ensures h.query == Some(ClientCall.Update(req.userId, req.body))
    ensures h.outcome.Respond? <==> answer.Ok?
    ensures answer.Ok? ==> h.outcome.response.user == Some(answer.value)
    ensures answer.Err? ==> h.outcome.status == ErrorStatus(answer.error)
  {
    var UpdateRequest(userId, body) := req;
    var outcome :=
      match answer
      case Ok(value) => Respond(UpdateResponse(Some(value)))
      case Err(InternalError(e)) => Reject(Status(Code.Internal, e))
      case Err(SupabaseError(e)) => Reject(Status(Code.Unknown, e));
    Handled(outcome, Some(ClientCall.Update(userId, body)))
  }

  /**
    `get_profile`: an empty user id is rejected as INVALID_ARGUMENT before
    the store is asked anything, so the store's answer cannot matter;
    otherwise the store is asked for that same id and the response holds
    the user it returns.
   */
  function HandleGetProfile(req: GetProfileRequest, answer: ClientResult<User>): (h: Handled<GetProfileResponse>)
    ensures |req.userId| == 0 ==>
      h.outcome == Reject(Status(Code.InvalidArgument, EmptyUserIdMessage)) && h.query == None
    ensures |req.userId| > 0 ==> h.query == Some(ClientCall.GetProfile(req.userId))
    ensures h.outcome.Respond? <==> |req.userId| > 0 && answer.Ok?
    ensures h.outcome.Respond? ==> h.outcome.response.user == Some(answer.value)
    ensures |req.userId| > 0 && answer.Err? ==> h.outcome.status == ErrorStatus(answer.error)
  {
    var GetProfileRequest(userId) := req;
    if |userId| == 0 then
      Handled(Reject(Status(Code.InvalidArgument, EmptyUserIdMessage)), None)
    else
      var outcome :=
        match answer
        case Ok(value) => Respond(GetProfileResponse(Some(value)))
        case Err(SupabaseError(e)) => Reject(Status(Code.Unknown, e))
        case Err(InternalError(e)) => Reject(Status(Code.Internal, e));
      Handled(outcome, Some(ClientCall.GetProfile(userId)))
  }

  /**
    `get_by_id` is `get` on the `user_id` column followed by taking the head
    of the list: same question to the store, same status on failure.
   */
  lemma GetByIdIsHeadOfGet(req: GetByIdRequest, answer: ClientResult<seq<User>>)
    ensures var g := HandleGet(GetRequest(UserIdKey, req.userId), answer);
      && HandleGetById(req, answer).query == g.query
      && (g.outcome.Respond? ==>
            HandleGetById(req, answer).outcome == Respond(GetByIdResponse(First(g.outcome.response.users))))
      && (g.outcome.Reject? ==> HandleGetById(req, answer).outcome == Reject(g.outcome.status))
  {
  }

  /** With an empty user id, `get_profile` behaves the same whatever the store would have answered. */
  lemma GetProfileEmptyIdIgnoresStore(req: GetProfileRequest, a: ClientResult<User>, b: ClientResult<User>)
    requires |req.userId| == 0
    ensures HandleGetProfile(req, a) == HandleGetProfile(req, b)
  {
  }
}
