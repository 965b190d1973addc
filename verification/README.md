# User service RPC handlers

This project models the user service of the timebank server. The service is a gRPC service with four working methods: `get`, `get_by_id`, `update` and `get_profile`. Each handler follows the same steps:

1. It unpacks the request.
2. `get_profile` alone first rejects an empty user id.
3. It asks the data-store client (`UserClient`, backed by Supabase) one question.
4. It turns the answer into a response or a status:
   - an `InternalError` becomes INTERNAL;
   - a `SupabaseError` becomes UNKNOWN;
   - the message text is kept unchanged.

The data store is not modelled. Each handler takes the store's answer to its one question as a parameter. It returns two things: the outcome (a response or a status) and the question it put to the store, if any.

- `rpc.dfy` (module `Rpc`): the gRPC status codes, a status (code and message), the outcome of one call, and `First`, the head of a list if there is one.
- `user_service.dfy` (module `UserService`): the data-store error kinds and answers, the request and response messages, the error classification table, and the four handlers. Each handler writes its own `match` over the store's answer, as the source does. Each handler's contract ties that match to the one classification table, `ErrorStatus`.
- `user_server.dfy` (module `UserServer`): the service serving a sequence of calls. The service's only field is the client, and no handler changes it, so each call is handled on its own. Lemmas about the resulting list of data-store questions are proved by induction. This layer is scaffolding: it stands in for tonic's routing of each call to its handler, and the source has no code that serves a sequence of calls. The behaviour is in the per-handler contracts in `UserService`.

Invalid input is not a `ClientErrorKind` variant: `get_profile` itself returns INVALID_ARGUMENT before the client is called (src/services/user.rs:81-83).

## Model

| member | source | states |
|---|---|---|
| `Rpc.First` | src/services/user.rs:49 | `values.into_iter().next()`: the result is present exactly when the list is non-empty, and then it is the list's first element. |
| `UserService.ErrorStatus` | src/services/user.rs:33-35 | An internal error becomes INTERNAL and a Supabase error becomes UNKNOWN, in both directions. The message is carried through verbatim. The code is never INVALID_ARGUMENT. The classification loses nothing: `ClientErrorOf` gives back the original error. |
| `UserService.HandleGet` | src/services/user.rs:25-37 | Asks the store `get(key, value)` with the request's own fields. Succeeds exactly when the store succeeds. On success the response holds exactly the store's list, and an empty list is a success. A store error gives the classified status. |
| `UserService.HandleGetById` | src/services/user.rs:39-56 | Asks the store `get("user_id", id)`. Succeeds exactly when the store succeeds; an empty list is never an error. On success the user is present exactly when the list is non-empty, and it is the list's first element. A store error gives the classified status. |
| `UserService.HandleUpdate` | src/services/user.rs:58-73 | Asks the store `update(id, body)` with the request's id and body. On success the user is present and equals the store's value. A store error gives the classified status. |
| `UserService.HandleGetProfile` | src/services/user.rs:75-92 | An empty id yields INVALID_ARGUMENT "user id cannot be empty" and no store question. A non-empty id asks `get_profile` for that same id. Success happens exactly when the id is non-empty and the store succeeds, and then the user is present and equals the store's value. A store error gives the classified status. |
| `UserService.GetByIdIsHeadOfGet` | src/services/user.rs:43-50 | `get_by_id` asks the store the same question as `get` on the `user_id` column. It answers with the head of `get`'s list, and fails with the same status. |
| `UserService.GetProfileEmptyIdIgnoresStore` | src/services/user.rs:81-83 | With an empty id, `get_profile` gives the same result whatever the store would have answered. |
| `UserServer.Query` | src/services/user.rs:26-85 | Gives the store question each call asks, built from the request's fields. There is no question exactly when the call is a `get_profile` with an empty id. |
| `UserServer.Handle` | src/services/user.rs:24-92 | For every method, the handler asks the store `Query`. A call fails exactly when it is turned away or the store failed. A turned-away call gets INVALID_ARGUMENT. A store failure gets its classified status. No status code other than INTERNAL, UNKNOWN or INVALID_ARGUMENT is ever produced. A success carries the store's whole list for `get`, the list's head or no user for `get_by_id`, and the store's user, present, for `update` and for a `get_profile` that was not turned away. |
| `UserServer.Serve` | src/services/user.rs:11-24 | Serving a sequence of calls yields one result per call. The i-th result is what handling the i-th call alone gives, because the service holds only the client and never changes it. |
| `UserServer.StoreAskedOncePerAcceptedCall` | src/services/user.rs:81-85 | Over any sequence of calls, the store is asked exactly one question per call that is not turned away, and none for the others. |
| `UserServer.NoProfileQueryForEmptyId` | src/services/user.rs:81-85 | Over any sequence of calls, the store is never asked for the profile of an empty user id. |
| `UserServer.ServeConcatenates` | src/services/user.rs:11-13 | Serving two batches one after the other gives the same results as serving them as one batch, in this model, where each call is given its own store answer. |

## Left out

- `RequestLogger` and `RequestLoggerLayer` (src/middleware.rs): an asynchronous tower middleware that logs each request and swaps in a cloned inner service. Task scheduling, handle cloning and the log sink have no sequential core to state here.
- `get_rating` and `get_credit_balance`: both are `todo!()` placeholders that panic. Their behaviour is not defined.
- `UserService::new` and the construction of the Supabase client: the client is represented only by the answers it gives.
- The data-store client itself (`UserClient`, its HTTP calls and how it builds `ClientErrorKind`): its answer to each question is an input to the handlers.
- `to_string()` on the wrapped error is modelled as the identity on the error's message text. The error types it formats are not part of this model.
- The proto messages for users and update bodies are opaque types. The handlers pass them along without looking inside.
- tonic's `Request`/`Response` wrappers, `async`/`await`, and status metadata and details beyond the code and message.
- The store's answers across a session are given per call, so the model does not capture how an `update` changes what a later `get` returns. That happens inside the data store, not in the service.
