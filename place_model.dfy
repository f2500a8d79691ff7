/** Parking places and the database operations on them
    (back/src/models/Place.ts). Each mutation sends a fixed positional
    parameter list to its stored procedure and, once that succeeds, asks the
    live-update service to broadcast the place's id. */
module PlaceModel {
  import opened Wrappers
  import opened Js
  import opened ServerErrors
  import opened ApiHelper

  /** `PlaceStatus`: the state of a place offered for free use. */
  const FREE := 0
  const BUSY := 1

  /** Stored procedures for places. */
  const GET_ALL := "park.e_get_all_places"
  const SET_FREE := "park.e_set_free_place"
  const RESPOND := "park.e_respond_place"
  const TAKE_FREE := "park.e_take_free_place"
  const RELEASE_FREE := "park.e_release_free_place"

  /** Offer one's own place for free use between two dates. */
  datatype ToFreePlace = ToFreePlace(id: int, dateFrom: string, dateTo: string)

  /** Take a free place until a date. */
  datatype TakeFree = TakeFree(id: int, dateTo: string)

  /** A place of the parking. */
  datatype Place = Place(id: int, number: int)

  /** What a wrapped operation does: its result, and the place ids it hands to
      `changePlace`, in call order. */
  datatype Broadcasting<R> = Broadcasting(result: Result<R, ServerError>, changed: seq<int>)

  /** `changePlaceHOF(fn)`: await `fn`, then broadcast `params.id` once and
      return the result; when `fn` rejects, the rejection propagates and
      nothing is broadcast. `id` reads the id out of the parameters. */
  function ChangePlaceHOF<P(!new), R>(fn: (string, P) -> Result<R, ServerError>, id: P -> int): (wrapped: (string, P) -> Broadcasting<R>)
    ensures forall u, p :: wrapped(u, p).result == fn(u, p)
    ensures forall u, p :: fn(u, p).Success? ==> wrapped(u, p).changed == [id(p)]
    ensures forall u, p :: fn(u, p).Failure? ==> wrapped(u, p).changed == []
  {
    (u: string, p: P) => Broadcasting(fn(u, p), if fn(u, p).Success? then [id(p)] else [])
  }

  /** Whether the database accepted the call. */
  predicate Accepted<T>(gateway: Gateway<T>, call: DbCall) {
    gateway(call).Replied? && gateway(call).msg.isok
  }

  function SetFreeCall(username: string, params: ToFreePlace): DbCall {
    DbCall(SET_FREE, [PStr(username), PNum(params.id), PStr(params.dateFrom), PStr(params.dateTo)])
  }

  function RespondCall(username: string, params: IdParams): DbCall {
    DbCall(RESPOND, [PStr(username), PNum(params.id)])
  }

  function TakeFreeCall(username: string, params: TakeFree): DbCall {
    DbCall(TAKE_FREE, [PStr(username), PNum(params.id), PStr(params.dateTo)])
  }

  function ReleaseFreeCall(username: string, params: IdParams): DbCall {
    DbCall(RELEASE_FREE, [PStr(username), PNum(params.id)])
  }

  /** `myToFree`: `park.e_set_free_place(username, id, date_from, date_to)`,
      broadcast when accepted. `key` stands for the key of a raised error. */
  function MyToFree(gateway: Gateway<IdResult>, key: string): (op: (string, ToFreePlace) -> Broadcasting<IdResult>)
    ensures forall u, p :: op(u, p).result == ExecuteDbFunction(gateway, DbCall(SET_FREE, [PStr(u), PNum(p.id), PStr(p.dateFrom), PStr(p.dateTo)]), key)
    ensures forall u, p :: op(u, p).changed == if Accepted(gateway, SetFreeCall(u, p)) then [p.id] else []
  {
    ChangePlaceHOF((u: string, p: ToFreePlace) => ExecuteDbFunction(gateway, SetFreeCall(u, p), key), (p: ToFreePlace) => p.id)
  }

  /** `myRespond`: `park.e_respond_place(username, id)`, broadcast when accepted. */
  function MyRespond(gateway: Gateway<IdResult>, key: string): (op: (string, IdParams) -> Broadcasting<IdResult>)
    ensures forall u, p :: op(u, p).result == ExecuteDbFunction(gateway, DbCall(RESPOND, [PStr(u), PNum(p.id)]), key)
    ensures forall u, p :: op(u, p).changed == if Accepted(gateway, RespondCall(u, p)) then [p.id] else []
  {
    ChangePlaceHOF((u: string, p: IdParams) => ExecuteDbFunction(gateway, RespondCall(u, p), key), (p: IdParams) => p.id)
  }

  /** `takeFreePlace`: `park.e_take_free_place(username, id, date_to)`, broadcast when accepted. */
  function TakeFreePlace(gateway: Gateway<IdResult>, key: string): (op: (string, TakeFree) -> Broadcasting<IdResult>)
    ensures forall u, p :: op(u, p).result == ExecuteDbFunction(gateway, DbCall(TAKE_FREE, [PStr(u), PNum(p.id), PStr(p.dateTo)]), key)
    ensures forall u, p :: op(u, p).changed == if Accepted(gateway, TakeFreeCall(u, p)) then [p.id] else []
  {
    ChangePlaceHOF((u: string, p: TakeFree) => ExecuteDbFunction(gateway, TakeFreeCall(u, p), key), (p: TakeFree) => p.id)
  }

  /** `releaseFreePlace`: `park.e_release_free_place(username, id)`, broadcast when accepted. */
  function ReleaseFreePlace(gateway: Gateway<IdResult>, key: string): (op: (string, IdParams) -> Broadcasting<IdResult>)
    ensures forall u, p :: op(u, p).result == ExecuteDbFunction(gateway, DbCall(RELEASE_FREE, [PStr(u), PNum(p.id)]), key)
    ensures forall u, p :: op(u, p).changed == if Accepted(gateway, ReleaseFreeCall(u, p)) then [p.id] else []
  {
    ChangePlaceHOF((u: string, p: IdParams) => ExecuteDbFunction(gateway, ReleaseFreeCall(u, p), key), (p: IdParams) => p.id)
  }

  /** `allPlace`: `park.e_get_all_places(username)`; not wrapped, so it
      broadcasts nothing. */
  function AllPlace(gateway: Gateway<seq<Place>>, key: string, username: string): (r: Result<seq<Place>, ServerError>)
    ensures Accepted(gateway, DbCall(GET_ALL, [PStr(username)])) ==> r == Success(gateway(DbCall(GET_ALL, [PStr(username)])).msg.data)
    ensures !Accepted(gateway, DbCall(GET_ALL, [PStr(username)])) ==> r.Failure?
  {
    ExecuteDbFunction(gateway, DbCall(GET_ALL, [PStr(username)]), key)
  }

  /** Offering a place that is not the caller's: the database refuses with
      `forbidden`/403, the client gets 403 with that single message, and
      nothing is broadcast. */
  lemma RefusedMutationIsForbidden(gateway: Gateway<IdResult>, key: string, freshKey: string, u: string, p: ToFreePlace, d: IdResult)
    requires gateway(SetFreeCall(u, p)) == Replied(DbMessage(false, Some(ApiErrors.FORBIDDEN), Some(403), d))
    ensures MyToFree(gateway, key)(u, p).changed == []
    ensures MyToFree(gateway, key)(u, p).result.Failure?
    ensures SendError(None, None, Server(MyToFree(gateway, key)(u, p).result.error), freshKey).status == 403
    ensures SendError(None, None, Server(MyToFree(gateway, key)(u, p).result.error), freshKey).body.messages == [ApiErrors.FORBIDDEN]
  {
    var e := MyToFree(gateway, key)(u, p).result.error;
    assert e.status == 403 && e.message == ApiErrors.FORBIDDEN;
  }
}
