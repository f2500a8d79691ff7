# Parking: a verified model of the place-sharing service

The parking application lets residents who own a parking place declare it free for a
period. Other residents can then take it until a date, and the owner can take it back.
The backend, an Express server over PostgreSQL stored procedures, has these parts:

- it validates every request;
- it calls a stored procedure, which answers with an `{isok, message, errorcode, data}`
  envelope;
- it turns failures into an `ErrorMessage` body;
- it pushes live updates over server-sent events;
- a periodic checker expires outdated offers.

The React front end has these parts:

- it keeps the login state in a reducer;
- it routes users by role (admin, place owner, guest);
- it builds the request descriptors for users and messages;
- its list pages search and select rows;
- it translates the backend's error codes into Russian text.

This Dafny project models that core.

- **Request pipeline**:
  - the `req` parameter selection and worker binding (`ApiHelper`);
  - collection of validation messages, `sendError`, `throwError` and `executeDbFunction`;
  - the middleware that moves the URL id into the body (`ConvertParams`).
- **Place operations** (`PlaceModel`): each one calls its stored procedure with positional
  parameters, and the `changePlaceHOF` wrapper broadcasts the place id.
- **Live updates** (`PlaceUpdates.UserPlaceUpdater`):
  - the subscriber lists of the "my places" and "free places" streams;
  - attach and close;
  - the per-user filter of free places;
  - the broadcasts `changePlace`, `changeManyPlace` and `massSendFreePlace`.

  Each broadcast is proved against the functions of `FanOut`, which state who receives
  which frame. `Streams` keeps the log of written frames, and `PlaceQueries` the log of
  database queries.
- **Expiry checker** (`PlaceUpdates.PlaceDateChecker`): the updater's constructor creates
  it and calls `start()`. As written, `start()` only marks it started, so no check ever
  runs. `check` itself is modelled as written: it broadcasts the expired ids and schedules
  the next check after 60 s. The corrected start that runs the first check is a separate
  method (see "## Findings").
- **Updater invariant** (`PlaceUpdates.UserPlaceUpdater.Valid`): each stream is recorded
  at most once, and never in both lists. The constructor establishes it and attach and
  close preserve it, so the per-subscriber broadcast lemmas of `FanOut` apply to every
  reachable state.
- **Front end**:
  - the app reducer, with login consistency preserved by every action;
  - the routing switches and the header menu;
  - the request descriptors whose URLs the backend parses back;
  - the event-source URL;
  - list searching and selection;
  - the table columns and sorter;
  - the error translation.

Database answers, generated keys (`nanoid`), the validation library and the network are
parameters of the model:

- a `Gateway` function for the stored procedures;
- a `PlaceDb` for the place lists;
- `key` strings;
- a `validate` function;
- `Conn` handles and a frame log.

## Model

| member | source | states |
|---|---|---|
| Js.NumOr | back/src/services/ServerError.ts:19 | `n \|\| d` on numbers: the given number unless it is absent or 0, then the default |
| Js.StrOr | back/src/helpers/ApiHelper.ts:133 | `s \|\| d` on strings: the given string unless absent or empty, then the default |
| Text.NatToString | front/src/models/Message.ts:60 | the decimal text of a number is non-empty and made of digits |
| Text.IntToString | front/src/models/Message.ts:60 | the decimal text of an integer is non-empty and starts with a minus sign or a digit |
| Text.DigitsValueOfNatToString | back/src/middlewares/converParams.ts:21 | reading the digits back gives the number |
| Text.LeadingDigits | back/src/middlewares/converParams.ts:21 | the length of the digit prefix `parseInt` reads: all digits before it, a non-digit at it |
| Text.LeadingDigitsOfDigits | back/src/middlewares/converParams.ts:21 | an all-digit string is read whole |
| Text.TrimStart | back/src/middlewares/converParams.ts:21 | the white space `parseInt` skips (every ECMAScript WhiteSpace and LineTerminator character) leaves a suffix that starts with none of them |
| Text.ParseIntOfDigits | back/src/middlewares/converParams.ts:21 | `parseInt` of a digit string is its value |
| Text.ParseIntOfIntToString | back/src/middlewares/converParams.ts:21 | `parseInt(String(i), 10) == i` for every integer, negative ones included |
| Text.ParseInt | back/src/middlewares/converParams.ts:21 | `parseInt(s, 10)`: a text without any digit is NaN, and a negative result needs a minus sign in the text |
| Text.Contains | front/src/pages/MessageList/MessageList.tsx:85 | `s.includes(sub)`: the empty string occurs in every text, and a longer text never occurs in a shorter one |
| Text.Join | back/src/models/ErrorMessage.ts:22 | `parts.join(sep)`: empty for no parts; otherwise the parts' lengths plus one separator between neighbours, starting with the first part |
| Text.JoinSnoc | back/src/models/ErrorMessage.ts:22 | joining one more part appends one separator and the part |
| ServerErrors.NewServerError | back/src/services/ServerError.ts:17-25 | status defaults to 500 when absent or 0 and is never 0; message, data and key are stored |
| ServerErrors.ToString | back/src/services/ServerError.ts:27-29 | the text is the key, `" - "`, then the message, at those positions |
| ErrorMessages.ToString | back/src/models/ErrorMessage.ts:21-23 | the text starts with the key and `" - "`; the rest is the messages joined by `"; "` |
| ErrorMessages.ToStringEmpty | back/src/models/ErrorMessage.ts:21-23 | with no messages the text ends right after the dash |
| ErrorMessages.ToStringSingle | back/src/models/ErrorMessage.ts:21-23 | a single message is printed with no separator |
| ErrorMessages.ToStringSnoc | back/src/models/ErrorMessage.ts:21-23 | each additional message adds `"; "` and itself at the end |
| ApiHelper.AllMessagesAppend | back/src/helpers/ApiHelper.ts:84 | the messages of two error lists are the messages of the first, then of the second |
| ApiHelper.NodeMessages | back/src/helpers/ApiHelper.ts:74-83 | `extractErrors(err)` pushes the node's own constraint messages first, before any of its subtree's |
| ApiHelper.AllMessages | back/src/helpers/ApiHelper.ts:84 | every constraint message of every top-level error is collected |
| ApiHelper.ConstraintsOfAppend | back/src/helpers/ApiHelper.ts:75-77 | constraint messages distribute over concatenation of node lists |
| ApiHelper.ConstraintCountIsLength | back/src/helpers/ApiHelper.ts:75-77 | the number of collected messages equals the number of constraint entries |
| ApiHelper.AllMessagesIsPreOrder | back/src/helpers/ApiHelper.ts:72-86 | the recursive collection yields the constraint messages of the error forest's nodes in pre-order |
| ApiHelper.AllMessagesLength | back/src/helpers/ApiHelper.ts:72-86 | the number of messages is the number of constraints in the whole forest |
| ApiHelper.ExtractErrors | back/src/helpers/ApiHelper.ts:74-83 | the accumulator grows by the node's messages, then its children's, recursively |
| ApiHelper.GetValidationErrors | back/src/helpers/ApiHelper.ts:72-86 | returns every constraint message of the error forest in pre-order |
| ApiHelper.SendError | back/src/helpers/ApiHelper.ts:95-119 | status: the explicit one, else the error's own, else 500, never 0. A validation error gives a fresh key and all its messages. A server error keeps its key and data, and gives the override message or its own |
| ApiHelper.UnauthorizedResponse | back/src/middlewares/checkJwt.ts:23-27 | the token check answers 401 with the single message `unauthorized` |
| ApiHelper.ThrowError | back/src/helpers/ApiHelper.ts:128-138 | a given error is rethrown unchanged. Otherwise a new error is built: the message defaults to `unauthorized`, the status to 500 |
| ApiHelper.ExecuteDbFunction | back/src/helpers/ApiHelper.ts:148-157 | an accepted envelope gives its data. A refused one is a failure with the envelope's code (400 when absent) and message. A connection exception passes through |
| ApiHelper.RequestParams | back/src/helpers/ApiHelper.ts:169-181 | GET validates query and body merged, the body winning on shared keys; other methods use the body alone |
| ApiHelper.WorkerArguments | back/src/helpers/ApiHelper.ts:194-202 | a worker of two parameters gets the JWT username first; a one-parameter worker gets the data only |
| ApiHelper.ApiRequest | back/src/helpers/ApiHelper.ts:183-207 | validation failure gives a 500 with all messages; a worker failure is sent through `sendError`; success answers 200 with the worker's value |
| PlaceModel.ChangePlaceHOF | back/src/models/Place.ts:99-107 | the wrapped operation returns the inner result and broadcasts `params.id` exactly once after success, nothing after a failure |
| PlaceModel.MyToFree | back/src/models/Place.ts:116-124 | calls `park.e_set_free_place(username, id, date_from, date_to)`; the place is broadcast exactly when the call is accepted |
| PlaceModel.MyRespond | back/src/models/Place.ts:133-139 | calls `park.e_respond_place(username, id)`; broadcast exactly when accepted |
| PlaceModel.TakeFreePlace | back/src/models/Place.ts:148-155 | calls `park.e_take_free_place(username, id, date_to)`; broadcast exactly when accepted |
| PlaceModel.ReleaseFreePlace | back/src/models/Place.ts:164-170 | calls `park.e_release_free_place(username, id)`; broadcast exactly when accepted |
| PlaceModel.AllPlace | back/src/models/Place.ts:89-90 | calls `park.e_get_all_places(username)` and returns its data when accepted, a failure otherwise |
| PlaceModel.RefusedMutationIsForbidden | back/__tests__/place.test.ts:116-126 | a refusal with `forbidden`/403 reaches the client as status 403 with the single message `forbidden`, and nothing is broadcast |
| PlaceQueries.PlaceStore.constructor | back/src/services/UserPlaceUpdater.ts:55 | the store answers from the given database and has been asked nothing |
| PlaceQueries.PlaceStore.GetUserPlaceList | back/src/services/UserPlaceUpdater.ts:55 | returns the database's owner places of the login and logs exactly that query |
| PlaceQueries.PlaceStore.GetFreePlaceList | back/src/services/UserPlaceUpdater.ts:98 | returns the database's free places and logs exactly that query |
| Streams.FramesOf | back/src/services/UserPlaceUpdater.ts:52 | a connection's frames are a sub-sequence of all writes |
| Streams.FramesOfAppend | back/src/services/UserPlaceUpdater.ts:52 | the frames of two write logs are the frames of the first, then of the second |
| Streams.FramesOfOther | back/src/services/UserPlaceUpdater.ts:155 | a write to another connection is not seen by this one |
| Streams.FramesOfSingle | back/src/services/UserPlaceUpdater.ts:155 | one write is seen by its own connection only |
| Streams.EventStreams.constructor | back/src/services/UserPlaceUpdater.ts:46-51 | no frame has been written yet |
| Streams.EventStreams.Write | back/src/services/UserPlaceUpdater.ts:74 | appends one frame to the log, and the target connection sees exactly that frame more |
| FanOut.PlaceIds | back/src/services/UserPlaceUpdater.ts:58 | `(placeObject \|\| []).map(el => el.id)`: the ids of the rows in order, none for `null` or an error |
| FanOut.Payload | back/src/services/UserPlaceUpdater.ts:74 | the data frame carries the rows exactly when the query returned rows, `null` otherwise |
| FanOut.PlaceIdsMembers | back/src/services/UserPlaceUpdater.ts:58 | an id is in the snapshot exactly when one of the queried places has it |
| FanOut.VisibleFreePlaces | back/src/services/UserPlaceUpdater.ts:126-128 | a place is sent exactly when it is in the list and either the user holds it or it is FREE |
| FanOut.VisibleTo | back/src/services/UserPlaceUpdater.ts:126-128 | the test of the free-place filter: a place is always shown to the user holding it |
| FanOut.VisibleFreePlacesAppend | back/src/services/UserPlaceUpdater.ts:126-128 | the filter keeps list order: the view of a concatenation is the concatenation of the views |
| FanOut.VisibleFreePlacesIdempotent | back/src/services/UserPlaceUpdater.ts:126-128 | filtering a view again changes nothing |
| FanOut.VisibleFreePlacesAll | back/src/services/UserPlaceUpdater.ts:126-128 | a list whose every place is visible is sent whole |
| FanOut.Conns | back/src/services/UserPlaceUpdater.ts:16 | the connection of each "my places" record, in list order |
| FanOut.FreeConns | back/src/services/UserPlaceUpdater.ts:17 | the connection of each "free places" record, in list order |
| FanOut.FindIndex | back/src/services/UserPlaceUpdater.ts:65 | the first position of the connection, or -1 exactly when it is absent |
| FanOut.SpliceOne | back/src/services/UserPlaceUpdater.ts:64-67 | `splice(start, 1)`: removes the element at `start`; a negative start counts from the end; beyond the end, nothing |
| FanOut.CloseRemovesFirstMatch | back/src/services/UserPlaceUpdater.ts:62-73 | closing a recorded stream removes exactly its first record and keeps the others in order |
| FanOut.CloseMyPlacesDistinct | back/src/services/UserPlaceUpdater.ts:62-73 | with distinct streams, the closed stream has no record left and every other record remains |
| FanOut.DistinctPrefix | back/src/services/UserPlaceUpdater.ts:16 | a prefix of a list of distinct streams holds distinct streams |
| FanOut.LastNotInPrefix | back/src/services/UserPlaceUpdater.ts:16 | with distinct streams, the last subscriber's stream is not among the earlier ones |
| FanOut.CloseUnknownRemovesLast | back/src/services/UserPlaceUpdater.ts:64-67 | closing a stream without a record removes the last record (`findIndex` gives -1) |
| FanOut.IndexOf | back/src/services/UserPlaceUpdater.ts:153 | the first position of the id, or -1 exactly when absent |
| FanOut.MassSendQueries | back/src/services/UserPlaceUpdater.ts:135-136 | the free list is read once exactly when there is a free-places subscriber |
| FanOut.MyPlacesQueriesCount | back/src/services/UserPlaceUpdater.ts:151-157 | the "my places" part never reads the free list, and reads only the lists of concerned subscribers |
| FanOut.MyPlacesWritesOther | back/src/services/UserPlaceUpdater.ts:152-157 | a stream that did not subscribe gets nothing |
| FanOut.MyPlacesWritesAt | back/src/services/UserPlaceUpdater.ts:152-157 | each subscriber gets one fresh list exactly when its snapshot holds the changed id, unless the query fails |
| FanOut.MyPlacesPrefixStep | back/src/services/UserPlaceUpdater.ts:151-157 | going through one more subscriber adds exactly that subscriber's query and write |
| FanOut.FreeFanOutOther | back/src/services/UserPlaceUpdater.ts:137-139 | a non-subscriber gets nothing from the free fan-out |
| FanOut.FreeFanOutAt | back/src/services/UserPlaceUpdater.ts:137-139 | each free-places subscriber gets exactly one frame: the list filtered for its user |
| FanOut.ManySingletonIsOne | back/src/services/UserPlaceUpdater.ts:166-177 | `changeManyPlace([id])` concerns the same subscribers as `changePlace(id)` |
| FanOut.ManyEmptyConcernsNobody | back/src/services/UserPlaceUpdater.ts:168 | an empty id list concerns nobody |
| FanOut.ManyAppend | back/src/services/UserPlaceUpdater.ts:168-173 | a list change concerns a subscriber exactly when either part does |
| FanOut.BroadcastToMyPlaces | back/src/services/UserPlaceUpdater.ts:151-159 | across a whole broadcast, a "my places" subscriber receives only its own fresh list, if concerned |
| FanOut.BroadcastToFreePlaces | back/src/services/UserPlaceUpdater.ts:151-159 | across a whole broadcast, a free-places subscriber receives only its filtered free list |
| FanOut.SnapshotDecides | back/src/services/UserPlaceUpdater.ts:57-61 | a new subscriber is concerned by a change of id exactly when its attach-time query held that id |
| PlaceUpdates.CheckedIds | back/src/services/PlaceDateChecker.ts:40-46 | the ids a check broadcasts: the procedure's list when it succeeds non-empty, none otherwise |
| PlaceUpdates.UserPlaceUpdater.Valid | back/src/services/UserPlaceUpdater.ts:16-17 | no stream recorded twice in a list, and none in both lists (the invariant the broadcast lemmas assume) |
| PlaceUpdates.UserPlaceUpdater.constructor | back/src/services/UserPlaceUpdater.ts:21-24 | both lists start empty and `Valid` holds; a fresh checker bound to it is started with `start()` as written: marked started, no check run, no timer pending |
| PlaceUpdates.UserPlaceUpdater.AddConnection | back/src/services/UserPlaceUpdater.ts:44-78 | retry frame, then the owner-place query. On success the record is appended with the snapshot ids, then the data frame follows. A rejected query adds nothing more. Attaching a stream not yet recorded keeps `Valid` |
| PlaceUpdates.UserPlaceUpdater.CloseMyPlaces | back/src/services/UserPlaceUpdater.ts:62-73 | the list becomes `splice(findIndex(res), 1)` of the old one, and `Valid` is kept |
| PlaceUpdates.UserPlaceUpdater.AddFreeConnection | back/src/services/UserPlaceUpdater.ts:86-119 | retry frame, then the free-list query. On success the record is appended and the filtered list sent. On `null` the record is kept and no data is sent. On a rejection nothing more happens. Attaching a stream not yet recorded keeps `Valid` |
| PlaceUpdates.UserPlaceUpdater.CloseFreePlaces | back/src/services/UserPlaceUpdater.ts:103-114 | the free list becomes `splice(findIndex(res), 1)` of the old one, and `Valid` is kept |
| PlaceUpdates.UserPlaceUpdater.SendFreePlaceToUser | back/src/services/UserPlaceUpdater.ts:121-130 | writes exactly one frame: the places visible to the user, in order |
| PlaceUpdates.UserPlaceUpdater.MassSendFreePlace | back/src/services/UserPlaceUpdater.ts:132-144 | writes and queries exactly those of `MassSendWrites`/`MassSendQueries` |
| PlaceUpdates.UserPlaceUpdater.ChangePlaceFor | back/src/services/UserPlaceUpdater.ts:152-157 | one subscriber's turn of `changePlace`: when its snapshot holds the id, its list is read and sent unless the query fails; otherwise nothing |
| PlaceUpdates.UserPlaceUpdater.ChangeManyPlaceFor | back/src/services/UserPlaceUpdater.ts:167-175 | one subscriber's turn of `changeManyPlace`: the inner loop stops at the first matching id, so the list is read and sent at most once |
| PlaceUpdates.UserPlaceUpdater.ChangePlace | back/src/services/UserPlaceUpdater.ts:151-159 | the writes and queries are those of the "my places" fan-out for the id, then the free fan-out |
| PlaceUpdates.UserPlaceUpdater.ChangeManyPlace | back/src/services/UserPlaceUpdater.ts:166-177 | the same for a list of ids; a subscriber is queried once even when several ids match |
| PlaceUpdates.UpdaterStatics.constructor | back/src/services/UserPlaceUpdater.ts:19 | no instance exists yet |
| PlaceUpdates.UpdaterStatics.Instance | back/src/services/UserPlaceUpdater.ts:31-36 | the first call creates a fresh valid updater with empty lists and a started checker that has nothing pending; every later call returns that same object |
| PlaceUpdates.PlaceDateChecker.constructor | back/src/services/PlaceDateChecker.ts:25-28 | bound to its updater, not started, no timer |
| PlaceUpdates.PlaceDateChecker.Start | back/src/services/PlaceDateChecker.ts:32-36 | as written: the flag is raised and no check is run or scheduled |
| PlaceUpdates.PlaceDateChecker.StartedAsWritten | back/src/services/UserPlaceUpdater.ts:23 | as written, a started checker has run no check and has none pending |
| PlaceUpdates.PlaceDateChecker.StartIntended | back/src/services/PlaceDateChecker.ts:32-36 | the first start runs a check, so one timer is pending; a second start changes nothing |
| PlaceUpdates.PlaceDateChecker.Check | back/src/services/PlaceDateChecker.ts:38-51 | broadcasts `changeManyPlace` only for a non-empty successful result, swallows errors, and always schedules the next check after 60000 ms |
| ConvertParams.ConvertParamsToBody | back/src/middlewares/converParams.ts:10-18 | the body becomes the converted keys overlaid by the old body (body wins), then `next()` is called |
| ConvertParams.ConvertIdToNumber | back/src/middlewares/converParams.ts:20-22 | `{id: parseInt(params.id, 10)}`: the parsed number, or NaN when missing or unparsable |
| ConvertParams.IdToBody | back/src/middlewares/converParams.ts:29 | the body gains `id`, the parsed route id or NaN, unless it already has one, which is kept; every other body field is kept; then `next()` |
| ConvertParams.IdToBodyOfDecimal | back/src/middlewares/converParams.ts:29 | a decimal URL id lands in the body as that number unless the body already has an id |
| IdRoundTrip.MessageIdReachesWorker | back/src/routes/message.ts:35-44 | the message URL the browser builds for save and delete reaches the worker with the same numeric id |
| IdRoundTrip.UserIdReachesWorker | back/src/routes/user.ts:33-45 | the user URLs (`user/:id`, `user/lk/:id`) reach the worker with the same numeric id |
| AppReducer.Reducer | front/src/store/app/reducer.ts:17-58 | each action sets exactly the fields the source sets and keeps the rest; unknown actions keep the state; no state means the initial one |
| AppReducer.ReducerConsistent | front/src/store/app/reducer.ts:17-58 | from a consistent state (logged in exactly when a user is present), every well-formed action keeps it consistent |
| AppReducer.RunConsistent | front/src/store/app/reducer.ts:17-58 | the same for any sequence of actions |
| AppReducer.RunAppend | front/src/store/app/reducer.ts:17-58 | running two sequences equals running the second from the state the first reached |
| AppReducer.LogoutSignsOut | front/src/store/app/reducer.ts:48-54 | after any history followed by LOGOUT, nobody is logged in |
| AppReducer.InitAppThenSuccess | front/src/store/app/reducer.ts:22-34 | INIT_APP then INIT_APP_SUCCESS(u) leaves u logged in and initialization finished |
| Translate.TranslateError | front/src/utils/translate.ts:33-35 | a known key gives its text; any other gives "Неизвестная ошибка " plus the key; never empty |
| Translate.EveryApiErrorTranslated | front/src/utils/translate.ts:12-22 | every backend error code has a translation |
| Requests.EffectiveMethod | front/src/hooks/useRequest.ts:35 | a descriptor with no method is a GET |
| MessageModel.MessageTypeToString | front/src/models/Message.ts:32-42 | 1 is `warning`, 2 is `error`, everything else `info`, each both ways |
| MessageModel.MakeSaveMessageParams | front/src/models/Message.ts:57-60 | `add` posts to `message/add`; an id patches `message/` followed by text that parses back to the id |
| MessageModel.MakeDeleteMessageParams | front/src/models/Message.ts:67 | deletes `message/` followed by text that parses back to the id |
| MessageModel.SaveAndDeleteShareUrl | front/src/models/Message.ts:57-67 | save and delete of an id target one URL, different from the add URL |
| MessageModel.NumberUrlIsNotAddUrl | front/src/models/Message.ts:57-60 | `message/` followed by a signed or unsigned number is never `message/add` |
| UserModel.UserUrl | front/src/models/User.ts:104 | `user/` followed by text that parses back to the id |
| UserModel.MakeDeletUserParams | front/src/models/User.ts:102-104 | DELETE on the user URL |
| UserModel.MakeGetUserParams | front/src/models/User.ts:111-113 | the user URL with no method, hence GET |
| UserModel.MakeUpdateUserParams | front/src/models/User.ts:120-122 | PATCH on the user URL |
| UserModel.MakePrivateUpdateUserParams | front/src/models/User.ts:130-132 | PATCH on `user/lk/` followed by text that parses back to the id |
| UserModel.UserDescriptorsDiffer | front/src/models/User.ts:102-122 | get, update and delete share one URL and differ by method |
| Routes.AdminSwitch | front/src/components/Routes/Routes.tsx:35-53 | only an admin gets the admin switch, and it renders only admin pages |
| Routes.UserSwitch | front/src/components/Routes/Routes.tsx:54-69 | the "my places" page is rendered only for roles up to place owner; the last route is the 404 page |
| Routes.Redirect | front/src/components/Routes/Routes.tsx:22-32 | only `/` redirects: admin to `/admin/users`, owner to `/place/mylist`, anyone else to `/place/free` |
| Routes.AdminPagesOnlyForAdmin | front/src/components/Routes/Routes.tsx:35-53 | admin pages appear only for the admin role |
| Routes.PageAvailability | front/src/components/Routes/Routes.tsx:54-69 | `/place/mylist` is rendered exactly for roles up to owner; free places and private office for everyone |
| Routes.ForbiddenPagesGive404 | front/src/components/Routes/Routes.test.tsx:12-19 | an owner at `/admin/users` and a guest at `/place/mylist` see only the 404 page |
| Routes.AdminPageAlsoRenders404 | front/src/components/Routes/Routes.tsx:35-69 | as written: an admin at `/admin/users` gets the user list and the 404 page |
| Routes.RenderedPages | front/src/components/Routes/Routes.tsx:35-69 | as written: the user switch always renders last, preceded by the admin switch's page exactly when that switch matches |
| Routes.RenderedPagesIntended | front/src/components/Routes/Routes.tsx:35-69 | corrected: exactly one page, and it is the 404 page only when neither switch accepts the location |
| Routes.MenuTargets | front/src/components/Routes/Routes.tsx:35-69 | each menu path renders its own page for the roles allowed to see it |
| Routes.IntendedRendering | front/src/components/Routes/Routes.tsx:35-69 | the 404 page shows exactly when neither switch matches; outside admin pages the corrected rendering agrees with the source |
| Header.MenuItems | front/src/components/Layout/Header/Header.tsx:39-55 | the admin submenu exactly for admins, "places" exactly for roles up to owner, then the three common items |
| Header.OnMenuClick | front/src/components/Layout/Header/Header.tsx:21-28 | `logout` dispatches the logout effect, and exactly it does; any other key navigates to the key |
| Header.MenuKeys | front/src/components/Layout/Header/Header.tsx:39-55 | the clickable keys of each role's menu, in order |
| Header.MenuLeadsToPages | front/src/components/Layout/Header/Header.tsx:21-55 | every navigation a user's menu offers leads to a page, never to 404 |
| Header.MenuKeyCases | front/src/components/Layout/Header/Header.tsx:39-55 | a menu key is a common key, the places key for roles up to owner, or an admin key for an admin |
| Header.ClickKeysAppend | front/src/components/Layout/Header/Header.tsx:39-55 | the keys of two menu parts are the keys of each, in order |
| EventSourceUrl.StreamUrl | front/src/hooks/useEventSource.ts:9-12 | insecure URLs are unchanged; secure ones get `&token=` when a `?` is present, else `?token=`, and the token (`null` when absent) |
| EventSourceUrl.ContainsChar | front/src/hooks/useEventSource.ts:11 | `includes` of a one-character string is membership of that character |
| EventSourceUrl.StreamUrlShape | front/src/hooks/useEventSource.ts:9-12 | the URL is a prefix, followed by `?` or `&`, then `token=` and the token; a `?` is always present |
| ListState.SearchValueOf | front/src/pages/UserList/UserList.tsx:67-69 | `value \|\| undefined`: the empty search is no search |
| ListState.FirstSelected | front/src/pages/UserList/UserList.tsx:71-79 | the first selected row, or `undefined` (never `null`) when none |
| ListState.Filter | front/src/pages/UserList/UserList.tsx:84 | keeps exactly the elements that pass the test |
| ListState.FilterAppend | front/src/pages/UserList/UserList.tsx:84 | filtering keeps order across concatenation |
| ListState.Shown | front/src/pages/UserList/UserList.tsx:82-86 | no search shows the data as loaded; a search filters the data (empty when not loaded) |
| UserListPage.SearchFindsFields | front/src/pages/UserList/UserList.tsx:22-27 | searching for a user's login, first name, full "first last", middle name or flat number finds that user |
| UserListPage.SearchUserCompare | front/src/pages/UserList/UserList.tsx:22-27 | `searchUserCompare(search)(usr)`: an empty search finds every user |
| UserListPage.UserListView.constructor | front/src/pages/UserList/UserList.tsx:36-38 | nothing selected, no search |
| UserListPage.UserListView.OnSearch | front/src/pages/UserList/UserList.tsx:67-69 | the search becomes the value, the empty string clearing it |
| UserListPage.UserListView.OnChange | front/src/pages/UserList/UserList.tsx:71-79 | the selection becomes the first selected row |
| UserListPage.UserListView.OnReload | front/src/pages/UserList/UserList.tsx:49-52 | a reload clears the search and keeps the selection |
| UserListPage.UserListView.IsDisabled | front/src/pages/UserList/UserList.tsx:93 | edit and delete are disabled exactly when no row is selected |
| UserListPage.UserListView.Users | front/src/pages/UserList/UserList.tsx:82-86 | with a search, exactly the loaded users that match; without one, the data as loaded |
| MessageListPage.MessageListView.constructor | front/src/pages/MessageList/MessageList.tsx:21-25 | nothing selected, no search |
| MessageListPage.MessageListView.OnSearch | front/src/pages/MessageList/MessageList.tsx:58-60 | the search becomes the value, the empty string clearing it |
| MessageListPage.MessageListView.OnChange | front/src/pages/MessageList/MessageList.tsx:62-70 | the selection becomes the first selected row |
| MessageListPage.MessageListView.OnReload | front/src/pages/MessageList/MessageList.tsx:37-41 | a reload clears both the selection and the search |
| MessageListPage.MessageListView.IsDisabledIntended | front/src/pages/MessageList/MessageList.tsx:95 | corrected: disabled exactly when no row is selected |
| MessageListPage.MessageListView.IsDisabled | front/src/pages/MessageList/MessageList.tsx:95 | as written: disabled only for a `null` selection, so with nothing selected (`undefined`) the buttons are enabled |
| MessageListPage.MessageMatches | front/src/pages/MessageList/MessageList.tsx:85 | `msg.message.includes(search)`: an empty search matches every message, and a search longer than the message never does |
| MessageListPage.MessageListView.Messages | front/src/pages/MessageList/MessageList.tsx:83-87 | with a search, exactly the loaded messages whose text contains it |
| MessageListPage.NeverDisabled | front/src/pages/MessageList/MessageList.tsx:95 | as written: the buttons are never disabled, whatever is selected |
| MessageListPage.NothingSelectedYetEnabled | front/src/pages/MessageList/MessageList.tsx:95 | with nothing selected the source enables the buttons, while the corrected rule disables them |
| TableSort.ToNumber | front/src/pages/UserList/UserList.types.ts:3 | the numeric coercion of `-`: numbers as themselves, booleans as 0/1 |
| TableSort.Sorter | front/src/pages/UserList/UserList.types.ts:1-5 | `a[key] - b[key]`: a number exactly when both fields coerce to numbers; then zero exactly when they are equal, negative exactly when the first is smaller |
| TableSort.SorterAntisymmetric | front/src/pages/UserList/UserList.types.ts:1-5 | swapping the rows negates the comparison; it is defined for one order exactly when for the other |
| TableSort.SorterOnNumbers | front/src/pages/UserList/UserList.types.ts:1-5 | on numeric columns the comparison is the difference, zero exactly for equal values, and transitive |
| TableSort.SorterOnFlags | front/src/pages/UserList/UserList.types.ts:1-5 | false sorts before true |
| UserColumns.ColumnsWellKeyed | front/src/pages/UserList/UserList.types.ts:10-70 | eight columns, each keyed by its own data index, keys distinct |
| UserColumns.RoleLabel | front/src/pages/UserList/UserList.types.ts:45-54 | 0 is "Администратор", 1 "Владелец места", anything else "Гость", each both ways |
| UserColumns.BlockingLabel | front/src/pages/UserList/UserList.types.ts:67 | blocked users read "Да", others nothing |
| UserColumns.UserSorting | front/src/pages/UserList/UserList.types.ts:10-70 | id, flat, role and blocking sort numerically; text columns give no number (NaN) |
| MessageColumns.ColumnsWellKeyed | front/src/pages/MessageList/MessageList.types.ts:10-48 | four columns, each keyed by its own data index, keys distinct |
| MessageColumns.TypeLabel | front/src/pages/MessageList/MessageList.types.ts:28-37 | 1 "внимание", 2 "опасность", anything else "информация", each both ways |
| MessageColumns.VisibilityLabel | front/src/pages/MessageList/MessageList.types.ts:44-46 | visible reads "Да", hidden "Нет" |
| MessageColumns.TypeLabelAgrees | front/src/pages/MessageList/MessageList.types.ts:28-37 | the column label and the colour class name agree on each message type |
| MessageColumns.MessageSorting | front/src/pages/MessageList/MessageList.types.ts:10-48 | id and type sort numerically; the text column gives no number |

## Left out

- SSE transport details:
  - the response headers and `flushHeaders`;
  - `res.end()` on close;
  - the `data:`/`retry:` line syntax;
  - JSON serialization.

  Frames are values (`Streams.Frame`), and the frame log is the connection's output.
- Concurrency. The source's `forEach(async …)` starts every subscriber's query at once,
  so writes can interleave in any order. The model runs subscribers one after another
  in list order. Per-connection contents are order-independent, since each subscriber
  gets at most one frame.
- The database, Redis and the PostgreSQL connection. They are parameters:
  - a `Gateway` function for stored procedures;
  - a `PlaceDb` for `getUserPlaceList`/`getFreePlaceList`, whose SQL is in a file not
    part of this model.

  `UserPlace` keeps only the `id` field the stream reads.
- `nanoid()` keys. They are `key`/`freshKey` parameters fixed when an error is created.
- class-validator and class-transformer. `ApiHelper.ApiRequest` takes the validation as a
  function.
- JWT checking and logging. The logger has no effect on results.
- `localStorage` removal of the token in the LOGOUT branch of the reducer. Browser
  storage is outside the state.
- The event-source connection itself and `getApiUrl`. Only the URL the hook builds is
  modelled.
- Timers: `setTimeout` is recorded as the list of delays requested (`timers`) and never
  fires by itself. The model runs a check when `Check` is called.
- `PlaceUpdates.PlaceDateChecker.StartIntended`: the check runs at once, while the
  evidently intended asynchronous check would finish later.
- `Routes.MatchesPath`: compares letters exactly. React Router 5, whose `Switch` and
  `Route` the routes use, ignores letter case by default, so in the browser
  `/Place/Free` also reaches the free-place page; the model does not cover such paths.
- Keys such as `constructor` in the translate table. Inherited object properties would
  answer for keys not in the table; the model's table holds only its own entries.
- `Text.ParseInt`: base 10 only, the radix every call in the source passes.
- JavaScript numbers are IEEE doubles; the model's are unbounded integers.
  `Text.IntToString` matches the template literal only below 10^21 in magnitude (from
  there JavaScript writes `1e+21`). `Text.ParseInt` matches `parseInt` only while the
  digits denote a number below 2^53, beyond which `parseInt` rounds. So
  `Text.ParseIntOfIntToString` and the id round trips hold in JavaScript for ids of
  magnitude below 2^53.
- `TableSort.ToNumber`: the coercion of numeric strings by `-` is not modelled; such a
  comparison gives no number, as it does for other text.
- `FanOut.CloseUnknownRemovesLast`: closing a stream that has no record removes the
  last record, as the code does (`findIndex` gives -1 and `splice(-1, 1)` drops the last
  element).
- `PlaceModel.ChangePlaceHOF`: the broadcast is `Broadcasting.changed`, the list of place
  ids the wrapper hands to `changePlace`. The call into the updater is composed separately
  by `PlaceUpdates.UserPlaceUpdater.ChangePlace`, not invoked from the pure function.
- The `Error` base class, `captureStackTrace` and `setPrototypeOf` in `ServerError`.

## Findings

| source | as written | input that shows it | evidently intended | confidence | as-written member | corrected member |
|---|---|---|---|---|---|---|
| front/src/components/Routes/Routes.tsx:35-69 | the admin `Switch` and the user `Switch` are siblings, so both render | an admin at `/admin/users` sees the user list and, below it, the 404 page | one page per location: the admin page when one matches, otherwise the user switch | not executed | Routes.AdminPageAlsoRenders404 | Routes.RenderedPagesIntended |
| front/src/pages/MessageList/MessageList.tsx:95 | `isDisabled={selectedRow === null}`, but the selection is only ever a row or `undefined` | the list right after loading, with nothing selected: edit and delete are enabled | `selectedRow === undefined`, as in the user list | not executed | MessageListPage.NeverDisabled | MessageListPage.MessageListView.IsDisabledIntended |
| back/src/services/PlaceDateChecker.ts:32-36 | `start` only raises `isCheckStarted`. The private `check` is called from nowhere, so no expiry check ever runs | `new PlaceDateChecker(u).start()`: nothing is run and nothing is scheduled | `start` runs the first `check`, which reschedules itself every 60 s | not executed | PlaceUpdates.PlaceDateChecker.StartedAsWritten | PlaceUpdates.PlaceDateChecker.StartIntended |
