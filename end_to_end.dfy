/** The id in a URL the browser builds reaches the backend worker: the route
    `/:id` (back/src/routes/message.ts, back/src/routes/user.ts) takes the
    segment after the prefix, and `idToBody` parses it into the body. */
module IdRoundTrip {
  import opened Wrappers
  import opened Js
  import opened ConvertParams
  import MessageModel
  import UserModel

  /** Saving or deleting message `id` hands the worker `{id}` (unless the body
      already names another id, which wins). */
  lemma MessageIdReachesWorker(id: int, body: map<string, Value>)
    requires "id" !in body
    ensures var url := MessageModel.MakeDeleteMessageParams(id).url;
      IdToBody(map["id" := url[8..]], body)[0].body["id"] == Num(id)
    ensures var url := MessageModel.MakeSaveMessageParams(MessageModel.Existing(id)).url;
      IdToBody(map["id" := url[8..]], body)[0].body["id"] == Num(id)
  {
  }

  /** Reading, updating or deleting user `id`, and the private update, hand the worker `{id}`. */
  lemma UserIdReachesWorker(id: int, body: map<string, Value>)
    requires "id" !in body
    ensures var url := UserModel.UserUrl(id);
      IdToBody(map["id" := url[5..]], body)[0].body["id"] == Num(id)
    ensures var url := UserModel.MakePrivateUpdateUserParams(id).url;
      IdToBody(map["id" := url[8..]], body)[0].body["id"] == Num(id)
  {
  }
}
