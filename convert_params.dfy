/** Middleware that copies request data into the body
    (back/src/middlewares/converParams.ts). */
module ConvertParams {
  import opened Wrappers
  import opened Js
  import opened Text

  /** What the middleware does to the request, in order. */
  datatype Step = ReplaceBody(body: map<string, Value>) | CallNext

  /** `convertParamsToBody(fnConverter)(req, res, next)`: the converter's
      fields overlaid by the body's (the body wins), assigned to `req.body`,
      then `next()`. `converted` is `fnConverter(req)`. */
  function ConvertParamsToBody(converted: map<string, Value>, body: map<string, Value>): (steps: seq<Step>)
    ensures |steps| == 2 && steps[0].ReplaceBody? && steps[1] == CallNext
    ensures steps[0].body.Keys == converted.Keys + body.Keys
    ensures forall k :: k in body ==> steps[0].body[k] == body[k]
    ensures forall k :: k in converted && k !in body ==> steps[0].body[k] == converted[k]
  {
    [ReplaceBody(converted + body), CallNext]
  }

  /** `convertIdToNumber(req)`: `{id: parseInt(req.params.id, 10)}`; a missing
      or non-numeric id gives `NaN`. */
  function ConvertIdToNumber(params: map<string, string>): (r: map<string, Value>)
    ensures r.Keys == {"id"}
    ensures "id" in params && ParseInt(params["id"]).Some? ==> r["id"] == Num(ParseInt(params["id"]).value)
    ensures "id" !in params || ParseInt(params["id"]).None? ==> r["id"] == NaN
  {
    var parsed := if "id" in params then ParseInt(params["id"]) else None;
    map["id" := if parsed.Some? then Num(parsed.value) else NaN]
  }

  /** `idToBody`: the body gains an `id`, the parsed route id, unless it
      already has one; then `next()`. */
  function IdToBody(params: map<string, string>, body: map<string, Value>): (steps: seq<Step>)
    ensures |steps| == 2 && steps[0].ReplaceBody? && steps[1] == CallNext
    ensures steps[0].body.Keys == body.Keys + {"id"}
    ensures forall k :: k in body ==> steps[0].body[k] == body[k]
    ensures "id" !in body && "id" in params && ParseInt(params["id"]).Some? ==> steps[0].body["id"] == Num(ParseInt(params["id"]).value)
    ensures "id" !in body && ("id" !in params || ParseInt(params["id"]).None?) ==> steps[0].body["id"] == NaN
  {
    ConvertParamsToBody(ConvertIdToNumber(params), body)
  }

  /** A route id written in decimal arrives in the body as that number,
      unless the body already has an `id`, which is kept. */
  lemma IdToBodyOfDecimal(n: int, params: map<string, string>, body: map<string, Value>)
    requires "id" in params && params["id"] == IntToString(n)
    ensures "id" !in body ==> IdToBody(params, body)[0].body["id"] == Num(n)
    ensures "id" in body ==> IdToBody(params, body)[0].body["id"] == body["id"]
    ensures IdToBody(params, body)[0].body.Keys == body.Keys + {"id"}
  {
    ParseIntOfIntToString(n);
  }
}
