/**
 * The roast route: validate the request, generate, strip fences, cut the text to the
 * outermost braces, parse it, and answer the parsed object with the provider's display
 * name under `_model`. Every failure after validation, an undefined text included, is
 * the same 500.
 *
 * `parse` stands for `JSON.parse`: a partial parser given as an input.
 */
module Roast {
  import opened Base
  import opened Json
  import opened Text
  import opened Http
  import opened ModelOutput
  import opened Llm

  const Failure := HttpError(500, "Failed to generate roast")

  /** The text handed to `JSON.parse` (lines 139-147). */
  function Candidate(text: string): (candidate: string)
    ensures var clean := StripFences(text);
      Occurs(clean, candidate) && !Occurs(candidate, Fence)
  {
    var clean := StripFences(text);
    var candidate := GreedySlice(clean);
    assert !Occurs(candidate, Fence) by {
      if Occurs(candidate, Fence) {
        OccursWithin(clean, candidate, Fence);
      }
    }
    candidate
  }

  /** The request body carries an `interests` array. */
  predicate ValidBody(body: Json)
  {
    var interests := Member(Some(body), "interests");
    interests.Some? && interests.value.JArray?
  }

  datatype Outcome = Outcome(resp: Response, calls: seq<Provider>)

  /**
   * `POST /api/roast` (inside the rate-limit wrapper): `null` is a framework 500,
   * a missing or non-array `interests` a 400 with no generation; otherwise the answer is
   * the parsed candidate's fields plus `_model`, or the fixed 500 on any failure.
   */
  function Post(body: Json, cfg: Config, rand: real, replies: Provider -> VendorReply,
                parse: string -> Result<Json, string>): (out: Outcome)
    requires 0.0 <= rand < 1.0
    ensures body.JNull? ==> out == Outcome(InternalError, [])
    ensures !body.JNull? && !ValidBody(body) ==> out == Outcome(HttpError(400, "Invalid data"), [])
    ensures ValidBody(body) ==> out.calls == Route(cfg, rand, replies).calls
    ensures ValidBody(body) && Route(cfg, rand, replies).result.Err? ==> out.resp == Failure
    ensures var g := Route(cfg, rand, replies);
      ValidBody(body) && g.result.Ok? && g.result.value.text.None? ==> out.resp == Failure
    ensures var g := Route(cfg, rand, replies);
      ValidBody(body) && g.result.Ok? && g.result.value.text.Some? ==>
      var generated := Route(cfg, rand, replies).result.value;
      var parsed := parse(Candidate(generated.text.value));
      && (parsed.Err? ==> out.resp == Failure)
      && (parsed.Ok? ==>
            && out.resp.JsonBody? && out.resp.body.JObject?
            && "_model" in out.resp.body.fields
            && out.resp.body.fields["_model"] == JString(generated.model)
            && out.resp.body.fields.Keys == SpreadFields(parsed.value).Keys + {"_model"}
            && (forall k :: k in SpreadFields(parsed.value) && k != "_model" ==>
                  out.resp.body.fields[k] == SpreadFields(parsed.value)[k]))
  {
    if body.JNull? then Outcome(InternalError, [])
    else if !ValidBody(body) then Outcome(HttpError(400, "Invalid data"), [])
    else
      var g := Route(cfg, rand, replies);
      match g.result
      case Err(_) => Outcome(Failure, g.calls)
      case Ok(generated) =>
        if generated.text.None? then Outcome(Failure, g.calls)
        else
        match parse(Candidate(generated.text.value))
        case Err(_) => Outcome(Failure, g.calls)
        case Ok(value) => Outcome(JsonBody(Merge(value, "_model", JString(generated.model))), g.calls)
  }
}
