/**
 * The eye-coordination result endpoint (`POST /api/eye-test`): it acknowledges
 * the submitted reading and attaches a two-way recommendation.
 */
module EyeTestRoute {
  import opened Options
  import opened Web

  const Warning := "⚠️ Possible focus issue, consider evaluation"
  const Normal := "✅ Normal for age"

  /** The two fields the handler reads; `None` is a field the body lacks, and a
      comparison against a missing field is false in JavaScript. */
  datatype Reading = Reading(trackingAccuracy: Option<real>, fixationSpeed: Option<real>)

  /** True when tracking accuracy is below 70 or fixation takes longer than 1200 ms. */
  predicate Flagged(d: Reading) {
    || (d.trackingAccuracy.Some? && d.trackingAccuracy.value < 70.0)
    || (d.fixationSpeed.Some? && d.fixationSpeed.value > 1200.0)
  }

  /** The recommendation text. */
  function Recommendation(d: Reading): (r: string)
    ensures r == Warning || r == Normal
  {
    if Flagged(d) then Warning else Normal
  }

  /** `POST /api/eye-test`; `Err` is an error thrown while reading the body. */
  function Post(body: Result<Reading>): (resp: Response)
    ensures resp.status == 200 <==> body.Ok?
    ensures body.Ok? ==> resp.body.Keys == {"success", "message", "recommendation"}
    ensures body.Err? ==> resp.body.Keys == {"success", "error"}
    ensures resp.body["success"] == JBool(body.Ok?)
    ensures body.Ok? ==> resp.body["message"] == JStr("Result received")
    ensures body.Ok? ==> (resp.body["recommendation"] == JStr(Warning) <==> Flagged(body.value))
    ensures body.Ok? ==> (resp.body["recommendation"] == JStr(Normal) <==> !Flagged(body.value))
    ensures body.Err? ==> resp == Response(500, Failure(body.message))
  {
    match body
    case Ok(d) =>
      Response(200, map[
        "success" := JBool(true),
        "message" := JStr("Result received"),
        "recommendation" := JStr(Recommendation(d))
      ])
    case Err(m) => Response(500, Failure(m))
  }

  /** Both comparisons are strict: a reading exactly at both thresholds is normal,
      and crossing either one alone is enough to be flagged. */
  lemma ThresholdsAreStrict()
    ensures Recommendation(Reading(Some(70.0), Some(1200.0))) == Normal
    ensures Recommendation(Reading(Some(69.5), Some(1200.0))) == Warning
    ensures Recommendation(Reading(Some(70.0), Some(1200.5))) == Warning
    ensures Recommendation(Reading(None, None)) == Normal
  {
  }
}
