/**
 * The `GET /api/globe-data` route: the query check, and the fallback that
 * replaces an empty country-code bucket of the model's reply by a fixed default.
 */
module GlobeData {
  import opened Common

  /** An ISO 3166-1 alpha-2 country code, as the language model writes it (the route does not validate it). */
  type CountryCode = string

  /** The three classification buckets of `globeData`. */
  datatype Buckets = Buckets(existing: seq<CountryCode>, potential: seq<CountryCode>, challenging: seq<CountryCode>)

  /** The explanation strings of `analysis`, one per bucket. */
  datatype Analysis = Analysis(existing: string, potential: string, challenging: string)

  /** The language model's reply once it has been parsed as JSON. */
  datatype GlobeReply = GlobeReply(globeData: Buckets, analysis: Analysis)

  /** What the completion call and `JSON.parse` yield: a well-shaped reply, or a failure (call error, bad JSON, missing bucket). */
  datatype ModelOutcome = Unusable | Parsed(reply: GlobeReply)

  /** The route's HTTP answer. */
  datatype Response = Ok(body: GlobeReply) | Error(status: int, message: string)

  const DefaultExisting: CountryCode := "US"
  const DefaultPotential: CountryCode := "GB"
  const DefaultChallenging: CountryCode := "CN"
  const MissingQueryMessage := "Query parameter is required"
  const FailureMessage := "Failed to generate globe data"

  /** `!query` in JavaScript: the parameter is absent or the empty string. */
  predicate QueryMissing(query: Option<string>) {
    query.None? || query.value == ""
  }

  predicate NonEmptyBuckets(b: Buckets) {
    |b.existing| > 0 && |b.potential| > 0 && |b.challenging| > 0
  }

  /** One bucket of the fallback: an empty list becomes the one-element default list. */
  function OrDefault(bucket: seq<CountryCode>, default: CountryCode): (r: seq<CountryCode>)
    ensures |r| >= 1
    ensures |bucket| == 0 ==> r == [default]
    ensures |bucket| > 0 ==> r == bucket
  {
    if |bucket| == 0 then [default] else bucket
  }

  /** The fallback as a value: each empty bucket is replaced by its own default, independently of the others. */
  function Normalize(b: Buckets): (r: Buckets)
    ensures NonEmptyBuckets(r)
    ensures |b.existing| == 0 ==> r.existing == [DefaultExisting]
    ensures |b.potential| == 0 ==> r.potential == [DefaultPotential]
    ensures |b.challenging| == 0 ==> r.challenging == [DefaultChallenging]
    ensures |b.existing| > 0 ==> r.existing == b.existing
    ensures |b.potential| > 0 ==> r.potential == b.potential
    ensures |b.challenging| > 0 ==> r.challenging == b.challenging
  {
    Buckets(OrDefault(b.existing, DefaultExisting),
            OrDefault(b.potential, DefaultPotential),
            OrDefault(b.challenging, DefaultChallenging))
  }

  /** Normalising twice is normalising once. */
  lemma NormalizeIdempotent(b: Buckets)
    ensures Normalize(Normalize(b)) == Normalize(b)
  {
  }

  /** The fallback changes exactly those classifications that have an empty bucket. */
  lemma NormalizeFixedPoints(b: Buckets)
    ensures Normalize(b) == b <==> NonEmptyBuckets(b)
  {
  }

  /** Each bucket's outcome depends on that bucket alone. */
  lemma NormalizeIndependent(b: Buckets, c: Buckets)
    ensures b.existing == c.existing ==> Normalize(b).existing == Normalize(c).existing
    ensures b.potential == c.potential ==> Normalize(b).potential == Normalize(c).potential
    ensures b.challenging == c.challenging ==> Normalize(b).challenging == Normalize(c).challenging
  {
  }

  /** A reply with an empty `existing` bucket and the other two filled. */
  lemma NormalizeExample()
    ensures Normalize(Buckets([], ["IN"], ["FR"])) == Buckets(["US"], ["IN"], ["FR"])
  {
  }

  /** The parsed reply object, whose bucket fields the route reassigns in place. */
  class ParsedReply {
    var existing: seq<CountryCode>
    var potential: seq<CountryCode>
    var challenging: seq<CountryCode>
    var analysis: Analysis

    function View(): GlobeReply
      reads this
    {
      GlobeReply(Buckets(existing, potential, challenging), analysis)
    }

    constructor (reply: GlobeReply)
      ensures View() == reply
    {
      existing := reply.globeData.existing;
      potential := reply.globeData.potential;
      challenging := reply.globeData.challenging;
      analysis := reply.analysis;
    }

    /** The three guarded reassignments of the route, one bucket after another. */
    method EnsureEachBucketNonEmpty()
      modifies this
      ensures View() == GlobeReply(Normalize(old(View()).globeData), old(analysis))
    {
      if |existing| == 0 { existing := [DefaultExisting]; }
      if |potential| == 0 { potential := [DefaultPotential]; }
      if |challenging| == 0 { challenging := [DefaultChallenging]; }
    }
  }

  /** The route's answer as a value, given the query parameter and what the model produced for it. */
  function Respond(query: Option<string>, model: ModelOutcome): (r: Response)
    ensures QueryMissing(query) ==> r == Error(400, MissingQueryMessage)
    ensures !QueryMissing(query) && model.Unusable? ==> r == Error(500, FailureMessage)
    ensures r.Ok? <==> !QueryMissing(query) && model.Parsed?
    ensures r.Ok? ==> NonEmptyBuckets(r.body.globeData)
    ensures r.Ok? ==> r.body.globeData == Normalize(model.reply.globeData)
    ensures r.Ok? ==> r.body.analysis == model.reply.analysis
  {
    if QueryMissing(query) then Error(400, MissingQueryMessage)
    else match model
      case Unusable => Error(500, FailureMessage)
      case Parsed(reply) => Ok(GlobeReply(Normalize(reply.globeData), reply.analysis))
  }

  /** A missing query is refused before the model is consulted: its output cannot influence the answer. */
  lemma MissingQueryIgnoresModel(query: Option<string>, a: ModelOutcome, b: ModelOutcome)
    requires QueryMissing(query)
    ensures Respond(query, a) == Respond(query, b)
  {
  }

  /** A successful answer is already normalised: feeding it back through the fallback changes nothing. */
  lemma RespondStable(query: Option<string>, model: ModelOutcome)
    requires Respond(query, model).Ok?
    ensures Respond(query, Parsed(Respond(query, model).body)) == Respond(query, model)
  {
  }

  /** The route handler: check the query, parse, reassign empty buckets in place, answer. */
  method Get(query: Option<string>, model: ModelOutcome) returns (r: Response)
    ensures r == Respond(query, model)
  {
    if QueryMissing(query) {
      return Error(400, MissingQueryMessage);
    }
    if model.Unusable? {
      return Error(500, FailureMessage);
    }
    var data := new ParsedReply(model.reply);
    data.EnsureEachBucketNonEmpty();
    r := Ok(data.View());
  }
}
