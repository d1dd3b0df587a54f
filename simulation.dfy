/** The quote simulation endpoint `SimulacaoSeguro`, reduced to its calculation.
    The vehicle's market value and the driver's accident count come from external
    services and "today" from the clock; here all three are parameters. */
module Simulation {
  import opened Outcome
  import opened Calendar
  import opened RiskScoring
  import opened Pricing

  /** The driver (`Condutor`), as far as the calculation reads it. */
  datatype Driver = Driver(birthDate: Date, residence: string)

  /** The quote request, as far as the calculation reads it: the driver and the
      requested coverage codes, in request order and with repetitions. */
  datatype QuoteRequest = QuoteRequest(driver: Driver, coverages: seq<string>)

  /** The endpoint's answer: the premium for the requested coverages at the tier the
      code computes, or the first failure. A computed tier is always valid, so the
      only failures are an unknown residence code and an unknown coverage code. */
  function Quote(request: QuoteRequest, today: Date, marketValue: real, accidentCount: int): (r: Result<real>)
    ensures r.Ok? <==> IsResidenceCode(request.driver.residence) && AllKnown(request.coverages)
    ensures r == Err(UnknownResidence) <==> !IsResidenceCode(request.driver.residence)
    ensures r.Err? ==> r.error == UnknownResidence || r.error == InvalidCoverage
    ensures r.Ok? ==> IsWholeCents(r.value)
  {
    match AssessmentOf(request.driver.birthDate, today, accidentCount, request.driver.residence)
    case Err(e) => Err(e)
    case Ok(risk) => Premium(marketValue, risk.tier, request.coverages)
  }

  /** The answer the code's comments describe: the same pricing at the tier of the
      additive score. */
  function QuoteAsDocumented(request: QuoteRequest, today: Date, marketValue: real, accidentCount: int)
    : (r: Result<real>)
    ensures r.Ok? <==> IsResidenceCode(request.driver.residence) && AllKnown(request.coverages)
    ensures r.Ok? ==> IsWholeCents(r.value)
  {
    var age := AgeOn(request.driver.birthDate, today);
    match RiskScoreDocumented(age, accidentCount, request.driver.residence)
    case Err(e) => Err(e)
    case Ok(score) =>
      match RiskTier(score)
      case Err(e) => Err(e)
      case Ok(tier) => Premium(marketValue, tier, request.coverages)
  }

  /** The endpoint's steps in order: the risk assessment, then the pricing. */
  method SimulateQuote(request: QuoteRequest, today: Date, marketValue: real, accidentCount: int)
    returns (r: Result<real>)
    ensures r == Quote(request, today, marketValue, accidentCount)
  {
    var risk := AssessRisk(request.driver.birthDate, today, accidentCount, request.driver.residence);
    match risk {
      case Err(e) =>
        return Err(e);
      case Ok(assessment) =>
        r := CalculatePremium(marketValue, assessment.tier, request.coverages);
    }
  }

  /** For a non-negative market value the code's premium is never below the premium
      the comments describe, since its score and so its tier are never lower. */
  lemma QuoteNeverBelowDocumented(request: QuoteRequest, today: Date, marketValue: real, accidentCount: int)
    requires 0.0 <= marketValue
    requires Quote(request, today, marketValue, accidentCount).Ok?
    ensures QuoteAsDocumented(request, today, marketValue, accidentCount).value
            <= Quote(request, today, marketValue, accidentCount).value
  {
    var age := AgeOn(request.driver.birthDate, today);
    var residence := request.driver.residence;
    AsWrittenExceedsDocumented(age, accidentCount, residence);
    var written := RiskTier(RiskScoreAsWritten(age, accidentCount, residence).value).value;
    var documented := RiskTier(RiskScoreDocumented(age, accidentCount, residence).value).value;
    PremiumMonotoneInTier(marketValue, documented, written, request.coverages);
  }

  /** With the values the external services return (a vehicle worth 1000 and two
      accidents), a driver turning 30 today in a high-risk region pays 40 plus 30%
      for collision cover, 52.00; the comments' rule would give tier 4 and 48.00. */
  lemma CollisionQuoteOnServiceValues(today: Date)
    ensures Quote(QuoteRequest(Driver(AddYears(today, -30), "A"), ["Colisao"]), today, 1000.0, 2) == Ok(52.0)
    ensures QuoteAsDocumented(QuoteRequest(Driver(AddYears(today, -30), "A"), ["Colisao"]), today, 1000.0, 2)
            == Ok(48.0)
  {
    var birth := AddYears(today, -30);
    assert AgeOn(birth, today) == 30;
    AsWrittenDivergesExample();
    assert ParseAll(["Colisao"]).value == [Colisao];
    RoundUpExact(52.0);
    RoundUpExact(48.0);
  }
}
