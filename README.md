# Vehicle insurance quote simulation: risk score and premium

This project models the calculation behind the `SimulacaoSeguro` endpoint of the
`SeguroVeiculo` service. The endpoint receives a quote request: vehicle, owner and
driver (`Condutor`: birth date and residence risk code), plus the requested coverage
codes. It asks external services for the vehicle's market value and the driver's
accident history, then computes the following:

1. the driver's **age** in completed years on today's date;
2. a **risk score**, built up in three stages on one running total: an age band, the
   accident count and the residence risk code (`"B"`, `"M"`, `"A"`);
3. a **risk tier** 1-5 from fixed score breakpoints;
4. a **premium** (`CalcularValorSeguro`): the tier surcharge (0%, 5%, 10%, 20%, 30%),
   then for each requested code either a share of the market value times one plus the
   surcharge (theft 3%, collision 4%, third parties 1.5%) or the flat home-protection
   fee of 100. The total is rounded up to the cent.

Modules, one per stage of the calculation:

- `Outcome` (`outcome.dfy`): `Result`/`Option` and the four failure kinds. The
  residence and tier switches can throw; so can the two `ArgumentException`s of the
  pricing.
- `Calendar` (`calendar.dfy`): whole dates and `AgeOn`.
- `RiskScoring` (`risk_scoring.dfy`): the score stages, the tier switch, and the
  imperative method `AssessRisk`. That method updates one running score in the order
  the code does.
- `Pricing` (`pricing.dfy`): coverage codes, surcharge, per-coverage cost, the sum,
  rounding up to the cent, and the imperative method `CalculatePremium`. Its loop
  invariant ties the running total to the recursive sum `TotalCost`.
- `Simulation` (`simulation.dfy`): the request records and the endpoint's calculation
  as a whole (`Quote`, `SimulateQuote`).

Money is C# `decimal`. It is exact in base 10 at these magnitudes, so it is modelled
as an exact `real`. Market value, accident count and today's date are parameters.

The code's comments give the risk score as the sum of three contributions. The code computes a different score. Each accident and
residence stage is written `score += (switch { k => score += points })`. C# reads the
left operand of a compound assignment before it evaluates the right side, so a
non-default arm turns `score` into `score + (score + points)`. The model follows the
code. The additive rule of the comments is modelled beside it, and the two are
compared (see "## Findings").

The requested coverages are a sequence (`IEnumerable<string>`), not a set. Every
entry is priced, repetitions included.

## Model

| member | source | states |
|---|---|---|
| `Calendar.After` | SeguroVeiculo/Controllers/SimulacaoSeguroController.cs:44 | the `>` on dates, for whole dates: later year, else later month, else later day (no contract of its own; `Calendar.AgeOn` is stated with it) |
| `Calendar.AddYears` | SeguroVeiculo/Controllers/SimulacaoSeguroController.cs:44 | the same month and day `n` years away, as `AddYears`, except that it does not clamp 29 February to 28 February in a non-leap year (no contract of its own) |
| `Calendar.AgeOn` | SeguroVeiculo/Controllers/SimulacaoSeguroController.cs:42-45 | the age is the number of completed anniversaries: the age-th anniversary is not after today and the next one is |
| `Calendar.AgeDecrement` | SeguroVeiculo/Controllers/SimulacaoSeguroController.cs:42-45 | the age is the year difference minus one exactly when the birthday (month, day) is still to come this year, and the year difference otherwise |
| `Calendar.AgeUnique` | SeguroVeiculo/Controllers/SimulacaoSeguroController.cs:42-45 | any year count whose anniversary has passed while the next one has not is the age |
| `RiskScoring.AgePoints` | SeguroVeiculo/Controllers/SimulacaoSeguroController.cs:54-60 | the age score is one of 3, 5, 10, 15; it is 10 exactly for ages under 18 or over 60 (the default arm) |
| `RiskScoring.AgePointsAtBoundaries` | SeguroVeiculo/Controllers/SimulacaoSeguroController.cs:54-60 | ages 17, 18, 25, 26, 40, 41, 60, 61 score 10, 15, 15, 5, 5, 3, 3, 10: each band edge falls where the table puts it |
| `RiskScoring.AgePointsNonIncreasingInAdulthood` | SeguroVeiculo/Controllers/SimulacaoSeguroController.cs:47-60 | between 18 and 60 an older driver never scores more (the criterion that younger drivers are riskier) |
| `RiskScoring.DocumentedAccidentPoints` | SeguroVeiculo/Controllers/SimulacaoSeguroController.cs:62-67 | the commented accident points lie in 0..30 and are 0 exactly when there is no accident |
| `RiskScoring.DocumentedResidencePoints` | SeguroVeiculo/Controllers/SimulacaoSeguroController.cs:77-81 | the commented residence points lie in 5..20 |
| `RiskScoring.DocumentedTableValues` | SeguroVeiculo/Controllers/SimulacaoSeguroController.cs:62-81 | the commented tables: 0, 1, 2, 3 and 10 accidents give 0, 10, 20, 30, 30 points; "B", "M", "A" give 5, 10, 20 |
| `RiskScoring.AccidentStage` | SeguroVeiculo/Controllers/SimulacaoSeguroController.cs:69-75 | a count of 0 or less leaves the score unchanged; counts 1, 2 and 3 or more turn `old` into `2*old + k` with k the commented 10, 20, 30 |
| `RiskScoring.ResidenceStage` | SeguroVeiculo/Controllers/SimulacaoSeguroController.cs:83-88 | it succeeds exactly for "B", "M", "A" and then gives `2*old + r` with r the commented 5, 10, 20; any other code fails with UnknownResidence |
| `RiskScoring.RiskTier` | SeguroVeiculo/Controllers/SimulacaoSeguroController.cs:99-106 | the tier switch succeeds exactly for non-negative scores, always with a tier in 1..5; a negative score fails with UnmatchedScore |
| `RiskScoring.RiskTierByThresholds` | SeguroVeiculo/Controllers/SimulacaoSeguroController.cs:92-106 | for a non-negative score, the tier is one plus the number of breakpoints 11, 26, 41, 56 it has reached |
| `RiskScoring.RiskTierMonotone` | SeguroVeiculo/Controllers/SimulacaoSeguroController.cs:99-106 | a higher non-negative score never gets a lower tier |
| `RiskScoring.RiskScoreAsWritten` | SeguroVeiculo/Controllers/SimulacaoSeguroController.cs:40-88 | the code's score exists exactly for a known residence code, and then lies in 11..140 |
| `RiskScoring.RiskScoreAsWrittenBounds` | SeguroVeiculo/Controllers/SimulacaoSeguroController.cs:54-88 | 11 (age 41-60, no accident, "B") and 140 (age 18-25, three or more accidents, "A") are reached |
| `RiskScoring.TierOfScoreAsWritten` | SeguroVeiculo/Controllers/SimulacaoSeguroController.cs:83-106 | the tier switch never throws on a computed score, and tier 1 is never produced: the tier is in 2..5 |
| `RiskScoring.RiskScoreAsWrittenMonotoneInAccidents` | SeguroVeiculo/Controllers/SimulacaoSeguroController.cs:69-88 | more accidents never lower the code's score |
| `RiskScoring.RiskScoreDocumented` | SeguroVeiculo/Controllers/SimulacaoSeguroController.cs:47-81 | the commented additive score exists exactly for a known residence code, and then lies in 8..65 |
| `RiskScoring.AsWrittenExceedsDocumented` | SeguroVeiculo/Controllers/SimulacaoSeguroController.cs:62-88 | the code's score exceeds the commented score by the age points (no accident) or by three times the age points plus the accident points; its tier is never lower |
| `RiskScoring.AsWrittenDivergesExample` | SeguroVeiculo/Controllers/SimulacaoSeguroController.cs:62-106 | age 30, two accidents, residence "A": the code gives 80 (tier 5), the comments 45 (tier 4) |
| `RiskScoring.DocumentedReachesLowestTier` | SeguroVeiculo/Controllers/SimulacaoSeguroController.cs:92-101 | under the commented rule a score of 8 and tier 1 are reachable |
| `RiskScoring.AssessmentOf` | SeguroVeiculo/Controllers/SimulacaoSeguroController.cs:40-106 | the assessment succeeds exactly for a known residence code; it then carries the age on today's date and a tier in 2..5 |
| `RiskScoring.AssessRisk` | SeguroVeiculo/Controllers/SimulacaoSeguroController.cs:40-106 | updating one running score step by step, with each compound assignment's left operand read first, yields the assessment `AssessmentOf` describes |
| `Pricing.CoverageCode` | SeguroVeiculo/Controllers/SimulacaoSeguroController.cs:161-173 | the four case labels: the code each coverage is requested by (no contract of its own; `Pricing.ParseCoverageCode` and `Pricing.ParseCoverage` state the round trip) |
| `Pricing.ParseCoverage` | SeguroVeiculo/Controllers/SimulacaoSeguroController.cs:159-178 | a code is read as a coverage exactly when it is that coverage's code; no coverage has a code that is rejected |
| `Pricing.ParseCoverageCode` | SeguroVeiculo/Controllers/SimulacaoSeguroController.cs:159-175 | reading back a coverage's code gives that coverage |
| `Pricing.ParseAll` | SeguroVeiculo/Controllers/SimulacaoSeguroController.cs:154-178 | the codes are read exactly when all are known, into a sequence of equal length whose every entry is its code's coverage |
| `Pricing.Surcharge` | SeguroVeiculo/Controllers/SimulacaoSeguroController.cs:144-152 | a surcharge exists exactly for tiers 1..5, lies in 0..0.30, and is 0 for tier 1 |
| `Pricing.PricingTableValues` | SeguroVeiculo/Controllers/SimulacaoSeguroController.cs:144-152 | tiers 1-5 carry surcharges 0, 0.05, 0.10, 0.20, 0.30 and tiers 0 and 6 none; third-party cover at tier 1 on a vehicle worth 1000 costs 15.00 |
| `Pricing.SurchargeMonotone` | SeguroVeiculo/Controllers/SimulacaoSeguroController.cs:123-152 | a higher tier never has a smaller surcharge |
| `Pricing.MarketRate` | SeguroVeiculo/Controllers/SimulacaoSeguroController.cs:159-172 | the share of market value for a percentage coverage is positive and at most 4% |
| `Pricing.Cost` | SeguroVeiculo/Controllers/SimulacaoSeguroController.cs:156-175 | for a non-negative market value and surcharge, no coverage has a negative adjusted cost |
| `Pricing.CostNeverBelowBase` | SeguroVeiculo/Controllers/SimulacaoSeguroController.cs:162-171 | for a non-negative market value and surcharge, a theft, collision or third-party cost is never below its base cost, market value times rate |
| `Pricing.HomeProtectionFee` | SeguroVeiculo/Controllers/SimulacaoSeguroController.cs:173-174 | home protection costs 100 for every market value and every surcharge |
| `Pricing.CostMonotoneInMarket` | SeguroVeiculo/Controllers/SimulacaoSeguroController.cs:159-175 | with a non-negative surcharge, a coverage never costs less on a dearer vehicle |
| `Pricing.CostMonotoneInAdjustment` | SeguroVeiculo/Controllers/SimulacaoSeguroController.cs:159-175 | with a non-negative market value, a coverage never costs less under a larger surcharge |
| `Pricing.TotalCost` | SeguroVeiculo/Controllers/SimulacaoSeguroController.cs:141-181 | the accumulated sum starts at 0 and adds each coverage's adjusted cost in request order; it is never negative for a non-negative market value and surcharge |
| `Pricing.TotalCostByCounts` | SeguroVeiculo/Controllers/SimulacaoSeguroController.cs:154-181 | the sum equals, over the four coverages, the number of occurrences times the cost: repetitions are each counted |
| `Pricing.TotalCostPermutation` | SeguroVeiculo/Controllers/SimulacaoSeguroController.cs:154-181 | reordering the coverages does not change the sum |
| `Pricing.TotalCostMonotoneInMarket` | SeguroVeiculo/Controllers/SimulacaoSeguroController.cs:154-181 | the sum never decreases when the market value grows |
| `Pricing.TotalCostMonotoneInAdjustment` | SeguroVeiculo/Controllers/SimulacaoSeguroController.cs:154-181 | for a non-negative market value the sum never decreases when the surcharge grows |
| `Pricing.Ceiling` | SeguroVeiculo/Controllers/SimulacaoSeguroController.cs:184 | the result is the least integer not below its argument |
| `Pricing.RoundUpToCent` | SeguroVeiculo/Controllers/SimulacaoSeguroController.cs:183-184 | the result is a whole number of cents, at least the amount and less than one cent above it |
| `Pricing.RoundUpExact` | SeguroVeiculo/Controllers/SimulacaoSeguroController.cs:184 | an amount already exact to the cent is returned unchanged |
| `Pricing.RoundUpMonotone` | SeguroVeiculo/Controllers/SimulacaoSeguroController.cs:184 | rounding up keeps the order of amounts |
| `Pricing.RoundUpExample` | SeguroVeiculo/Controllers/SimulacaoSeguroController.cs:184 | 100.001 rounds up to 100.01; 100.00 stays 100.00 |
| `Pricing.Premium` | SeguroVeiculo/Controllers/SimulacaoSeguroController.cs:139-187 | an invalid tier fails with InvalidRiskLevel exactly when the tier is outside 1..5; for a valid tier an unknown code fails with InvalidCoverage, so no partial total is returned; a result is a whole number of cents, and not negative for a non-negative market value |
| `Pricing.CalculatePremium` | SeguroVeiculo/Controllers/SimulacaoSeguroController.cs:139-187 | the surcharge lookup, then the per-code loop with early failure, then rounding, return exactly `Premium` |
| `Pricing.ParsedCounts` | SeguroVeiculo/Controllers/SimulacaoSeguroController.cs:154-178 | reading the codes keeps the number of occurrences of every coverage |
| `Pricing.AllKnownPermutation` | SeguroVeiculo/Controllers/SimulacaoSeguroController.cs:154-178 | whether all codes are known does not depend on their order |
| `Pricing.ParsedTotalsAgree` | SeguroVeiculo/Controllers/SimulacaoSeguroController.cs:154-181 | two requests holding the same codes equally often are read into coverages with the same sum |
| `Pricing.PremiumOrderIndependent` | SeguroVeiculo/Controllers/SimulacaoSeguroController.cs:154-181 | two requests holding the same codes the same number of times get the same premium or the same failure |
| `Pricing.PremiumMonotoneInMarket` | SeguroVeiculo/Controllers/SimulacaoSeguroController.cs:139-187 | a dearer vehicle never gets a cheaper premium |
| `Pricing.PremiumMonotoneInTier` | SeguroVeiculo/Controllers/SimulacaoSeguroController.cs:139-187 | for a non-negative market value and known codes, a higher tier never gets a cheaper premium |
| `Pricing.HomeProtectionIsFlat` | SeguroVeiculo/Controllers/SimulacaoSeguroController.cs:173-175 | home protection alone costs 100.00 at every valid tier and market value |
| `Pricing.PremiumExamples` | SeguroVeiculo/Controllers/SimulacaoSeguroController.cs:139-187 | market value 1000: theft at tier 1 costs 30.00, collision at tier 3 costs 44.00, no coverage costs 0 |
| `Pricing.UnknownCodeRejectsAll` | SeguroVeiculo/Controllers/SimulacaoSeguroController.cs:176-177 | one unknown code among valid ones rejects the whole request with InvalidCoverage |
| `Simulation.Driver` | SeguroVeiculo/Controllers/SimulacaoSeguroController.cs:15 | the driver record `Condutor` as the calculation reads it: `DataNascimento` as a whole date and `Residencia` as the residence code; the tax id is dropped (a datatype, no contract) |
| `Simulation.QuoteRequest` | SeguroVeiculo/Controllers/SimulacaoSeguroController.cs:10-16 | the request record as the calculation reads it: the driver and `Coberturas.Cobertura` as an ordered sequence of codes with repetitions; vehicle and owner are dropped (a datatype, no contract) |
| `Simulation.Quote` | SeguroVeiculo/Controllers/SimulacaoSeguroController.cs:40-132 | the quote succeeds exactly for a known residence code and known coverage codes; it never fails on the tier; a result is a whole number of cents |
| `Simulation.QuoteAsDocumented` | SeguroVeiculo/Controllers/SimulacaoSeguroController.cs:47-132 | pricing at the tier of the commented additive score succeeds on the same inputs, with a whole number of cents |
| `Simulation.SimulateQuote` | SeguroVeiculo/Controllers/SimulacaoSeguroController.cs:18-136 | the endpoint's steps in order, assessment then pricing, return exactly `Quote` |
| `Simulation.QuoteNeverBelowDocumented` | SeguroVeiculo/Controllers/SimulacaoSeguroController.cs:62-132 | for a non-negative market value the code's premium is never below the premium of the commented rule |
| `Simulation.CollisionQuoteOnServiceValues` | SeguroVeiculo/Controllers/SimulacaoSeguroController.cs:27-132 | with market value 1000 and two accidents, a driver turning 30 today in residence "A" pays 52.00 for collision; the commented rule gives 48.00 |

## Left out

- HTTP transport: the controller attributes, request binding and the `Ok(...)`
  response. A failure is returned as an `Outcome.Error`; how an uncaught exception
  becomes an HTTP response is not modelled.
- The external services (vehicle value table, accident history). They are clients of
  remote APIs, stubbed in the repository to 1000 and to two records. The market value
  and the accident count are parameters; only the number of accident records is used.
  The three-year lookback argument and the unused service URL and HTTP context have
  no effect on the calculation.
- Asynchrony and the cancellation token: they have no effect on the computed value.
- The clock: "today" is a single date parameter. The code reads the current time three times: for the accident lookback year and twice in the age computation. A request that runs across midnight (or across a year end) could see two different dates between the year difference and the comparison; the model uses one date for both.
- Calendar.AgeOn: compares whole dates only. The time of day of the present moment
  and of the birth date is not modelled. For whole dates, the month-and-day comparison
  agrees with the code's comparison against today moved back by `AddYears`, including
  its clamping of 29 February. Dates are not checked for validity: any
  (year, month, day) triple is accepted.
- The owner (`Proprietario`), the vehicle strings and the driver's tax id: the
  calculation does not read them.
- The request-validation placeholder and the note about storing the quote intent
  (pending, approved, rejected): neither is implemented, and neither defines states or
  transitions.
- The precision and range limits of C# `decimal` (28-29 significant digits,
  overflow): amounts are exact unbounded reals.
- The exception types: the residence and tier switches would throw a switch-expression
  exception; the pricing throws `ArgumentException` with its two messages. These are
  modelled as the four `Outcome.Error` values.

## Findings

| source | as written | input that shows it | evidently intended | confidence | as-written member | corrected member |
|---|---|---|---|---|---|---|
| SeguroVeiculo/Controllers/SimulacaoSeguroController.cs:69-88 | each non-default accident or residence arm adds its points to the running score inside a compound assignment, so the score becomes `old + (old + k)` | driver aged 30, 2 accidents, residence "A": 5, then 30, then 80, tier 5; tier 1 is unreachable | `old + k`, as the comments at lines 62-66 and 77-81 state: 5 + 20 + 20 = 45, tier 4 | high; not executed | `RiskScoring.AsWrittenDivergesExample` | `RiskScoring.RiskScoreDocumented` |

The as-written half is `RiskScoring.RiskScoreAsWritten`, computed step by step by
`RiskScoring.AssessRisk`. `RiskScoring.AsWrittenExceedsDocumented` shows that it
always exceeds the additive score. The corrected half is `RiskScoring.RiskScoreDocumented`:
the plain sum of the three commented contributions, in 8..65, with tier 1 reachable
(`RiskScoring.DocumentedReachesLowestTier`). `Simulation.QuoteAsDocumented` prices
with it, and `Simulation.QuoteNeverBelowDocumented` bounds the as-written premium
below by it. The endpoint model `Simulation.Quote` keeps the code's behaviour, since
that is what the service computes.
