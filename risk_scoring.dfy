/** The driver's risk score and risk tier, as computed inline by the endpoint
    `SimulacaoSeguro` before pricing. */
module RiskScoring {
  import opened Outcome
  import opened Calendar

  /** Residence risk codes: low ("B"), medium ("M") and high ("A") risk region. */
  predicate IsResidenceCode(code: string) {
    code == "B" || code == "M" || code == "A"
  }

  /** Age band points: 18-25 years 15, 26-40 years 5, 41-60 years 3, and the
      default arm (under 18, over 60) 10. */
  function AgePoints(age: int): (p: int)
    ensures p == 3 || p == 5 || p == 10 || p == 15
    ensures p == 10 <==> age < 18 || age > 60
  {
    if 18 <= age <= 25 then 15
    else if 26 <= age <= 40 then 5
    else if 41 <= age <= 60 then 3
    else 10
  }

  /** The band boundaries: each age on either side of a band edge. */
  lemma AgePointsAtBoundaries()
    ensures AgePoints(17) == 10 && AgePoints(18) == 15
    ensures AgePoints(25) == 15 && AgePoints(26) == 5
    ensures AgePoints(40) == 5 && AgePoints(41) == 3
    ensures AgePoints(60) == 3 && AgePoints(61) == 10
  {
  }

  /** Within the 18-60 range an older driver never scores more: the age band
      rewards experience. */
  lemma AgePointsNonIncreasingInAdulthood(a1: int, a2: int)
    requires 18 <= a1 <= a2 <= 60
    ensures AgePoints(a2) <= AgePoints(a1)
  {
  }

  /** Accident points as the table of the code's comments: none 0, one 10,
      two 20, three or more 30. */
  function DocumentedAccidentPoints(count: int): (p: int)
    ensures 0 <= p <= 30
    ensures p == 0 <==> count <= 0
  {
    if count == 1 then 10
    else if count == 2 then 20
    else if count >= 3 then 30
    else 0
  }

  /** Residence points as the table of the code's comments: "B" 5, "M" 10, "A" 20. */
  function DocumentedResidencePoints(code: string): (p: int)
    requires IsResidenceCode(code)
    ensures 5 <= p <= 20
  {
    if code == "B" then 5 else if code == "M" then 10 else 20
  }

  /** The commented accident and residence tables, value by value. */
  lemma DocumentedTableValues()
    ensures DocumentedAccidentPoints(0) == 0 && DocumentedAccidentPoints(1) == 10
    ensures DocumentedAccidentPoints(2) == 20 && DocumentedAccidentPoints(3) == 30
    ensures DocumentedAccidentPoints(10) == 30
    ensures DocumentedResidencePoints("B") == 5 && DocumentedResidencePoints("M") == 10
    ensures DocumentedResidencePoints("A") == 20
  {
  }

  /** The accident stage as the code evaluates it: the compound assignment reads
      the running score before the switch arm adds its points to it, so a
      non-default arm yields `running + (running + k)`; the default arm (no
      accident, or a negative count) adds 0. */
  function AccidentStage(running: int, count: int): (r: int)
    ensures count <= 0 ==> r == running
    ensures count >= 1 ==> r == 2 * running + DocumentedAccidentPoints(count)
  {
    running + (if count == 1 then running + 10
               else if count == 2 then running + 20
               else if count >= 3 then running + 30
               else 0)
  }

  /** The residence stage as the code evaluates it: `running + (running + r)` for
      a known code; any other code matches no arm and the switch throws. */
  function ResidenceStage(running: int, code: string): (r: Result<int>)
    ensures r.Ok? <==> IsResidenceCode(code)
    ensures r.Err? ==> r.error == UnknownResidence
    ensures r.Ok? ==> r.value == 2 * running + DocumentedResidencePoints(code)
  {
    if code == "B" then Ok(running + (running + 5))
    else if code == "M" then Ok(running + (running + 10))
    else if code == "A" then Ok(running + (running + 20))
    else Err(UnknownResidence)
  }

  /** The score breakpoints from which tiers 2, 3, 4 and 5 start. */
  const TierThresholds: seq<int> := [11, 26, 41, 56]

  /** How many of `thresholds` are at or below `score`. */
  function CountReached(thresholds: seq<int>, score: int): (n: nat)
    ensures n <= |thresholds|
  {
    if thresholds == [] then 0
    else (if thresholds[0] <= score then 1 else 0) + CountReached(thresholds[1..], score)
  }

  /** The tier switch: 0-10 tier 1, 11-25 tier 2, 26-40 tier 3, 41-55 tier 4,
      56 and more tier 5. A negative score matches no arm and the switch throws.
      A tier is one plus the number of breakpoints the score has reached. */
  function RiskTier(score: int): (r: Result<int>)
    ensures r.Ok? <==> score >= 0
    ensures r.Err? ==> r.error == UnmatchedScore
    ensures r.Ok? ==> 1 <= r.value <= 5
  {
    if 0 <= score <= 10 then Ok(1)
    else if 11 <= score <= 25 then Ok(2)
    else if 26 <= score <= 40 then Ok(3)
    else if 41 <= score <= 55 then Ok(4)
    else if score >= 56 then Ok(5)
    else Err(UnmatchedScore)
  }

  /** A tier is one plus the number of breakpoints the score has reached. */
  lemma RiskTierByThresholds(score: int)
    requires score >= 0
    ensures RiskTier(score) == Ok(1 + CountReached(TierThresholds, score))
  {
    var b := (n: int) => if n <= score then 1 else 0;
    assert [56][1..] == [];
    assert CountReached([56], score) == b(56);
    assert [41, 56][1..] == [56];
    assert CountReached([41, 56], score) == b(41) + b(56);
    assert [26, 41, 56][1..] == [41, 56];
    assert CountReached([26, 41, 56], score) == b(26) + b(41) + b(56);
    assert TierThresholds[1..] == [26, 41, 56];
    assert CountReached(TierThresholds, score) == b(11) + b(26) + b(41) + b(56);
  }

  /** A higher score never gets a lower tier. */
  lemma {:induction false} RiskTierMonotone(s1: int, s2: int)
    requires 0 <= s1 <= s2
    ensures RiskTier(s1).Ok? && RiskTier(s2).Ok?
    ensures RiskTier(s1).value <= RiskTier(s2).value
  {
    RiskTierByThresholds(s1);
    RiskTierByThresholds(s2);
    CountReachedMonotone(TierThresholds, s1, s2);
  }

  lemma {:induction false} CountReachedMonotone(thresholds: seq<int>, s1: int, s2: int)
    requires s1 <= s2
    ensures CountReached(thresholds, s1) <= CountReached(thresholds, s2)
  {
    if thresholds != [] {
      CountReachedMonotone(thresholds[1..], s1, s2);
    }
  }

  /** The score as the code computes it, from the age, the accident count and the
      residence code, starting from 0. */
  function RiskScoreAsWritten(age: int, accidentCount: int, residence: string): (r: Result<int>)
    ensures r.Ok? <==> IsResidenceCode(residence)
    ensures r.Err? ==> r.error == UnknownResidence
    ensures r.Ok? ==> 11 <= r.value <= 140
  {
    ResidenceStage(AccidentStage(0 + AgePoints(age), accidentCount), residence)
  }

  /** The score as the comments describe it: the sum of the three contributions. */
  function RiskScoreDocumented(age: int, accidentCount: int, residence: string): (r: Result<int>)
    ensures r.Ok? <==> IsResidenceCode(residence)
    ensures r.Err? ==> r.error == UnknownResidence
    ensures r.Ok? ==> 8 <= r.value <= 65
  {
    if IsResidenceCode(residence) then
      Ok(AgePoints(age) + DocumentedAccidentPoints(accidentCount) + DocumentedResidencePoints(residence))
    else Err(UnknownResidence)
  }

  /** The tier switch never throws on a computed score, and tier 1 never comes out:
      the smallest score reachable is 11 (age 41-60, no accident, residence "B"). */
  lemma TierOfScoreAsWritten(age: int, accidentCount: int, residence: string)
    requires IsResidenceCode(residence)
    ensures RiskTier(RiskScoreAsWritten(age, accidentCount, residence).value).Ok?
    ensures 2 <= RiskTier(RiskScoreAsWritten(age, accidentCount, residence).value).value <= 5
  {
  }

  /** Both ends of the range of the code's score are reached. */
  lemma RiskScoreAsWrittenBounds()
    ensures RiskScoreAsWritten(50, 0, "B") == Ok(11)
    ensures RiskScoreAsWritten(20, 3, "A") == Ok(140)
  {
  }

  /** More accidents never lower the score the code computes. */
  lemma RiskScoreAsWrittenMonotoneInAccidents(age: int, c1: int, c2: int, residence: string)
    requires c1 <= c2
    requires IsResidenceCode(residence)
    ensures RiskScoreAsWritten(age, c1, residence).value <= RiskScoreAsWritten(age, c2, residence).value
  {
    var a := AgePoints(age);
    assert AccidentStage(a, c1) <= AccidentStage(a, c2);
  }

  /** The code always scores strictly more than the comments describe: by the age
      points when there is no accident, and by three times the age points plus the
      accident points otherwise. Its tier is therefore never lower. */
  lemma AsWrittenExceedsDocumented(age: int, accidentCount: int, residence: string)
    requires IsResidenceCode(residence)
    ensures RiskScoreAsWritten(age, accidentCount, residence).value
            == RiskScoreDocumented(age, accidentCount, residence).value
               + (if accidentCount >= 1 then 3 * AgePoints(age) + DocumentedAccidentPoints(accidentCount)
                  else AgePoints(age))
    ensures RiskTier(RiskScoreDocumented(age, accidentCount, residence).value).value
            <= RiskTier(RiskScoreAsWritten(age, accidentCount, residence).value).value
  {
    RiskTierMonotone(RiskScoreDocumented(age, accidentCount, residence).value,
                     RiskScoreAsWritten(age, accidentCount, residence).value);
  }

  /** A driver aged 30 with 2 accidents living in a high-risk region: the code goes
      5, then 5 + (5 + 20) = 30, then 30 + (30 + 20) = 80, tier 5; the comments give
      5 + 20 + 20 = 45, tier 4. */
  lemma AsWrittenDivergesExample()
    ensures RiskScoreAsWritten(30, 2, "A") == Ok(80)
    ensures RiskTier(80) == Ok(5)
    ensures RiskScoreDocumented(30, 2, "A") == Ok(45)
    ensures RiskTier(45) == Ok(4)
  {
  }

  /** Under the documented rule the lowest tier is reachable, as its table intends. */
  lemma DocumentedReachesLowestTier()
    ensures RiskScoreDocumented(50, 0, "B") == Ok(8)
    ensures RiskTier(8) == Ok(1)
  {
  }

  /** What the endpoint derives about the driver before pricing. */
  datatype Assessment = Assessment(age: int, score: int, tier: int)

  /** The assessment as the code computes it. */
  function AssessmentOf(birth: Date, today: Date, accidentCount: int, residence: string): (r: Result<Assessment>)
    ensures r.Ok? <==> IsResidenceCode(residence)
    ensures r.Err? ==> r.error == UnknownResidence
    ensures r.Ok? ==> r.value.age == AgeOn(birth, today) && 2 <= r.value.tier <= 5
  {
    var age := AgeOn(birth, today);
    match RiskScoreAsWritten(age, accidentCount, residence)
    case Err(e) => Err(e)
    case Ok(score) =>
      match RiskTier(score)
      case Err(e) => Err(e)
      case Ok(tier) => Ok(Assessment(age, score, tier))
  }

  /** The scoring steps of the endpoint, updating one running score in sequence.
      Each compound assignment reads the running score before its switch arm,
      which itself adds to the running score, is evaluated. */
  method AssessRisk(birth: Date, today: Date, accidentCount: int, residence: string)
    returns (r: Result<Assessment>)
    ensures r == AssessmentOf(birth, today, accidentCount, residence)
  {
    var points := 0;

    var age := today.year - birth.year;
    if After(birth, AddYears(today, -age)) {
      age := age - 1;
    }
    assert age == AgeOn(birth, today);

    points := points + AgePoints(age);

    var before := points;
    var arm := 0;
    if accidentCount == 1 {
      points := points + 10;
      arm := points;
    } else if accidentCount == 2 {
      points := points + 20;
      arm := points;
    } else if accidentCount >= 3 {
      points := points + 30;
      arm := points;
    }
    points := before + arm;
    assert points == AccidentStage(AgePoints(age), accidentCount);

    before := points;
    if residence == "B" {
      points := points + 5;
      arm := points;
    } else if residence == "M" {
      points := points + 10;
      arm := points;
    } else if residence == "A" {
      points := points + 20;
      arm := points;
    } else {
      return Err(UnknownResidence);
    }
    points := before + arm;
    assert Ok(points) == ResidenceStage(before, residence);
    assert Ok(points) == RiskScoreAsWritten(age, accidentCount, residence);

    r := match RiskTier(points)
         case Err(e) => Err(e)
         case Ok(tier) => Ok(Assessment(age, points, tier));
  }
}
