/** Pricing of the requested coverages for a risk tier: `CalcularValorSeguro`.
    Money is an exact decimal amount, modelled as a `real`. */
module Pricing {
  import opened Outcome

  /** The four known coverages; each is requested by its code. */
  datatype Coverage = RouboFurto | Colisao | Terceiros | ProtecaoResidencial

  /** The request code of a coverage. */
  function CoverageCode(c: Coverage): string {
    match c
    case RouboFurto => "RouboFurto"
    case Colisao => "Colisao"
    case Terceiros => "Terceiros"
    case ProtecaoResidencial => "ProtecaoResidencial"
  }

  /** The coverage a request code names, if it is one of the four known codes. */
  function ParseCoverage(code: string): (r: Option<Coverage>)
    ensures r.Some? ==> CoverageCode(r.value) == code
    ensures r.None? ==> forall c: Coverage :: CoverageCode(c) != code
  {
    if code == "RouboFurto" then Some(RouboFurto)
    else if code == "Colisao" then Some(Colisao)
    else if code == "Terceiros" then Some(Terceiros)
    else if code == "ProtecaoResidencial" then Some(ProtecaoResidencial)
    else None
  }

  /** Reading back the code of a coverage gives that coverage. */
  lemma ParseCoverageCode(c: Coverage)
    ensures ParseCoverage(CoverageCode(c)) == Some(c)
  {
  }

  /** Every code of `codes` names a known coverage. */
  predicate AllKnown(codes: seq<string>) {
    forall i :: 0 <= i < |codes| ==> ParseCoverage(codes[i]).Some?
  }

  /** The coverages named by `codes`, in order and with repetitions, or None when
      some code is unknown. */
  function ParseAll(codes: seq<string>): (r: Option<seq<Coverage>>)
    ensures r.Some? <==> AllKnown(codes)
    ensures r.Some? ==> |r.value| == |codes|
    ensures r.Some? ==> forall i :: 0 <= i < |codes| ==> Some(r.value[i]) == ParseCoverage(codes[i])
  {
    if codes == [] then Some([])
    else
      match ParseAll(codes[..|codes| - 1])
      case None => None
      case Some(init) =>
        match ParseCoverage(codes[|codes| - 1])
        case None => None
        case Some(c) => Some(init + [c])
  }

  /** Surcharge fraction of a risk tier: 1 none, 2 +5%, 3 +10%, 4 +20%, 5 +30%;
      any other tier has none ("Nível de risco inválido"). */
  function Surcharge(tier: int): (r: Option<real>)
    ensures r.Some? <==> 1 <= tier <= 5
    ensures r.Some? ==> 0.0 <= r.value <= 0.30
    ensures tier == 1 ==> r == Some(0.0)
  {
    if tier == 1 then Some(0.0)
    else if tier == 2 then Some(0.05)
    else if tier == 3 then Some(0.10)
    else if tier == 4 then Some(0.20)
    else if tier == 5 then Some(0.30)
    else None
  }

  /** The table values: the surcharge of every tier, and third-party cover at tier 1
      on a vehicle worth 1000. */
  lemma PricingTableValues()
    ensures Surcharge(1) == Some(0.0) && Surcharge(2) == Some(0.05) && Surcharge(3) == Some(0.10)
    ensures Surcharge(4) == Some(0.20) && Surcharge(5) == Some(0.30)
    ensures Surcharge(0) == None && Surcharge(6) == None
    ensures Premium(1000.0, 1, ["Terceiros"]) == Ok(15.0)
  {
    assert ParseAll(["Terceiros"]).value == [Terceiros];
    RoundUpExact(15.0);
  }

  /** A higher tier never has a smaller surcharge. */
  lemma SurchargeMonotone(t1: int, t2: int)
    requires 1 <= t1 <= t2 <= 5
    ensures Surcharge(t1).value <= Surcharge(t2).value
  {
  }

  /** The share of the market value charged for a percentage coverage:
      theft 3%, collision 4%, third parties 1.5%. */
  function MarketRate(c: Coverage): (rate: real)
    requires c != ProtecaoResidencial
    ensures 0.0 < rate <= 0.04
  {
    match c
    case RouboFurto => 0.03
    case Colisao => 0.04
    case Terceiros => 0.015
  }

  /** The adjusted cost of one coverage: the base cost on the market value times
      one plus the surcharge, or the flat fee of 100 for home protection. For a
      non-negative market value and surcharge no cost is negative, and a surcharge
      never brings a percentage coverage below its base cost. */
  function Cost(market: real, adjustment: real, c: Coverage): (r: real)
    ensures 0.0 <= market && 0.0 <= adjustment ==> 0.0 <= r
  {
    if c == ProtecaoResidencial then 100.0
    else
      var baseCost := market * MarketRate(c);
      SurchargeNeverDiscounts(baseCost, adjustment);
      baseCost * (1.0 + adjustment)
  }

  /** A non-negative surcharge on a non-negative base cost never lowers it. */
  lemma SurchargeNeverDiscounts(baseCost: real, adjustment: real)
    ensures 0.0 <= baseCost && 0.0 <= adjustment ==> baseCost <= baseCost * (1.0 + adjustment)
  {
    if 0.0 <= baseCost && 0.0 <= adjustment {
      MulNonNegative(baseCost, adjustment);
    }
  }

  /** The surcharge never brings a percentage coverage below its base cost. */
  lemma CostNeverBelowBase(market: real, adjustment: real, c: Coverage)
    requires c != ProtecaoResidencial
    requires 0.0 <= market && 0.0 <= adjustment
    ensures market * MarketRate(c) <= Cost(market, adjustment, c)
  {
    SurchargeNeverDiscounts(market * MarketRate(c), adjustment);
  }

  /** Home protection costs 100 whatever the market value and the surcharge. */
  lemma HomeProtectionFee(m1: real, a1: real, m2: real, a2: real)
    ensures Cost(m1, a1, ProtecaoResidencial) == Cost(m2, a2, ProtecaoResidencial) == 100.0
  {
  }

  /** The cost of a coverage grows with the market value, for a non-negative
      surcharge. */
  lemma CostMonotoneInMarket(m1: real, m2: real, adjustment: real, c: Coverage)
    requires m1 <= m2
    requires 0.0 <= adjustment
    ensures Cost(m1, adjustment, c) <= Cost(m2, adjustment, c)
  {
    if c != ProtecaoResidencial {
      var k := MarketRate(c) * (1.0 + adjustment);
      MulNonNegative(MarketRate(c), 1.0 + adjustment);
      MulNonNegative(m2 - m1, k);
      assert Cost(m2, adjustment, c) - Cost(m1, adjustment, c) == (m2 - m1) * k;
    }
  }

  /** The cost of a coverage grows with the surcharge, for a non-negative market
      value. */
  lemma CostMonotoneInAdjustment(market: real, a1: real, a2: real, c: Coverage)
    requires 0.0 <= market
    requires a1 <= a2
    ensures Cost(market, a1, c) <= Cost(market, a2, c)
  {
    if c != ProtecaoResidencial {
      var k := market * MarketRate(c);
      MulNonNegative(market, MarketRate(c));
      MulNonNegative(k, a2 - a1);
      assert Cost(market, a2, c) - Cost(market, a1, c) == k * (a2 - a1);
    }
  }

  lemma MulNonNegative(x: real, y: real)
    requires 0.0 <= x && 0.0 <= y
    ensures 0.0 <= x * y
  {
  }

  /** The sum of the adjusted costs, accumulated from the first coverage on; it is
      never negative for a non-negative market value and surcharge. */
  function TotalCost(market: real, adjustment: real, cs: seq<Coverage>): (r: real)
    ensures 0.0 <= market && 0.0 <= adjustment ==> 0.0 <= r
  {
    if cs == [] then 0.0
    else TotalCost(market, adjustment, cs[..|cs| - 1]) + Cost(market, adjustment, cs[|cs| - 1])
  }

  /** `n` occurrences of a coverage costing `cost` each. */
  function Times(n: nat, cost: real): real {
    n as real * cost
  }

  lemma TimesSucc(n: nat, cost: real)
    ensures Times(n + 1, cost) == Times(n, cost) + cost
  {
  }

  /** The sum over the four coverages of their number of occurrences in `cs` times
      their cost. */
  function CountedCost(market: real, adjustment: real, cs: seq<Coverage>): real {
    var m := multiset(cs);
    Times(m[RouboFurto], Cost(market, adjustment, RouboFurto))
    + Times(m[Colisao], Cost(market, adjustment, Colisao))
    + Times(m[Terceiros], Cost(market, adjustment, Terceiros))
    + Times(m[ProtecaoResidencial], Cost(market, adjustment, ProtecaoResidencial))
  }

  /** The sum counts every coverage as often as it occurs. */
  lemma {:induction false} TotalCostByCounts(market: real, adjustment: real, cs: seq<Coverage>)
    ensures TotalCost(market, adjustment, cs) == CountedCost(market, adjustment, cs)
  {
    if cs != [] {
      var init, last := cs[..|cs| - 1], cs[|cs| - 1];
      assert cs == init + [last];
      var m, m0 := multiset(cs), multiset(init);
      assert m == m0 + multiset{last};
      TotalCostByCounts(market, adjustment, init);
      var cost := Cost(market, adjustment, last);
      TimesSucc(m0[last], cost);
      assert m[last] == m0[last] + 1;
      assert forall k :: k != last ==> m[k] == m0[k];
    }
  }

  /** The order of the coverages does not change their sum. */
  lemma TotalCostPermutation(market: real, adjustment: real, a: seq<Coverage>, b: seq<Coverage>)
    requires multiset(a) == multiset(b)
    ensures TotalCost(market, adjustment, a) == TotalCost(market, adjustment, b)
  {
    TotalCostByCounts(market, adjustment, a);
    TotalCostByCounts(market, adjustment, b);
  }

  lemma {:induction false} TotalCostMonotoneInMarket(m1: real, m2: real, adjustment: real, cs: seq<Coverage>)
    requires m1 <= m2
    requires 0.0 <= adjustment
    ensures TotalCost(m1, adjustment, cs) <= TotalCost(m2, adjustment, cs)
  {
    if cs != [] {
      TotalCostMonotoneInMarket(m1, m2, adjustment, cs[..|cs| - 1]);
      CostMonotoneInMarket(m1, m2, adjustment, cs[|cs| - 1]);
    }
  }

  lemma {:induction false} TotalCostMonotoneInAdjustment(market: real, a1: real, a2: real, cs: seq<Coverage>)
    requires 0.0 <= market
    requires a1 <= a2
    ensures TotalCost(market, a1, cs) <= TotalCost(market, a2, cs)
  {
    if cs != [] {
      TotalCostMonotoneInAdjustment(market, a1, a2, cs[..|cs| - 1]);
      CostMonotoneInAdjustment(market, a1, a2, cs[|cs| - 1]);
    }
  }

  /** The smallest integer not below `x`. */
  function Ceiling(x: real): (n: int)
    ensures n as real - 1.0 < x <= n as real
  {
    var f := x.Floor;
    if f as real == x then f else f + 1
  }

  /** `x` is a whole number of cents. */
  predicate IsWholeCents(x: real) {
    (x * 100.0).Floor as real == x * 100.0
  }

  /** Rounding up to the cent: the result is a whole number of cents, never less
      than `x` and less than one cent above it. */
  function RoundUpToCent(x: real): (r: real)
    ensures IsWholeCents(r)
    ensures x <= r < x + 0.01
  {
    var n := Ceiling(x * 100.0);
    var r := n as real / 100.0;
    assert r * 100.0 == n as real;
    assert (n as real).Floor == n;
    r
  }

  /** An amount already exact to the cent is returned unchanged. */
  lemma RoundUpExact(x: real)
    requires IsWholeCents(x)
    ensures RoundUpToCent(x) == x
  {
    var r := RoundUpToCent(x);
    var n, m := (r * 100.0).Floor, (x * 100.0).Floor;
    assert n as real == r * 100.0 && m as real == x * 100.0;
    assert m <= n < m + 1;
  }

  /** Rounding up keeps the order of amounts. */
  lemma RoundUpMonotone(x: real, y: real)
    requires x <= y
    ensures RoundUpToCent(x) <= RoundUpToCent(y)
  {
    var n, m := Ceiling(x * 100.0), Ceiling(y * 100.0);
    assert n as real - 1.0 < x * 100.0 <= y * 100.0 <= m as real;
    assert n <= m;
  }

  /** One more priced code extends the parsed prefix and the running sum. */
  lemma PricedStep(market: real, adjustment: real, codes: seq<string>, i: nat, priced: seq<Coverage>, c: Coverage)
    requires i < |codes|
    requires ParseAll(codes[..i]) == Some(priced)
    requires ParseCoverage(codes[i]) == Some(c)
    ensures ParseAll(codes[..i + 1]) == Some(priced + [c])
    ensures TotalCost(market, adjustment, priced + [c])
            == TotalCost(market, adjustment, priced) + Cost(market, adjustment, c)
  {
    assert codes[..i + 1][..i] == codes[..i];
    assert (priced + [c])[..|priced|] == priced;
  }

  /** What `CalcularValorSeguro` returns: an invalid tier fails first; then any
      unknown coverage code fails the whole calculation, so no partial total is
      returned; otherwise the sum of the adjusted costs rounded up to the cent. */
  function Premium(market: real, tier: int, codes: seq<string>): (r: Result<real>)
    ensures r == Err(InvalidRiskLevel) <==> !(1 <= tier <= 5)
    ensures r == Err(InvalidCoverage) <==> 1 <= tier <= 5 && !AllKnown(codes)
    ensures r.Ok? <==> 1 <= tier <= 5 && AllKnown(codes)
    ensures r.Ok? ==> IsWholeCents(r.value)
    ensures r.Ok? && 0.0 <= market ==> 0.0 <= r.value
  {
    match Surcharge(tier)
    case None => Err(InvalidRiskLevel)
    case Some(adjustment) =>
      match ParseAll(codes)
      case None => Err(InvalidCoverage)
      case Some(cs) => Ok(RoundUpToCent(TotalCost(market, adjustment, cs)))
  }

  /** The pricing loop: the surcharge is looked up once, then each requested code
      adds the adjusted cost of its coverage, or aborts the calculation when it is
      unknown; the total is rounded up to the cent at the end. */
  method CalculatePremium(market: real, tier: int, codes: seq<string>) returns (r: Result<real>)
    ensures r == Premium(market, tier, codes)
  {
    var total := 0.0;

    var adjustment: real;
    match Surcharge(tier) {
      case None => return Err(InvalidRiskLevel);
      case Some(a) => adjustment := a;
    }

    ghost var priced: seq<Coverage> := [];
    for i := 0 to |codes|
      invariant ParseAll(codes[..i]) == Some(priced)
      invariant total == TotalCost(market, adjustment, priced)
    {
      var baseCost := 0.0;
      var adjusted := 0.0;
      var code := codes[i];
      ghost var c: Coverage;
      if code == "RouboFurto" {
        baseCost := market * 0.03;
        adjusted := baseCost * (1.0 + adjustment);
        c := RouboFurto;
        assert adjusted == Cost(market, adjustment, c);
      } else if code == "Colisao" {
        baseCost := market * 0.04;
        adjusted := baseCost * (1.0 + adjustment);
        c := Colisao;
        assert adjusted == Cost(market, adjustment, c);
      } else if code == "Terceiros" {
        baseCost := market * 0.015;
        adjusted := baseCost * (1.0 + adjustment);
        c := Terceiros;
        assert adjusted == Cost(market, adjustment, c);
      } else if code == "ProtecaoResidencial" {
        adjusted := 100.0;
        c := ProtecaoResidencial;
      } else {
        assert ParseCoverage(codes[i]).None?;
        return Err(InvalidCoverage);
      }
      assert ParseCoverage(code) == Some(c);
      PricedStep(market, adjustment, codes, i, priced, c);
      priced := priced + [c];
      total := total + adjusted;
    }
    assert codes[..|codes|] == codes;
    assert ParseAll(codes) == Some(priced);

    r := Ok(RoundUpToCent(total));
  }

  /** Parsing keeps the number of occurrences of every coverage. */
  lemma {:induction false} ParsedCounts(codes: seq<string>, cs: seq<Coverage>, c: Coverage)
    requires ParseAll(codes) == Some(cs)
    ensures multiset(cs)[c] == multiset(codes)[CoverageCode(c)]
  {
    if codes != [] {
      var init, last := codes[..|codes| - 1], codes[|codes| - 1];
      var csInit, csLast := cs[..|cs| - 1], cs[|cs| - 1];
      assert codes == init + [last];
      assert cs == csInit + [csLast];
      assert ParseAll(init) == Some(csInit) && ParseCoverage(last) == Some(csLast);
      ParsedCounts(init, csInit, c);
      assert multiset(codes)[CoverageCode(c)]
             == multiset(init)[CoverageCode(c)] + multiset{last}[CoverageCode(c)];
      assert multiset(cs)[c] == multiset(csInit)[c] + multiset{csLast}[c];
      assert (csLast == c) == (last == CoverageCode(c));
    }
  }

  /** Two requests with the same codes, each as often, are known alike. */
  lemma AllKnownPermutation(a: seq<string>, b: seq<string>)
    requires multiset(a) == multiset(b)
    ensures AllKnown(a) ==> AllKnown(b)
  {
    if AllKnown(a) {
      forall j | 0 <= j < |b| ensures ParseCoverage(b[j]).Some? {
        assert b[j] in multiset(b);
        var i :| 0 <= i < |a| && a[i] == b[j];
      }
    }
  }

  /** Two readings of requests holding the same codes equally often have the same sum. */
  lemma ParsedTotalsAgree(market: real, adjustment: real, a: seq<string>, b: seq<string>,
                          ca: seq<Coverage>, cb: seq<Coverage>)
    requires multiset(a) == multiset(b)
    requires ParseAll(a) == Some(ca) && ParseAll(b) == Some(cb)
    ensures TotalCost(market, adjustment, ca) == TotalCost(market, adjustment, cb)
  {
    forall c: Coverage ensures multiset(ca)[c] == multiset(cb)[c] {
      ParsedCounts(a, ca, c);
      ParsedCounts(b, cb, c);
    }
    assert multiset(ca) == multiset(cb);
    TotalCostPermutation(market, adjustment, ca, cb);
  }

  /** The premium does not depend on the order of the requested codes; repeated
      codes are each priced. */
  lemma PremiumOrderIndependent(market: real, tier: int, a: seq<string>, b: seq<string>)
    requires multiset(a) == multiset(b)
    ensures Premium(market, tier, a) == Premium(market, tier, b)
  {
    AllKnownPermutation(a, b);
    AllKnownPermutation(b, a);
    if 1 <= tier <= 5 && AllKnown(a) {
      var adjustment := Surcharge(tier).value;
      var ca, cb := ParseAll(a).value, ParseAll(b).value;
      ParsedTotalsAgree(market, adjustment, a, b, ca, cb);
    }
  }

  /** A dearer vehicle never gets a cheaper premium. */
  lemma PremiumMonotoneInMarket(m1: real, m2: real, tier: int, codes: seq<string>)
    requires m1 <= m2
    requires Premium(m1, tier, codes).Ok?
    ensures Premium(m2, tier, codes).Ok?
    ensures Premium(m1, tier, codes).value <= Premium(m2, tier, codes).value
  {
    var adjustment, cs := Surcharge(tier).value, ParseAll(codes).value;
    TotalCostMonotoneInMarket(m1, m2, adjustment, cs);
    RoundUpMonotone(TotalCost(m1, adjustment, cs), TotalCost(m2, adjustment, cs));
  }

  /** For a non-negative market value, a higher tier never gets a cheaper premium. */
  lemma PremiumMonotoneInTier(market: real, t1: int, t2: int, codes: seq<string>)
    requires 0.0 <= market
    requires 1 <= t1 <= t2 <= 5
    requires AllKnown(codes)
    ensures Premium(market, t1, codes).Ok? && Premium(market, t2, codes).Ok?
    ensures Premium(market, t1, codes).value <= Premium(market, t2, codes).value
  {
    var a1, a2, cs := Surcharge(t1).value, Surcharge(t2).value, ParseAll(codes).value;
    SurchargeMonotone(t1, t2);
    TotalCostMonotoneInAdjustment(market, a1, a2, cs);
    RoundUpMonotone(TotalCost(market, a1, cs), TotalCost(market, a2, cs));
  }

  /** Home protection alone costs 100 at every tier and every market value. */
  lemma HomeProtectionIsFlat(market: real, tier: int)
    requires 1 <= tier <= 5
    ensures Premium(market, tier, ["ProtecaoResidencial"]) == Ok(100.0)
  {
    var cs := ParseAll(["ProtecaoResidencial"]).value;
    assert cs == [ProtecaoResidencial] && cs[..0] == [];
    assert TotalCost(market, Surcharge(tier).value, cs) == 100.0;
    RoundUpExact(100.0);
  }

  /** Worked examples: theft at tier 1 on a vehicle worth 1000 costs 30.00;
      collision at tier 3 costs 40 plus 10%, 44.00; no coverage costs 0. */
  lemma PremiumExamples()
    ensures Premium(1000.0, 1, ["RouboFurto"]) == Ok(30.0)
    ensures Premium(1000.0, 3, ["Colisao"]) == Ok(44.0)
    ensures Premium(1000.0, 5, []) == Ok(0.0)
  {
    assert ParseAll(["RouboFurto"]).value == [RouboFurto];
    assert ParseAll(["Colisao"]).value == [Colisao];
    RoundUpExact(30.0);
    RoundUpExact(44.0);
    RoundUpExact(0.0);
  }

  /** A fraction of a cent is always charged in full. */
  lemma RoundUpExample()
    ensures RoundUpToCent(100.001) == 100.01
    ensures RoundUpToCent(100.0) == 100.0
  {
    assert Ceiling(10000.1) == 10001;
    RoundUpExact(100.0);
  }

  /** One unknown code rejects the whole request, whatever valid codes surround it. */
  lemma UnknownCodeRejectsAll(market: real, tier: int)
    requires 1 <= tier <= 5
    ensures Premium(market, tier, ["Colisao", "Vidros", "RouboFurto"]) == Err(InvalidCoverage)
  {
    assert ParseCoverage(["Colisao", "Vidros", "RouboFurto"][1]).None?;
  }
}
