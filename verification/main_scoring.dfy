/**
 The older scorer of `Main/Scoring.js`. It gates exactly as `scoring.js`
 does and uses the same zone, travel, EPC and subjective rules, but:
 a price of 0 is falsy and scores like an absent price; the bedroom score
 is only capped above; there is no bank-distance term; and the six weights
 it reads have no default.
 */
module MainScoring {
  import opened Options
  import opened Numbers
  import opened Listings
  import Scoring
  import Ordering

  /** The six weights the older total reads. JavaScript turns an `undefined` one into NaN
      (a `null` one multiplies to 0); `None` stands for both, so all six must be present. */
  predicate WeightsGiven(w: Weights) {
    w.price.Some? && w.bedrooms.Some? && w.zone.Some? && w.travel.Some? && w.epc.Some? && w.subjective.Some?
  }

  /** `if (price) { … }`: band and decay as in `scoring.js`, but only for a truthy price. */
  function PriceScore(price: Option<real>, target: real, tol: real): (r: real)
    ensures price.None? || price == Some(0.0) ==> r == 0.0
    ensures price.Some? && price.value != 0.0 ==> r == Scoring.PriceScore(price, target, tol)
  {
    if price.None? || price.value == 0.0 then 0.0
    else
      var x := price.value;
      var lower := target * (1.0 - tol);
      var upper := target * (1.0 + tol);
      if x >= lower && x <= upper then 1.0
      else
        var excess := if x < lower then lower - x else x - upper;
        var edge := if x < lower then lower else upper;
        // a +0 edge makes the JavaScript quotient +Infinity, flooring the score at 0
        if edge == 0.0 then 0.0 else Max(0.0, 1.0 - 2.0 * (excess / edge))
  }

  /** `Math.min(bedrooms / cap, 1)`: capped above only. A positive count over a zero
      cap is +Infinity, which the minimum takes to 1; a negative one is -Infinity. */
  function BedScore(beds: real, cap: real): (r: real)
    requires cap != 0.0 || beds > 0.0
    ensures r <= 1.0
    ensures cap == 0.0 || beds / cap >= 0.0 ==> r == Scoring.BedScore(beds, cap)
    ensures cap != 0.0 && beds / cap < 0.0 ==> r < 0.0
    ensures cap != 0.0 && beds / cap <= 1.0 ==> r == beds / cap
  {
    if cap == 0.0 then 1.0 else Min(beds / cap, 1.0)
  }

  /** What a passing listing needs for the older total to be a number: the six weights
      (an absent one is `undefined`, and NaN after multiplying) and a bedroom ratio
      that is not NaN or -Infinity. */
  predicate TotalDefined(p: Listing, cfg: Config) {
    WeightsGiven(cfg.weights) && (BedCap(cfg) != 0.0 || Bedrooms(p) > 0.0)
  }

  /** The weighted sum of six sub-scores; there is no bank term. */
  function Total(p: Listing, cfg: Config): real
    requires TotalDefined(p, cfg)
  {
    var w := cfg.weights;
    Scoring.Term(w.price, PriceScore(p.price, cfg.target, cfg.tolerance))
    + Scoring.Term(w.bedrooms, BedScore(Bedrooms(p), BedCap(cfg)))
    + Scoring.Term(w.zone, Scoring.ZoneScore(p.zone))
    + Scoring.Term(w.travel, Scoring.TravelScore(p.travelTimeToZone1))
    + Scoring.Term(w.epc, Scoring.EpcScore(p.epc))
    + Scoring.Term(w.subjective, Scoring.SubjectiveScore(p))
  }

  /** The older `computeScore`. */
  function ComputeScore(p: Listing, cfg: Config): (r: real)
    requires Scoring.Passes(p, cfg) ==> TotalDefined(p, cfg)
    ensures !Scoring.Passes(p, cfg) ==> r == 0.0
    ensures IsTenth(r)
    ensures Scoring.Passes(p, cfg) ==>
      var scaled := 10.0 * Total(p, cfg);
      scaled - 0.05 < r <= scaled + 0.05
  {
    if !Scoring.Passes(p, cfg) then 0.0 else Round1(Total(p, cfg) * 10.0)
  }

  /** A sufficient condition for the two scorers to give the same display score:
      a zero (or absent) bank weight, a non-zero price and a bedroom ratio that is
      not negative. A listing failing the gate scores 0 in both without any of these. */
  lemma VariantsAgree(p: Listing, cfg: Config)
    requires Scoring.Passes(p, cfg) ==> TotalDefined(p, cfg)
    requires cfg.weights.bank.GetOr(0.0) == 0.0
    requires p.price != Some(0.0)
    requires BedCap(cfg) != 0.0 ==> Bedrooms(p) / BedCap(cfg) >= 0.0
    ensures ComputeScore(p, cfg) == Scoring.ComputeScore(p, cfg)
  {
    if Scoring.Passes(p, cfg) {
      var s := Scoring.SubScoresOf(p, cfg);
      assert BedScore(Bedrooms(p), BedCap(cfg)) == s.bedrooms;
      assert PriceScore(p.price, cfg.target, cfg.tolerance) == s.price;
      assert Scoring.Term(cfg.weights.bank, s.bank) == 0.0;
      assert Total(p, cfg) == Scoring.Total(cfg.weights, s);
    }
  }

  /** Where the two variants part: a zero price inside the band, and a negative bedroom ratio. */
  lemma VariantsDiffer()
    ensures Scoring.PriceScore(Some(0.0), 380000.0, 1.0) == 1.0
    ensures PriceScore(Some(0.0), 380000.0, 1.0) == 0.0
    ensures Scoring.BedScore(-1.0, 4.0) == 0.0
    ensures BedScore(-1.0, 4.0) == -0.25
  {
  }

  function WeightSum(w: Weights): real
    requires WeightsGiven(w)
  {
    w.price.value + w.bedrooms.value + w.zone.value + w.travel.value + w.epc.value + w.subjective.value
  }

  /** A configuration under which the older display score stays in [0, 10]. */
  predicate SaneConfig(cfg: Config) {
    && BedCap(cfg) > 0.0
    && WeightsGiven(cfg.weights)
    && Scoring.BandNonNegative(cfg)
    && Scoring.WeightsNonNegative(cfg.weights)
    && WeightSum(cfg.weights) <= 1.0
  }

  /** Non-negative weights summing to at most 1 keep the older score in [0, 10],
      given a listing with a non-negative bedroom count. */
  lemma ScoreInRange(p: Listing, cfg: Config)
    requires SaneConfig(cfg) && Bedrooms(p) >= 0.0
    ensures 0.0 <= ComputeScore(p, cfg) <= 10.0
  {
    if Scoring.Passes(p, cfg) {
      var w := cfg.weights;
      assert Bedrooms(p) / BedCap(cfg) >= 0.0;
      Scoring.TermBound(w.price, PriceScore(p.price, cfg.target, cfg.tolerance));
      Scoring.TermBound(w.bedrooms, BedScore(Bedrooms(p), BedCap(cfg)));
      Scoring.TermBound(w.zone, Scoring.ZoneScore(p.zone));
      Scoring.TermBound(w.travel, Scoring.TravelScore(p.travelTimeToZone1));
      Scoring.TermBound(w.epc, Scoring.EpcScore(p.epc));
      Scoring.TermBound(w.subjective, Scoring.SubjectiveScore(p));
      Round1InRange(Total(p, cfg) * 10.0);
    }
  }

  /** `dir(key)`: +1 for the ascending keys, -1 otherwise. */
  function Direction(key: string): int {
    if key == "price" || key == "zone" then 1 else -1
  }

  /** The older `compare`, written with a direction multiplier; it is the same comparator. */
  function Compare(a: Scored, b: Scored, key: string): (r: int)
    ensures r == Ordering.Compare(a, b, key)
  {
    var va, vb := Lookup(a, key), Lookup(b, key);
    if va.None? && vb.None? then 0
    else if va.None? then 1
    else if vb.None? then -1
    else if Ordering.Less(va.value, vb.value) then -1 * Direction(key)
    else if Ordering.Less(vb.value, va.value) then 1 * Direction(key)
    else 0
  }
}
