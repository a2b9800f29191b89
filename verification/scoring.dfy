/**
 The scorer of `scoring.js`: a listing and a configuration give a display
 score. A listing that fails the bedroom or tenure constraint scores exactly
 0; any other listing gets seven sub-scores, combined by the configured
 weights, scaled by 10 and rounded to one decimal.
 */
module Scoring {
  import opened Options
  import opened Numbers
  import opened Ascii
  import opened Listings

  // ---- hard constraints ----

  function LowerAll(ts: seq<string>): seq<string> {
    seq(|ts|, i requires 0 <= i < |ts| => Lower(ts[i]))
  }

  /** The allowed tenures, lower-cased. */
  function AllowedTenure(cfg: Config): seq<string> {
    LowerAll(cfg.allowedTenure.GetOr(DefaultAllowedTenure))
  }

  predicate BedroomsOk(p: Listing, cfg: Config) {
    Bedrooms(p) >= MinBedrooms(cfg)
  }

  /** The tenure must be a non-empty string (JS truthiness) that is allowed once lower-cased. */
  predicate TenureOk(p: Listing, cfg: Config) {
    p.tenure.Some? && p.tenure.value != "" && Lower(p.tenure.value) in AllowedTenure(cfg)
  }

  predicate Passes(p: Listing, cfg: Config) {
    BedroomsOk(p, cfg) && TenureOk(p, cfg)
  }

  /** Tenure is compared case-insensitively on both sides: it passes exactly when
      some configured tenure has the same lower-cased spelling. */
  lemma TenureOkIff(p: Listing, cfg: Config)
    ensures TenureOk(p, cfg) <==>
      && p.tenure.Some? && p.tenure.value != ""
      && var allowed := cfg.allowedTenure.GetOr(DefaultAllowedTenure);
         exists i :: 0 <= i < |allowed| && Lower(allowed[i]) == Lower(p.tenure.value)
  {
    var allowed := cfg.allowedTenure.GetOr(DefaultAllowedTenure);
    if p.tenure.Some? && Lower(p.tenure.value) in AllowedTenure(cfg) {
      var i :| 0 <= i < |allowed| && AllowedTenure(cfg)[i] == Lower(p.tenure.value);
      assert Lower(allowed[i]) == Lower(p.tenure.value);
    }
    if p.tenure.Some? && exists i :: 0 <= i < |allowed| && Lower(allowed[i]) == Lower(p.tenure.value) {
      var i :| 0 <= i < |allowed| && Lower(allowed[i]) == Lower(p.tenure.value);
      assert AllowedTenure(cfg)[i] == Lower(p.tenure.value);
    }
  }

  /** With no configured list, exactly "freehold" and "share of freehold" pass, in any case. */
  lemma DefaultTenures(p: Listing, cfg: Config)
    requires cfg.allowedTenure.None?
    requires p.tenure.Some?
    ensures TenureOk(p, cfg) <==>
      Lower(p.tenure.value) == "freehold" || Lower(p.tenure.value) == "share of freehold"
  {
    assert Lower("Freehold") == "freehold";
    assert Lower("Share of freehold") == "share of freehold";
    assert AllowedTenure(cfg) == ["freehold", "share of freehold"];
  }

  /** Changing the case of the tenure never changes the gate. */
  lemma GateCaseInsensitive(p: Listing, cfg: Config, t: string)
    requires p.tenure.Some? && Lower(t) == Lower(p.tenure.value)
    ensures Passes(p.(tenure := Some(t)), cfg) == Passes(p, cfg)
  {
    assert |t| == |Lower(t)|;
  }

  // ---- sub-scores, each in [0, 1] ----

  function BandLow(target: real, tol: real): real {
    target * (1.0 - tol)
  }

  function BandHigh(target: real, tol: real): real {
    target * (1.0 + tol)
  }

  /** The inclusive price band around the target. */
  predicate InBand(price: real, target: real, tol: real) {
    BandLow(target, tol) <= price <= BandHigh(target, tol)
  }

  /** How far an out-of-band price lies from the nearer band edge, as a fraction of that edge. */
  function Overshoot(price: real, lower: real, upper: real): (o: real)
    requires 0.0 < lower && 0.0 < upper && !(lower <= price <= upper)
    ensures o > 0.0
  {
    if price < lower then (lower - price) / lower else (price - upper) / upper
  }

  /** `Math.max(0, 1 - 2 * (excess / edge))` for a positive excess. JavaScript
      divides by a +0 edge to +Infinity, which floors the score at 0. */
  function Decay(excess: real, edge: real): real
    requires excess > 0.0
  {
    if edge == 0.0 then 0.0 else Max(0.0, 1.0 - 2.0 * (excess / edge))
  }

  function PriceScore(price: Option<real>, target: real, tol: real): (r: real)
    ensures 0.0 <= r
    ensures price.None? ==> r == 0.0
    ensures price.Some? && InBand(price.value, target, tol) ==> r == 1.0
    ensures 0.0 <= BandLow(target, tol) && 0.0 <= BandHigh(target, tol) ==> r <= 1.0
    ensures price.Some? && !InBand(price.value, target, tol)
            && 0.0 < BandLow(target, tol) && 0.0 < BandHigh(target, tol) ==>
              var o := Overshoot(price.value, BandLow(target, tol), BandHigh(target, tol));
              && r < 1.0
              && (r == 0.0 <==> o >= 0.5)
              && r == (if o >= 0.5 then 0.0 else 1.0 - 2.0 * o)
  {
    match price
    case None => 0.0
    case Some(x) =>
      var lower := BandLow(target, tol);
      var upper := BandHigh(target, tol);
      if lower <= x <= upper then 1.0
      else if x < lower then
        Decay(lower - x, lower)
      else
        Decay(x - upper, upper)
  }

  /** A price equal to the target is in the band whenever the tolerance is non-negative. */
  lemma PriceAtTarget(target: real, tol: real)
    requires 0.0 <= target && 0.0 <= tol
    ensures PriceScore(Some(target), target, tol) == 1.0
  {
    assert target * tol >= 0.0;
    assert BandLow(target, tol) == target - target * tol;
    assert BandHigh(target, tol) == target + target * tol;
  }

  /** Above the band the price score does not increase with the price. */
  lemma PriceDecaysAbove(target: real, tol: real, x: real, y: real)
    requires 0.0 < BandLow(target, tol) <= BandHigh(target, tol) < x <= y
    ensures PriceScore(Some(x), target, tol) >= PriceScore(Some(y), target, tol)
  {
    var u := BandHigh(target, tol);
    assert (x - u) / u <= (y - u) / u by {
      assert (y - u) / u - (x - u) / u == (y - x) / u;
    }
  }

  /** Below the band the price score does not decrease with the price. */
  lemma PriceDecaysBelow(target: real, tol: real, x: real, y: real)
    requires 0.0 < BandLow(target, tol) <= BandHigh(target, tol)
    requires x <= y < BandLow(target, tol)
    ensures PriceScore(Some(x), target, tol) <= PriceScore(Some(y), target, tol)
  {
    var l := BandLow(target, tol);
    assert (l - y) / l <= (l - x) / l by {
      assert (l - x) / l - (l - y) / l == (y - x) / l;
    }
  }

  /** `clamp01(bedrooms / cap)`. JavaScript divides a non-zero count by a zero cap
      to +Infinity or -Infinity, which the clamp takes to 1 or 0; 0 / 0 is NaN. */
  function BedScore(beds: real, cap: real): (r: real)
    requires cap != 0.0 || beds != 0.0
    ensures 0.0 <= r <= 1.0
    ensures 0.0 < cap && 0.0 <= beds <= cap ==> r * cap == beds
    ensures 0.0 < cap <= beds ==> r == 1.0
    ensures beds <= 0.0 < cap ==> r == 0.0
    ensures cap == 0.0 ==> (r == 1.0 <==> beds > 0.0) && (r == 0.0 <==> beds < 0.0)
  {
    if cap == 0.0 then (if beds > 0.0 then 1.0 else 0.0) else Clamp01(beds / cap)
  }

  /** The bedroom ratio has a value: only 0 bedrooms over a zero cap is NaN. */
  predicate BedRatioDefined(p: Listing, cfg: Config) {
    BedCap(cfg) != 0.0 || Bedrooms(p) != 0.0
  }

  /** Lower fare zones are better; an absent zone counts as zone 9. */
  function ZoneScore(zone: Option<real>): (r: real)
    ensures zone.None? ==> r == 0.3
    ensures zone.Some? && zone.value <= 2.0 ==> r == 1.0
    ensures zone.Some? && 2.0 < zone.value <= 3.0 ==> r == 0.7
    ensures zone.Some? && 3.0 < zone.value <= 4.0 ==> r == 0.5
    ensures zone.Some? && 4.0 < zone.value ==> r == 0.3
  {
    var z := zone.GetOr(9.0);
    if z <= 2.0 then 1.0 else if z <= 3.0 then 0.7 else if z <= 4.0 then 0.5 else 0.3
  }

  lemma ZoneMonotone(a: real, b: real)
    requires a <= b
    ensures ZoneScore(Some(a)) >= ZoneScore(Some(b))
  {
  }

  /** Minutes to zone 1, clamped to [15, 60] and mapped linearly from 1 down to 0;
      an absent time counts as 60 minutes. */
  function TravelScore(t: Option<real>): (r: real)
    ensures 0.0 <= r <= 1.0
    ensures t.None? ==> r == 0.0
    ensures t.Some? && t.value <= 15.0 ==> r == 1.0
    ensures t.Some? && t.value >= 60.0 ==> r == 0.0
    ensures t.Some? && 15.0 <= t.value <= 60.0 ==> r * 45.0 == 60.0 - t.value
  {
    var m := Clamp(t.GetOr(60.0), 15.0, 60.0);
    1.0 - (m - 15.0) / (60.0 - 15.0)
  }

  lemma TravelMonotone(a: real, b: real)
    requires a <= b
    ensures TravelScore(Some(a)) >= TravelScore(Some(b))
  {
  }

  /** The energy-rating table. */
  function EpcTable(letter: string): Option<real> {
    if letter == "A" then Some(1.0)
    else if letter == "B" then Some(0.9)
    else if letter == "C" then Some(0.8)
    else if letter == "D" then Some(0.7)
    else if letter == "E" then Some(0.55)
    else if letter == "F" then Some(0.4)
    else if letter == "G" then Some(0.2)
    else None
  }

  /** Table value of the upper-cased rating; anything else, absence included, is a neutral 0.5. */
  function EpcScore(epc: Option<string>): (r: real)
    ensures 0.0 < r <= 1.0
    ensures epc.None? || epc == Some("") ==> r == 0.5
    ensures epc.Some? && |epc.value| != 1 ==> r == 0.5
    ensures epc.Some? && |epc.value| == 1 ==>
      var c := UpperChar(epc.value[0]);
      && (c == 'A' ==> r == 1.0)
      && (c == 'B' ==> r == 0.9)
      && (c == 'C' ==> r == 0.8)
      && (c == 'D' ==> r == 0.7)
      && (c == 'E' ==> r == 0.55)
      && (c == 'F' ==> r == 0.4)
      && (c == 'G' ==> r == 0.2)
      && (!('A' <= c <= 'G') ==> r == 0.5)
  {
    assert epc.Some? && |epc.value| == 1 ==> Upper(epc.value) == [UpperChar(epc.value[0])];
    match EpcTable(Upper(epc.GetOr("")))
    case Some(v) => v
    case None => 0.5
  }

  /** The rating letter is read without regard to case. */
  lemma EpcCaseInsensitive(s: string)
    ensures EpcScore(Some(Lower(s))) == EpcScore(Some(s))
  {
    UpperOfLower(s);
  }

  /** A is best and G worst, and each letter scores strictly below the one before. */
  lemma EpcRanking()
    ensures EpcScore(Some("A")) == 1.0
    ensures EpcScore(Some("A")) > EpcScore(Some("B")) > EpcScore(Some("C")) > EpcScore(Some("D"))
    ensures EpcScore(Some("D")) > EpcScore(Some("E")) > EpcScore(Some("F")) > EpcScore(Some("G")) > 0.0
  {
    assert Upper("A") == "A";
    assert Upper("B") == "B";
    assert Upper("C") == "C";
    assert Upper("D") == "D";
    assert Upper("E") == "E";
    assert Upper("F") == "F";
    assert Upper("G") == "G";
  }

  /** `max(0, 1 - km / 12)`, zero from 12 km on; an absent distance is a neutral 0.5. */
  function BankScore(d: Option<real>): (r: real)
    ensures 0.0 <= r
    ensures d.None? ==> r == 0.5
    ensures d.Some? && 0.0 <= d.value ==> r <= 1.0
    ensures d.Some? && d.value >= 12.0 ==> r == 0.0
    ensures d.Some? && d.value <= 12.0 ==> r * 12.0 == 12.0 - d.value
  {
    match d
    case None => 0.5
    case Some(km) => Max(0.0, 1.0 - km / 12.0)
  }

  /** A farther listing never scores more for its distance to Bank. */
  lemma BankMonotone(a: real, b: real)
    requires a <= b
    ensures BankScore(Some(a)) >= BankScore(Some(b))
  {
  }

  /** `norm10`: a 0–10 rating as a fraction in [0, 1]; absent is 0. */
  function Norm10(v: Option<real>): (r: real)
    ensures 0.0 <= r <= 1.0
    ensures v.None? ==> r == 0.0
    ensures v.Some? && 0.0 <= v.value <= 10.0 ==> r * 10.0 == v.value
    ensures v.Some? && v.value <= 0.0 ==> r == 0.0
    ensures v.Some? && v.value >= 10.0 ==> r == 1.0
  {
    match v
    case None => 0.0
    case Some(x) => Clamp01(x / 10.0)
  }

  /** Sum of the normalised ratings. */
  function SumNorm10(rs: seq<Option<real>>): (t: real)
    ensures 0.0 <= t <= |rs| as real
    ensures (forall i :: 0 <= i < |rs| ==> rs[i].None?) ==> t == 0.0
    ensures (forall i :: 0 <= i < |rs| ==> rs[i].Some? && rs[i].value >= 10.0) ==> t == |rs| as real
  {
    if |rs| == 0 then 0.0 else Norm10(rs[0]) + SumNorm10(rs[1..])
  }

  /** The sum is additive over concatenation. */
  lemma {:induction false} SumNorm10Append(a: seq<Option<real>>, b: seq<Option<real>>)
    ensures SumNorm10(a + b) == SumNorm10(a) + SumNorm10(b)
  {
    if |a| > 0 {
      assert (a + b)[1..] == a[1..] + b;
      SumNorm10Append(a[1..], b);
    } else {
      assert a + b == b;
    }
  }

  /** A single rating contributes its normalised value. */
  lemma SumNorm10Single(v: Option<real>)
    ensures SumNorm10([v]) == Norm10(v)
  {
    assert [v][1..] == [];
  }

  /** The sum over the seven ratings, term by term. */
  lemma SumNorm10Ratings(p: Listing)
    ensures SumNorm10(Ratings(p)) ==
      Norm10(p.layout) + Norm10(p.light) + Norm10(p.noise) + Norm10(p.outdoor)
      + Norm10(p.kitchen) + Norm10(p.bathroom) + Norm10(p.areaVibe)
  {
    var rs := Ratings(p);
    assert rs == [p.layout] + [p.light] + [p.noise] + [p.outdoor] + [p.kitchen] + [p.bathroom] + [p.areaVibe];
    SumNorm10Append([p.layout] + [p.light] + [p.noise] + [p.outdoor] + [p.kitchen] + [p.bathroom], [p.areaVibe]);
    SumNorm10Append([p.layout] + [p.light] + [p.noise] + [p.outdoor] + [p.kitchen], [p.bathroom]);
    SumNorm10Append([p.layout] + [p.light] + [p.noise] + [p.outdoor], [p.kitchen]);
    SumNorm10Append([p.layout] + [p.light] + [p.noise], [p.outdoor]);
    SumNorm10Append([p.layout] + [p.light], [p.noise]);
    SumNorm10Append([p.layout], [p.light]);
    SumNorm10Single(p.layout);
    SumNorm10Single(p.light);
    SumNorm10Single(p.noise);
    SumNorm10Single(p.outdoor);
    SumNorm10Single(p.kitchen);
    SumNorm10Single(p.bathroom);
    SumNorm10Single(p.areaVibe);
  }

  /** The seven ratings averaged over a fixed denominator of 7: an absent rating counts as 0. */
  function SubjectiveScore(p: Listing): (r: real)
    ensures 0.0 <= r <= 1.0
    ensures r * 7.0 ==
      Norm10(p.layout) + Norm10(p.light) + Norm10(p.noise) + Norm10(p.outdoor)
      + Norm10(p.kitchen) + Norm10(p.bathroom) + Norm10(p.areaVibe)
    ensures (forall i :: 0 <= i < 7 ==> Ratings(p)[i].None?) ==> r == 0.0
    ensures (forall i :: 0 <= i < 7 ==> Ratings(p)[i].Some? && Ratings(p)[i].value >= 10.0) ==> r == 1.0
  {
    SumNorm10Ratings(p);
    SumNorm10(Ratings(p)) / 7.0
  }

  /** Giving an unrated aspect a rating raises the subjective score by a seventh of its
      normalised value, whatever the other ratings are: the denominator stays 7. */
  lemma SubjectiveRaise(p: Listing, v: real)
    requires p.layout.None?
    ensures SubjectiveScore(p.(layout := Some(v))) == SubjectiveScore(p) + Norm10(Some(v)) / 7.0
  {
  }

  /** A single top rating on its own scores a seventh. */
  lemma SubjectiveExample()
    ensures SubjectiveScore(ExampleListing(2.0).(layout := Some(10.0))) == 1.0 / 7.0
  {
  }

  // ---- combination ----

  datatype SubScores = SubScores(
    price: real,
    bedrooms: real,
    zone: real,
    travel: real,
    epc: real,
    bank: real,
    subjective: real
  )

  predicate Unit(x: real) {
    0.0 <= x <= 1.0
  }

  predicate Normalised(s: SubScores) {
    Unit(s.price) && Unit(s.bedrooms) && Unit(s.zone) && Unit(s.travel)
    && Unit(s.epc) && Unit(s.bank) && Unit(s.subjective)
  }

  /** Both band edges are non-negative, as they are for a non-negative target and a tolerance in [-1, 1]. */
  predicate BandNonNegative(cfg: Config) {
    0.0 <= BandLow(cfg.target, cfg.tolerance) && 0.0 <= BandHigh(cfg.target, cfg.tolerance)
  }

  predicate DistanceNonNegative(p: Listing) {
    p.distanceToBankKm.Some? ==> p.distanceToBankKm.value >= 0.0
  }

  function SubScoresOf(p: Listing, cfg: Config): (s: SubScores)
    requires BedRatioDefined(p, cfg)
    ensures Unit(s.bedrooms) && Unit(s.zone) && Unit(s.travel) && Unit(s.epc) && Unit(s.subjective)
    ensures s.price >= 0.0 && s.bank >= 0.0
    ensures BandNonNegative(cfg) && DistanceNonNegative(p) ==> Normalised(s)
  {
    SubScores(
      PriceScore(p.price, cfg.target, cfg.tolerance),
      BedScore(Bedrooms(p), BedCap(cfg)),
      ZoneScore(p.zone),
      TravelScore(p.travelTimeToZone1),
      EpcScore(p.epc),
      BankScore(p.distanceToBankKm),
      SubjectiveScore(p))
  }

  function WeightOf(w: Option<real>): real {
    w.GetOr(0.0)
  }

  predicate WeightsNonNegative(w: Weights) {
    && WeightOf(w.price) >= 0.0 && WeightOf(w.bedrooms) >= 0.0 && WeightOf(w.zone) >= 0.0
    && WeightOf(w.travel) >= 0.0 && WeightOf(w.epc) >= 0.0 && WeightOf(w.bank) >= 0.0
    && WeightOf(w.subjective) >= 0.0
  }

  function WeightSum(w: Weights): real {
    WeightOf(w.price) + WeightOf(w.bedrooms) + WeightOf(w.zone) + WeightOf(w.travel)
    + WeightOf(w.epc) + WeightOf(w.bank) + WeightOf(w.subjective)
  }

  /** One weighted term; an absent weight counts as 0. */
  function Term(w: Option<real>, x: real): real {
    WeightOf(w) * x
  }

  /** The weighted sum of the sub-scores. */
  function Total(w: Weights, s: SubScores): real {
    Term(w.price, s.price)
    + Term(w.bedrooms, s.bedrooms)
    + Term(w.zone, s.zone)
    + Term(w.travel, s.travel)
    + Term(w.epc, s.epc)
    + Term(w.bank, s.bank)
    + Term(w.subjective, s.subjective)
  }

  lemma TermBound(w: Option<real>, x: real)
    requires 0.0 <= WeightOf(w) && Unit(x)
    ensures 0.0 <= Term(w, x) <= WeightOf(w)
  {
    var a := WeightOf(w);
    ProductBound(a, x);
    assert Term(w, x) == a * x;
  }

  lemma ProductBound(a: real, x: real)
    requires 0.0 <= a && 0.0 <= x <= 1.0
    ensures 0.0 <= a * x <= a
  {
    assert 0.0 <= a * x by {
      if x > 0.0 {
        assert a * x >= 0.0 * x;
      }
    }
    assert a * x <= a * 1.0;
  }

  /** With non-negative weights, the weighted sum of normalised sub-scores lies
      between 0 and the sum of the weights. */
  lemma TotalBounds(w: Weights, s: SubScores)
    requires WeightsNonNegative(w) && Normalised(s)
    ensures 0.0 <= Total(w, s) <= WeightSum(w)
  {
    TermBound(w.price, s.price);
    TermBound(w.bedrooms, s.bedrooms);
    TermBound(w.zone, s.zone);
    TermBound(w.travel, s.travel);
    TermBound(w.epc, s.epc);
    TermBound(w.bank, s.bank);
    TermBound(w.subjective, s.subjective);
  }

  /** An unweighted configuration scores every listing 0. */
  lemma NoWeightsNoScore(w: Weights, s: SubScores)
    requires w == Weights(None, None, None, None, None, None, None)
    ensures Total(w, s) == 0.0
  {
  }

  /** `computeScore`. A passing listing with 0 bedrooms over a zero cap would score NaN. */
  function ComputeScore(p: Listing, cfg: Config): (r: real)
    requires Passes(p, cfg) ==> BedRatioDefined(p, cfg)
    ensures !Passes(p, cfg) ==> r == 0.0
    ensures IsTenth(r)
    ensures Passes(p, cfg) ==>
      var scaled := 10.0 * Total(cfg.weights, SubScoresOf(p, cfg));
      scaled - 0.05 < r <= scaled + 0.05
  {
    if !Passes(p, cfg) then 0.0
    else Round1(Total(cfg.weights, SubScoresOf(p, cfg)) * 10.0)
  }

  /** A configuration under which the display score stays in [0, 10]. */
  predicate SaneConfig(cfg: Config) {
    && BandNonNegative(cfg)
    && WeightsNonNegative(cfg.weights)
    && WeightSum(cfg.weights) <= 1.0
  }

  /** Non-negative weights summing to at most 1 keep the display score in [0, 10]. */
  lemma ScoreInRange(p: Listing, cfg: Config)
    requires SaneConfig(cfg) && DistanceNonNegative(p)
    requires Passes(p, cfg) ==> BedRatioDefined(p, cfg)
    ensures 0.0 <= ComputeScore(p, cfg) <= 10.0
  {
    if Passes(p, cfg) {
      var t := Total(cfg.weights, SubScoresOf(p, cfg));
      TotalBounds(cfg.weights, SubScoresOf(p, cfg));
      Round1InRange(t * 10.0);
    }
  }

  // ---- worked examples ----

  function ExampleConfig(): Config {
    Config(Some(2.0), Some(["Freehold"]), 380000.0, 0.1, Some(4.0),
      Weights(Some(0.3), Some(0.2), Some(0.2), Some(0.1), Some(0.1), None, Some(0.1)))
  }

  function ExampleListing(beds: real): Listing {
    Listing(Some(beds), Some("Freehold"), Some(380000.0), Some(2.0), Some(15.0), Some("B"), None,
      None, None, None, None, None, None, None)
  }

  /** Two bedrooms, freehold, at the target price, zone 2, 15 minutes out, EPC B and
      no ratings: 0.3 + 0.1 + 0.2 + 0.1 + 0.09 = 0.79, shown as 7.9. One bedroom fails the gate. */
  lemma WorkedExample()
    ensures ComputeScore(ExampleListing(2.0), ExampleConfig()) == 7.9
    ensures ComputeScore(ExampleListing(1.0), ExampleConfig()) == 0.0
  {
    var cfg := ExampleConfig();
    var p := ExampleListing(2.0);
    ExampleSubScores();
    assert Total(cfg.weights, SubScoresOf(p, cfg)) == 0.79;
    assert MathRound(79.0) == 79;
  }

  lemma ExampleSubScores()
    ensures Passes(ExampleListing(2.0), ExampleConfig())
    ensures SubScoresOf(ExampleListing(2.0), ExampleConfig()) == SubScores(1.0, 0.5, 1.0, 1.0, 0.9, 0.5, 0.0)
  {
    var cfg := ExampleConfig();
    var p := ExampleListing(2.0);
    ExamplePasses();
    assert EpcScore(Some("B")) == 0.9 by {
      assert Upper("B") == "B";
    }
    assert SubjectiveScore(p) == 0.0;
  }

  lemma ExamplePasses()
    ensures Passes(ExampleListing(2.0), ExampleConfig())
  {
    assert Lower("Freehold") == "freehold";
    assert AllowedTenure(ExampleConfig()) == ["freehold"];
  }

  /** The band edge itself is inside the band; 10% beyond the upper edge scores 1 - 2/11. */
  lemma PriceExamples()
    ensures PriceScore(Some(418000.0), 380000.0, 0.1) == 1.0
    ensures PriceScore(Some(456000.0), 380000.0, 0.1) == 9.0 / 11.0
  {
    assert BandHigh(380000.0, 0.1) == 418000.0;
  }

  /** The worked example's configuration with a single zone weight of 2. */
  function HeavyConfig(): Config {
    ExampleConfig().(weights := Weights(None, None, Some(2.0), None, None, None, None))
  }

  /** Weights summing above 1 are not normalised away: they put the worked
      example's listing at 20, outside the 0–10 scale. */
  lemma HeavyWeightsExceedTen()
    ensures ComputeScore(ExampleListing(2.0), HeavyConfig()) == 20.0
  {
    HeavyPasses();
    HeavyTotal();
    assert MathRound(200.0) == 200;
  }

  lemma HeavyPasses()
    ensures Passes(ExampleListing(2.0), HeavyConfig())
  {
    ExamplePasses();
    assert AllowedTenure(HeavyConfig()) == AllowedTenure(ExampleConfig());
  }

  lemma HeavyTotal()
    ensures Total(HeavyConfig().weights, SubScoresOf(ExampleListing(2.0), HeavyConfig())) == 2.0
  {
    assert SubScoresOf(ExampleListing(2.0), HeavyConfig()).zone == 1.0;
  }
}
