/**
 The records the scorer and the comparator read: a listing of a candidate
 property, the user's configuration, and a listing with its score attached.
 Every listing field is optional; absence is `None` and each reader applies
 its own default.
 */
module Listings {
  import opened Options

  datatype Listing = Listing(
    bedrooms: Option<real>,
    tenure: Option<string>,
    price: Option<real>,
    zone: Option<real>,
    travelTimeToZone1: Option<real>,  // minutes
    epc: Option<string>,              // energy rating letter A–G
    distanceToBankKm: Option<real>,
    // the seven subjective ratings, each on a 0–10 scale
    layout: Option<real>,
    light: Option<real>,
    noise: Option<real>,
    outdoor: Option<real>,
    kitchen: Option<real>,
    bathroom: Option<real>,
    areaVibe: Option<real>
  )

  /** The subjective ratings in the order the scorer lists them. */
  function Ratings(p: Listing): (rs: seq<Option<real>>)
    ensures |rs| == 7
  {
    [p.layout, p.light, p.noise, p.outdoor, p.kitchen, p.bathroom, p.areaVibe]
  }

  /** The weight of each sub-score; an absent weight contributes nothing. */
  datatype Weights = Weights(
    price: Option<real>,
    bedrooms: Option<real>,
    zone: Option<real>,
    travel: Option<real>,
    epc: Option<real>,
    bank: Option<real>,
    subjective: Option<real>
  )

  /**
   The configuration. The price target and tolerance and the weights record
   have no default in the source, so they are always given here.
   */
  datatype Config = Config(
    minBedrooms: Option<real>,
    allowedTenure: Option<seq<string>>,
    target: real,
    tolerance: real,   // a fraction: 0.1 is ±10%
    bedCap: Option<real>,
    weights: Weights
  )

  const DefaultMinBedrooms: real := 2.0
  const DefaultAllowedTenure: seq<string> := ["Freehold", "Share of freehold"]
  const DefaultBedCap: real := 4.0

  function MinBedrooms(cfg: Config): real {
    cfg.minBedrooms.GetOr(DefaultMinBedrooms)
  }

  function BedCap(cfg: Config): real {
    cfg.bedCap.GetOr(DefaultBedCap)
  }

  /** Bedrooms of a listing, absent counted as none. */
  function Bedrooms(p: Listing): real {
    p.bedrooms.GetOr(0.0)
  }

  /** A listing as the display receives it: the listing plus its `score` field. */
  datatype Scored = Scored(listing: Listing, score: real)

  /** A field value as the comparator sees it. */
  datatype Value = Num(n: real) | Text(s: string)

  /** Keys whose values are strings; every other known key holds a number. */
  predicate TextKey(key: string) {
    key == "tenure" || key == "epc"
  }

  function NumField(v: Option<real>): Option<Value> {
    match v
    case Some(x) => Some(Num(x))
    case None => None
  }

  function TextField(v: Option<string>): Option<Value> {
    match v
    case Some(s) => Some(Text(s))
    case None => None
  }

  /** The keys a scored listing carries: its score and the fields of the listing, by their JSON names. */
  const Keys: set<string> := {
    "score", "bedrooms", "tenure", "price", "zone", "travel_time_to_zone1", "epc",
    "distance_to_bank_km", "layout", "light", "noise", "outdoor", "kitchen", "bathroom", "area_vibe"
  }

  /** `x[key] ?? null`: the value stored under a key, `None` for an unknown key. */
  function Lookup(x: Scored, key: string): (v: Option<Value>)
    ensures v.Some? && TextKey(key) ==> v.value.Text?
    ensures v.Some? && !TextKey(key) ==> v.value.Num?
    ensures key == "score" ==> v == Some(Num(x.score))
    ensures key == "bedrooms" ==> v == NumField(x.listing.bedrooms)
    ensures key == "tenure" ==> v == TextField(x.listing.tenure)
    ensures key == "price" ==> v == NumField(x.listing.price)
    ensures key == "zone" ==> v == NumField(x.listing.zone)
    ensures key == "travel_time_to_zone1" ==> v == NumField(x.listing.travelTimeToZone1)
    ensures key == "epc" ==> v == TextField(x.listing.epc)
    ensures key == "distance_to_bank_km" ==> v == NumField(x.listing.distanceToBankKm)
    ensures key == "layout" ==> v == NumField(x.listing.layout)
    ensures key == "light" ==> v == NumField(x.listing.light)
    ensures key == "noise" ==> v == NumField(x.listing.noise)
    ensures key == "outdoor" ==> v == NumField(x.listing.outdoor)
    ensures key == "kitchen" ==> v == NumField(x.listing.kitchen)
    ensures key == "bathroom" ==> v == NumField(x.listing.bathroom)
    ensures key == "area_vibe" ==> v == NumField(x.listing.areaVibe)
    ensures key !in Keys ==> v.None?
  {
    var p := x.listing;
    match key
    case "score" => Some(Num(x.score))
    case "bedrooms" => NumField(p.bedrooms)
    case "tenure" => TextField(p.tenure)
    case "price" => NumField(p.price)
    case "zone" => NumField(p.zone)
    case "travel_time_to_zone1" => NumField(p.travelTimeToZone1)
    case "epc" => TextField(p.epc)
    case "distance_to_bank_km" => NumField(p.distanceToBankKm)
    case "layout" => NumField(p.layout)
    case "light" => NumField(p.light)
    case "noise" => NumField(p.noise)
    case "outdoor" => NumField(p.outdoor)
    case "kitchen" => NumField(p.kitchen)
    case "bathroom" => NumField(p.bathroom)
    case "area_vibe" => NumField(p.areaVibe)
    case _ => None
  }
}
