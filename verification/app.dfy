/**
 The pure data flow of `app.js`: every loaded listing gets its score, the
 table shows the listings that pass the bedroom and tenure filters, sorted
 by the chosen key with `compare`. The sort is modelled by a stable
 insertion sort, the behaviour of `Array.prototype.sort`.
 */
module App {
  import opened Options
  import opened Ascii
  import opened Listings
  import Scoring
  import Ordering

  // ---- scoring map ----

  /** `props.map(p => ({ ...p, score: computeScore(p, cfg) }))`. */
  function ScoreAll(ps: seq<Listing>, cfg: Config): (r: seq<Scored>)
    requires forall i :: 0 <= i < |ps| ==> Scoring.Passes(ps[i], cfg) ==> Scoring.BedRatioDefined(ps[i], cfg)
    ensures |r| == |ps|
    ensures forall i :: 0 <= i < |ps| ==>
      r[i].listing == ps[i] && r[i].score == Scoring.ComputeScore(ps[i], cfg)
  {
    if |ps| == 0 then [] else [Scored(ps[0], Scoring.ComputeScore(ps[0], cfg))] + ScoreAll(ps[1..], cfg)
  }

  /** Under a sane configuration every attached score is on the 0–10 display scale. */
  lemma ScoresInRange(ps: seq<Listing>, cfg: Config)
    requires Scoring.SaneConfig(cfg)
    requires forall i :: 0 <= i < |ps| ==> Scoring.Passes(ps[i], cfg) ==> Scoring.BedRatioDefined(ps[i], cfg)
    requires forall i :: 0 <= i < |ps| ==> Scoring.DistanceNonNegative(ps[i])
    ensures forall i :: 0 <= i < |ps| ==> 0.0 <= ScoreAll(ps, cfg)[i].score <= 10.0
  {
    var r := ScoreAll(ps, cfg);
    forall i | 0 <= i < |ps|
      ensures 0.0 <= r[i].score <= 10.0
    {
      Scoring.ScoreInRange(ps[i], cfg);
    }
  }

  // ---- filtering ----

  /** `r` keeps some of the items of `s`, in their order. */
  predicate Subsequence(r: seq<Scored>, s: seq<Scored>)
    decreases |s|
  {
    |r| == 0 || (|s| > 0 && ((r[0] == s[0] && Subsequence(r[1..], s[1..])) || Subsequence(r, s[1..])))
  }

  lemma {:induction false} SubsequenceTransitive(a: seq<Scored>, b: seq<Scored>, c: seq<Scored>)
    requires Subsequence(a, b) && Subsequence(b, c)
    ensures Subsequence(a, c)
    decreases |c|
  {
    if |a| > 0 {
      if b[0] == c[0] && Subsequence(b[1..], c[1..]) {
        if a[0] == b[0] && Subsequence(a[1..], b[1..]) {
          SubsequenceTransitive(a[1..], b[1..], c[1..]);
        } else {
          SubsequenceTransitive(a, b[1..], c[1..]);
        }
      } else {
        SubsequenceTransitive(a, b, c[1..]);
      }
    }
  }

  /** `Array.prototype.filter`. */
  function Filter(s: seq<Scored>, keep: Scored -> bool): (r: seq<Scored>)
    ensures |r| <= |s|
    ensures forall i :: 0 <= i < |r| ==> keep(r[i])
    ensures forall x :: multiset(r)[x] == if keep(x) then multiset(s)[x] else 0
    ensures Subsequence(r, s)
  {
    if |s| == 0 then []
    else
      assert s == [s[0]] + s[1..];
      if keep(s[0]) then [s[0]] + Filter(s[1..], keep) else Filter(s[1..], keep)
  }

  /** `(x.bedrooms ?? 0) >= minBeds`. */
  predicate HasBedrooms(minBeds: real, x: Scored) {
    Bedrooms(x.listing) >= minBeds
  }

  /** `(x.tenure || "").toLowerCase()`. */
  function TenureText(x: Scored): string {
    Lower(x.listing.tenure.GetOr(""))
  }

  const ShareOrFreehold: seq<string> := ["freehold", "share of freehold"]

  /** The tenure filter of a mode; an unknown mode keeps everything. */
  predicate TenureKept(mode: string, x: Scored) {
    if mode == "freehold_only" then TenureText(x) == "freehold"
    else if mode == "share_or_freehold" then TenureText(x) in ShareOrFreehold
    else true
  }

  /** Filtering twice keeps what both predicates keep. */
  lemma FilterTwice(s: seq<Scored>, p: Scored -> bool, q: Scored -> bool)
    ensures var r := Filter(Filter(s, p), q);
      && Subsequence(r, s)
      && forall x :: multiset(r)[x] == if p(x) && q(x) then multiset(s)[x] else 0
  {
    SubsequenceTransitive(Filter(Filter(s, p), q), Filter(s, p), s);
  }

  function IsFreehold(x: Scored): bool {
    TenureText(x) == "freehold"
  }

  function IsShareOrFreehold(x: Scored): bool {
    TenureText(x) in ShareOrFreehold
  }

  /** The filtering of `applyRender`: bedrooms first, then the tenure mode. */
  function Visible(items: seq<Scored>, minBeds: real, mode: string): (r: seq<Scored>)
    ensures forall i :: 0 <= i < |r| ==> HasBedrooms(minBeds, r[i]) && TenureKept(mode, r[i])
    ensures forall x :: multiset(r)[x] ==
                        if HasBedrooms(minBeds, x) && TenureKept(mode, x) then multiset(items)[x] else 0
    ensures Subsequence(r, items)
  {
    var byBeds := x => HasBedrooms(minBeds, x);
    if mode == "freehold_only" then
      FilterTwice(items, byBeds, IsFreehold);
      Filter(Filter(items, byBeds), IsFreehold)
    else if mode == "share_or_freehold" then
      FilterTwice(items, byBeds, IsShareOrFreehold);
      Filter(Filter(items, byBeds), IsShareOrFreehold)
    else Filter(items, byBeds)
  }

  // ---- sorting ----

  /** Every adjacent pair is in comparator order. */
  predicate Sorted(s: seq<Scored>, key: string) {
    forall i :: 0 < i < |s| ==> Ordering.Compare(s[i - 1], s[i], key) <= 0
  }

  function Insert(x: Scored, s: seq<Scored>, key: string): (r: seq<Scored>)
    ensures |r| == |s| + 1
    ensures multiset(r) == multiset(s) + multiset{x}
    ensures r[0] == x || (|s| > 0 && r[0] == s[0])
  {
    if |s| == 0 then [x]
    else if Ordering.Compare(x, s[0], key) <= 0 then [x] + s
    else
      assert s == [s[0]] + s[1..];
      [s[0]] + Insert(x, s[1..], key)
  }

  /** Sorting by a key; an item goes before the first item it does not sort after. */
  function SortBy(s: seq<Scored>, key: string): (r: seq<Scored>)
    ensures |r| == |s|
    ensures multiset(r) == multiset(s)
  {
    if |s| == 0 then []
    else
      assert s == [s[0]] + s[1..];
      Insert(s[0], SortBy(s[1..], key), key)
  }

  lemma {:induction false} InsertSorted(x: Scored, s: seq<Scored>, key: string)
    requires Sorted(s, key)
    ensures Sorted(Insert(x, s, key), key)
  {
    if |s| > 0 && Ordering.Compare(x, s[0], key) > 0 {
      Ordering.CompareAntisymmetric(x, s[0], key);
      InsertSorted(x, s[1..], key);
      var r := Insert(x, s, key);
      var t := Insert(x, s[1..], key);
      assert r == [s[0]] + t;
      forall i | 0 < i < |r|
        ensures Ordering.Compare(r[i - 1], r[i], key) <= 0
      {
        if i > 1 {
          assert r[i - 1] == t[i - 2] && r[i] == t[i - 1];
        }
      }
    }
  }

  lemma {:induction false} SortSorted(s: seq<Scored>, key: string)
    ensures Sorted(SortBy(s, key), key)
  {
    if |s| > 0 {
      SortSorted(s[1..], key);
      InsertSorted(s[0], SortBy(s[1..], key), key);
    }
  }

  /** In a sorted sequence every earlier item sorts no later than every later one. */
  lemma {:induction false} SortedAllPairs(s: seq<Scored>, key: string, i: int, j: int)
    requires Sorted(s, key) && 0 <= i < j < |s|
    ensures Ordering.Compare(s[i], s[j], key) <= 0
    decreases j - i
  {
    if j > i + 1 {
      SortedAllPairs(s, key, i, j - 1);
      Ordering.CompareTransitive(s[i], s[j - 1], s[j], key);
    }
  }

  /** The items comparing equal to `e`. */
  function EqualTo(e: Scored, key: string): Scored -> bool {
    x => Ordering.Compare(x, e, key) == 0
  }

  lemma {:induction false} FilterEqualInsert(e: Scored, key: string, y: Scored, t: seq<Scored>)
    ensures Filter(Insert(y, t, key), EqualTo(e, key)) ==
      (if EqualTo(e, key)(y) then [y] + Filter(t, EqualTo(e, key)) else Filter(t, EqualTo(e, key)))
  {
    var eq := EqualTo(e, key);
    if |t| == 0 {
    } else if Ordering.Compare(y, t[0], key) <= 0 {
      var r := [y] + t;
      assert r[0] == y && r[1..] == t;
    } else {
      var t' := Insert(y, t[1..], key);
      var r := [t[0]] + t';
      assert r[0] == t[0] && r[1..] == t';
      assert t == [t[0]] + t[1..];
      FilterEqualInsert(e, key, y, t[1..]);
      if eq(y) && eq(t[0]) {
        Ordering.CompareAntisymmetric(t[0], e, key);
        Ordering.CompareEqualTransitive(y, e, t[0], key);
        assert false;
      }
    }
  }

  /** The sort is stable: the items comparing equal to any `e` keep their input order. */
  lemma {:induction false} SortStable(s: seq<Scored>, key: string, e: Scored)
    ensures Filter(SortBy(s, key), EqualTo(e, key)) == Filter(s, EqualTo(e, key))
  {
    if |s| > 0 {
      SortStable(s[1..], key, e);
      FilterEqualInsert(e, key, s[0], SortBy(s[1..], key));
    }
  }

  // ---- the rendered table ----

  /** `applyRender` without the DOM: filter, then sort by the chosen key. */
  function ApplyRender(items: seq<Scored>, key: string, minBeds: real, mode: string): (r: seq<Scored>)
    ensures Sorted(r, key)
    ensures multiset(r) == multiset(Visible(items, minBeds, mode))
    ensures forall i :: 0 <= i < |r| ==> HasBedrooms(minBeds, r[i]) && TenureKept(mode, r[i])
    ensures forall x :: multiset(r)[x] ==
                        if HasBedrooms(minBeds, x) && TenureKept(mode, x) then multiset(items)[x] else 0
  {
    var v := Visible(items, minBeds, mode);
    SortSorted(v, key);
    var r := SortBy(v, key);
    PermutationShown(r, v, minBeds, mode);
    r
  }

  /** A rearrangement of the visible items holds only visible items. */
  lemma PermutationShown(r: seq<Scored>, v: seq<Scored>, minBeds: real, mode: string)
    requires multiset(r) == multiset(v)
    requires forall i :: 0 <= i < |v| ==> HasBedrooms(minBeds, v[i]) && TenureKept(mode, v[i])
    ensures forall i :: 0 <= i < |r| ==> HasBedrooms(minBeds, r[i]) && TenureKept(mode, r[i])
  {
    forall i | 0 <= i < |r|
      ensures HasBedrooms(minBeds, r[i]) && TenureKept(mode, r[i])
    {
      assert r[i] in multiset(v);
      var j :| 0 <= j < |v| && v[j] == r[i];
    }
  }
}
