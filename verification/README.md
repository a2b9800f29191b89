# London property shortlist: scoring and ranking model

A Dafny model of the scoring and ranking engine of a personal London
property shortlist. A listing (bedrooms, tenure, price, fare zone, travel
time to zone 1, EPC rating, distance to Bank and seven 0–10 subjective
ratings, each optional) and a configuration (minimum bedrooms, allowed
tenures, price target and tolerance, bedroom cap, weights) give a display
score on a 0–10 scale with one decimal. A listing that fails the bedroom or
tenure constraint scores exactly 0. The table shows the scored listings
that pass a bedroom and a tenure filter, sorted by a chosen field with a
comparator that sorts price and zone ascending, everything else
descending, and absent values last. Addresses are HTML-escaped for display.

Two variants of the scorer are modelled: the current one (`scoring.js`,
module `Scoring`, with the comparator in `Ordering`) and the older one
(`Main/Scoring.js`, module `MainScoring`), with a lemma giving a sufficient
condition for them to agree and concrete inputs on which they differ. The page's data flow (`app.js`) is module `App`; the escaper
(`Main/ui.js`) is module `Html`.

Modelling choices:

- JavaScript numbers are exact `real`s; an absent (`undefined`/`null`) field is `None`.
  A division by a +0 band edge in the price decay is modelled as the +Infinity
  that JavaScript produces, so that price scores 0. A non-zero bedroom count over a
  zero cap is modelled the same way: ±Infinity, which the clamp saturates.
- Case folding (`toLowerCase`, `toUpperCase`) is ASCII-only (module `Ascii`).
- Comparison of string fields (`tenure`, `epc`) is lexicographic on characters, the
  model of JavaScript `<` on strings; every other known key holds numbers.
- `Array.prototype.sort` is modelled by a stable insertion sort. For a comparator that is
  a total preorder, which `Ordering.CompareTransitive` and `Ordering.CompareAntisymmetric`
  establish, every stable sort gives this result.
- The sort key, the minimum-bedrooms value and the tenure mode, read from page controls
  in the source, are parameters of `App.ApplyRender`.
- Unescaping (`Html.Unescape`) is not in the source; it is the reference decoder
  against which the escaper's round trip is stated.

Behaviours of the code worth noting:

- Rounding is `Math.round`, which takes halves towards +∞, not away from zero.
- For a listing that passes the gate, a configuration without a `weights` object makes
  the code throw; it does not score 0. A failing listing returns 0 before the weights are
  read. The model's configuration always carries a weights record, whose entries are optional.
- For a positive target, a price equal to the target is in the band only when the
  tolerance is non-negative; with a negative tolerance the band is empty.
- The display score stays in [0, 10] only when the non-negative weights sum to at most 1;
  larger weights are not normalised and push it above 10.

## Model

| member | source | states |
|---|---|---|
| `Numbers.Clamp` | scoring.js:93 | the result lies in [lo, hi]; a value inside is unchanged; one below gives lo, one above gives hi |
| `Numbers.Clamp01` | scoring.js:94 | the result lies in [0, 1], equals x inside it and saturates at the ends |
| `Numbers.MathRound` | scoring.js:91 | the result is the unique integer n with y − ½ < n ≤ y + ½ (halves go up) |
| `Numbers.Round1` | scoring.js:89-92 | the result is a whole number of tenths and lies in (x − 0.05, x + 0.05] |
| `Numbers.Round1InRange` | scoring.js:89-92 | rounding a value of [0, 10] stays in [0, 10] |
| `Numbers.Round1Monotone` | scoring.js:89-92 | rounding preserves ≤ |
| `Numbers.Round1Idempotent` | scoring.js:89-92 | rounding an already rounded value changes nothing |
| `Listings.Lookup` | scoring.js:74 | each JSON key reads its own field (`price` the price, `zone` the zone, …, `score` the attached score); `tenure` and `epc` hold text, every other key a number; unknown keys are absent |
| `Scoring.TenureOkIff` | scoring.js:5-9 | the tenure passes iff it is present, non-empty, and some configured tenure has the same lower-cased spelling |
| `Scoring.DefaultTenures` | scoring.js:5-6 | with no configured list exactly "freehold" and "share of freehold" pass, in any letter case |
| `Scoring.GateCaseInsensitive` | scoring.js:9 | replacing the tenure by any spelling with the same lower case leaves the gate unchanged |
| `Scoring.PriceScore` | scoring.js:18-29 | absent price gives 0; a price in the inclusive band gives 1; with non-negative edges the score is in [0, 1]; out of band with positive edges it is max(0, 1 − 2·overshoot), the overshoot measured from the nearer edge as a fraction of it, so below 1 and 0 exactly when the overshoot reaches 50% |
| `Scoring.PriceAtTarget` | scoring.js:21-24 | a price equal to a non-negative target scores 1 for every non-negative tolerance |
| `Scoring.PriceDecaysAbove` | scoring.js:26-27 | above the band a higher price never scores more |
| `Scoring.PriceDecaysBelow` | scoring.js:26-27 | below the band a lower price never scores more |
| `Scoring.PriceExamples` | scoring.js:18-29 | at 380000 ± 10% the edge 418000 scores 1 and 456000 scores 1 − 2/11 |
| `Scoring.BedScore` | scoring.js:32-33 | the score is in [0, 1], proportional to bedrooms up to the cap, 1 from the cap on, 0 for no bedrooms; over a zero cap it is 1 for a positive count and 0 for a negative one |
| `Scoring.ZoneScore` | scoring.js:36-37 | zones up to 2 score 1, above 2 up to 3 score 0.7, above 3 up to 4 score 0.5, above 4 score 0.3; an absent zone scores 0.3 |
| `Scoring.ZoneMonotone` | scoring.js:37 | a higher zone never scores more |
| `Scoring.TravelScore` | scoring.js:40-42 | the score is in [0, 1]; 1 up to 15 minutes, 0 from 60 minutes or when absent, linear (60 − t)/45 between |
| `Scoring.TravelMonotone` | scoring.js:40-42 | a longer travel time never scores more |
| `Scoring.EpcScore` | scoring.js:45-46 | the score is in (0, 1]; a one-letter rating in either case scores A 1, B 0.9, C 0.8, D 0.7, E 0.55, F 0.4, G 0.2; absent, empty, longer, or a single character outside A–G gives the neutral 0.5 |
| `Scoring.EpcCaseInsensitive` | scoring.js:46 | a rating scores the same in lower and upper case |
| `Scoring.EpcRanking` | scoring.js:45 | A scores 1 and each letter down to G scores strictly less than the one before, G still above 0 |
| `Scoring.BankScore` | scoring.js:49-50 | absent distance gives 0.5; up to 12 km the score is (12 − d)/12, from 12 km it is 0; never negative, at most 1 for a non-negative distance |
| `Scoring.BankMonotone` | scoring.js:50 | a farther listing never scores more for its distance to Bank |
| `Scoring.Norm10` | scoring.js:84-88 | a rating maps into [0, 1]; absent gives 0; a rating in [0, 10] maps to a tenth of itself; a negative rating gives 0 and one of 10 or more gives 1 |
| `Scoring.SumNorm10` | scoring.js:54-55 | the sum of n normalised ratings lies in [0, n]; all absent gives 0; all at least 10 gives n |
| `Scoring.SumNorm10Append` | scoring.js:55 | the sum of the normalised ratings is additive over concatenation |
| `Scoring.SumNorm10Ratings` | scoring.js:53-55 | the sum over the seven ratings is the sum of their seven normalised values |
| `Scoring.SubjectiveScore` | scoring.js:53-55 | seven times the score is the sum of the seven normalised ratings, an absent one counting 0; it is in [0, 1]; all absent gives 0; all top ratings give 1 |
| `Scoring.SubjectiveRaise` | scoring.js:53-55 | rating a previously unrated layout raises the score by exactly a seventh of its normalised value: the denominator stays 7 |
| `Scoring.SubjectiveExample` | scoring.js:53-55 | a single rating of 10 with the other six absent gives 1/7 |
| `Scoring.SubScoresOf` | scoring.js:17-55 | bedroom, zone, travel, EPC and subjective sub-scores are in [0, 1]; price and bank are non-negative and also at most 1 for non-negative band edges and distance |
| `Scoring.TotalBounds` | scoring.js:58-65 | with non-negative weights the weighted sum of normalised sub-scores lies between 0 and the sum of the weights |
| `Scoring.NoWeightsNoScore` | scoring.js:58-65 | with every weight absent the weighted sum is 0 |
| `Scoring.ComputeScore` | scoring.js:2-69 | a listing failing the bedroom or tenure gate scores exactly 0, whatever the rest of the configuration; every score is a whole number of tenths; a passing listing's score is within 0.05 of ten times the weighted sum |
| `Scoring.ScoreInRange` | scoring.js:58-68 | non-negative weights summing to at most 1, non-negative band edges and a non-negative distance keep the score in [0, 10] |
| `Scoring.WorkedExample` | scoring.js:2-69 | the two-bedroom freehold at target, zone 2, 15 minutes, EPC B, scores 7.9; with one bedroom it scores 0 |
| `Scoring.HeavyWeightsExceedTen` | scoring.js:58-68 | weights summing above 1 can put the score above 10: a single zone weight of 2 gives the example listing 20 |
| `Ordering.TextLessIrreflexive` | scoring.js:78-79 | no string sorts before itself |
| `Ordering.TextLessAsymmetric` | scoring.js:78-79 | string order is asymmetric |
| `Ordering.TextLessTransitive` | scoring.js:78-79 | string order is transitive |
| `Ordering.TextLessTotal` | scoring.js:78-79 | of two different strings one sorts before the other |
| `Ordering.Compare` | scoring.js:71-81 | the answer is −1, 0 or 1; two absent values are equal; an absent value sorts after a present one whichever side it is on |
| `Ordering.CompareAntisymmetric` | scoring.js:71-81 | compare(a, b) = −compare(b, a) for every key |
| `Ordering.CompareDirection` | scoring.js:72-80 | for present values: equal under the comparator iff equal; for price and zone a sorts first iff its value is smaller, for other keys iff it is larger |
| `Ordering.CompareTransitive` | scoring.js:71-81 | for a fixed key, a ≤ b and b ≤ c under the comparator give a ≤ c |
| `Ordering.CompareEqualTransitive` | scoring.js:71-81 | comparing equal is transitive |
| `MainScoring.PriceScore` | Main/Scoring.js:18-29 | an absent price or a price of 0 scores 0; any other price scores as in the current scorer |
| `MainScoring.BedScore` | Main/Scoring.js:32-33 | the score is at most 1; it equals the current clamped score for a non-negative ratio or a positive count over a zero cap, and is the ratio itself whenever the ratio is at most 1, so a negative ratio is passed through unclamped |
| `MainScoring.ComputeScore` | Main/Scoring.js:2-63 | the same gate gives exactly 0, before any weight or the cap is read; every score is a whole number of tenths within 0.05 of ten times the six-term weighted sum |
| `MainScoring.VariantsAgree` | Main/Scoring.js:53-62 | a sufficient condition, not a characterisation: with a zero or absent bank weight, a price other than 0 and a bedroom ratio that is not negative the older and current scores are equal |
| `MainScoring.VariantsDiffer` | Main/Scoring.js:20 | a zero price inside the band scores 1 in the current scorer and 0 in the older; a negative bedroom ratio is clamped only in the current one |
| `MainScoring.ScoreInRange` | Main/Scoring.js:53-62 | non-negative weights summing to at most 1, a positive cap, non-negative band edges and bedrooms keep the older score in [0, 10] |
| `MainScoring.Compare` | Main/Scoring.js:77-86 | the older comparator, with its direction multiplier, gives the same answer as the current one on every input |
| `App.ScoreAll` | app.js:40 | the output has the input's length and order; each item is its listing with the score the scorer gives it |
| `App.ScoresInRange` | app.js:40 | under a sane configuration every attached score is in [0, 10] |
| `App.Filter` | app.js:51 | every kept item satisfies the predicate; an item occurs in the output as often as in the input if it satisfies it and never otherwise; the output is a subsequence of the input |
| `App.FilterTwice` | app.js:51-56 | filtering by one predicate and then another keeps exactly the items meeting both, in order, each as often as in the input |
| `App.Visible` | app.js:48-56 | kept items have at least the minimum bedrooms (absent counts as 0) and meet the tenure mode: exactly "freehold" for freehold_only, "freehold" or "share of freehold" for share_or_freehold, anything otherwise; nothing else is dropped; order is kept |
| `App.SortBy` | app.js:64 | the sorted table is a permutation of its input |
| `App.SortSorted` | app.js:64 | every adjacent pair of the sorted table compares ≤ 0 |
| `App.SortedAllPairs` | app.js:64 | in a sorted table every earlier item compares ≤ 0 with every later item |
| `App.SortStable` | app.js:64 | items comparing equal keep their input order |
| `App.ApplyRender` | app.js:46-65 | the table is sorted by the key, is a permutation of the filtered items, and holds exactly the items meeting the bedroom and tenure filters, each as often as in the input |
| `Html.Escape` | Main/ui.js:54-56 | the output holds no `<`, `>`, `"` or `'`; it is never shorter than the input; text without the five special characters is returned unchanged |
| `Html.EscapeAppend` | Main/ui.js:55 | escaping a concatenation is concatenating the escapes, so characters keep their order |
| `Html.EscapeChar` | Main/ui.js:55 | `& < > " '` become exactly `&amp; &lt; &gt; &quot; &#039;`; any other character is itself |
| `Html.EscapeRoundTrip` | Main/ui.js:54-56 | decoding the five entities recovers the original text, so escaping loses nothing |

## Left out

- DOM lookups, event wiring, table and row HTML templates, modal dialogs, chart drawing and the 30-second polling timer: interface plumbing with no logic beyond the data flow modelled.
- Loading JSON over the network, geocoding, the tube-stop lookup and the haversine distance: calls to external services and floating-point trigonometry.
- Currency formatting and the issue-link builders: thin wrappers over `Intl`, `URLSearchParams` and `JSON.stringify`.
- The derived `viewing_date` field of `applyRender`: it parses dates, which the model does not do, so sorting by viewing date is not modelled.
- Unparsable numbers (JavaScript `NaN`): numeric fields are reals or absent. `scoring.js` does not guard a `NaN` travel time, so the source can return `NaN`; the model cannot express that.
- IEEE-754 double rounding: arithmetic is exact, so a total that a double would round just below a tie may round differently.
- Comparisons between values of different types under one key: each key holds one kind of value.
- Full Unicode case mapping: only ASCII letters change case. JavaScript compares strings by UTF-16 code units; the model compares characters.
- A configuration section that is missing altogether: `scoring.js` reads `constraints` and `bedrooms` through optional chaining, which the model's optional leaves match, while `Main/Scoring.js` throws without `constraints` for every listing, and without `bedrooms` for a listing that passes the gate; both throw without `price` or `weights` for a listing that passes the gate.
- Signed zero: reals have a single zero. A band edge of −0 (target 0 with a tolerance above 1 or below −1) makes JavaScript's overshoot −Infinity and the price score +Infinity, where `Scoring.Decay` gives 0; a bedroom cap of −0 sends a positive count to 0, where the model gives 1.
- Scoring.ComputeScore: for a listing that passes the gate, requires the bedroom cap or the bedroom count to be non-zero, because 0 / 0 is NaN in JavaScript and so is the score; a failing listing scores 0 with no requirement.
- MainScoring.ComputeScore: for a listing that passes the gate, requires the six weights it reads to be present, because the source has no `??` default for them: an `undefined` weight makes the score NaN, while a `null` one multiplies to 0. `None` stands for both null and undefined, so the model demands all six present rather than score a null weight as 0. It also requires a non-zero cap or a positive count, because 0 / 0 is NaN and a negative count over a zero cap is −Infinity; a failing listing scores 0 with no requirement.
- App.ScoreAll: requires of every listing what `Scoring.ComputeScore` requires.
