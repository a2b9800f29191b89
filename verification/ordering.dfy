/**
 The sort comparator `compare(a, b, key)` of `scoring.js`: price and zone
 ascending, every other key descending, and an absent value always last.
 */
module Ordering {
  import opened Options
  import opened Listings

  /** JavaScript `<` on strings: lexicographic on characters, a proper prefix first. */
  predicate TextLess(a: string, b: string)
    decreases |a|
  {
    if |a| == 0 then |b| > 0
    else if |b| == 0 then false
    else if a[0] != b[0] then a[0] < b[0]
    else TextLess(a[1..], b[1..])
  }

  lemma {:induction false} TextLessIrreflexive(a: string)
    ensures !TextLess(a, a)
    decreases |a|
  {
    if |a| > 0 {
      TextLessIrreflexive(a[1..]);
    }
  }

  lemma {:induction false} TextLessAsymmetric(a: string, b: string)
    requires TextLess(a, b)
    ensures !TextLess(b, a)
    decreases |a|
  {
    if |a| > 0 && |b| > 0 && a[0] == b[0] {
      TextLessAsymmetric(a[1..], b[1..]);
    }
  }

  lemma {:induction false} TextLessTransitive(a: string, b: string, c: string)
    requires TextLess(a, b) && TextLess(b, c)
    ensures TextLess(a, c)
    decreases |a|
  {
    if |a| > 0 && a[0] == b[0] && b[0] == c[0] {
      TextLessTransitive(a[1..], b[1..], c[1..]);
    }
  }

  lemma {:induction false} TextLessTotal(a: string, b: string)
    requires a != b
    ensures TextLess(a, b) || TextLess(b, a)
    decreases |a|
  {
    if |a| > 0 && |b| > 0 && a[0] == b[0] {
      assert a == [a[0]] + a[1..] && b == [b[0]] + b[1..];
      TextLessTotal(a[1..], b[1..]);
    }
  }

  /** The natural order of two field values; values of different kinds are unordered. */
  predicate Less(a: Value, b: Value) {
    match (a, b)
    case (Num(x), Num(y)) => x < y
    case (Text(s), Text(t)) => TextLess(s, t)
    case _ => false
  }

  predicate SameKind(a: Value, b: Value) {
    a.Num? == b.Num?
  }

  lemma LessAsymmetric(a: Value, b: Value)
    requires Less(a, b)
    ensures !Less(b, a)
  {
    if a.Text? {
      TextLessAsymmetric(a.s, b.s);
    }
  }

  lemma LessTransitive(a: Value, b: Value, c: Value)
    requires Less(a, b) && Less(b, c)
    ensures Less(a, c)
  {
    if a.Text? {
      TextLessTransitive(a.s, b.s, c.s);
    }
  }

  lemma LessTotal(a: Value, b: Value)
    requires SameKind(a, b) && a != b
    ensures Less(a, b) || Less(b, a)
  {
    if a.Text? {
      TextLessTotal(a.s, b.s);
    }
  }

  /** `price` and `zone` sort ascending; every other key descending. */
  predicate Ascending(key: string) {
    key == "price" || key == "zone"
  }

  function Compare(a: Scored, b: Scored, key: string): (r: int)
    ensures -1 <= r <= 1
    ensures Lookup(a, key).None? && Lookup(b, key).None? ==> r == 0
    ensures Lookup(a, key).None? && Lookup(b, key).Some? ==> r == 1
    ensures Lookup(a, key).Some? && Lookup(b, key).None? ==> r == -1
  {
    var va := Lookup(a, key);
    var vb := Lookup(b, key);
    if va.None? && vb.None? then 0
    else if va.None? then 1
    else if vb.None? then -1
    else if Less(va.value, vb.value) then (if Ascending(key) then -1 else 1)
    else if Less(vb.value, va.value) then (if Ascending(key) then 1 else -1)
    else 0
  }

  /** Swapping the arguments negates the answer. */
  lemma CompareAntisymmetric(a: Scored, b: Scored, key: string)
    ensures Compare(a, b, key) == -Compare(b, a, key)
  {
    var va := Lookup(a, key);
    var vb := Lookup(b, key);
    if va.Some? && vb.Some? && Less(va.value, vb.value) {
      LessAsymmetric(va.value, vb.value);
    }
  }

  /** Present values compare by their natural order in the key's direction, and
      are equal under the comparator exactly when they are equal. */
  lemma CompareDirection(a: Scored, b: Scored, key: string)
    requires Lookup(a, key).Some? && Lookup(b, key).Some?
    ensures var x, y := Lookup(a, key).value, Lookup(b, key).value;
      && (Compare(a, b, key) == 0 <==> x == y)
      && (Ascending(key) ==> (Compare(a, b, key) < 0 <==> Less(x, y)))
      && (!Ascending(key) ==> (Compare(a, b, key) < 0 <==> Less(y, x)))
  {
    var x, y := Lookup(a, key).value, Lookup(b, key).value;
    if x == y {
      if x.Text? {
        TextLessIrreflexive(x.s);
      }
    } else {
      LessTotal(x, y);
      if Less(x, y) {
        LessAsymmetric(x, y);
      }
    }
  }

  /** For a fixed key the comparator is a total preorder: "sorts no later than" is transitive. */
  lemma CompareTransitive(a: Scored, b: Scored, c: Scored, key: string)
    requires Compare(a, b, key) <= 0 && Compare(b, c, key) <= 0
    ensures Compare(a, c, key) <= 0
  {
    var va, vb, vc := Lookup(a, key), Lookup(b, key), Lookup(c, key);
    if va.Some? && vb.Some? && vc.Some? {
      CompareDirection(a, b, key);
      CompareDirection(b, c, key);
      CompareDirection(a, c, key);
      if Ascending(key) {
        if Less(va.value, vb.value) && Less(vb.value, vc.value) {
          LessTransitive(va.value, vb.value, vc.value);
        }
      } else {
        if Less(vb.value, va.value) && Less(vc.value, vb.value) {
          LessTransitive(vc.value, vb.value, va.value);
        }
      }
    }
  }

  /** Comparing as equal is transitive too. */
  lemma CompareEqualTransitive(a: Scored, b: Scored, c: Scored, key: string)
    requires Compare(a, b, key) == 0 && Compare(b, c, key) == 0
    ensures Compare(a, c, key) == 0
  {
    CompareAntisymmetric(a, b, key);
    CompareAntisymmetric(b, c, key);
    CompareTransitive(a, b, c, key);
    CompareTransitive(c, b, a, key);
    CompareAntisymmetric(a, c, key);
  }
}
