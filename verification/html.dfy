/**
 `escapeHtml` of `Main/ui.js`: the five HTML-significant characters become
 entities, everything else is copied. `Unescape` decodes those five entities
 and is the escaper's left inverse.
 */
module Html {

  predicate Special(c: char) {
    c == '&' || c == '<' || c == '>' || c == '"' || c == '\''
  }

  /** The text that stands for one character in the output. */
  function Entity(c: char): string {
    match c
    case '&' => "&amp;"
    case '<' => "&lt;"
    case '>' => "&gt;"
    case '"' => "&quot;"
    case '\'' => "&#039;"
    case _ => [c]
  }

  /** `s.replace(/[&<>"']/g, …)`. */
  function Escape(s: string): (r: string)
    ensures |r| >= |s|
    ensures forall i :: 0 <= i < |r| ==> r[i] != '<' && r[i] != '>' && r[i] != '"' && r[i] != '\''
    ensures (forall i :: 0 <= i < |s| ==> !Special(s[i])) ==> r == s
  {
    if |s| == 0 then "" else Entity(s[0]) + Escape(s[1..])
  }

  /** Escaping works character by character. */
  lemma {:induction false} EscapeAppend(a: string, b: string)
    ensures Escape(a + b) == Escape(a) + Escape(b)
  {
    if |a| == 0 {
      assert a + b == b;
    } else {
      assert (a + b)[0] == a[0] && (a + b)[1..] == a[1..] + b;
      EscapeAppend(a[1..], b);
      calc {
        Escape(a + b);
        Entity(a[0]) + Escape(a[1..] + b);
        Entity(a[0]) + (Escape(a[1..]) + Escape(b));
        (Entity(a[0]) + Escape(a[1..])) + Escape(b);
      }
    }
  }

  /** Each special character becomes exactly its entity; any other character is itself. */
  lemma EscapeChar(c: char)
    ensures c == '&' ==> Escape([c]) == "&amp;"
    ensures c == '<' ==> Escape([c]) == "&lt;"
    ensures c == '>' ==> Escape([c]) == "&gt;"
    ensures c == '"' ==> Escape([c]) == "&quot;"
    ensures c == '\'' ==> Escape([c]) == "&#039;"
    ensures !Special(c) ==> Escape([c]) == [c]
  {
    assert [c][1..] == "";
  }

  predicate StartsWith(s: string, prefix: string) {
    |prefix| <= |s| && s[..|prefix|] == prefix
  }

  /** Decodes the five entities the escaper produces; any other text is copied. */
  function Unescape(s: string): string
    decreases |s|
  {
    if |s| == 0 then ""
    else if StartsWith(s, "&amp;") then "&" + Unescape(s[5..])
    else if StartsWith(s, "&lt;") then "<" + Unescape(s[4..])
    else if StartsWith(s, "&gt;") then ">" + Unescape(s[4..])
    else if StartsWith(s, "&quot;") then "\"" + Unescape(s[6..])
    else if StartsWith(s, "&#039;") then "'" + Unescape(s[6..])
    else [s[0]] + Unescape(s[1..])
  }

  lemma UnescapeAmp(t: string)
    ensures Unescape("&amp;" + t) == "&" + Unescape(t)
  {
    var s := "&amp;" + t;
    assert s[..5] == "&amp;" && s[5..] == t;
  }

  /** A text whose second character is `d` starts with none of the entities not having `d` there. */
  lemma NotEntity(s: string, d: char)
    requires |s| >= 2 && s[1] == d
    ensures d != 'a' ==> !StartsWith(s, "&amp;")
    ensures d != 'l' ==> !StartsWith(s, "&lt;")
    ensures d != 'g' ==> !StartsWith(s, "&gt;")
    ensures d != 'q' ==> !StartsWith(s, "&quot;")
  {
    if |s| >= 4 {
      assert s[..4][1] == d;
    }
    if |s| >= 5 {
      assert s[..5][1] == d;
    }
    if |s| >= 6 {
      assert s[..6][1] == d;
    }
  }

  lemma UnescapeLt(t: string)
    ensures Unescape("&lt;" + t) == "<" + Unescape(t)
  {
    var s := "&lt;" + t;
    NotEntity(s, 'l');
    assert s[..4] == "&lt;" && s[4..] == t;
  }

  lemma UnescapeGt(t: string)
    ensures Unescape("&gt;" + t) == ">" + Unescape(t)
  {
    var s := "&gt;" + t;
    NotEntity(s, 'g');
    assert s[..4] == "&gt;" && s[4..] == t;
  }

  lemma UnescapeQuot(t: string)
    ensures Unescape("&quot;" + t) == "\"" + Unescape(t)
  {
    var s := "&quot;" + t;
    NotEntity(s, 'q');
    assert s[..6] == "&quot;" && s[6..] == t;
  }

  lemma UnescapeApos(t: string)
    ensures Unescape("&#039;" + t) == "'" + Unescape(t)
  {
    var s := "&#039;" + t;
    NotEntity(s, '#');
    assert s[..6] == "&#039;" && s[6..] == t;
  }

  lemma UnescapePlain(c: char, t: string)
    requires c != '&'
    ensures Unescape([c] + t) == [c] + Unescape(t)
  {
    var s := [c] + t;
    assert s[0] == c && s[1..] == t;
    forall prefix: string | |prefix| > 0 && prefix[0] == '&'
      ensures !StartsWith(s, prefix)
    {
      if |prefix| <= |s| {
        assert s[..|prefix|][0] == c;
      }
    }
  }

  lemma UnescapeEntity(c: char, t: string)
    ensures Unescape(Entity(c) + t) == [c] + Unescape(t)
  {
    match c
    case '&' => UnescapeAmp(t);
    case '<' => UnescapeLt(t);
    case '>' => UnescapeGt(t);
    case '"' => UnescapeQuot(t);
    case '\'' => UnescapeApos(t);
    case _ => UnescapePlain(c, t);
  }

  /** Decoding undoes escaping. */
  lemma {:induction false} EscapeRoundTrip(s: string)
    ensures Unescape(Escape(s)) == s
  {
    if |s| > 0 {
      EscapeRoundTrip(s[1..]);
      UnescapeEntity(s[0], Escape(s[1..]));
      assert s == [s[0]] + s[1..];
    }
  }
}
