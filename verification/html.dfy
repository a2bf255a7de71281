/** `htmlspecialchars($s, ENT_QUOTES, 'UTF-8')` over a sequence of characters,
    together with the decoding that undoes it. */
module Html {

  /** The five characters the escape rewrites. */
  predicate IsSpecial(c: char) {
    c == '&' || c == '<' || c == '>' || c == '"' || c == '\''
  }

  /** Characters that could open or close markup or an attribute value. */
  predicate IsMarkup(c: char) {
    c == '<' || c == '>' || c == '"' || c == '\''
  }

  predicate NoSpecial(s: string) {
    forall i :: 0 <= i < |s| ==> !IsSpecial(s[i])
  }

  predicate StartsWith(s: string, p: string) {
    |p| <= |s| && s[..|p|] == p
  }

  /** `s` occurs somewhere inside `t`. */
  predicate Contains(t: string, s: string) {
    exists i :: 0 <= i <= |t| && StartsWith(t[i..], s)
  }

  /** A piece placed between two others occurs in the whole. */
  lemma ContainsMiddle(a: string, s: string, b: string)
    ensures Contains(a + s + b, s)
  {
    var t := a + s + b;
    assert t[|a|..][..|s|] == s;
    assert StartsWith(t[|a|..], s);
  }

  /** The entity written for a special character. */
  function Entity(c: char): (e: string)
    requires IsSpecial(c)
    ensures |e| >= 4 && e[0] == '&' && e[|e| - 1] == ';'
    ensures forall k :: 1 <= k < |e| ==> e[k] != '&'
  {
    match c
    case '&' => "&amp;"
    case '<' => "&lt;"
    case '>' => "&gt;"
    case '"' => "&quot;"
    case _ => "&#039;"
  }

  /** True when one of the five entities starts at position `i` of `s`. */
  predicate EntityAt(s: string, i: nat)
    requires i <= |s|
  {
    var t := s[i..];
    StartsWith(t, "&amp;") || StartsWith(t, "&lt;") || StartsWith(t, "&gt;")
    || StartsWith(t, "&quot;") || StartsWith(t, "&#039;")
  }

  function EscapeChar(c: char): (e: string)
    ensures |e| >= 1
    ensures forall i :: 0 <= i < |e| ==> !IsMarkup(e[i])
    ensures !IsSpecial(c) <==> e == [c]
  {
    if IsSpecial(c) then Entity(c) else [c]
  }

  /** The escaped text contains no character that could open a tag or close
      a quoted attribute value, and is never shorter than its input. */
  function Escape(s: string): (r: string)
    ensures |r| >= |s|
    ensures forall i :: 0 <= i < |r| ==> !IsMarkup(r[i])
  {
    if s == [] then [] else EscapeChar(s[0]) + Escape(s[1..])
  }

  /** Decoding of the five entities; any other character stands for itself. */
  function Unescape(r: string): string
    decreases |r|
  {
    if r == [] then []
    else if StartsWith(r, "&amp;") then "&" + Unescape(r[5..])
    else if StartsWith(r, "&lt;") then "<" + Unescape(r[4..])
    else if StartsWith(r, "&gt;") then ">" + Unescape(r[4..])
    else if StartsWith(r, "&quot;") then "\"" + Unescape(r[6..])
    else if StartsWith(r, "&#039;") then "'" + Unescape(r[6..])
    else [r[0]] + Unescape(r[1..])
  }

  /** Escaping distributes over concatenation. */
  lemma {:induction false} EscapeAppend(a: string, b: string)
    ensures Escape(a + b) == Escape(a) + Escape(b)
    decreases |a|
  {
    if a == [] {
      assert a + b == b;
    } else {
      assert (a + b)[0] == a[0];
      assert (a + b)[1..] == a[1..] + b;
      EscapeAppend(a[1..], b);
    }
  }

  lemma UnescapeAmp(t: string)
    ensures Unescape("&amp;" + t) == "&" + Unescape(t)
  {
    var r := "&amp;" + t;
    assert r[..5] == "&amp;";
    assert r[5..] == t;
  }

  lemma UnescapeLt(t: string)
    ensures Unescape("&lt;" + t) == "<" + Unescape(t)
  {
    var r := "&lt;" + t;
    assert r[1] == 'l';
    assert r[..4] == "&lt;";
    assert r[4..] == t;
  }

  lemma UnescapeGt(t: string)
    ensures Unescape("&gt;" + t) == ">" + Unescape(t)
  {
    var r := "&gt;" + t;
    assert r[1] == 'g';
    assert r[..4] == "&gt;";
    assert r[4..] == t;
  }

  lemma UnescapeQuot(t: string)
    ensures Unescape("&quot;" + t) == "\"" + Unescape(t)
  {
    var r := "&quot;" + t;
    assert r[1] == 'q';
    assert r[..6] == "&quot;";
    assert r[6..] == t;
  }

  lemma UnescapeApos(t: string)
    ensures Unescape("&#039;" + t) == "'" + Unescape(t)
  {
    var r := "&#039;" + t;
    assert r[1] == '#';
    assert r[..6] == "&#039;";
    assert r[6..] == t;
  }

  lemma UnescapePlain(c: char, t: string)
    requires c != '&'
    ensures Unescape([c] + t) == [c] + Unescape(t)
  {
    var r := [c] + t;
    assert r[0] == c;
    assert r[1..] == t;
  }

  lemma UnescapeOneChar(c: char, t: string)
    ensures Unescape(EscapeChar(c) + t) == [c] + Unescape(t)
  {
    if c == '&' {
      UnescapeAmp(t);
    } else if c == '<' {
      UnescapeLt(t);
    } else if c == '>' {
      UnescapeGt(t);
    } else if c == '"' {
      UnescapeQuot(t);
    } else if c == '\'' {
      UnescapeApos(t);
    } else {
      UnescapePlain(c, t);
    }
  }

  /** Decoding recovers the original text: the escape loses nothing. */
  lemma {:induction false} UnescapeEscape(s: string)
    ensures Unescape(Escape(s)) == s
    decreases |s|
  {
    if s != [] {
      UnescapeOneChar(s[0], Escape(s[1..]));
      UnescapeEscape(s[1..]);
      assert [s[0]] + s[1..] == s;
    }
  }

  /** Distinct inputs escape to distinct outputs. */
  lemma EscapeInjective(a: string, b: string)
    requires Escape(a) == Escape(b)
    ensures a == b
  {
    UnescapeEscape(a);
    UnescapeEscape(b);
  }

  /** Text without special characters is left untouched, and only such text. */
  lemma {:induction false} EscapeIdentity(s: string)
    ensures Escape(s) == s <==> NoSpecial(s)
    decreases |s|
  {
    if s != [] {
      EscapeIdentity(s[1..]);
      if IsSpecial(s[0]) {
        assert |Escape(s)| > |s|;
      } else {
        assert Escape(s) == [s[0]] + Escape(s[1..]);
        assert NoSpecial(s) <==> NoSpecial(s[1..]) by {
          if NoSpecial(s[1..]) {
            forall i | 0 <= i < |s| ensures !IsSpecial(s[i]) {
              if i > 0 { assert s[i] == s[1..][i - 1]; }
            }
          }
          if NoSpecial(s) {
            forall i | 0 <= i < |s[1..]| ensures !IsSpecial(s[1..][i]) {
              assert s[1..][i] == s[i + 1];
            }
          }
        }
        assert Escape(s) == s <==> Escape(s[1..]) == s[1..] by {
          assert s == [s[0]] + s[1..];
          if Escape(s) == s {
            assert Escape(s[1..]) == Escape(s)[1..];
          }
        }
      }
    }
  }

  lemma EntityStartsEntity(c: char, t: string)
    requires IsSpecial(c)
    ensures EntityAt(Entity(c) + t, 0)
  {
    var r := Entity(c) + t;
    assert r[0..] == r;
    assert r[..|Entity(c)|] == Entity(c);
  }

  /** An entity found in `b` is still found after anything is put in front. */
  lemma EntityAtShift(a: string, b: string, j: nat)
    requires j <= |b|
    requires EntityAt(b, j)
    ensures EntityAt(a + b, |a| + j)
  {
    assert (a + b)[|a| + j..] == b[j..];
  }

  /** Every `&` of the escaped text begins one of the five entities, so the
      output never holds a bare ampersand. */
  lemma {:induction false} EscapeAmpersands(s: string)
    ensures forall i :: 0 <= i < |Escape(s)| && Escape(s)[i] == '&' ==> EntityAt(Escape(s), i)
    decreases |s|
  {
    if s != [] {
      EscapeAmpersands(s[1..]);
      var e := EscapeChar(s[0]);
      var rest := Escape(s[1..]);
      var r := Escape(s);
      assert r == e + rest;
      forall i | 0 <= i < |r| && r[i] == '&'
        ensures EntityAt(r, i)
      {
        if i < |e| {
          assert IsSpecial(s[0]);
          assert i == 0;
          EntityStartsEntity(s[0], rest);
        } else {
          assert rest[i - |e|] == '&';
          EntityAtShift(e, rest, i - |e|);
        }
      }
    }
  }

  /** Escaping a non-empty text escapes its first character, then the rest. */
  lemma EscapeCons(c: char, t: string)
    ensures Escape([c] + t) == EscapeChar(c) + Escape(t)
  {
    assert ([c] + t)[1..] == t;
  }

  /** A worked case: a query string's ampersand becomes `&amp;`. */
  lemma EscapeQueryExample(url: string)
    requires url == "a?x=1&y=2"
    ensures Escape(url) == "a?x=1&amp;y=2"
  {
    var plain := "a?x=1";
    var tail := "y=2";
    var amp := "&";
    var whole := plain + (amp + tail);
    assert NoSpecial(plain);
    assert NoSpecial(tail);
    EscapeIdentity(plain);
    EscapeIdentity(tail);
    EscapeAppend(plain, amp + tail);
    EscapeCons('&', tail);
    assert EscapeChar('&') == "&amp;";
    var escaped := plain + ("&amp;" + tail);
    assert Escape(whole) == escaped;
    assert whole == url;
    assert escaped == "a?x=1&amp;y=2";
  }
}
