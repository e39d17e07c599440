/** `escapeXml`: the replacement chain that makes a value safe to embed in
    XML text and attribute values. */
module XmlEscape {
  import opened Js

  /** `s.replace(/c/g, rep)` for a one-character pattern. */
  function ReplaceAll(s: string, c: char, rep: string): string
    decreases |s|
  {
    if |s| == 0 then "" else (if s[0] == c then rep else [s[0]]) + ReplaceAll(s[1..], c, rep)
  }

  /** The replacements of `escapeXml`, in the order the chain applies them. */
  const Replacements: seq<(char, string)> :=
    [('&', "&amp;"), ('<', "&lt;"), ('>', "&gt;"), ('"', "&quot;"), ('\'', "&apos;")]

  /** `s.replace(...).replace(...)...`, one `replace` per rule, left to right. */
  function ReplaceChain(s: string, rules: seq<(char, string)>): string
    decreases |rules|
  {
    if |rules| == 0 then s else ReplaceChain(ReplaceAll(s, rules[0].0, rules[0].1), rules[1..])
  }

  function EscapeString(s: string): string {
    ReplaceChain(s, Replacements)
  }

  /** `escapeXml(v)`: a value that is not a string gives `''`; a string gives
      safe XML text (no raw markup character, every `&` starting an entity)
      from which decoding the entities gives back the string. */
  function EscapeXml(v: JsValue): (r: string)
    ensures Escaped(r)
    ensures v.Str? ==> Unescape(r) == v.s
    ensures !v.Str? ==> r == ""
  {
    if v.Str? then
      EscapeIsPerCharacter(v.s);
      EscapeEachIsEscaped(v.s);
      UnescapeInvertsEscape(v.s);
      EscapeString(v.s)
    else ""
  }

  // ---------------------------------------------------------------------------
  // Reference definition: one entity per character

  function EntityFor(c: char): string {
    match c
    case '&' => "&amp;"
    case '<' => "&lt;"
    case '>' => "&gt;"
    case '"' => "&quot;"
    case '\'' => "&apos;"
    case _ => [c]
  }

  function EscapeEach(s: string): string
    decreases |s|
  {
    if |s| == 0 then "" else EntityFor(s[0]) + EscapeEach(s[1..])
  }

  predicate Special(c: char) {
    c == '&' || c == '<' || c == '>' || c == '"' || c == '\''
  }

  predicate StartsEntity(s: string) {
    StartsWith(s, "&amp;") || StartsWith(s, "&lt;") || StartsWith(s, "&gt;")
    || StartsWith(s, "&quot;") || StartsWith(s, "&apos;")
  }

  /** Text that is safe inside an element or a quoted attribute: no raw
      `<`, `>`, `"` or `'`, and every `&` begins one of the five entities. */
  predicate Escaped(r: string) {
    && (forall i :: 0 <= i < |r| ==> r[i] != '<' && r[i] != '>' && r[i] != '"' && r[i] != '\'')
    && (forall i :: 0 <= i < |r| && r[i] == '&' ==> StartsEntity(r[i..]))
  }

  /** Decoding of the five entities, left to right; any other text is copied. */
  function Unescape(s: string): string
    decreases |s|
  {
    if |s| == 0 then ""
    else if StartsWith(s, "&amp;") then "&" + Unescape(s[5..])
    else if StartsWith(s, "&lt;") then "<" + Unescape(s[4..])
    else if StartsWith(s, "&gt;") then ">" + Unescape(s[4..])
    else if StartsWith(s, "&quot;") then "\"" + Unescape(s[6..])
    else if StartsWith(s, "&apos;") then "'" + Unescape(s[6..])
    else [s[0]] + Unescape(s[1..])
  }

  // ---------------------------------------------------------------------------
  // The replacement chain is the per-character escape

  lemma {:induction false} ReplaceAllAppend(a: string, b: string, c: char, rep: string)
    ensures ReplaceAll(a + b, c, rep) == ReplaceAll(a, c, rep) + ReplaceAll(b, c, rep)
    decreases |a|
  {
    if |a| == 0 {
      assert a + b == b;
    } else {
      assert (a + b)[1..] == a[1..] + b;
      ReplaceAllAppend(a[1..], b, c, rep);
    }
  }

  lemma {:induction false} ReplaceAllAbsent(s: string, c: char, rep: string)
    requires forall i :: 0 <= i < |s| ==> s[i] != c
    ensures ReplaceAll(s, c, rep) == s
    decreases |s|
  {
    if |s| > 0 {
      ReplaceAllAbsent(s[1..], c, rep);
    }
  }

  /** The chain written out is the one `escapeXml` performs. */
  lemma EscapeStringSteps(s: string)
    ensures EscapeString(s) == ReplaceAll(ReplaceAll(ReplaceAll(ReplaceAll(ReplaceAll(
      s, '&', "&amp;"), '<', "&lt;"), '>', "&gt;"), '"', "&quot;"), '\'', "&apos;")
  {
    var r := Replacements;
    var s1 := ReplaceAll(s, '&', "&amp;");
    var s2 := ReplaceAll(s1, '<', "&lt;");
    var s3 := ReplaceAll(s2, '>', "&gt;");
    var s4 := ReplaceAll(s3, '"', "&quot;");
    var s5 := ReplaceAll(s4, '\'', "&apos;");
    assert ReplaceChain(s, r) == ReplaceChain(s1, r[1..]);
    assert ReplaceChain(s1, r[1..]) == ReplaceChain(s2, r[2..]) by { assert r[1..][1..] == r[2..]; }
    assert ReplaceChain(s2, r[2..]) == ReplaceChain(s3, r[3..]) by { assert r[2..][1..] == r[3..]; }
    assert ReplaceChain(s3, r[3..]) == ReplaceChain(s4, r[4..]) by { assert r[3..][1..] == r[4..]; }
    assert ReplaceChain(s4, r[4..]) == ReplaceChain(s5, r[5..]) by { assert r[4..][1..] == r[5..]; }
  }

  lemma {:induction false} ReplaceChainAppend(a: string, b: string, rules: seq<(char, string)>)
    ensures ReplaceChain(a + b, rules) == ReplaceChain(a, rules) + ReplaceChain(b, rules)
    decreases |rules|
  {
    if |rules| > 0 {
      ReplaceAllAppend(a, b, rules[0].0, rules[0].1);
      ReplaceChainAppend(ReplaceAll(a, rules[0].0, rules[0].1), ReplaceAll(b, rules[0].0, rules[0].1), rules[1..]);
    }
  }

  /** No character of `s` is the pattern of any rule. */
  predicate NoPattern(s: string, rules: seq<(char, string)>) {
    forall i, j :: 0 <= i < |s| && 0 <= j < |rules| ==> s[i] != rules[j].0
  }

  /** The text a rule puts in is never rewritten by a later rule. */
  predicate Ordered(rules: seq<(char, string)>) {
    forall k :: 0 <= k < |rules| ==> NoPattern(rules[k].1, rules[k + 1..])
  }

  /** The replacement of the first rule whose pattern is `c`, or `c` itself. */
  function RuleFor(c: char, rules: seq<(char, string)>): string
    decreases |rules|
  {
    if |rules| == 0 then [c] else if rules[0].0 == c then rules[0].1 else RuleFor(c, rules[1..])
  }

  lemma {:induction false} ReplaceChainAbsent(s: string, rules: seq<(char, string)>)
    requires NoPattern(s, rules)
    ensures ReplaceChain(s, rules) == s
    decreases |rules|
  {
    if |rules| > 0 {
      forall i | 0 <= i < |s| ensures s[i] != rules[0].0 {
        assert s[i] != rules[0].0;
      }
      ReplaceAllAbsent(s, rules[0].0, rules[0].1);
      forall i, j | 0 <= i < |s| && 0 <= j < |rules[1..]| ensures s[i] != rules[1..][j].0 {
        assert rules[1..][j] == rules[j + 1];
      }
      ReplaceChainAbsent(s, rules[1..]);
    }
  }

  /** With ordered rules a single character ends up as the replacement of
      the first rule that matches it. */
  lemma {:induction false} ReplaceChainOneCharacter(c: char, rules: seq<(char, string)>)
    requires Ordered(rules)
    ensures ReplaceChain([c], rules) == RuleFor(c, rules)
    decreases |rules|
  {
    if |rules| > 0 {
      assert ReplaceAll([c], rules[0].0, rules[0].1) == (if c == rules[0].0 then rules[0].1 else [c]) by {
        assert [c][1..] == "";
      }
      if c == rules[0].0 {
        assert NoPattern(rules[0].1, rules[1..]);
        ReplaceChainAbsent(rules[0].1, rules[1..]);
      } else {
        forall k | 0 <= k < |rules[1..]| ensures NoPattern(rules[1..][k].1, rules[1..][k + 1..]) {
          assert rules[1..][k] == rules[k + 1];
          assert rules[1..][k + 1..] == rules[k + 2..];
          assert NoPattern(rules[k + 1].1, rules[k + 2..]);
        }
        ReplaceChainOneCharacter(c, rules[1..]);
      }
    }
  }

  lemma EscapeAppend(a: string, b: string)
    ensures EscapeString(a + b) == EscapeString(a) + EscapeString(b)
  {
    ReplaceChainAppend(a, b, Replacements);
  }

  /** The entities `escapeXml` puts in contain only `&`, `;` and lower-case
      letters, none of which a later rule replaces. */
  /** No replacement text holds a character that a later replace rewrites. */
  lemma ReplacementsOrdered()
    ensures Ordered(Replacements)
  {
    var r := Replacements;
    forall k | 0 <= k < |r| ensures NoPattern(r[k].1, r[k + 1..]) {
      var text, later := r[k].1, r[k + 1..];
      forall i, j | 0 <= i < |text| && 0 <= j < |later| ensures text[i] != later[j].0 {
        assert later[j] == r[k + 1 + j];
        assert text[i] == '&' || text[i] == ';' || 'a' <= text[i] <= 'z';
      }
    }
  }

  /** The rule the chain applies to a character is its entity. */
  lemma RuleForReplacements(c: char)
    ensures RuleFor(c, Replacements) == EntityFor(c)
  {
    var r := Replacements;
    assert r[1..][1..] == r[2..];
    assert r[2..][1..] == r[3..];
    assert r[3..][1..] == r[4..];
    assert r[4..][1..] == r[5..];
  }

  /** The chain only rewrites each character into its entity: in particular
      the `&` of an entity produced earlier is never escaped again. */
  lemma EscapeOneCharacter(c: char)
    ensures EscapeString([c]) == EntityFor(c)
  {
    ReplacementsOrdered();
    ReplaceChainOneCharacter(c, Replacements);
    RuleForReplacements(c);
  }

  /** The replacement chain of `escapeXml` equals escaping each character on its own. */
  lemma {:induction false} EscapeIsPerCharacter(s: string)
    ensures EscapeString(s) == EscapeEach(s)
    decreases |s|
  {
    if |s| > 0 {
      assert s == [s[0]] + s[1..];
      EscapeAppend([s[0]], s[1..]);
      EscapeOneCharacter(s[0]);
      EscapeIsPerCharacter(s[1..]);
    }
  }

  // ---------------------------------------------------------------------------
  // Properties of the escaped text

  lemma EscapedAppend(a: string, b: string)
    requires Escaped(a) && Escaped(b)
    ensures Escaped(a + b)
  {
    var r := a + b;
    forall i | 0 <= i < |r| && r[i] == '&' ensures StartsEntity(r[i..]) {
      if i < |a| {
        assert StartsEntity(a[i..]);
        assert a[i..] + b == r[i..];
      } else {
        assert r[i..] == b[i - |a|..];
      }
    }
  }

  lemma EntityForIsEscaped(c: char)
    ensures Escaped(EntityFor(c))
  {
    var e := EntityFor(c);
    if Special(c) {
      assert e[0] == '&' && StartsEntity(e[0..]);
      forall i | 0 < i < |e| ensures e[i] != '&' {}
    }
  }

  lemma {:induction false} EscapeEachIsEscaped(s: string)
    ensures Escaped(EscapeEach(s))
    decreases |s|
  {
    if |s| > 0 {
      EntityForIsEscaped(s[0]);
      EscapeEachIsEscaped(s[1..]);
      EscapedAppend(EntityFor(s[0]), EscapeEach(s[1..]));
    }
  }

  lemma UnescapeEntity(c: char, rest: string)
    ensures Unescape(EntityFor(c) + rest) == [c] + Unescape(rest)
  {
    if c == '&' {
      UnescapeAmp(rest);
    } else if c == '<' {
      UnescapeLt(rest);
    } else if c == '>' {
      UnescapeGt(rest);
    } else if c == '"' {
      UnescapeQuot(rest);
    } else if c == '\'' {
      UnescapeApos(rest);
    } else {
      UnescapePlain(c, rest);
    }
  }

  lemma UnescapeAmp(rest: string)
    ensures Unescape("&amp;" + rest) == "&" + Unescape(rest)
  {
    var e := "&amp;" + rest;
    assert StartsWith(e, "&amp;") && e[5..] == rest;
  }

  lemma UnescapePlain(c: char, rest: string)
    requires !Special(c)
    ensures Unescape([c] + rest) == [c] + Unescape(rest)
  {
    var e := [c] + rest;
    assert e[0] == c && e[1..] == rest;
    assert c != '&';
    assert !StartsWith(e, "&amp;") && !StartsWith(e, "&lt;") && !StartsWith(e, "&gt;")
      && !StartsWith(e, "&quot;") && !StartsWith(e, "&apos;") by {
      assert e[..1] == [c];
    }
  }

  lemma UnescapeLt(rest: string)
    ensures Unescape("&lt;" + rest) == "<" + Unescape(rest)
  {
    var e := "&lt;" + rest;
    assert e[1] == 'l' && !StartsWith(e, "&amp;");
    assert StartsWith(e, "&lt;") && e[4..] == rest;
  }

  lemma UnescapeGt(rest: string)
    ensures Unescape("&gt;" + rest) == ">" + Unescape(rest)
  {
    var e := "&gt;" + rest;
    assert e[1] == 'g' && !StartsWith(e, "&amp;") && !StartsWith(e, "&lt;");
    assert StartsWith(e, "&gt;") && e[4..] == rest;
  }

  lemma UnescapeQuot(rest: string)
    ensures Unescape("&quot;" + rest) == "\"" + Unescape(rest)
  {
    var e := "&quot;" + rest;
    assert e[1] == 'q' && !StartsWith(e, "&amp;") && !StartsWith(e, "&lt;") && !StartsWith(e, "&gt;");
    assert StartsWith(e, "&quot;") && e[6..] == rest;
  }

  lemma UnescapeApos(rest: string)
    ensures Unescape("&apos;" + rest) == "'" + Unescape(rest)
  {
    var e := "&apos;" + rest;
    assert e[2] == 'p' && !StartsWith(e, "&amp;");
    assert e[1] == 'a' && !StartsWith(e, "&lt;") && !StartsWith(e, "&gt;") && !StartsWith(e, "&quot;");
    assert StartsWith(e, "&apos;") && e[6..] == rest;
  }

  /** Decoding the entities gives back the input: escaping loses nothing. */
  lemma {:induction false} UnescapeInvertsEscape(s: string)
    ensures Unescape(EscapeEach(s)) == s
    decreases |s|
  {
    if |s| > 0 {
      UnescapeEntity(s[0], EscapeEach(s[1..]));
      UnescapeInvertsEscape(s[1..]);
      assert s == [s[0]] + s[1..];
    }
  }

  /** A string with none of the five special characters is returned unchanged. */
  lemma {:induction false} EscapeKeepsPlainText(s: string)
    requires forall i :: 0 <= i < |s| ==> !Special(s[i])
    ensures EscapeXml(Str(s)) == s
    decreases |s|
  {
    EscapeIsPerCharacter(s);
    PlainEscapeEach(s);
  }

  lemma {:induction false} PlainEscapeEach(s: string)
    requires forall i :: 0 <= i < |s| ==> !Special(s[i])
    ensures EscapeEach(s) == s
    decreases |s|
  {
    if |s| > 0 {
      PlainEscapeEach(s[1..]);
      assert s == [s[0]] + s[1..];
    }
  }

  /** Escaping never shortens its input. */
  lemma {:induction false} EscapeNeverShrinks(s: string)
    ensures |EscapeXml(Str(s))| >= |s|
    decreases |s|
  {
    EscapeIsPerCharacter(s);
    EscapeEachLength(s);
  }

  lemma {:induction false} EscapeEachLength(s: string)
    ensures |EscapeEach(s)| >= |s|
    decreases |s|
  {
    if |s| > 0 {
      EscapeEachLength(s[1..]);
    }
  }
}
