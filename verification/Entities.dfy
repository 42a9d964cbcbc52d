/** Decoding of Slack's three entities (`extract_urls`, src/harvest.rs:31-37). */
module Entities {

  predicate StartsWith(s: string, p: string) { |p| <= |s| && s[..|p|] == p }

  /** `str::replace`: leftmost, non-overlapping. */
  function Replace(s: string, p: string, r: string): string
    requires p != ""
  {
    if s == "" then ""
    else if StartsWith(s, p) then r + Replace(s[|p|..], p, r)
    else [s[0]] + Replace(s[1..], p, r)
  }

  function DecodeLt(s: string): string { Replace(s, "&lt;", "<") }
  function DecodeGt(s: string): string { Replace(s, "&gt;", ">") }
  function DecodeAmp(s: string): string { Replace(s, "&amp;", "&") }

  /** The program's chain of three global replacements. */
  function Decode(s: string): string { DecodeAmp(DecodeGt(DecodeLt(s))) }

  /** The meaning: one left-to-right pass, each entity decoded once. */
  function DecodeOnce(s: string): string {
    if s == "" then ""
    else if StartsWith(s, "&lt;") then "<" + DecodeOnce(s[4..])
    else if StartsWith(s, "&gt;") then ">" + DecodeOnce(s[4..])
    else if StartsWith(s, "&amp;") then "&" + DecodeOnce(s[5..])
    else [s[0]] + DecodeOnce(s[1..])
  }

  function Escape(s: string): string {
    if s == "" then ""
    else (match s[0] case '&' => "&amp;" case '<' => "&lt;" case '>' => "&gt;" case c => [c]) + Escape(s[1..])
  }

  /** A replacement only copies text that has neither `&` nor the replacing character:
      such a word at the front of the result was at the front of the input. */
  lemma {:induction false} FrontWasThere(s: string, p: string, r: char, word: string)
    requires p != "" && p[0] == '&' && StartsWith(Replace(s, p, [r]), word)
    requires forall i :: 0 <= i < |word| ==> word[i] != '&' && word[i] != r
    ensures StartsWith(s, word)
  {
    if word != "" {
      var t := Replace(s, p, [r]);
      assert t[0] == word[0] && s != "";
      assert !StartsWith(s, p);
      assert t[1..] == Replace(s[1..], p, [r]);
      assert t[1..][..|word| - 1] == t[..|word|][1..];
      FrontWasThere(s[1..], p, r, word[1..]);
      assert s[..|word|] == [s[0]] + s[1..][..|word| - 1];
    }
  }

  lemma OtherEntity(s: string, p: string)
    requires |p| > 1 && |s| > 1 && s[1] != p[1]
    ensures !StartsWith(s, p)
  {
  }

  lemma InFront(c: char, s: string, p: string)
    ensures StartsWith([c] + s, [c] + p) <==> StartsWith(s, p)
  {
    if |s| >= |p| {
      assert ([c] + s)[..|p| + 1] == [c] + s[..|p|];
      assert ([c] + s[..|p|])[1..] == s[..|p|] && ([c] + p)[1..] == p;
    }
  }

  /** Text without `&` in front is copied by any of the replacements. */
  lemma {:induction false} CopiesPlain(plain: string, s: string, p: string, r: string)
    requires p != "" && p[0] == '&' && forall i :: 0 <= i < |plain| ==> plain[i] != '&'
    ensures Replace(plain + s, p, r) == plain + Replace(s, p, r)
  {
    if plain == "" {
      assert plain + s == s;
    } else {
      assert (plain + s)[1..] == plain[1..] + s;
      CopiesPlain(plain[1..], s, p, r);
    }
  }

  /** An ampersand that starts another entity is copied with that entity. */
  lemma CopiesEntity(name: string, s: string, p: string, r: string)
    requires p != "" && p[0] == '&' && forall i :: 0 <= i < |name| ==> name[i] != '&'
    requires !StartsWith("&" + name + s, p)
    ensures Replace("&" + name + s, p, r) == "&" + name + Replace(s, p, r)
  {
    assert ("&" + name + s)[1..] == name + s;
    CopiesPlain(name, s, p, r);
  }

  lemma AfterLt(s: string)
    ensures Decode("&lt;" + s) == "<" + Decode(s)
  {
  }

  lemma AfterGt(s: string)
    ensures Decode("&gt;" + s) == ">" + Decode(s)
  {
    var t := DecodeLt(s);
    assert "&" + "gt;" + s == "&gt;" + s && "&" + "gt;" + t == "&gt;" + t;
    CopiesEntity("gt;", s, "&lt;", "<");
    assert ("&gt;" + t)[4..] == t;
    CopiesPlain(">", DecodeGt(t), "&amp;", "&");
  }

  lemma AfterAmp(s: string)
    ensures Decode("&amp;" + s) == "&" + Decode(s)
  {
    var t := DecodeLt(s);
    var u := DecodeGt(t);
    assert "&" + "amp;" + s == "&amp;" + s && "&" + "amp;" + t == "&amp;" + t;
    OtherEntity("&amp;" + s, "&lt;");
    OtherEntity("&amp;" + t, "&gt;");
    CopiesEntity("amp;", s, "&lt;", "<");
    CopiesEntity("amp;", t, "&gt;", ">");
    assert ("&amp;" + u)[5..] == u;
  }

  lemma AfterOther(c: char, s: string)
    requires !StartsWith([c] + s, "&lt;") && !StartsWith([c] + s, "&gt;") && !StartsWith([c] + s, "&amp;")
    ensures Decode([c] + s) == [c] + Decode(s)
  {
    var t := DecodeLt(s);
    var u := DecodeGt(t);
    assert ([c] + s)[1..] == s && ([c] + t)[1..] == t && ([c] + u)[1..] == u;
    if c == '&' {
      assert "&gt;" == [c] + "gt;" && "&amp;" == [c] + "amp;";
      InFront(c, s, "gt;"); InFront(c, t, "gt;");
      InFront(c, s, "amp;"); InFront(c, u, "amp;");
      if StartsWith(t, "gt;") {
        FrontWasThere(s, "&lt;", '<', "gt;");
      }
      if StartsWith(u, "amp;") {
        FrontWasThere(t, "&gt;", '>', "amp;");
        FrontWasThere(s, "&lt;", '<', "amp;");
      }
    }
  }

  /** For every text, the chain is the single pass. */
  lemma {:induction false} ChainIsOnePass(s: string)
    ensures Decode(s) == DecodeOnce(s)
  {
    if s != "" {
      if StartsWith(s, "&lt;") {
        assert s == "&lt;" + s[4..];
        AfterLt(s[4..]);
        ChainIsOnePass(s[4..]);
      } else if StartsWith(s, "&gt;") {
        assert s == "&gt;" + s[4..];
        AfterGt(s[4..]);
        ChainIsOnePass(s[4..]);
      } else if StartsWith(s, "&amp;") {
        assert s == "&amp;" + s[5..];
        AfterAmp(s[5..]);
        ChainIsOnePass(s[5..]);
      } else {
        assert s == [s[0]] + s[1..];
        AfterOther(s[0], s[1..]);
        ChainIsOnePass(s[1..]);
      }
    }
  }

  lemma {:induction false} OnePassNeverLengthens(s: string)
    ensures |DecodeOnce(s)| <= |s|
  {
    if s != "" {
      if StartsWith(s, "&lt;") || StartsWith(s, "&gt;") {
        OnePassNeverLengthens(s[4..]);
      } else if StartsWith(s, "&amp;") {
        OnePassNeverLengthens(s[5..]);
      } else {
        OnePassNeverLengthens(s[1..]);
      }
    }
  }

  lemma OnceOnEntity(s: string)
    ensures DecodeOnce("&amp;" + s) == "&" + DecodeOnce(s)
    ensures DecodeOnce("&lt;" + s) == "<" + DecodeOnce(s)
    ensures DecodeOnce("&gt;" + s) == ">" + DecodeOnce(s)
  {
    OtherEntity("&amp;" + s, "&lt;");
    OtherEntity("&amp;" + s, "&gt;");
    OtherEntity("&gt;" + s, "&lt;");
    assert ("&amp;" + s)[5..] == s && ("&lt;" + s)[4..] == s && ("&gt;" + s)[4..] == s;
  }

  lemma OnceOnPlain(c: char, s: string)
    requires c != '&'
    ensures DecodeOnce([c] + s) == [c] + DecodeOnce(s)
  {
  }

  lemma {:induction false} OnePassUndoesEscaping(s: string)
    ensures DecodeOnce(Escape(s)) == s
  {
    if s != "" {
      OnePassUndoesEscaping(s[1..]);
      OnceOnEntity(Escape(s[1..]));
      assert s == [s[0]] + s[1..];
      if s[0] != '&' && s[0] != '<' && s[0] != '>' {
        OnceOnPlain(s[0], Escape(s[1..]));
      }
    }
  }

  /** Decoding never lengthens a text and undoes the escaping of any text. */
  lemma DecodingIsSafe(s: string)
    ensures |Decode(s)| <= |s|
    ensures Decode(Escape(s)) == s
  {
    ChainIsOnePass(s);
    OnePassNeverLengthens(s);
    ChainIsOnePass(Escape(s));
    OnePassUndoesEscaping(s);
  }
}
