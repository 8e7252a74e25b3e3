/** The pure part of the print utility: HTML escaping of the document title
    and the defaults of the print options. */
module Print {
  import opened Wrappers

  /** `str.replace(/c/g, rep)` for a one-character pattern. */
  function ReplaceAll(s: string, c: char, rep: string): (r: string)
    ensures c !in s ==> r == s
  {
    if s == [] then [] else (if s[0] == c then rep else [s[0]]) + ReplaceAll(s[1..], c, rep)
  }

  /** A non-empty replacement never shortens the string. */
  lemma {:induction false} ReplaceAllLonger(s: string, c: char, rep: string)
    requires |rep| >= 1
    ensures |ReplaceAll(s, c, rep)| >= |s|
  {
    if s != [] {
      ReplaceAllLonger(s[1..], c, rep);
    }
  }

  /** `escapeHtml`: five global replacements, `&` first. */
  function EscapeHtml(s: string): (r: string)
    ensures '&' !in s && '<' !in s && '>' !in s && '"' !in s && '\'' !in s ==> r == s
    ensures |r| >= |s|
  {
    var s1 := ReplaceAll(s, '&', "&amp;");
    var s2 := ReplaceAll(s1, '<', "&lt;");
    var s3 := ReplaceAll(s2, '>', "&gt;");
    var s4 := ReplaceAll(s3, '"', "&quot;");
    ReplaceAllLonger(s, '&', "&amp;");
    ReplaceAllLonger(s1, '<', "&lt;");
    ReplaceAllLonger(s2, '>', "&gt;");
    ReplaceAllLonger(s3, '"', "&quot;");
    ReplaceAllLonger(s4, '\'', "&#039;");
    ReplaceAll(s4, '\'', "&#039;")
  }

  /** The per-character substitution the five passes amount to. */
  function EscapeChar(c: char): string
  {
    match c
    case '&' => "&amp;"
    case '<' => "&lt;"
    case '>' => "&gt;"
    case '"' => "&quot;"
    case '\'' => "&#039;"
    case _ => [c]
  }

  /** One left-to-right pass applying `EscapeChar` to every character. */
  function EscapeEach(s: string): string
  {
    if s == [] then [] else EscapeChar(s[0]) + EscapeEach(s[1..])
  }

  predicate IsSpecial(c: char)
  {
    c == '&' || c == '<' || c == '>' || c == '"' || c == '\''
  }

  lemma {:induction false} ReplaceAllAppend(a: string, b: string, c: char, rep: string)
    ensures ReplaceAll(a + b, c, rep) == ReplaceAll(a, c, rep) + ReplaceAll(b, c, rep)
  {
    if a == [] {
      assert a + b == b;
    } else {
      assert (a + b)[0] == a[0];
      assert (a + b)[1..] == a[1..] + b;
      ReplaceAllAppend(a[1..], b, c, rep);
    }
  }

  lemma EscapeHtmlAppend(a: string, b: string)
    ensures EscapeHtml(a + b) == EscapeHtml(a) + EscapeHtml(b)
  {
    var a1, b1 := ReplaceAll(a, '&', "&amp;"), ReplaceAll(b, '&', "&amp;");
    ReplaceAllAppend(a, b, '&', "&amp;");
    var a2, b2 := ReplaceAll(a1, '<', "&lt;"), ReplaceAll(b1, '<', "&lt;");
    ReplaceAllAppend(a1, b1, '<', "&lt;");
    var a3, b3 := ReplaceAll(a2, '>', "&gt;"), ReplaceAll(b2, '>', "&gt;");
    ReplaceAllAppend(a2, b2, '>', "&gt;");
    var a4, b4 := ReplaceAll(a3, '"', "&quot;"), ReplaceAll(b3, '"', "&quot;");
    ReplaceAllAppend(a3, b3, '"', "&quot;");
    ReplaceAllAppend(a4, b4, '\'', "&#039;");
  }

  lemma ReplaceAllOne(c: char, d: char, rep: string)
    ensures ReplaceAll([c], d, rep) == if c == d then rep else [c]
  {
    assert [c][1..] == [];
  }

  /** On one character the five passes give `EscapeChar`. Each entity
      contains none of the characters the later passes replace. */
  lemma EscapeHtmlOne(c: char)
    ensures EscapeHtml([c]) == EscapeChar(c)
  {
    var s1 := ReplaceAll([c], '&', "&amp;");
    ReplaceAllOne(c, '&', "&amp;");
    if c == '&' {
      assert s1 == "&amp;";
      assert '<' !in s1 && '>' !in s1 && '"' !in s1 && '\'' !in s1;
    } else {
      assert s1 == [c];
      var s2 := ReplaceAll(s1, '<', "&lt;");
      ReplaceAllOne(c, '<', "&lt;");
      if c == '<' {
        assert s2 == "&lt;";
        assert '>' !in s2 && '"' !in s2 && '\'' !in s2;
      } else {
        assert s2 == [c];
        var s3 := ReplaceAll(s2, '>', "&gt;");
        ReplaceAllOne(c, '>', "&gt;");
        if c == '>' {
          assert s3 == "&gt;";
          assert '"' !in s3 && '\'' !in s3;
        } else {
          assert s3 == [c];
          var s4 := ReplaceAll(s3, '"', "&quot;");
          ReplaceAllOne(c, '"', "&quot;");
          ReplaceAllOne(c, '\'', "&#039;");
          if c == '"' {
            assert s4 == "&quot;";
            assert '\'' !in s4;
          } else {
            assert s4 == [c];
          }
        }
      }
    }
  }

  /** The five sequential passes equal a single per-character substitution. */
  lemma {:induction false} EscapeHtmlIsEscapeEach(s: string)
    ensures EscapeHtml(s) == EscapeEach(s)
  {
    if s != [] {
      assert s == [s[0]] + s[1..];
      EscapeHtmlAppend([s[0]], s[1..]);
      EscapeHtmlOne(s[0]);
      EscapeHtmlIsEscapeEach(s[1..]);
    } else {
      assert EscapeHtml([]) == [];
    }
  }

  /** The output contains none of `<`, `>`, `"`, `'`. */
  lemma {:induction false} EscapedHasNoMarkup(s: string)
    ensures forall c :: c in EscapeHtml(s) ==> c != '<' && c != '>' && c != '"' && c != '\''
  {
    EscapeHtmlIsEscapeEach(s);
    EscapeEachHasNoMarkup(s);
  }

  lemma {:induction false} EscapeEachHasNoMarkup(s: string)
    ensures forall c :: c in EscapeEach(s) ==> c != '<' && c != '>' && c != '"' && c != '\''
  {
    if s != [] {
      EscapeEachHasNoMarkup(s[1..]);
    }
  }

  /** `r` begins with one of the five entities. */
  predicate StartsWithEntity(r: string)
  {
    "&amp;" <= r || "&lt;" <= r || "&gt;" <= r || "&quot;" <= r || "&#039;" <= r
  }

  /** Every `&` of the output begins an entity, because `&` is replaced first. */
  lemma AmpersandsBeginEntities(s: string)
    ensures forall i :: 0 <= i < |EscapeHtml(s)| && EscapeHtml(s)[i] == '&' ==>
              StartsWithEntity(EscapeHtml(s)[i..])
  {
    EscapeHtmlIsEscapeEach(s);
    EscapeEachAmpersands(s);
  }

  lemma {:induction false} EscapeEachAmpersands(s: string)
    ensures forall i :: 0 <= i < |EscapeEach(s)| && EscapeEach(s)[i] == '&' ==>
              StartsWithEntity(EscapeEach(s)[i..])
  {
    if s != [] {
      var head, rest := EscapeChar(s[0]), EscapeEach(s[1..]);
      EscapeEachAmpersands(s[1..]);
      var r := EscapeEach(s);
      assert r == head + rest;
      forall i | 0 <= i < |r| && r[i] == '&'
        ensures StartsWithEntity(r[i..])
      {
        if i < |head| {
          assert IsSpecial(s[0]) && i == 0;
          assert head <= r;
        } else {
          assert r[i..] == rest[i - |head|..];
        }
      }
    }
  }

  /** Decodes the five entities, reading left to right. */
  function Unescape(r: string): string
    decreases |r|
  {
    if r == [] then []
    else if "&amp;" <= r then "&" + Unescape(r[5..])
    else if "&lt;" <= r then "<" + Unescape(r[4..])
    else if "&gt;" <= r then ">" + Unescape(r[4..])
    else if "&quot;" <= r then "\"" + Unescape(r[6..])
    else if "&#039;" <= r then "'" + Unescape(r[6..])
    else [r[0]] + Unescape(r[1..])
  }

  lemma UnescapeStep(c: char, rest: string)
    ensures Unescape(EscapeChar(c) + rest) == [c] + Unescape(rest)
  {
    var r := EscapeChar(c) + rest;
    var e := EscapeChar(c);
    assert e <= r && r[|e|..] == rest;
    if !IsSpecial(c) {
      assert r[0] == c && r[0] != '&';
    } else {
      assert r[0] == '&' && r[1] == e[1];
      if |e| >= 3 { assert r[2] == e[2]; }
    }
  }

  /** Decoding the entities recovers the input. */
  lemma {:induction false} UnescapeEscapeHtml(s: string)
    ensures Unescape(EscapeHtml(s)) == s
  {
    EscapeHtmlIsEscapeEach(s);
    UnescapeEscapeEach(s);
  }

  lemma {:induction false} UnescapeEscapeEach(s: string)
    ensures Unescape(EscapeEach(s)) == s
  {
    if s != [] {
      UnescapeStep(s[0], EscapeEach(s[1..]));
      UnescapeEscapeEach(s[1..]);
      assert [s[0]] + s[1..] == s;
    }
  }

  /** Distinct titles are escaped to distinct strings. */
  lemma EscapeHtmlInjective(a: string, b: string)
    requires EscapeHtml(a) == EscapeHtml(b)
    ensures a == b
  {
    UnescapeEscapeHtml(a);
    UnescapeEscapeHtml(b);
  }

  /** `opts: { title?: string; pagePaddingMM?: number }` */
  datatype PrintOptions = PrintOptions(title: Option<string>, pagePaddingMM: Option<real>)

  /** `opts.title ?? document.title ?? "Document"`. `document.title` is a parameter.
      `??` only skips absent values: an empty title is kept. */
  function ResolvedTitle(opts: PrintOptions, documentTitle: Option<string>): (r: string)
    ensures opts.title.Some? ==> r == opts.title.value
    ensures opts.title.None? && documentTitle.Some? ==> r == documentTitle.value
    ensures opts.title.None? && documentTitle.None? ==> r == "Document"
  {
    opts.title.GetOr(documentTitle.GetOr("Document"))
  }

  /** `opts.pagePaddingMM ?? 20`: a padding of 0 is kept. */
  function ResolvedPadding(opts: PrintOptions): (r: real)
    ensures opts.pagePaddingMM.Some? ==> r == opts.pagePaddingMM.value
    ensures opts.pagePaddingMM.None? ==> r == 20.0
  {
    opts.pagePaddingMM.GetOr(20.0)
  }

  /** The text placed in the isolated document's `<title>`. */
  function TitleMarkup(opts: PrintOptions, documentTitle: Option<string>): (r: string)
    ensures Unescape(r) == ResolvedTitle(opts, documentTitle)
    ensures forall c :: c in r ==> c != '<' && c != '>'
  {
    var t := ResolvedTitle(opts, documentTitle);
    UnescapeEscapeHtml(t);
    EscapedHasNoMarkup(t);
    EscapeHtml(t)
  }
}
