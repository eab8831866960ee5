/**
 * The template processing of `HtmlLayout` in src/layouts/index.tsx: a user-written HTML
 * snippet gets the slide's title and subtitle substituted, and its
 * `{{#if screenshot}}A{{else}}B{{/if}}` blocks resolved according to whether the slide has
 * a screenshot. The regular expressions become scans over the string that find the same
 * matches as JavaScript's global, left-to-right, lazy matching.
 */
module HtmlLayout {
  import opened Wrappers
  import opened Strings
  import opened Sequences
  import opened SchemaVariables

  const TitleTag: string := "{{title}}"
  const SubtitleTag: string := "{{subtitle}}"
  const ScreenshotTag: string := "{{screenshot}}"
  const IfOpen: string := "{{#if screenshot}}"
  const Else: string := "{{else}}"
  const EndIf: string := "{{/if}}"

  /**
   * `s.replace(/open[\s\S]*?close/g, '')`: each `open` that has a `close` somewhere after it
   * is deleted together with everything up to the first such `close`; an `open` with no
   * `close` after it stays, and the scan moves on by one character.
   */
  function StripBlocks(s: string, open: string, close: string): string
    requires |open| > 0
    decreases |s|
  {
    if |s| < |open| then s
    else if s[..|open|] == open then
      match IndexOf(s, close, |open|)
      case Some(j) => StripBlocks(s[j + |close|..], open, close)
      case None => [s[0]] + StripBlocks(s[1..], open, close)
    else [s[0]] + StripBlocks(s[1..], open, close)
  }

  /**
   * `s.replace(/\{\{#if screenshot\}\}[\s\S]*?\{\{else\}\}([\s\S]*?)\{\{\/if\}\}/g, '$1')`:
   * a block is the opening tag, then up to the first `{{else}}`, then up to the first
   * `{{/if}}` after that; it is replaced by its else-part. An opening tag without a
   * complete block after it stays.
   */
  function KeepElse(s: string): string
    decreases |s|
  {
    if |s| < |IfOpen| then s
    else if s[..|IfOpen|] == IfOpen then
      match IndexOf(s, Else, |IfOpen|)
      case None => [s[0]] + KeepElse(s[1..])
      case Some(e) =>
        match IndexOf(s, EndIf, e + |Else|)
        case None => [s[0]] + KeepElse(s[1..])
        case Some(c) => s[e + |Else|..c] + KeepElse(s[c + |EndIf|..])
    else [s[0]] + KeepElse(s[1..])
  }

  /** Every `{{title}}` is replaced, then every `{{subtitle}}` in the result. */
  function ReplaceTitles(html: string, title: string, subtitle: string): string
  {
    ReplaceAll(ReplaceAll(html, TitleTag, title), SubtitleTag, subtitle)
  }

  /**
   * The screenshot branch as written: the opening tags go, then every `{{/if}}`, and only
   * then the `{{else}}…{{/if}}` parts, which by now have no `{{/if}}` left to end them.
   */
  function ShowScreenshotAsWritten(p: string, screenshot: string): string
  {
    ReplaceAll(StripBlocks(ReplaceAll(ReplaceAll(p, IfOpen, ""), EndIf, ""), Else, EndIf), ScreenshotTag, screenshot)
  }

  /** The screenshot branch with the else-parts removed before the closing tags. */
  function ShowScreenshot(p: string, screenshot: string): string
  {
    ReplaceAll(ReplaceAll(StripBlocks(ReplaceAll(p, IfOpen, ""), Else, EndIf), EndIf, ""), ScreenshotTag, screenshot)
  }

  /** `processHtml` as written; a screenshot counts when it is present and not ''. */
  function ProcessHtmlAsWritten(html: string, title: string, subtitle: string, screenshot: Option<string>): string
  {
    var p := ReplaceTitles(html, title, subtitle);
    if screenshot.Some? && screenshot.value != "" then ShowScreenshotAsWritten(p, screenshot.value)
    else KeepElse(p)
  }

  /** `processHtml` with the screenshot branch in the order that keeps only the if-part. */
  function ProcessHtml(html: string, title: string, subtitle: string, screenshot: Option<string>): string
  {
    var p := ReplaceTitles(html, title, subtitle);
    if screenshot.Some? && screenshot.value != "" then ShowScreenshot(p, screenshot.value)
    else KeepElse(p)
  }

  /** `htmlCode ? processHtml(htmlCode) : ''`, with `processHtml` as written. */
  function HtmlContent(htmlCode: Option<string>, title: string, subtitle: string, screenshot: Option<string>)
    : (r: string)
    ensures htmlCode.None? || htmlCode.value == "" ==> r == ""
    ensures htmlCode.Some? && htmlCode.value != "" ==> r == ProcessHtmlAsWritten(htmlCode.value, title, subtitle, screenshot)
  {
    if htmlCode.Some? && htmlCode.value != "" then ProcessHtmlAsWritten(htmlCode.value, title, subtitle, screenshot) else ""
  }

  // ---------------------------------------------------------------------------------------
  // How the scans treat text without braces and the tags of the template language

  /** A tag of the template language: `{{`, then a name without `{`. */
  predicate IsTag(pat: string)
  {
    |pat| >= 3 && pat[0] == '{' && pat[1] == '{' && BraceFree(pat[2..])
  }

  /** Brace-free text in front of the rest passes through a global replace of a tag. */
  lemma {:induction false} ReplaceAllBraceFree(a: string, t: string, pat: string, rep: string)
    requires IsTag(pat) && BraceFree(a)
    ensures ReplaceAll(a + t, pat, rep) == a + ReplaceAll(t, pat, rep)
    decreases |a|
  {
    if a != [] {
      var s := a + t;
      if |s| >= |pat| {
        assert s[0] != pat[0];
        assert s[1..] == a[1..] + t;
        ReplaceAllBraceFree(a[1..], t, pat, rep);
      } else {
        ReplaceAllShort(t, pat, rep);
      }
    } else {
      assert a + t == t;
    }
  }

  lemma ReplaceAllShort(s: string, pat: string, rep: string)
    requires |pat| > 0 && |s| < |pat|
    ensures ReplaceAll(s, pat, rep) == s
  {
  }

  /** Brace-free text is left alone by a global replace of a tag. */
  lemma ReplaceAllBraceFreeWhole(a: string, pat: string, rep: string)
    requires IsTag(pat) && BraceFree(a)
    ensures ReplaceAll(a, pat, rep) == a
  {
    ReplaceAllBraceFree(a, "", pat, rep);
    assert a + "" == a;
  }

  /**
   * A tag in front of the rest passes through a global replace of a different tag, the
   * two differing at position `k`.
   */
  lemma ReplaceAllOtherTag(m: string, t: string, pat: string, rep: string, k: nat)
    requires IsTag(pat) && IsTag(m) && k < |m| && k < |pat| && m[k] != pat[k]
    ensures ReplaceAll(m + t, pat, rep) == m + ReplaceAll(t, pat, rep)
  {
    var s := m + t;
    if |s| < |pat| {
      ReplaceAllShort(t, pat, rep);
      ReplaceAllShort(s, pat, rep);
    } else {
      assert s[..|pat|][k] == m[k];
      assert s[1..] == [m[1]] + (m[2..] + t);
      var s1 := s[1..];
      if |s1| < |pat| {
        ReplaceAllShort(t, pat, rep);
        ReplaceAllShort(s1, pat, rep);
      } else {
        assert m[2..][0] == m[2];
        assert s1[..|pat|][1] == m[2];
        assert s1[1..] == m[2..] + t;
        ReplaceAllBraceFree(m[2..], t, pat, rep);
      }
      assert m == [m[0]] + [m[1]] + m[2..];
    }
  }

  /** Plain text around a different tag passes through a global replace unchanged. */
  lemma TagBetween(a: string, m: string, b: string, pat: string, rep: string, k: nat)
    requires BraceFree(a) && BraceFree(b) && IsTag(pat) && IsTag(m) && k < |m| && k < |pat| && m[k] != pat[k]
    ensures ReplaceAll(a + (m + b), pat, rep) == a + (m + b)
  {
    ReplaceAllBraceFreeWhole(b, pat, rep);
    ReplaceAllOtherTag(m, b, pat, rep, k);
    ReplaceAllBraceFree(a, m + b, pat, rep);
  }

  /** A pattern does not occur where one of its characters is missing. */
  lemma NotAt(s: string, pat: string, i: nat, k: nat)
    requires k < |pat| && i + k < |s| && s[i + k] != pat[k]
    ensures !OccursAt(s, pat, i)
  {
    if i + |pat| <= |s| {
      assert s[i..i + |pat|][k] == s[i + k];
    }
  }

  /** Plain text around a tag contains no other tag differing from it at position `k`. */
  lemma NoTagAround(a: string, m: string, b: string, pat: string, k: nat)
    requires BraceFree(a) && BraceFree(b) && IsTag(pat) && IsTag(m) && k < |m| && k < |pat| && m[k] != pat[k]
    ensures !Contains(a + (m + b), pat)
  {
    var s := a + (m + b);
    forall i: nat | i <= |s|
      ensures !OccursAt(s, pat, i)
    {
      if i + |pat| <= |s| {
        if i < |a| {
          assert s[i] == a[i];
          NotAt(s, pat, i, 0);
        } else if i == |a| {
          assert s[i + k] == m[k];
          NotAt(s, pat, i, k);
        } else if i == |a| + 1 {
          assert s[i + 1] == m[2] == m[2..][0];
          NotAt(s, pat, i, 1);
        } else if i < |a| + |m| {
          assert s[i] == m[i - |a|] == m[2..][i - |a| - 2];
          NotAt(s, pat, i, 0);
        } else {
          assert s[i] == b[i - |a| - |m|];
          NotAt(s, pat, i, 0);
        }
      }
    }
  }

  /** The tag itself is replaced. */
  lemma ReplaceAllTag(pat: string, t: string, rep: string)
    requires IsTag(pat)
    ensures ReplaceAll(pat + t, pat, rep) == rep + ReplaceAll(t, pat, rep)
  {
    ReplaceAllPrefix(t, pat, rep);
  }

  /** Text without braces contains no tag. */
  lemma NoTagIn(a: string, pat: string)
    requires IsTag(pat) && BraceFree(a)
    ensures forall j :: 0 <= j < |a| ==> !OccursAt(a, pat, j)
  {
  }

  lemma {:induction false} StripBraceFree(a: string, t: string, open: string, close: string)
    requires IsTag(open) && BraceFree(a)
    ensures StripBlocks(a + t, open, close) == a + StripBlocks(t, open, close)
    decreases |a|
  {
    if a != [] {
      var s := a + t;
      if |s| >= |open| {
        assert s[..|open|] != open by {
          assert s[..|open|][0] == a[0] != open[0];
        }
        calc {
          StripBlocks(s, open, close);
          [s[0]] + StripBlocks(s[1..], open, close);
          { assert s[1..] == a[1..] + t; StripBraceFree(a[1..], t, open, close); }
          [a[0]] + (a[1..] + StripBlocks(t, open, close));
          { ConsJoin(a, StripBlocks(t, open, close)); }
          a + StripBlocks(t, open, close);
        }
      } else {
        assert |t| < |open|;
      }
    } else {
      assert a + t == t;
    }
  }

  /**
   * With no closing tag anywhere, removing `open…close` blocks changes nothing: every
   * opening tag lacks its end.
   */
  lemma {:induction false} StripWithoutClose(s: string, open: string, close: string)
    requires |open| > 0 && |close| > 0 && !Contains(s, close)
    ensures StripBlocks(s, open, close) == s
    decreases |s|
  {
    if |s| >= |open| {
      assert IndexOf(s, close, |open|).None?;
      forall i: nat ensures !OccursAt(s[1..], close, i) {
        if OccursAt(s[1..], close, i) {
          assert s[i + 1..i + 1 + |close|] == s[1..][i..i + |close|];
          assert OccursAt(s, close, i + 1);
        }
      }
      StripWithoutClose(s[1..], open, close);
    }
  }

  /** `IndexOf` finds an occurrence when none comes earlier. */
  lemma IndexOfFirst(s: string, pat: string, from: nat, k: nat)
    requires from <= k && OccursAt(s, pat, k)
    requires forall j :: from <= j < k ==> !OccursAt(s, pat, j)
    ensures IndexOf(s, pat, from) == Some(k)
  {
  }

  lemma {:induction false} KeepElseBraceFree(a: string, t: string)
    requires BraceFree(a)
    ensures KeepElse(a + t) == a + KeepElse(t)
    decreases |a|
  {
    if a != [] {
      var s := a + t;
      if |s| >= |IfOpen| {
        assert s[..|IfOpen|][0] != IfOpen[0];
        assert s[1..] == a[1..] + t;
        KeepElseBraceFree(a[1..], t);
      } else {
        assert |t| < |IfOpen|;
      }
    } else {
      assert a + t == t;
    }
  }

  // ---------------------------------------------------------------------------------------
  // What the processing does to a template

  /** The block `{{#if screenshot}}A{{else}}B{{/if}}`. */
  function Block(a: string, b: string): string
  {
    IfOpen + (a + (Else + (b + EndIf)))
  }

  lemma TagFacts()
    ensures IsTag(TitleTag) && IsTag(SubtitleTag) && IsTag(ScreenshotTag)
    ensures IsTag(IfOpen) && IsTag(Else) && IsTag(EndIf)
    ensures IfOpen[2] == '#' && Else[2] == 'e' && EndIf[2] == '/'
    ensures TitleTag[2] == 't' && SubtitleTag[2] == 's' && ScreenshotTag[2] == 's'
  {
  }

  /** A tag other than the block's three leaves a block with brace-free branches alone. */
  lemma BlockUntouched(a: string, b: string, pat: string, rep: string)
    requires BraceFree(a) && BraceFree(b) && IsTag(pat) && pat[2] !in {'#', 'e', '/'}
    ensures ReplaceAll(Block(a, b), pat, rep) == Block(a, b)
  {
    TagFacts();
    ReplaceAllOtherTag(EndIf, "", pat, rep, 2);
    ReplaceAllShort("", pat, rep);
    assert EndIf + "" == EndIf;
    ReplaceAllBraceFree(b, EndIf, pat, rep);
    ReplaceAllOtherTag(Else, b + EndIf, pat, rep, 2);
    ReplaceAllBraceFree(a, Else + (b + EndIf), pat, rep);
    ReplaceAllOtherTag(IfOpen, a + (Else + (b + EndIf)), pat, rep, 2);
  }

  /** Deleting the opening tags leaves `A{{else}}B{{/if}}`. */
  lemma BlockWithoutOpen(a: string, b: string)
    requires BraceFree(a) && BraceFree(b)
    ensures ReplaceAll(Block(a, b), IfOpen, "") == a + (Else + (b + EndIf))
  {
    TagFacts();
    ReplaceAllOtherTag(EndIf, "", IfOpen, "", 2);
    ReplaceAllShort("", IfOpen, "");
    assert EndIf + "" == EndIf;
    ReplaceAllBraceFree(b, EndIf, IfOpen, "");
    ReplaceAllOtherTag(Else, b + EndIf, IfOpen, "", 2);
    ReplaceAllBraceFree(a, Else + (b + EndIf), IfOpen, "");
    ReplaceAllTag(IfOpen, a + (Else + (b + EndIf)), "");
  }

  /** `A{{else}}B` has no `{{/if}}` in it. */
  lemma NoEndIf(a: string, b: string)
    requires BraceFree(a) && BraceFree(b)
    ensures !Contains(a + (Else + b), EndIf)
  {
    TagFacts();
    NoTagAround(a, Else, b, EndIf, 2);
  }

  /**
   * As written, a template `{{#if screenshot}}A{{else}}B{{/if}}` on a slide with a
   * screenshot comes out as `A{{else}}B`: the else-part and its marker stay in the page.
   */
  lemma ScreenshotKeepsElse(a: string, b: string, title: string, subtitle: string, screenshot: string)
    requires BraceFree(a) && BraceFree(b) && screenshot != ""
    ensures ProcessHtmlAsWritten(Block(a, b), title, subtitle, Some(screenshot)) == a + (Else + b)
  {
    TagFacts();
    BlockUntouched(a, b, TitleTag, title);
    BlockUntouched(a, b, SubtitleTag, subtitle);
    BlockWithoutOpen(a, b);
    // Deleting `{{/if}}` from `A{{else}}B{{/if}}`.
    ReplaceAllTag(EndIf, "", "");
    ReplaceAllShort("", EndIf, "");
    assert EndIf == EndIf + "";
    ReplaceAllBraceFree(b, EndIf, EndIf, "");
    ReplaceAllOtherTag(Else, b + EndIf, EndIf, "", 2);
    ReplaceAllBraceFree(a, Else + (b + EndIf), EndIf, "");
    assert b + "" == b;
    // No `{{/if}}` is left, so no else-part can be removed.
    NoEndIf(a, b);
    StripWithoutClose(a + (Else + b), Else, EndIf);
    // No `{{screenshot}}` either.
    ReplaceAllShort("", ScreenshotTag, screenshot);
    assert b == b + "";
    ReplaceAllBraceFree(b, "", ScreenshotTag, screenshot);
    ReplaceAllOtherTag(Else, b, ScreenshotTag, screenshot, 2);
    ReplaceAllBraceFree(a, Else + b, ScreenshotTag, screenshot);
  }

  /** Stripping else-parts from `A{{else}}B{{/if}}` leaves `A`. */
  lemma StripElseBlock(a: string, b: string)
    requires BraceFree(a) && BraceFree(b)
    ensures StripBlocks(a + (Else + (b + EndIf)), Else, EndIf) == a
  {
    TagFacts();
    var s := Else + (b + EndIf);
    assert s[..|Else|] == Else;
    TagAtEnd(Else, b, EndIf);
    assert s[|Else| + |b| + |EndIf|..] == "";
    StripBraceFree(a, s, Else, EndIf);
    assert a + "" == a;
  }

  /** With the else-parts removed first, a slide with a screenshot shows only the if-part. */
  lemma ScreenshotShowsIfPart(a: string, b: string, title: string, subtitle: string, screenshot: string)
    requires BraceFree(a) && BraceFree(b) && screenshot != ""
    ensures ProcessHtml(Block(a, b), title, subtitle, Some(screenshot)) == a
  {
    TagFacts();
    BlockUntouched(a, b, TitleTag, title);
    BlockUntouched(a, b, SubtitleTag, subtitle);
    BlockWithoutOpen(a, b);
    StripElseBlock(a, b);
    ReplaceAllBraceFreeWhole(a, EndIf, "");
    ReplaceAllBraceFreeWhole(a, ScreenshotTag, screenshot);
  }

  /** After `pre`, the first occurrence of a tag that follows plain text is that tag. */
  lemma TagAfterPlain(pre: string, b: string, pat: string, rest: string)
    requires BraceFree(b) && IsTag(pat)
    ensures IndexOf(pre + (b + (pat + rest)), pat, |pre|) == Some(|pre| + |b|)
  {
    var s := pre + (b + (pat + rest));
    var e := |pre|;
    forall j | e <= j < e + |b|
      ensures !OccursAt(s, pat, j)
    {
      assert s[j] == b[j - e];
      NotAt(s, pat, j, 0);
    }
    var c := e + |b|;
    assert s[c..c + |pat|] == pat;
    IndexOfFirst(s, pat, e, c);
  }

  /** In a block, the first `{{else}}` after the opening tag is the one after the if-part. */
  lemma BlockElseAt(a: string, b: string)
    requires BraceFree(a) && BraceFree(b)
    ensures IndexOf(Block(a, b), Else, |IfOpen|) == Some(|IfOpen| + |a|)
  {
    TagFacts();
    TagAfterPlain(IfOpen, a, Else, b + EndIf);
  }

  /** In a block, the first `{{/if}}` after the `{{else}}` is the one at its end. */
  lemma BlockEndIfAt(a: string, b: string)
    requires BraceFree(a) && BraceFree(b)
    ensures IndexOf(Block(a, b), EndIf, |IfOpen| + |a| + |Else|) == Some(|IfOpen| + |a| + |Else| + |b|)
  {
    TagFacts();
    TagClosing(IfOpen, a, Else, b, EndIf);
  }

  /** A tag right after plain text that ends the string is the first one after `pre`. */
  lemma TagAtEnd(pre: string, b: string, pat: string)
    requires BraceFree(b) && IsTag(pat)
    ensures IndexOf(pre + (b + pat), pat, |pre|) == Some(|pre| + |b|)
  {
    assert pat + "" == pat;
    TagAfterPlain(pre, b, pat, "");
  }

  /** The closing tag at the very end is the first one after the plain text before it. */
  lemma {:induction false} TagClosing(p: string, a: string, m: string, b: string, pat: string)
    requires BraceFree(b) && IsTag(pat)
    ensures IndexOf(p + (a + (m + (b + pat))), pat, |p| + |a| + |m|) == Some(|p| + |a| + |m| + |b|)
  {
    var pre := p + (a + m);
    assert p + (a + (m + (b + pat))) == pre + (b + (pat + ""));
    TagAfterPlain(pre, b, pat, "");
  }

  /** The no-screenshot replacement turns a whole block into its else-part. */
  lemma KeepElseBlock(a: string, b: string)
    requires BraceFree(a) && BraceFree(b)
    ensures KeepElse(Block(a, b)) == b
  {
    var s := Block(a, b);
    var e := |IfOpen| + |a|;
    var c := e + |Else| + |b|;
    BlockElseAt(a, b);
    BlockEndIfAt(a, b);
    BlockParts(a, b);
    KeepElseAt(s, e, c);
  }

  /** Where a block's parts sit. */
  lemma BlockParts(a: string, b: string)
    ensures var s := Block(a, b);
      var c := |IfOpen| + |a| + |Else| + |b|;
      |s| == c + |EndIf| && s[..|IfOpen|] == IfOpen && s[|IfOpen| + |a| + |Else|..c] == b
  {
    var s := Block(a, b);
    var c := |IfOpen| + |a| + |Else| + |b|;
    assert s == IfOpen + a + Else + b + EndIf;
    assert (IfOpen + a + Else + b + EndIf)[..|IfOpen|] == IfOpen;
    assert (IfOpen + a + Else + b + EndIf)[|IfOpen| + |a| + |Else|..c] == b;
  }

  /** A whole block at the end of the text gives its else-part. */
  lemma KeepElseAt(s: string, e: nat, c: nat)
    requires |IfOpen| <= |s| && s[..|IfOpen|] == IfOpen
    requires IndexOf(s, Else, |IfOpen|) == Some(e) && IndexOf(s, EndIf, e + |Else|) == Some(c)
    requires c + |EndIf| == |s|
    ensures e + |Else| <= c && KeepElse(s) == s[e + |Else|..c]
  {
    assert s[c + |EndIf|..] == [];
    assert KeepElse(s[c + |EndIf|..]) == [];
  }

  /** Without a screenshot, the block gives its else-part, as written and corrected alike. */
  lemma NoScreenshotShowsElsePart(a: string, b: string, title: string, subtitle: string, screenshot: Option<string>)
    requires BraceFree(a) && BraceFree(b) && (screenshot.None? || screenshot.value == "")
    ensures ProcessHtml(Block(a, b), title, subtitle, screenshot) == b
    ensures ProcessHtmlAsWritten(Block(a, b), title, subtitle, screenshot) == b
  {
    TagFacts();
    BlockUntouched(a, b, TitleTag, title);
    BlockUntouched(a, b, SubtitleTag, subtitle);
    KeepElseBlock(a, b);
  }

  /**
   * Titles and subtitles are substituted wherever their tags appear in plain text, as written
   * and corrected alike.
   */
  lemma TitlesSubstituted(a: string, b: string, c: string, title: string, subtitle: string)
    requires BraceFree(a) && BraceFree(b) && BraceFree(c) && BraceFree(title) && BraceFree(subtitle)
    ensures ProcessHtml(a + (TitleTag + (b + (SubtitleTag + c))), title, subtitle, None) ==
            a + (title + (b + (subtitle + c)))
    ensures ProcessHtmlAsWritten(a + (TitleTag + (b + (SubtitleTag + c))), title, subtitle, None) ==
            a + (title + (b + (subtitle + c)))
  {
    TagFacts();
    var rest := b + (SubtitleTag + c);
    ReplaceAllBraceFreeWhole(c, TitleTag, title);
    ReplaceAllOtherTag(SubtitleTag, c, TitleTag, title, 2);
    ReplaceAllBraceFree(b, SubtitleTag + c, TitleTag, title);
    ReplaceAllTag(TitleTag, rest, title);
    ReplaceAllBraceFree(a, TitleTag + rest, TitleTag, title);
    var after := a + (title + (b + (SubtitleTag + c)));
    ReplaceAllBraceFreeWhole(c, SubtitleTag, subtitle);
    ReplaceAllTag(SubtitleTag, c, subtitle);
    ReplaceAllBraceFree(b, SubtitleTag + c, SubtitleTag, subtitle);
    ReplaceAllBraceFree(title, b + (SubtitleTag + c), SubtitleTag, subtitle);
    ReplaceAllBraceFree(a, title + (b + (SubtitleTag + c)), SubtitleTag, subtitle);
    var result := a + (title + (b + (subtitle + c)));
    assert BraceFree(result);
    KeepElseBraceFree(result, "");
    assert result + "" == result;
  }

  /**
   * The subtitle is substituted after the title, so a title that itself reads
   * `{{subtitle}}` ends up as the subtitle.
   */
  lemma TitleBeforeSubtitle(subtitle: string)
    requires BraceFree(subtitle)
    ensures ProcessHtml(TitleTag, SubtitleTag, subtitle, None) == subtitle
  {
    TagFacts();
    ReplaceAllShort("", TitleTag, SubtitleTag);
    ReplaceAllTag(TitleTag, "", SubtitleTag);
    assert TitleTag + "" == TitleTag && SubtitleTag + "" == SubtitleTag;
    ReplaceAllShort("", SubtitleTag, subtitle);
    ReplaceAllTag(SubtitleTag, "", subtitle);
    assert subtitle + "" == subtitle;
    KeepElseBraceFree(subtitle, "");
  }

  /** Titles, opening and closing tags of a block all leave `A{{screenshot}}B` alone. */
  lemma ScreenshotTagUntouched(a: string, b: string, title: string, subtitle: string)
    requires BraceFree(a) && BraceFree(b)
    ensures ReplaceTitles(a + (ScreenshotTag + b), title, subtitle) == a + (ScreenshotTag + b)
    ensures ReplaceAll(a + (ScreenshotTag + b), IfOpen, "") == a + (ScreenshotTag + b)
    ensures ReplaceAll(a + (ScreenshotTag + b), EndIf, "") == a + (ScreenshotTag + b)
    ensures !Contains(a + (ScreenshotTag + b), EndIf)
  {
    TagFacts();
    TagBetween(a, ScreenshotTag, b, TitleTag, title, 2);
    assert ScreenshotTag[3] == 'c' && SubtitleTag[3] == 'u';
    TagBetween(a, ScreenshotTag, b, SubtitleTag, subtitle, 3);
    TagBetween(a, ScreenshotTag, b, IfOpen, "", 2);
    TagBetween(a, ScreenshotTag, b, EndIf, "", 2);
    NoTagAround(a, ScreenshotTag, b, EndIf, 2);
  }

  /**
   * With a screenshot, every `{{screenshot}}` in plain text becomes its URL, as written and
   * corrected alike.
   */
  lemma ScreenshotSubstituted(a: string, b: string, title: string, subtitle: string, screenshot: string)
    requires BraceFree(a) && BraceFree(b) && screenshot != ""
    ensures ProcessHtml(a + (ScreenshotTag + b), title, subtitle, Some(screenshot)) == a + (screenshot + b)
    ensures ProcessHtmlAsWritten(a + (ScreenshotTag + b), title, subtitle, Some(screenshot)) == a + (screenshot + b)
  {
    TagFacts();
    var s := a + (ScreenshotTag + b);
    ScreenshotTagUntouched(a, b, title, subtitle);
    StripWithoutClose(s, Else, EndIf);
    ReplaceAllBraceFreeWhole(b, ScreenshotTag, screenshot);
    ReplaceAllTag(ScreenshotTag, b, screenshot);
    ReplaceAllBraceFree(a, ScreenshotTag + b, ScreenshotTag, screenshot);
  }
}
