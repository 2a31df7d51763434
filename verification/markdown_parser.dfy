/**
 * The string helpers around the markdown pipeline: the incomplete-markup detector used while
 * content streams in, HTML escaping, the heading-id slug and the custom renderer templates,
 * with proofs that every tag and attribute the renderers emit is on the sanitizer's allow-list
 * (module SanitizerAllowList). The plain-text extractor is module PlainText.
 *
 * The markdown grammar, the sanitizer and the syntax highlighter are libraries and are not
 * modelled; the highlighter enters as a function parameter.
 */
module MarkdownParser {
  import opened Wrappers
  import opened Decimal
  import opened SanitizerAllowList

  /** A string of n copies of c. */
  function Repeat(c: char, n: nat): (r: string)
    ensures |r| == n
    ensures forall i :: 0 <= i < n ==> r[i] == c
  {
    seq(n, _ => c)
  }

  // ----- hasIncompleteMarkdown -----

  /** The number of times c occurs in s: the matches of a one-character global regex. */
  function CharCount(s: string, c: char): nat {
    if s == [] then 0 else (if s[0] == c then 1 else 0) + CharCount(s[1..], c)
  }

  /** The matches of /```/g: three backticks, taken left to right without overlap. */
  function FenceCount(s: string): nat {
    if |s| < 3 then 0
    else if s[..3] == "```" then 1 + FenceCount(s[3..])
    else FenceCount(s[1..])
  }

  /** The matches of /\*\*\/g: two stars, taken left to right without overlap. */
  function BoldCount(s: string): nat {
    if |s| < 2 then 0
    else if s[..2] == "**" then 1 + BoldCount(s[2..])
    else BoldCount(s[1..])
  }

  /** A match of /(?<!\*)\*(?!\*)/ at position i: a star with no star on either side. */
  predicate LoneStarAt(s: string, i: nat)
    requires i < |s|
  {
    s[i] == '*' && (i == 0 || s[i - 1] != '*') && (i + 1 == |s| || s[i + 1] != '*')
  }

  /** The lone stars among the first n positions of s. */
  function LoneStarsBelow(s: string, n: nat): nat
    requires n <= |s|
  {
    if n == 0 then 0 else LoneStarsBelow(s, n - 1) + (if LoneStarAt(s, n - 1) then 1 else 0)
  }

  /** The matches of /(?<!\*)\*(?!\*)/g. */
  function ItalicCount(s: string): nat {
    LoneStarsBelow(s, |s|)
  }

  /**
   * `hasIncompleteMarkdown`: an unclosed code fence, inline code span, bold or italic marker
   * shows as an odd count, checked in that order.
   */
  function HasIncompleteMarkdown(content: string): (r: bool)
    ensures !r <==> FenceCount(content) % 2 == 0 && CharCount(content, '`') % 2 == 0 &&
                    BoldCount(content) % 2 == 0 && ItalicCount(content) % 2 == 0
  {
    if FenceCount(content) % 2 != 0 then true
    else if CharCount(content, '`') % 2 != 0 then true
    else if BoldCount(content) % 2 != 0 then true
    else if ItalicCount(content) % 2 != 0 then true
    else false
  }

  /** The one-character count is the multiplicity of the character in the string. */
  lemma {:induction false} CharCountIsMultiplicity(s: string, c: char)
    ensures CharCount(s, c) == multiset(s)[c]
  {
    if s != [] {
      CharCountIsMultiplicity(s[1..], c);
      assert s == [s[0]] + s[1..];
    }
  }

  lemma CharCountAppend(a: string, b: string, c: char)
    ensures CharCount(a + b, c) == CharCount(a, c) + CharCount(b, c)
  {
    CharCountIsMultiplicity(a + b, c);
    CharCountIsMultiplicity(a, c);
    CharCountIsMultiplicity(b, c);
  }

  /** Each fence match uses three backticks, so there are at most a third as many fences. */
  lemma {:induction false} FenceCountBound(s: string)
    ensures 3 * FenceCount(s) <= CharCount(s, '`')
  {
    CharCountIsMultiplicity(s, '`');
    if |s| >= 3 {
      if s[..3] == "```" {
        FenceCountBound(s[3..]);
        CharCountIsMultiplicity(s[3..], '`');
        assert s == s[..3] + s[3..];
      } else {
        FenceCountBound(s[1..]);
        CharCountIsMultiplicity(s[1..], '`');
        assert s == [s[0]] + s[1..];
      }
    }
  }

  /** Each bold match uses two stars. */
  lemma {:induction false} BoldCountBound(s: string)
    ensures 2 * BoldCount(s) <= CharCount(s, '*')
  {
    CharCountIsMultiplicity(s, '*');
    if |s| >= 2 {
      if s[..2] == "**" {
        BoldCountBound(s[2..]);
        CharCountIsMultiplicity(s[2..], '*');
        assert s == s[..2] + s[2..];
      } else {
        BoldCountBound(s[1..]);
        CharCountIsMultiplicity(s[1..], '*');
        assert s == [s[0]] + s[1..];
      }
    }
  }

  /** Each italic match is a star. */
  lemma {:induction false} LoneStarsBound(s: string, n: nat)
    requires n <= |s|
    ensures LoneStarsBelow(s, n) <= CharCount(s[..n], '*')
  {
    CharCountIsMultiplicity(s[..n], '*');
    if n > 0 {
      LoneStarsBound(s, n - 1);
      CharCountIsMultiplicity(s[..n - 1], '*');
      assert s[..n] == s[..n - 1] + [s[n - 1]];
    }
  }

  /** A fence never spans a boundary that follows a character other than a backtick. */
  lemma {:induction false} FenceCountAppend(a: string, b: string)
    requires a == [] || a[|a| - 1] != '`'
    ensures FenceCount(a + b) == FenceCount(a) + FenceCount(b)
    decreases |a|
  {
    if a == [] {
      assert a + b == b;
    } else if |a + b| >= 3 && (a + b)[..3] == "```" {
      var last := |a| - 1;
      assert (a + b)[last] == a[last] != '`';
      assert |a| > 3;
      assert a[..3] == "```";
      assert (a + b)[3..] == a[3..] + b;
      FenceCountAppend(a[3..], b);
    } else if |a + b| >= 3 {
      assert (a + b)[1..] == a[1..] + b;
      FenceCountAppend(a[1..], b);
      if |a| >= 3 {
        assert a[..3] == (a + b)[..3];
      }
    }
  }

  /** A run of n backticks holds n / 3 fences (rounded down). */
  lemma {:induction false} FenceCountRun(n: nat)
    ensures FenceCount(Repeat('`', n)) == n / 3
  {
    if n >= 3 {
      assert Repeat('`', n)[..3] == "```";
      assert Repeat('`', n)[3..] == Repeat('`', n - 3);
      FenceCountRun(n - 3);
    }
  }

  /** A run of n stars holds n / 2 bold markers. */
  lemma {:induction false} BoldCountRun(n: nat)
    ensures BoldCount(Repeat('*', n)) == n / 2
  {
    if n >= 2 {
      assert Repeat('*', n)[..2] == "**";
      assert Repeat('*', n)[2..] == Repeat('*', n - 2);
      BoldCountRun(n - 2);
    }
  }

  lemma {:induction false} NoLoneStarsBelow(s: string, n: nat)
    requires n <= |s|
    requires forall i :: 0 <= i < n ==> !LoneStarAt(s, i)
    ensures LoneStarsBelow(s, n) == 0
  {
    if n > 0 {
      NoLoneStarsBelow(s, n - 1);
    }
  }

  /** In a run of two or more stars every star has a neighbouring star: none is italic. */
  lemma StarRunHasNoItalic(n: nat)
    requires n >= 2
    ensures ItalicCount(Repeat('*', n)) == 0
  {
    var s := Repeat('*', n);
    forall i | 0 <= i < n
      ensures !LoneStarAt(s, i)
    {
      if i + 1 < n {
        assert s[i + 1] == '*';
      } else {
        assert s[i - 1] == '*';
      }
    }
    NoLoneStarsBelow(s, n);
  }

  /** `***` is one bold marker and no italic one, so it counts as unclosed bold. */
  lemma TripleStar()
    ensures BoldCount("***") == 1 && ItalicCount("***") == 0
    ensures HasIncompleteMarkdown("***")
  {
    assert Repeat('*', 3) == "***";
    BoldCountRun(3);
    StarRunHasNoItalic(3);
  }

  /** Text without a star has neither bold nor italic markers. */
  lemma StarFreeHasNoEmphasis(s: string)
    requires '*' !in s
    ensures BoldCount(s) == 0 && ItalicCount(s) == 0
  {
    CharCountIsMultiplicity(s, '*');
    BoldCountBound(s);
    LoneStarsBound(s, |s|);
    assert s[..|s|] == s;
  }

  /** A fenced block whose body has no backtick holds two fences and six backticks. */
  lemma FencedBlockCounts(body: string)
    requires '`' !in body
    ensures FenceCount("```" + body + "```") == 2 && CharCount("```" + body + "```", '`') == 6
  {
    var s := "```" + body + "```";
    CharCountIsMultiplicity(body, '`');
    FenceCountBound(body);
    FenceCountAppend(body, "```");
    assert s[..3] == "```" && s[3..] == body + "```";
    CharCountAppend("```" + body, "```", '`');
    CharCountAppend("```", body, '`');
  }

  /** A fenced block whose body has no backtick or star is complete. */
  lemma ClosedFenceComplete(body: string)
    requires '`' !in body && '*' !in body
    ensures !HasIncompleteMarkdown("```" + body + "```")
  {
    FencedBlockCounts(body);
    StarFreeHasNoEmphasis("```" + body + "```");
  }

  /** The same block without its closing fence is incomplete. */
  lemma OpenFenceIncomplete(body: string)
    requires '`' !in body
    ensures HasIncompleteMarkdown("```" + body)
  {
    var s := "```" + body;
    CharCountIsMultiplicity(body, '`');
    FenceCountBound(body);
    assert s[..3] == "```" && s[3..] == body;
  }

  /** One backtick with no fence anywhere is an unclosed inline code span. */
  lemma StrayBacktick(a: string, b: string)
    requires '`' !in a && '`' !in b
    ensures HasIncompleteMarkdown(a + "`" + b)
  {
    CharCountAppend(a + "`", b, '`');
    CharCountAppend(a, "`", '`');
    CharCountIsMultiplicity(a, '`');
    CharCountIsMultiplicity(b, '`');
    FenceCountBound(a + "`" + b);
  }

  /** Fence backticks also count one by one: four backticks are one fence and an odd total. */
  lemma FourBackticks()
    ensures FenceCount("````") == 1 && CharCount("````", '`') == 4
    ensures HasIncompleteMarkdown("````")
  {
    assert Repeat('`', 4) == "````";
    FenceCountRun(4);
  }

  /** A star next to another star is never italic: `**x**` is complete and `**x` is not. */
  lemma BoldExamples()
    ensures !HasIncompleteMarkdown("**x**")
    ensures HasIncompleteMarkdown("**x")
    ensures !HasIncompleteMarkdown("")
  {
    var closed := "**x**";
    assert closed[..2] == "**" && closed[2..] == "x**";
    assert "x**"[..2] == "x*" && "x**"[1..] == "**";
    assert "**"[..2] == "**" && "**"[2..] == "";
    assert BoldCount(closed) == 2;
    forall i | 0 <= i < 5
      ensures !LoneStarAt(closed, i)
    {
    }
    NoLoneStarsBelow(closed, 5);
    var open := "**x";
    assert open[..2] == "**" && open[2..] == "x";
    assert BoldCount(open) == 1;
  }

  // ----- escapeHtml -----

  /** The replacement the source's table gives a character; other characters stay. */
  function EscapeChar(c: char): string {
    if c == '&' then "&amp;"
    else if c == '<' then "&lt;"
    else if c == '>' then "&gt;"
    else if c == '"' then "&quot;"
    else if c == '\'' then "&#039;"
    else [c]
  }

  /** `escapeHtml`: /[&<>"']/g replaced through the table, one character at a time. */
  function EscapeHtml(text: string): (r: string)
    ensures '<' !in r && '>' !in r && '"' !in r && '\'' !in r
    ensures |r| >= |text|
  {
    if text == [] then [] else EscapeChar(text[0]) + EscapeHtml(text[1..])
  }

  /** Decodes the five entities EscapeHtml writes; everything else is kept. */
  function UnescapeHtml(s: string): (r: string)
    ensures |r| <= |s|
  {
    if s == [] then []
    else if s[0] != '&' then [s[0]] + UnescapeHtml(s[1..])
    else if |s| >= 5 && s[..5] == "&amp;" then "&" + UnescapeHtml(s[5..])
    else if |s| >= 4 && s[..4] == "&lt;" then "<" + UnescapeHtml(s[4..])
    else if |s| >= 4 && s[..4] == "&gt;" then ">" + UnescapeHtml(s[4..])
    else if |s| >= 6 && s[..6] == "&quot;" then "\"" + UnescapeHtml(s[6..])
    else if |s| >= 6 && s[..6] == "&#039;" then "'" + UnescapeHtml(s[6..])
    else [s[0]] + UnescapeHtml(s[1..])
  }

  lemma UnescapeAmp(rest: string)
    ensures UnescapeHtml("&amp;" + rest) == "&" + UnescapeHtml(rest)
  {
    var e := "&amp;" + rest;
    assert e[..5] == "&amp;" && e[5..] == rest;
  }

  lemma UnescapeLt(rest: string)
    ensures UnescapeHtml("&lt;" + rest) == "<" + UnescapeHtml(rest)
  {
    var e := "&lt;" + rest;
    assert |e| < 5 || e[..5][1] == 'l';
    assert e[..4] == "&lt;" && e[4..] == rest;
  }

  lemma UnescapeGt(rest: string)
    ensures UnescapeHtml("&gt;" + rest) == ">" + UnescapeHtml(rest)
  {
    var e := "&gt;" + rest;
    assert |e| < 5 || e[..5][1] == 'g';
    assert e[..4][1] == 'g';
    assert e[..4] == "&gt;" && e[4..] == rest;
  }

  lemma UnescapeQuot(rest: string)
    ensures UnescapeHtml("&quot;" + rest) == "\"" + UnescapeHtml(rest)
  {
    var e := "&quot;" + rest;
    assert e[..5][1] == 'q' && e[..4][1] == 'q';
    assert e[..6] == "&quot;" && e[6..] == rest;
  }

  lemma UnescapeApos(rest: string)
    ensures UnescapeHtml("&#039;" + rest) == "'" + UnescapeHtml(rest)
  {
    var e := "&#039;" + rest;
    assert e[..5][1] == '#' && e[..4][1] == '#';
    assert e[..6][1] == '#';
    assert e[..6] == "&#039;" && e[6..] == rest;
  }

  lemma UnescapeEscapedChar(c: char, rest: string)
    ensures UnescapeHtml(EscapeChar(c) + rest) == [c] + UnescapeHtml(rest)
  {
    if c == '&' {
      UnescapeAmp(rest);
    } else if c == '<' {
      UnescapeLt(rest);
    } else if c == '>' {
      UnescapeGt(rest);
    } else if c == '"' {
      UnescapeQuot(rest);
    } else if c == '\'' {
      UnescapeApos(rest);
    } else {
      var e := [c] + rest;
      assert e[0] == c && e[1..] == rest;
    }
  }

  /** Un-escaping the five entities gives back the input exactly. */
  lemma {:induction false} EscapeRoundTrip(text: string)
    ensures UnescapeHtml(EscapeHtml(text)) == text
  {
    if text != [] {
      UnescapeEscapedChar(text[0], EscapeHtml(text[1..]));
      EscapeRoundTrip(text[1..]);
      assert text == [text[0]] + text[1..];
    }
  }

  /** So distinct texts never escape to the same string. */
  lemma EscapeInjective(a: string, b: string)
    requires EscapeHtml(a) == EscapeHtml(b)
    ensures a == b
  {
    EscapeRoundTrip(a);
    EscapeRoundTrip(b);
  }

  // ----- The heading id -----

  /** JavaScript's `\w`: ASCII letters, digits and `_`. */
  predicate IsWordChar(c: char) {
    'a' <= c <= 'z' || 'A' <= c <= 'Z' || '0' <= c <= '9' || c == '_'
  }

  /** The characters a heading id is made of: lower-case `\w` characters and `-`. */
  predicate IsSlugChar(c: char) {
    'a' <= c <= 'z' || '0' <= c <= '9' || c == '_' || c == '-'
  }

  function LowerChar(c: char): char {
    if 'A' <= c <= 'Z' then (c as int + 32) as char else c
  }

  /** `toLowerCase` on ASCII letters. */
  function ToLower(s: string): string {
    if s == [] then [] else [LowerChar(s[0])] + ToLower(s[1..])
  }

  /** The length of the maximal run of non-`\w` characters at the start of s. */
  function NonWordRun(s: string): (n: nat)
    ensures n <= |s|
    ensures forall i :: 0 <= i < n ==> !IsWordChar(s[i])
    ensures n < |s| ==> IsWordChar(s[n])
  {
    if s != [] && !IsWordChar(s[0]) then 1 + NonWordRun(s[1..]) else 0
  }

  /** `.replace(/[^\w]+/g, '-')`: each maximal run of non-`\w` characters becomes one `-`. */
  function ReplaceNonWordRuns(s: string): (r: string)
    ensures |r| <= |s|
    ensures forall i :: 0 <= i < |r| ==> r[i] == '-' || (IsWordChar(r[i]) && r[i] in s)
    ensures forall i :: 0 <= i < |r| - 1 ==> r[i] != '-' || r[i + 1] != '-'
    ensures s != [] ==> r != [] && (IsWordChar(s[0]) ==> r[0] == s[0]) && (!IsWordChar(s[0]) ==> r[0] == '-')
    decreases |s|
  {
    if s == [] then []
    else if IsWordChar(s[0]) then [s[0]] + ReplaceNonWordRuns(s[1..])
    else "-" + ReplaceNonWordRuns(s[NonWordRun(s)..])
  }

  /** The id the heading renderer gives a heading's text. */
  function Slug(text: string): (id: string)
    ensures forall i :: 0 <= i < |id| ==> IsSlugChar(id[i])
    ensures forall i :: 0 <= i < |id| - 1 ==> id[i] != '-' || id[i + 1] != '-'
    ensures |id| <= |text|
  {
    var lower := ToLower(text);
    LowerHasNoCapitals(text);
    ReplaceNonWordRuns(lower)
  }

  lemma {:induction false} LowerHasNoCapitals(s: string)
    ensures |ToLower(s)| == |s|
    ensures forall c :: c in ToLower(s) ==> !('A' <= c <= 'Z')
  {
    if s != [] {
      LowerHasNoCapitals(s[1..]);
    }
  }

  lemma {:induction false} LowerKeepsSlugChars(s: string)
    requires forall i :: 0 <= i < |s| ==> IsSlugChar(s[i])
    ensures ToLower(s) == s
  {
    if s != [] {
      LowerKeepsSlugChars(s[1..]);
      assert s == [s[0]] + s[1..];
    }
  }

  lemma {:induction false} ReplaceKeepsSlugs(s: string)
    requires forall i :: 0 <= i < |s| ==> IsWordChar(s[i]) || s[i] == '-'
    requires forall i :: 0 <= i < |s| - 1 ==> s[i] != '-' || s[i + 1] != '-'
    ensures ReplaceNonWordRuns(s) == s
    decreases |s|
  {
    if s != [] {
      if IsWordChar(s[0]) {
        ReplaceKeepsSlugs(s[1..]);
      } else {
        assert NonWordRun(s) == 1 by {
          if |s| > 1 {
            assert IsWordChar(s[1]);
          }
        }
        ReplaceKeepsSlugs(s[1..]);
      }
      assert s == [s[0]] + s[1..];
    }
  }

  /** An id is its own id: the slug is idempotent. */
  lemma SlugIdempotent(text: string)
    ensures Slug(Slug(text)) == Slug(text)
  {
    var id := Slug(text);
    LowerKeepsSlugChars(id);
    ReplaceKeepsSlugs(id);
  }

  // ----- The renderer templates -----

  /** An attribute `name="value"`, written exactly as the templates interpolate it. */
  datatype Attribute = Attribute(name: string, value: string)

  /**
   * The markup the renderers write: an element with its attributes and children, or HTML the
   * markdown library has already produced (or escaped text), inserted as it is.
   */
  datatype Markup =
    | Raw(html: string)
    | Element(tag: string, attributes: seq<Attribute>, children: seq<Markup>)

  function AttributesHtml(attributes: seq<Attribute>): string {
    if attributes == [] then ""
    else " " + attributes[0].name + "=\"" + attributes[0].value + "\"" + AttributesHtml(attributes[1..])
  }

  /** The HTML text of a piece of markup. */
  function Html(m: Markup): string
    decreases m, 1
  {
    match m
    case Raw(html) => html
    case Element(tag, attributes, children) =>
      "<" + tag + AttributesHtml(attributes) + ">" + ChildrenHtml(children) + "</" + tag + ">"
  }

  function ChildrenHtml(children: seq<Markup>): string
    decreases children, 0
  {
    if children == [] then "" else Html(children[0]) + ChildrenHtml(children[1..])
  }

  /** Whether an element carries an attribute of the given name. */
  predicate HasAttribute(m: Markup, name: string) {
    m.Element? && exists a :: a in m.attributes && a.name == name
  }

  /** The code language, `language || codeLanguage || 'plaintext'`. */
  function CodeLanguage(language: Option<string>, codeLanguage: Option<string>): (lang: string)
    ensures lang != ""
    ensures Truthy(language) ==> lang == language.value
    ensures !Truthy(language) && Truthy(codeLanguage) ==> lang == codeLanguage.value
    ensures !Truthy(language) && !Truthy(codeLanguage) ==> lang == "plaintext"
  {
    if Truthy(language) then language.value
    else if Truthy(codeLanguage) then codeLanguage.value
    else "plaintext"
  }

  /** The language name handed to the highlighter: `plaintext` is asked for as `text`. */
  function HighlightLanguage(lang: string): string {
    if lang == "plaintext" then "text" else lang
  }

  /**
   * `renderer.code`. The highlighter is the parameter `highlight`: `highlight(code, language)`
   * is the highlighted HTML, or None where highlight.js throws. It is asked only when
   * highlighting is enabled; otherwise, and when it throws, the code is escaped instead.
   */
  function CodeBlock(code: string, language: Option<string>, enableCodeHighlight: bool,
                     codeLanguage: Option<string>, highlight: (string, string) -> Option<string>): Markup
  {
    var lang := CodeLanguage(language, codeLanguage);
    var highlighted := if enableCodeHighlight then highlight(code, HighlightLanguage(lang)) else None;
    if highlighted.Some? then
      Element("pre", [], [Element("code", [Attribute("class", "hljs language-" + lang), Attribute("data-language", lang)],
                                  [Raw(highlighted.value)])])
    else
      Element("pre", [], [Element("code", [Attribute("class", "language-" + lang), Attribute("data-language", lang)],
                                  [Raw(EscapeHtml(code))])])
  }

  /** `renderer.codespan`. */
  function CodeSpan(code: string): Markup {
    Element("code", [Attribute("class", "inline-code")], [Raw(EscapeHtml(code))])
  }

  /** `renderer.link`; a missing or empty title writes no title attribute. */
  function Link(href: string, title: Option<string>, text: string): Markup {
    var titleAttribute := if Truthy(title) then [Attribute("title", EscapeHtml(title.value))] else [];
    Element("a", [Attribute("href", EscapeHtml(href))] + titleAttribute +
                 [Attribute("target", "_blank"), Attribute("rel", "noopener noreferrer")],
            [Raw(text)])
  }

  /** `renderer.heading`: `h<level>` with the slug of the text as its id. */
  function Heading(text: string, level: int): Markup {
    Element("h" + IntToDecimal(level), [Attribute("id", Slug(text))], [Raw(text)])
  }

  /** `renderer.blockquote`. */
  function Blockquote(quote: string): Markup {
    Element("blockquote", [Attribute("class", "llm-blockquote")], [Raw(quote)])
  }

  /** `renderer.list`. */
  function List(body: string, ordered: bool): Markup {
    Element(if ordered then "ol" else "ul", [Attribute("class", "llm-list")], [Raw(body)])
  }

  /** `renderer.table`. */
  function Table(header: string, body: string): Markup {
    Element("table", [Attribute("class", "llm-table")],
            [Element("thead", [], [Raw(header)]), Element("tbody", [], [Raw(body)])])
  }

  lemma AttributesHtmlAppend(x: seq<Attribute>, y: seq<Attribute>)
    ensures AttributesHtml(x + y) == AttributesHtml(x) + AttributesHtml(y)
  {
    if x != [] {
      AttributesHtmlAppend(x[1..], y);
      assert (x + y)[1..] == x[1..] + y;
    } else {
      assert x + y == y;
    }
  }

  lemma AttributeHtml(a: Attribute)
    ensures AttributesHtml([a]) == " " + a.name + "=\"" + a.value + "\""
  {
    assert AttributesHtml([a][1..]) == "";
  }

  /** An element with one child: the opening tag with its attributes, the child, the closing tag. */
  lemma ElementHtml(tag: string, attributes: seq<Attribute>, child: Markup)
    ensures Html(Element(tag, attributes, [child])) ==
      "<" + tag + AttributesHtml(attributes) + ">" + Html(child) + "</" + tag + ">"
  {
    assert ChildrenHtml([child]) == Html(child) + ChildrenHtml([]);
  }

  // The shapes below are proved over plain strings; the template lemmas instantiate them.
  // The *Concat lemmas only regroup string concatenations, each in a proof of its own.

  lemma CodeAttributesConcat(cls: string, lang: string)
    ensures (" " + "class" + "=\"" + cls + "\"") + (" " + "data-language" + "=\"" + lang + "\"") ==
            " class=\"" + cls + "\" data-language=\"" + lang + "\""
  {
  }

  lemma CodeConcat(opening: string, inner: string)
    ensures "<" + "code" + opening + ">" + inner + "</" + "code" + ">" == "<code" + opening + ">" + inner + "</code>"
  {
  }

  lemma PreConcat(code: string)
    ensures "<" + "pre" + "" + ">" + code + "</" + "pre" + ">" == "<pre>" + code + "</pre>"
  {
  }

  lemma CodeBlockConcat(cls: string, lang: string, inner: string)
    ensures "<pre>" + ("<code" + (" class=\"" + cls + "\" data-language=\"" + lang + "\"") + ">" + inner + "</code>") + "</pre>" ==
            "<pre><code class=\"" + cls + "\" data-language=\"" + lang + "\">" + inner + "</code></pre>"
  {
  }

  lemma CodeShape(cls: string, lang: string, inner: string)
    ensures Html(Element("pre", [], [Element("code", [Attribute("class", cls), Attribute("data-language", lang)], [Raw(inner)])])) ==
      "<pre><code class=\"" + cls + "\" data-language=\"" + lang + "\">" + inner + "</code></pre>"
  {
    var attributes := [Attribute("class", cls), Attribute("data-language", lang)];
    var opening := " class=\"" + cls + "\" data-language=\"" + lang + "\"";
    AttributesHtmlAppend([attributes[0]], [attributes[1]]);
    assert attributes == [attributes[0]] + [attributes[1]];
    AttributeHtml(attributes[0]);
    AttributeHtml(attributes[1]);
    CodeAttributesConcat(cls, lang);
    var code := Element("code", attributes, [Raw(inner)]);
    ElementHtml("code", attributes, Raw(inner));
    CodeConcat(opening, inner);
    ElementHtml("pre", [], code);
    PreConcat(Html(code));
    CodeBlockConcat(cls, lang, inner);
  }

  lemma LinkAttributesConcat(href: string, titleHtml: string)
    ensures (" " + "href" + "=\"" + href + "\"") + titleHtml +
            ((" " + "target" + "=\"" + "_blank" + "\"") + (" " + "rel" + "=\"" + "noopener noreferrer" + "\"")) ==
            " href=\"" + href + "\"" + titleHtml + " target=\"_blank\" rel=\"noopener noreferrer\""
  {
  }

  lemma AnchorConcat(opening: string, text: string)
    ensures "<" + "a" + opening + ">" + text + "</" + "a" + ">" == "<a" + opening + ">" + text + "</a>"
  {
  }

  lemma LinkConcat(href: string, titleHtml: string, text: string)
    ensures "<a" + (" href=\"" + href + "\"" + titleHtml + " target=\"_blank\" rel=\"noopener noreferrer\"") + ">" + text + "</a>" ==
            "<a href=\"" + href + "\"" + titleHtml + " target=\"_blank\" rel=\"noopener noreferrer\">" + text + "</a>"
  {
  }

  lemma LinkShape(href: string, titleAttribute: seq<Attribute>, titleHtml: string, text: string)
    requires AttributesHtml(titleAttribute) == titleHtml
    ensures Html(Element("a", [Attribute("href", href)] + titleAttribute +
                              [Attribute("target", "_blank"), Attribute("rel", "noopener noreferrer")], [Raw(text)])) ==
      "<a href=\"" + href + "\"" + titleHtml + " target=\"_blank\" rel=\"noopener noreferrer\">" + text + "</a>"
  {
    var hrefAttribute := [Attribute("href", href)];
    var tail := [Attribute("target", "_blank"), Attribute("rel", "noopener noreferrer")];
    var opening := " href=\"" + href + "\"" + titleHtml + " target=\"_blank\" rel=\"noopener noreferrer\"";
    AttributesHtmlAppend(hrefAttribute + titleAttribute, tail);
    AttributesHtmlAppend(hrefAttribute, titleAttribute);
    AttributesHtmlAppend([tail[0]], [tail[1]]);
    assert tail == [tail[0]] + [tail[1]];
    AttributeHtml(hrefAttribute[0]);
    AttributeHtml(tail[0]);
    AttributeHtml(tail[1]);
    LinkAttributesConcat(href, titleHtml);
    ElementHtml("a", hrefAttribute + titleAttribute + tail, Raw(text));
    AnchorConcat(opening, text);
    LinkConcat(href, titleHtml, text);
  }

  lemma HeadingConcat(digits: string, id: string, text: string)
    ensures "<" + ("h" + digits) + (" " + "id" + "=\"" + id + "\"") + ">" + text + "</" + ("h" + digits) + ">" ==
            "<h" + digits + " id=\"" + id + "\">" + text + "</h" + digits + ">"
  {
  }

  lemma HeadingShape(digits: string, id: string, text: string)
    ensures Html(Element("h" + digits, [Attribute("id", id)], [Raw(text)])) ==
      "<h" + digits + " id=\"" + id + "\">" + text + "</h" + digits + ">"
  {
    ElementHtml("h" + digits, [Attribute("id", id)], Raw(text));
    AttributeHtml(Attribute("id", id));
    HeadingConcat(digits, id, text);
  }

  lemma ClassConcat(tag: string, cls: string, inner: string)
    ensures "<" + tag + (" " + "class" + "=\"" + cls + "\"") + ">" + inner + "</" + tag + ">" ==
            "<" + tag + " class=\"" + cls + "\">" + inner + "</" + tag + ">"
  {
  }

  lemma ClassShape(tag: string, cls: string, inner: string)
    ensures Html(Element(tag, [Attribute("class", cls)], [Raw(inner)])) ==
      "<" + tag + " class=\"" + cls + "\">" + inner + "</" + tag + ">"
  {
    ElementHtml(tag, [Attribute("class", cls)], Raw(inner));
    AttributeHtml(Attribute("class", cls));
    ClassConcat(tag, cls, inner);
  }

  lemma SectionConcat(tag: string, inner: string)
    ensures "<" + tag + "" + ">" + inner + "</" + tag + ">" == "<" + tag + ">" + inner + "</" + tag + ">"
  {
  }

  lemma TableSectionsConcat(header: string, body: string)
    ensures "<" + "thead" + ">" + header + "</" + "thead" + ">" + ("<" + "tbody" + ">" + body + "</" + "tbody" + ">" + "") ==
            "<thead>" + header + "</thead><tbody>" + body + "</tbody>"
  {
  }

  lemma TableConcat(inner: string)
    ensures "<" + "table" + " class=\"" + "llm-table" + "\">" + inner + "</" + "table" + ">" ==
            "<table class=\"llm-table\">" + inner + "</table>"
  {
  }

  lemma TableBodyConcat(header: string, body: string)
    ensures "<table class=\"llm-table\">" + ("<thead>" + header + "</thead><tbody>" + body + "</tbody>") + "</table>" ==
            "<table class=\"llm-table\"><thead>" + header + "</thead><tbody>" + body + "</tbody></table>"
  {
  }

  lemma TableShape(header: string, body: string)
    ensures Html(Element("table", [Attribute("class", "llm-table")],
                         [Element("thead", [], [Raw(header)]), Element("tbody", [], [Raw(body)])])) ==
      "<table class=\"llm-table\"><thead>" + header + "</thead><tbody>" + body + "</tbody></table>"
  {
    var head := Element("thead", [], [Raw(header)]);
    var rows := Element("tbody", [], [Raw(body)]);
    ElementHtml("thead", [], Raw(header));
    SectionConcat("thead", header);
    ElementHtml("tbody", [], Raw(body));
    SectionConcat("tbody", body);
    assert [head, rows][1..] == [rows];
    assert ChildrenHtml([rows]) == Html(rows) + ChildrenHtml([]);
    AttributeHtml(Attribute("class", "llm-table"));
    TableSectionsConcat(header, body);
    ClassConcat("table", "llm-table", ChildrenHtml([head, rows]));
    TableConcat(ChildrenHtml([head, rows]));
    TableBodyConcat(header, body);
  }

  /** The code renderer writes the source's template, with and without highlighting. */
  lemma CodeBlockTemplate(code: string, language: Option<string>, enableCodeHighlight: bool,
                          codeLanguage: Option<string>, highlight: (string, string) -> Option<string>)
    ensures var lang := CodeLanguage(language, codeLanguage);
      var html := Html(CodeBlock(code, language, enableCodeHighlight, codeLanguage, highlight));
      if enableCodeHighlight && highlight(code, HighlightLanguage(lang)).Some? then
        html == "<pre><code class=\"" + ("hljs language-" + lang) + "\" data-language=\"" + lang + "\">" +
                highlight(code, HighlightLanguage(lang)).value + "</code></pre>"
      else
        html == "<pre><code class=\"" + ("language-" + lang) + "\" data-language=\"" + lang + "\">" +
                EscapeHtml(code) + "</code></pre>"
  {
    var lang := CodeLanguage(language, codeLanguage);
    if enableCodeHighlight && highlight(code, HighlightLanguage(lang)).Some? {
      CodeShape("hljs language-" + lang, lang, highlight(code, HighlightLanguage(lang)).value);
    } else {
      CodeShape("language-" + lang, lang, EscapeHtml(code));
    }
  }

  /** The link renderer writes the source's template. */
  lemma LinkTemplate(href: string, title: Option<string>, text: string)
    ensures Html(Link(href, title, text)) ==
      "<a href=\"" + EscapeHtml(href) + "\"" +
      (if Truthy(title) then " title=\"" + EscapeHtml(title.value) + "\"" else "") +
      " target=\"_blank\" rel=\"noopener noreferrer\">" + text + "</a>"
  {
    var escapedHref := EscapeHtml(href);
    if Truthy(title) {
      var escapedTitle := EscapeHtml(title.value);
      var titleAttribute := [Attribute("title", escapedTitle)];
      AttributeHtml(titleAttribute[0]);
      assert AttributesHtml(titleAttribute) == " title=\"" + escapedTitle + "\"";
      LinkShape(escapedHref, titleAttribute, " title=\"" + escapedTitle + "\"", text);
      assert Link(href, title, text) == Element("a", [Attribute("href", escapedHref)] + titleAttribute +
        [Attribute("target", "_blank"), Attribute("rel", "noopener noreferrer")], [Raw(text)]);
    } else {
      LinkShape(escapedHref, [], "", text);
      assert Link(href, title, text) == Element("a", [Attribute("href", escapedHref)] + [] +
        [Attribute("target", "_blank"), Attribute("rel", "noopener noreferrer")], [Raw(text)]);
    }
  }

  /** The heading renderer writes the source's template. */
  lemma HeadingTemplate(text: string, level: int)
    ensures Html(Heading(text, level)) ==
      "<h" + IntToDecimal(level) + " id=\"" + Slug(text) + "\">" + text + "</h" + IntToDecimal(level) + ">"
  {
    HeadingShape(IntToDecimal(level), Slug(text), text);
  }

  lemma SpanConcat(escaped: string)
    ensures "<" + "code" + " class=\"" + "inline-code" + "\">" + escaped + "</" + "code" + ">" ==
            "<code class=\"inline-code\">" + escaped + "</code>"
  {
  }

  lemma QuoteConcat(quote: string)
    ensures "<" + "blockquote" + " class=\"" + "llm-blockquote" + "\">" + quote + "</" + "blockquote" + ">" ==
            "<blockquote class=\"llm-blockquote\">" + quote + "</blockquote>"
  {
    OpenQuoteConcat();
    CloseQuoteConcat();
    Regroup("<" + "blockquote" + " class=\"" + "llm-blockquote" + "\">", quote, "</", "blockquote", ">");
  }

  lemma OpenQuoteConcat()
    ensures "<" + "blockquote" + " class=\"" + "llm-blockquote" + "\">" == "<blockquote class=\"llm-blockquote\">"
  {
  }

  lemma CloseQuoteConcat()
    ensures "</" + "blockquote" + ">" == "</blockquote>"
  {
  }

  lemma Regroup(opening: string, inner: string, a: string, b: string, c: string)
    ensures opening + inner + a + b + c == opening + inner + (a + b + c)
  {
  }

  /** The inline-code renderer writes the source's template. */
  lemma CodeSpanTemplate(code: string)
    ensures Html(CodeSpan(code)) == "<code class=\"inline-code\">" + EscapeHtml(code) + "</code>"
  {
    var escaped := EscapeHtml(code);
    ClassShape("code", "inline-code", escaped);
    SpanConcat(escaped);
  }

  /** The blockquote renderer writes the source's template. */
  lemma BlockquoteTemplate(quote: string)
    ensures Html(Blockquote(quote)) == "<blockquote class=\"llm-blockquote\">" + quote + "</blockquote>"
  {
    ClassShape("blockquote", "llm-blockquote", quote);
    QuoteConcat(quote);
  }

  /** The list and table renderers write the source's templates. */
  lemma ListAndTableTemplates(body: string, ordered: bool, header: string)
    ensures var tag := if ordered then "ol" else "ul";
      Html(List(body, ordered)) == "<" + tag + " class=\"llm-list\">" + body + "</" + tag + ">"
    ensures Html(Table(header, body)) ==
      "<table class=\"llm-table\"><thead>" + header + "</thead><tbody>" + body + "</tbody></table>"
  {
    ClassShape(if ordered then "ol" else "ul", "llm-list", body);
    TableShape(header, body);
  }

  /**
   * Every link opens in a new tab with `rel="noopener noreferrer"`, has a title attribute
   * exactly when the title is truthy, and no attribute value can close its quotes.
   */
  lemma LinkAttributes(href: string, title: Option<string>, text: string)
    ensures var a := Link(href, title, text);
      a.tag == "a" &&
      Attribute("target", "_blank") in a.attributes &&
      Attribute("rel", "noopener noreferrer") in a.attributes &&
      (HasAttribute(a, "title") <==> Truthy(title)) &&
      forall at :: at in a.attributes ==> '"' !in at.value
  {
    var a := Link(href, title, text);
    var h := Attribute("href", EscapeHtml(href));
    var target := Attribute("target", "_blank");
    var rel := Attribute("rel", "noopener noreferrer");
    FixedLinkValuesQuoteFree();
    if Truthy(title) {
      var t := Attribute("title", EscapeHtml(title.value));
      assert a.attributes == [h, t, target, rel];
      assert t in a.attributes;
    } else {
      assert a.attributes == [h, target, rel];
      forall at | at in a.attributes
        ensures at.name != "title"
      {
        assert at == h || at == target || at == rel;
      }
    }
  }

  lemma FixedLinkValuesQuoteFree()
    ensures '"' !in "_blank" && '"' !in "noopener noreferrer"
  {
  }

  /** A heading of level 1 to 6 is `h1` to `h6`, with the slug of its text as its only attribute, `id`. */
  lemma HeadingElement(text: string, level: int)
    requires 1 <= level <= 6
    ensures var h := Heading(text, level);
      h.tag in {"h1", "h2", "h3", "h4", "h5", "h6"} && h.attributes == [Attribute("id", Slug(text))]
  {
    assert IntToDecimal(level) == [DigitChar(level)];
    var tag := "h" + [DigitChar(level)];
    if level == 1 { assert tag == "h1"; }
    else if level == 2 { assert tag == "h2"; }
    else if level == 3 { assert tag == "h3"; }
    else if level == 4 { assert tag == "h4"; }
    else if level == 5 { assert tag == "h5"; }
    else { assert tag == "h6"; }
  }

  /**
   * The code element names the fallback language in `data-language`; the highlighter is asked
   * (for `text` instead of `plaintext`) only when enabled, and its class is `hljs language-…`
   * exactly when highlighting was enabled and succeeded. A list is `ol` exactly when ordered.
   */
  lemma CodeAndListElements(code: string, language: Option<string>, enableCodeHighlight: bool,
                            codeLanguage: Option<string>, highlight: (string, string) -> Option<string>,
                            body: string, ordered: bool)
    ensures var lang := CodeLanguage(language, codeLanguage);
      var inner := CodeBlock(code, language, enableCodeHighlight, codeLanguage, highlight).children[0];
      var highlighted := enableCodeHighlight && highlight(code, HighlightLanguage(lang)).Some?;
      inner.tag == "code" &&
      inner.attributes[1] == Attribute("data-language", lang) &&
      (inner.attributes[0] == Attribute("class", "hljs language-" + lang) <==> highlighted) &&
      (!highlighted ==> inner.children == [Raw(EscapeHtml(code))])
    ensures List(body, ordered).tag == (if ordered then "ol" else "ul")
  {
    var lang := CodeLanguage(language, codeLanguage);
    assert ("language-" + lang)[0] == 'l';
  }

  // ----- The sanitizer allow-list -----

  /** Every element of the markup has an allowed tag and only allowed attributes. */
  predicate UsesAllowedMarkup(m: Markup) {
    match m
    case Raw(_) => true
    case Element(tag, attributes, children) =>
      IsAllowedTag(tag) &&
      (forall a :: a in attributes ==> IsAllowedAttribute(a.name)) &&
      (forall c :: c in children ==> UsesAllowedMarkup(c))
  }

  /** A code block and an inline code span only use allowed markup. */
  lemma CodeMarkupAllowed(code: string, language: Option<string>, enableCodeHighlight: bool,
                          codeLanguage: Option<string>, highlight: (string, string) -> Option<string>)
    ensures UsesAllowedMarkup(CodeBlock(code, language, enableCodeHighlight, codeLanguage, highlight))
    ensures UsesAllowedMarkup(CodeSpan(code))
  {
    var block := CodeBlock(code, language, enableCodeHighlight, codeLanguage, highlight);
    assert UsesAllowedMarkup(block.children[0]);
  }

  // ----- Quotes in the code language -----

  /**
   * The code block writes the language into its `class` and `data-language` values without
   * escaping it, so the values are free of `"` exactly when the language is.
   */
  lemma CodeAttributesQuoteFree(code: string, language: Option<string>, enableCodeHighlight: bool,
                                codeLanguage: Option<string>, highlight: (string, string) -> Option<string>)
    ensures var inner := CodeBlock(code, language, enableCodeHighlight, codeLanguage, highlight).children[0];
      inner.Element? &&
      ('"' !in CodeLanguage(language, codeLanguage) <==> forall at :: at in inner.attributes ==> '"' !in at.value)
  {
    var lang := CodeLanguage(language, codeLanguage);
    var inner := CodeBlock(code, language, enableCodeHighlight, codeLanguage, highlight).children[0];
    assert inner.attributes[1] == Attribute("data-language", lang);
    if '"' !in lang {
      forall at | at in inner.attributes
        ensures '"' !in at.value
      {
        assert at == inner.attributes[0] || at == inner.attributes[1];
      }
    }
  }

  /**
   * As written, a language holding `"` closes the attribute values early: the fence language
   * `x"onclick="y` gives a code element whose HTML text carries an `onclick` attribute, which
   * is not on the allow-list, although the markup tree passes UsesAllowedMarkup.
   */
  lemma QuoteInLanguageAddsAttribute(highlight: (string, string) -> Option<string>)
    ensures var block := CodeBlock("c", Some("x\"onclick=\"y"), false, None, highlight);
      UsesAllowedMarkup(block) &&
      Html(block) == "<pre><code class=\"" + "language-x\"onclick=\"y" + "\" data-language=\"" +
                     "x\"onclick=\"y" + "\">" + "c" + "</code></pre>"
  {
    var lang := "x\"onclick=\"y";
    assert CodeLanguage(Some(lang), None) == lang;
    CodeBlockTemplate("c", Some(lang), false, None, highlight);
    CodeMarkupAllowed("c", Some(lang), false, None, highlight);
    assert EscapeHtml("c") == "c";
    assert "language-" + lang == "language-x\"onclick=\"y";
  }

  /**
   * `renderer.code` with the language escaped where it is written into an attribute value, as
   * the link renderer escapes `href` and `title`.
   */
  function CodeBlockEscaped(code: string, language: Option<string>, enableCodeHighlight: bool,
                            codeLanguage: Option<string>, highlight: (string, string) -> Option<string>): Markup
  {
    var lang := CodeLanguage(language, codeLanguage);
    var value := EscapeHtml(lang);
    var highlighted := if enableCodeHighlight then highlight(code, HighlightLanguage(lang)) else None;
    if highlighted.Some? then
      Element("pre", [], [Element("code", [Attribute("class", "hljs language-" + value), Attribute("data-language", value)],
                                  [Raw(highlighted.value)])])
    else
      Element("pre", [], [Element("code", [Attribute("class", "language-" + value), Attribute("data-language", value)],
                                  [Raw(EscapeHtml(code))])])
  }

  /** The corrected code block uses only allowed markup too. */
  lemma CodeBlockEscapedAllowed(code: string, language: Option<string>, enableCodeHighlight: bool,
                                codeLanguage: Option<string>, highlight: (string, string) -> Option<string>)
    ensures UsesAllowedMarkup(CodeBlockEscaped(code, language, enableCodeHighlight, codeLanguage, highlight))
  {
    var block := CodeBlockEscaped(code, language, enableCodeHighlight, codeLanguage, highlight);
    assert UsesAllowedMarkup(block.children[0]);
  }

  /**
   * With the language escaped, no attribute value of the code element holds `"`, whatever the
   * language, and `data-language` decodes back to the language.
   */
  lemma CodeBlockEscapedQuoteFree(code: string, language: Option<string>, enableCodeHighlight: bool,
                                  codeLanguage: Option<string>, highlight: (string, string) -> Option<string>)
    ensures var block := CodeBlockEscaped(code, language, enableCodeHighlight, codeLanguage, highlight);
      var inner := block.children[0];
      inner.Element? &&
      (forall at :: at in inner.attributes ==> '"' !in at.value) &&
      inner.attributes[1].name == "data-language" &&
      UnescapeHtml(inner.attributes[1].value) == CodeLanguage(language, codeLanguage)
  {
    var lang := CodeLanguage(language, codeLanguage);
    var value := EscapeHtml(lang);
    EscapeRoundTrip(lang);
    QuoteFreeConcat("hljs language-", value);
    QuoteFreeConcat("language-", value);
  }

  lemma QuoteFreeConcat(prefix: string, value: string)
    requires '"' !in prefix && '"' !in value
    ensures '"' !in prefix + value
  {
    assert forall k :: 0 <= k < |prefix + value| ==>
      (prefix + value)[k] == if k < |prefix| then prefix[k] else value[k - |prefix|];
  }

  /** A link only uses allowed markup. */
  lemma LinkMarkupAllowed(href: string, title: Option<string>, text: string)
    ensures UsesAllowedMarkup(Link(href, title, text))
  {
  }

  /** A heading of level 1 to 6 only uses allowed markup. */
  lemma HeadingMarkupAllowed(text: string, level: int)
    requires 1 <= level <= 6
    ensures UsesAllowedMarkup(Heading(text, level))
  {
    HeadingElement(text, level);
  }

  /** Blockquotes, lists and tables only use allowed markup. */
  lemma BlockMarkupAllowed(quote: string, body: string, ordered: bool, header: string)
    ensures UsesAllowedMarkup(Blockquote(quote))
    ensures UsesAllowedMarkup(List(body, ordered))
    ensures UsesAllowedMarkup(Table(header, body))
  {
    var table := Table(header, body);
    assert UsesAllowedMarkup(table.children[0]) && UsesAllowedMarkup(table.children[1]);
  }
}
