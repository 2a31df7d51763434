/**
 * `getPlainText`: six global regular-expression replacements applied in turn, then `trim`.
 *
 * Each replacement scans its input left to right: where the pattern matches, the match is
 * replaced and the scan resumes after it; elsewhere one character is copied. The lazy groups
 * `(.+?)` take the fewest characters that let the rest of the pattern match, and `.` matches
 * any character except a line terminator.
 */
module PlainText {
  import opened Wrappers

  // ----- Character classes -----

  /** The line terminators, which `.` does not match. */
  predicate IsLineTerminator(c: char) {
    c == '\n' || c == '\r' || c == '\U{2028}' || c == '\U{2029}'
  }

  /** JavaScript's `\s`, which is also the set of characters `trim` removes. */
  predicate IsJsSpace(c: char) {
    c == ' ' || c == '\t' || c == '\U{B}' || c == '\U{C}' || c == '\U{A0}' || c == '\U{FEFF}' ||
    c == '\U{1680}' || ('\U{2000}' <= c <= '\U{200A}') || c == '\U{202F}' || c == '\U{205F}' ||
    c == '\U{3000}' || IsLineTerminator(c)
  }

  predicate NoLineTerminator(u: string) {
    forall i :: 0 <= i < |u| ==> !IsLineTerminator(u[i])
  }

  // ----- /#{1,6}\s/g -----

  /** The number of `#` at the start of s. */
  function HashRun(s: string): (n: nat)
    ensures n <= |s|
    ensures forall i :: 0 <= i < n ==> s[i] == '#'
    ensures n < |s| ==> s[n] != '#'
  {
    if s != [] && s[0] == '#' then 1 + HashRun(s[1..]) else 0
  }

  /**
   * Whether `#{1,6}\s` matches at the start of s. The greedy repetition backs off from six
   * signs, but a shorter run is always followed by another `#`, so only a run of one to six
   * signs followed by a space matches.
   */
  predicate HeadingMarkerAt(s: string) {
    var k := HashRun(s);
    1 <= k <= 6 && k < |s| && IsJsSpace(s[k])
  }

  /** `.replace(/#{1,6}\s/g, '')`. */
  function RemoveHeadingMarkers(s: string): (r: string)
    ensures |r| <= |s|
  {
    if s == [] then []
    else if HeadingMarkerAt(s) then RemoveHeadingMarkers(s[HashRun(s) + 1..])
    else [s[0]] + RemoveHeadingMarkers(s[1..])
  }

  // ----- Lazy groups -----

  /** Whether the delimiter d occurs in t at position k. */
  predicate DelimiterAt(t: string, k: nat, d: string) {
    k + |d| <= |t| && t[k..k + |d|] == d
  }

  /** Whether `(.+?)` followed by d can match the start of t with k characters in the group. */
  predicate LazyMatch(t: string, d: string, k: nat) {
    1 <= k <= |t| && NoLineTerminator(t[..k]) && DelimiterAt(t, k, d)
  }

  /** A line terminator among the first n characters rules out every longer group. */
  lemma TerminatorBlocks(t: string, n: nat)
    requires 1 <= n <= |t| && IsLineTerminator(t[n - 1])
    ensures forall k :: n <= k <= |t| ==> !NoLineTerminator(t[..k])
  {
    forall k | n <= k <= |t|
      ensures !NoLineTerminator(t[..k])
    {
      assert t[..k][n - 1] == t[n - 1];
    }
  }

  /**
   * The length of the group `(.+?)` before the delimiter d, trying lengths from n upwards;
   * LazyContentIsLeastMatch shows it is the least length at which the pattern matches.
   */
  function LazyContent(t: string, d: string, n: nat): (r: Option<nat>)
    requires 1 <= n
    ensures r.Some? ==> n <= r.value && r.value + |d| <= |t|
    decreases |t| + 1 - n
  {
    if n > |t| || IsLineTerminator(t[n - 1]) then None
    else if DelimiterAt(t, n, d) then Some(n)
    else LazyContent(t, d, n + 1)
  }

  /** LazyContent finds the least group length at which the pattern matches, or None when none does. */
  lemma {:induction false} LazyContentIsLeastMatch(t: string, d: string, n: nat)
    requires 1 <= n <= |t| + 1 && NoLineTerminator(t[..n - 1])
    ensures var r := LazyContent(t, d, n);
      (r.Some? ==> LazyMatch(t, d, r.value) && forall k :: n <= k < r.value ==> !LazyMatch(t, d, k)) &&
      (r.None? ==> forall k :: n <= k ==> !LazyMatch(t, d, k))
    decreases |t| + 1 - n
  {
    if n > |t| {
    } else if IsLineTerminator(t[n - 1]) {
      TerminatorBlocks(t, n);
    } else {
      assert t[..n] == t[..n - 1] + [t[n - 1]];
      if !DelimiterAt(t, n, d) {
        LazyContentIsLeastMatch(t, d, n + 1);
      }
    }
  }

  /** The group of `d(.+?)d` at the start of s, when the pattern matches there. */
  function DelimitedAt(s: string, d: string): (r: Option<nat>)
    requires d != []
    ensures r.Some? ==> 1 <= r.value && |d| + r.value + |d| <= |s|
  {
    if |d| <= |s| && s[..|d|] == d then LazyContent(s[|d|..], d, 1)
    else None
  }

  /** `.replace(/d(.+?)d/g, '$1')` for the delimiters `**`, `*` and a backtick. */
  function ReplaceDelimited(s: string, d: string): (r: string)
    requires d != []
    ensures |r| <= |s|
    decreases |s|
  {
    if s == [] then []
    else if DelimitedAt(s, d).Some? then
      var n := DelimitedAt(s, d).value;
      s[|d|..|d| + n] + ReplaceDelimited(s[|d| + n + |d|..], d)
    else [s[0]] + ReplaceDelimited(s[1..], d)
  }

  // ----- Links and images -----

  /** Whether `(.+?)\]\((.+?)\)` matches the start of t with k characters in the first group. */
  predicate LinkMatch(t: string, k: nat) {
    LazyMatch(t, "](", k) && LazyContent(t[k + 2..], ")", 1).Some?
  }

  /**
   * The lengths of the two groups of `(.+?)\]\((.+?)\)` at the start of t, trying first-group
   * lengths from n upwards: when the rest of the pattern fails after one length, the
   * expression backtracks and tries the next. LinkAtIsLeastMatch shows it finds the least
   * first-group length at which the whole pattern matches.
   */
  function LinkAt(t: string, n: nat): (r: Option<(nat, nat)>)
    requires 1 <= n
    ensures r.Some? ==> n <= r.value.0 && 1 <= r.value.1 && r.value.0 + 2 + r.value.1 + 1 <= |t|
    decreases |t| + 1 - n
  {
    if n > |t| || IsLineTerminator(t[n - 1]) then None
    else if DelimiterAt(t, n, "](") && LazyContent(t[n + 2..], ")", 1).Some? then
      Some((n, LazyContent(t[n + 2..], ")", 1).value))
    else LinkAt(t, n + 1)
  }

  /** LinkAt finds the least first-group length at which the link pattern matches. */
  lemma {:induction false} LinkAtIsLeastMatch(t: string, n: nat)
    requires 1 <= n <= |t| + 1 && NoLineTerminator(t[..n - 1])
    ensures var r := LinkAt(t, n);
      (r.Some? ==> LinkMatch(t, r.value.0) && LazyContent(t[r.value.0 + 2..], ")", 1) == Some(r.value.1) &&
                   forall k :: n <= k < r.value.0 ==> !LinkMatch(t, k)) &&
      (r.None? ==> forall k :: n <= k ==> !LinkMatch(t, k))
    decreases |t| + 1 - n
  {
    if n > |t| {
    } else if IsLineTerminator(t[n - 1]) {
      TerminatorBlocks(t, n);
    } else {
      assert t[..n] == t[..n - 1] + [t[n - 1]];
      if !LinkMatch(t, n) {
        LinkAtIsLeastMatch(t, n + 1);
      }
    }
  }

  /** The groups of `\[(.+?)\]\(.+?\)` after the `[` at the start of t's caller. */
  function LinkAfterBracket(t: string): (r: Option<(nat, nat)>)
    ensures r.Some? ==> 1 <= r.value.0 && r.value.0 + 2 + r.value.1 + 1 <= |t|
  {
    LinkAt(t, 1)
  }

  /** `.replace(/\[(.+?)\]\(.+?\)/g, '$1')`: a link becomes its text. */
  function ReplaceLinks(s: string): (r: string)
    ensures |r| <= |s|
  {
    if s == [] then []
    else if s[0] == '[' && LinkAfterBracket(s[1..]).Some? then
      var groups := LinkAfterBracket(s[1..]).value;
      s[1..1 + groups.0] + ReplaceLinks(s[1 + groups.0 + 2 + groups.1 + 1..])
    else [s[0]] + ReplaceLinks(s[1..])
  }

  /** `.replace(/!\[.+?\]\(.+?\)/g, '')`: an image is removed. */
  function ReplaceImages(s: string): (r: string)
    ensures |r| <= |s|
  {
    if s == [] then []
    else if |s| >= 2 && s[..2] == "![" && LinkAfterBracket(s[2..]).Some? then
      var groups := LinkAfterBracket(s[2..]).value;
      ReplaceImages(s[2 + groups.0 + 2 + groups.1 + 1..])
    else [s[0]] + ReplaceImages(s[1..])
  }

  // ----- trim -----

  /** s without its leading spaces. */
  function TrimStart(s: string): (r: string)
    ensures |r| <= |s| && r == s[|s| - |r|..]
    ensures forall i :: 0 <= i < |s| - |r| ==> IsJsSpace(s[i])
    ensures r == [] || !IsJsSpace(r[0])
  {
    if s != [] && IsJsSpace(s[0]) then TrimStart(s[1..]) else s
  }

  /** s without its trailing spaces. */
  function TrimEnd(s: string): (r: string)
    ensures |r| <= |s| && r == s[..|r|]
    ensures forall i :: |r| <= i < |s| ==> IsJsSpace(s[i])
    ensures r == [] || !IsJsSpace(r[|r| - 1])
  {
    if s != [] && IsJsSpace(s[|s| - 1]) then TrimEnd(s[..|s| - 1]) else s
  }

  /**
   * `trim`: neither end of the result is white space. The result is a prefix of TrimStart(s),
   * which drops only leading white space, and what follows that prefix is white space.
   */
  function Trim(s: string): (r: string)
    ensures |r| <= |TrimStart(s)| <= |s|
    ensures r == [] || (!IsJsSpace(r[0]) && !IsJsSpace(r[|r| - 1]))
    ensures r == TrimStart(s)[..|r|]
    ensures forall k :: |r| <= k < |TrimStart(s)| ==> IsJsSpace(TrimStart(s)[k])
  {
    TrimEnd(TrimStart(s))
  }

  // ----- getPlainText -----

  /** `getPlainText`, its replacements in the source's order. */
  function GetPlainText(markdown: string): (r: string)
    ensures |r| <= |markdown|
  {
    var noHeadings := RemoveHeadingMarkers(markdown);
    var noBold := ReplaceDelimited(noHeadings, "**");
    var noItalic := ReplaceDelimited(noBold, "*");
    var noCode := ReplaceDelimited(noItalic, "`");
    var noLinks := ReplaceLinks(noCode);
    var noImages := ReplaceImages(noLinks);
    Trim(noImages)
  }

  // ----- What each replacement does -----

  /** Text without `#` has no heading marker to remove. */
  lemma {:induction false} HeadingMarkersAbsent(s: string)
    requires '#' !in s
    ensures RemoveHeadingMarkers(s) == s
  {
    if s != [] {
      assert s[0] != '#';
      HeadingMarkersAbsent(s[1..]);
    }
  }

  /** One to six signs and a space open a heading line; the marker is removed. */
  lemma HeadingLine(k: nat, title: string)
    requires 1 <= k <= 6 && '#' !in title
    ensures RemoveHeadingMarkers(seq(k, _ => '#') + " " + title) == title
  {
    var s := seq(k, _ => '#') + " " + title;
    HashRunOfHashes(k, " " + title);
    assert s == seq(k, _ => '#') + (" " + title);
    assert s[k + 1..] == title;
    HeadingMarkersAbsent(title);
  }

  /** Seven signs are too many at the first position; the last six and the space then match. */
  lemma SevenSigns(title: string)
    requires '#' !in title
    ensures RemoveHeadingMarkers("####### " + title) == "#" + title
  {
    var s := "####### " + title;
    HashRunOfHashes(7, " " + title);
    assert s == seq(7, _ => '#') + (" " + title);
    assert s[1..] == seq(6, _ => '#') + " " + title;
    HeadingLine(6, title);
  }

  lemma {:induction false} HashRunOfHashes(k: nat, rest: string)
    requires rest == [] || rest[0] != '#'
    ensures HashRun(seq(k, _ => '#') + rest) == k
  {
    if k > 0 {
      var s := seq(k, _ => '#') + rest;
      assert s[1..] == seq(k - 1, _ => '#') + rest;
      HashRunOfHashes(k - 1, rest);
    }
  }

  /**
   * The lazy group stops at the first delimiter: after a non-empty group x without line
   * terminators and without the delimiter's first character, the group is exactly x.
   */
  lemma LazyContentOf(x: string, d: string, rest: string)
    requires x != [] && NoLineTerminator(x) && d != [] && d[0] !in x
    ensures LazyContent(x + d + rest, d, 1) == Some(|x|)
  {
    var t := x + d + rest;
    LazyContentIsLeastMatch(t, d, 1);
    assert t[..|x|] == x;
    assert t[|x|..|x| + |d|] == d;
    assert LazyMatch(t, d, |x|);
    forall k | 1 <= k < |x| && k + |d| <= |t|
      ensures !DelimiterAt(t, k, d)
    {
      assert t[k..k + |d|][0] == x[k];
    }
  }

  /** Text without the delimiter's first character is left alone. */
  lemma {:induction false} DelimitedAbsent(s: string, d: string)
    requires d != [] && d[0] !in s
    ensures ReplaceDelimited(s, d) == s
  {
    if s != [] {
      if |d| <= |s| {
        assert s[..|d|][0] == s[0];
      }
      DelimitedAbsent(s[1..], d);
    }
  }

  /** `**x**`, `*x*` and `` `x` `` become x. */
  lemma DelimitedSpan(x: string, d: string)
    requires x != [] && NoLineTerminator(x) && d != [] && d[0] !in x
    ensures ReplaceDelimited(d + x + d, d) == x
  {
    var s := d + x + d;
    assert s[..|d|] == d;
    assert s[|d|..] == x + d + [];
    LazyContentOf(x, d, []);
    assert DelimitedAt(s, d) == Some(|x|);
    assert s[|d|..|d| + |x|] == x;
    assert s[|d| + |x| + |d|..] == [];
    assert ReplaceDelimited(s, d) == x + ReplaceDelimited([], d);
  }

  /** Text without `[` has no link. */
  lemma {:induction false} LinksAbsent(s: string)
    requires '[' !in s
    ensures ReplaceLinks(s) == s
  {
    if s != [] {
      LinksAbsent(s[1..]);
    }
  }

  /** Text without `[` has no image. */
  lemma {:induction false} ImagesAbsent(s: string)
    requires '[' !in s
    ensures ReplaceImages(s) == s
  {
    if s != [] {
      if |s| >= 2 {
        assert s[..2][1] == s[1];
      }
      ImagesAbsent(s[1..]);
    }
  }

  /** Text without `!` has no image. */
  lemma {:induction false} ImagesAbsentWithoutBang(s: string)
    requires '!' !in s
    ensures ReplaceImages(s) == s
  {
    if s != [] {
      if |s| >= 2 {
        assert s[..2][0] == s[0];
      }
      ImagesAbsentWithoutBang(s[1..]);
    }
  }

  /** The groups of `[text](url)`, read after its `[`. */
  lemma LinkGroups(text: string, url: string)
    requires text != [] && NoLineTerminator(text) && ']' !in text
    requires url != [] && NoLineTerminator(url) && ')' !in url
    ensures LinkAfterBracket(text + "](" + url + ")") == Some((|text|, |url|))
  {
    var t := text + "](" + url + ")";
    assert t[..|text|] == text;
    assert t[|text|..|text| + 2] == "](";
    assert t[|text| + 2..] == url + ")" + [];
    LazyContentOf(url, ")", []);
    assert LinkMatch(t, |text|);
    forall k | 1 <= k < |text| && k + 2 <= |t|
      ensures !DelimiterAt(t, k, "](")
    {
      assert t[k..k + 2][0] == text[k];
    }
    LinkAtIsLeastMatch(t, 1);
  }

  /** `[text](url)` becomes its text. */
  lemma LinkBecomesText(text: string, url: string)
    requires text != [] && NoLineTerminator(text) && ']' !in text
    requires url != [] && NoLineTerminator(url) && ')' !in url
    ensures ReplaceLinks("[" + text + "](" + url + ")") == text
  {
    var s := "[" + text + "](" + url + ")";
    assert s[1..] == text + "](" + url + ")";
    LinkGroups(text, url);
    assert s[1..1 + |text|] == text;
    assert s[1 + |text| + 2 + |url| + 1..] == [];
  }

  /** `![alt](src)` is removed. */
  lemma ImageRemoved(alt: string, src: string)
    requires alt != [] && NoLineTerminator(alt) && ']' !in alt
    requires src != [] && NoLineTerminator(src) && ')' !in src
    ensures ReplaceImages("![" + alt + "](" + src + ")") == ""
  {
    var s := "![" + alt + "](" + src + ")";
    assert s[..2] == "![";
    assert s[2..] == alt + "](" + src + ")";
    LinkGroups(alt, src);
    assert s[2 + |alt| + 2 + |src| + 1..] == [];
  }

  /** Text that neither starts nor ends with a space is its own trim. */
  lemma TrimKeeps(s: string)
    requires s == [] || (!IsJsSpace(s[0]) && !IsJsSpace(s[|s| - 1]))
    ensures Trim(s) == s
  {
  }

  /** Trimming twice is trimming once. */
  lemma TrimIdempotent(s: string)
    ensures Trim(Trim(s)) == Trim(s)
  {
    var r := Trim(s);
    var u := TrimStart(s);
    if r != [] {
      assert r[0] == u[0];
      TrimKeeps(r);
    }
  }

  // ----- getPlainText -----

  /** Text with none of the characters the replacements look for, as links and images use it. */
  predicate PlainPart(u: string) {
    u != [] && NoLineTerminator(u) &&
    '#' !in u && '*' !in u && '`' !in u && '[' !in u && ']' !in u && ')' !in u && '!' !in u
  }

  /** The first four replacements leave text without `#`, `*` and backticks alone. */
  lemma NoEmphasisOrCode(s: string)
    requires '#' !in s && '*' !in s && '`' !in s
    ensures ReplaceDelimited(ReplaceDelimited(ReplaceDelimited(RemoveHeadingMarkers(s), "**"), "*"), "`") == s
  {
    HeadingMarkersAbsent(s);
    DelimitedAbsent(s, "**");
    DelimitedAbsent(s, "*");
    DelimitedAbsent(s, "`");
  }

  lemma LinkHasNoEmphasisOrCode(text: string, url: string)
    requires PlainPart(text) && PlainPart(url)
    ensures var s := "[" + text + "](" + url + ")";
      '#' !in s && '*' !in s && '`' !in s && '!' !in s
  {
  }

  /** Without `#`, `*` and backticks only the link and image replacements and the trim act. */
  lemma LinkStages(s: string)
    requires '#' !in s && '*' !in s && '`' !in s
    ensures GetPlainText(s) == Trim(ReplaceImages(ReplaceLinks(s)))
  {
    NoEmphasisOrCode(s);
  }

  /** Text with no markup character is only trimmed. */
  lemma UnmarkedTextIsTrimmed(s: string)
    requires '#' !in s && '*' !in s && '`' !in s && '[' !in s
    ensures GetPlainText(s) == Trim(s)
  {
    NoEmphasisOrCode(s);
    LinksAbsent(s);
    ImagesAbsent(s);
  }

  /** A link is replaced by its text. */
  lemma LinkGivesText(text: string, url: string)
    requires PlainPart(text) && PlainPart(url)
    requires !IsJsSpace(text[0]) && !IsJsSpace(text[|text| - 1])
    ensures GetPlainText("[" + text + "](" + url + ")") == text
  {
    var s := "[" + text + "](" + url + ")";
    NoEmphasisOrCode(s);
    LinkBecomesText(text, url);
    ImagesAbsent(text);
    TrimKeeps(text);
  }

  /**
   * An image keeps a `!` and its alternative text: the link replacement runs first and takes
   * the `[alt](src)` part, so the image replacement finds nothing left to remove.
   */
  lemma ImageLeavesAltText(alt: string, src: string)
    requires PlainPart(alt) && PlainPart(src) && !IsJsSpace(alt[|alt| - 1])
    ensures GetPlainText("![" + alt + "](" + src + ")") == "!" + alt
  {
    var link := "[" + alt + "](" + src + ")";
    var s := "!" + link;
    ImageConcat(alt, src);
    LinkHasNoEmphasisOrCode(alt, src);
    LinkAfterBang(alt, src);
    var kept := "!" + alt;
    assert kept[|kept| - 1] == alt[|alt| - 1];
    OnlyLinksAct(s, kept);
  }

  /** When only the link replacement changes the text, its output is the result. */
  lemma OnlyLinksAct(s: string, kept: string)
    requires '#' !in s && '*' !in s && '`' !in s && '[' !in kept
    requires ReplaceLinks(s) == kept
    requires kept == [] || (!IsJsSpace(kept[0]) && !IsJsSpace(kept[|kept| - 1]))
    ensures GetPlainText(s) == kept
  {
    LinkStages(s);
    ImagesAbsent(kept);
    TrimKeeps(kept);
  }

  lemma ImageConcat(alt: string, src: string)
    ensures "![" + alt + "](" + src + ")" == "!" + ("[" + alt + "](" + src + ")")
  {
  }

  /** The `!` in front of a link is copied; the link becomes its text. */
  lemma LinkAfterBang(alt: string, src: string)
    requires PlainPart(alt) && PlainPart(src)
    ensures ReplaceLinks("!" + ("[" + alt + "](" + src + ")")) == "!" + alt
  {
    var link := "[" + alt + "](" + src + ")";
    var s := "!" + link;
    LinkBecomesText(alt, src);
    assert s[1..] == link;
    assert ReplaceLinks(s) == [s[0]] + ReplaceLinks(s[1..]);
  }

  /** `getPlainText` with the image replacement moved before the link replacement. */
  function GetPlainTextImagesFirst(markdown: string): (r: string)
    ensures |r| <= |markdown|
  {
    var noHeadings := RemoveHeadingMarkers(markdown);
    var noBold := ReplaceDelimited(noHeadings, "**");
    var noItalic := ReplaceDelimited(noBold, "*");
    var noCode := ReplaceDelimited(noItalic, "`");
    var noImages := ReplaceImages(noCode);
    var noLinks := ReplaceLinks(noImages);
    Trim(noLinks)
  }

  /** With images removed first, an image leaves nothing. */
  lemma ImagesFirstRemovesImage(alt: string, src: string)
    requires PlainPart(alt) && PlainPart(src)
    ensures GetPlainTextImagesFirst("![" + alt + "](" + src + ")") == ""
  {
    var s := "![" + alt + "](" + src + ")";
    NoEmphasisOrCode(s);
    ImageRemoved(alt, src);
    LinksAbsent("");
  }

  /** With images removed first, a link still gives its text. */
  lemma ImagesFirstLinkGivesText(text: string, url: string)
    requires PlainPart(text) && PlainPart(url)
    requires !IsJsSpace(text[0]) && !IsJsSpace(text[|text| - 1])
    ensures GetPlainTextImagesFirst("[" + text + "](" + url + ")") == text
  {
    var s := "[" + text + "](" + url + ")";
    LinkHasNoEmphasisOrCode(text, url);
    NoEmphasisOrCode(s);
    ImagesAbsentWithoutBang(s);
    LinkBecomesText(text, url);
    TrimKeeps(text);
    assert GetPlainTextImagesFirst(s) == Trim(ReplaceLinks(ReplaceImages(s)));
  }
}
