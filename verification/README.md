# react-llm-rtf core in Dafny

This project models the logic inside `react-llm-rtf`, a React component that renders markdown
arriving piece by piece from a language model. It has four parts:

- **Markdown helpers** (`src/utils/markdownParser.ts`), in modules `MarkdownParser`,
  `SanitizerAllowList` and `PlainText`:
  - the incomplete-markup detector `hasIncompleteMarkdown`, built on exact counting functions
    for its four global regular expressions;
  - `escapeHtml` and its inverse;
  - the heading-id slug;
  - the custom renderer templates (code block, inline code, link, heading, blockquote, list,
    table) as a small markup tree with its HTML text;
  - the sanitizer's fixed tag and attribute allow-lists;
  - `getPlainText`, whose regular expressions are modelled character by character. This
    includes the lazy `(.+?)` groups, the backtracking of the link pattern, JavaScript's `\s`
    set, and `.`, which excludes line terminators.
- **Chunked delivery simulator** (`src/hooks/useStreamingContent.ts`), module
  `StreamingContent`. The hook is the class `StreamingHook`; its pending `setTimeout` becomes an
  explicit `Tick`. Each method is specified by a transition function on the value type `Hook`.
  Lemmas prove:
  - the prefix invariant of a run;
  - the exact number of ticks to completion;
  - what `stopStreaming`, `setContent` and `appendContent` do to a run.
- **Streaming buffer and settle logic** (`src/components/LLMRichText.tsx`), module `RichText`.
  The class `Component` holds the ref, the two state variables, the armed settle timer (as a
  deadline) and the props of the last render.
  - `Update` is one render with new props, together with the effects it triggers in React's
    order, including the second render caused by a changed `displayedContent`.
  - `QuietElapsed` is the settle timer firing.
  - The cursor condition and the container style are functions.
- **Theme to CSS variables** (`src/utils/themeUtils.ts`), module `ThemeUtils`.
  - `ThemeToCssVariables` fills the dictionary in source order through guarded assignments.
  - It is proved equal to `CssVariables`, a fold of the same 74 assignments. The lemmas describe
    that fold.
  - The theme presets are constants.

Supporting modules: `Wrappers` (Option and JavaScript truthiness of optional strings) and
`Decimal` (how an integral number is printed, with its inverse).

## Model

| member | source | states |
|---|---|---|
| Decimal.NatToDecimal | src/utils/themeUtils.ts:83-86 | the printed form of a natural number is a non-empty string of decimal digits |
| Decimal.IntToDecimal | src/utils/themeUtils.ts:83-86 | the printed form of an integer is non-empty and starts with `-` exactly when the integer is negative |
| Decimal.NatToDecimalRoundTrip | src/utils/themeUtils.ts:83-86 | reading the printed digits of n gives back n |
| Decimal.IntToDecimalRoundTrip | src/utils/themeUtils.ts:83-86 | reading the printed form of any integer, sign included, gives back that integer |
| SanitizerAllowList.IsAllowedTag | src/utils/markdownParser.ts:91-113 | the 54 tags of `ALLOWED_TAGS`, the partner of the `*MarkupAllowed` lemmas (a predicate, no contract of its own) |
| SanitizerAllowList.IsAllowedAttribute | src/utils/markdownParser.ts:114-127 | the 22 attributes of `ALLOWED_ATTR` (a predicate, no contract of its own) |
| SanitizerAllowList.ScriptNotAllowed | src/utils/markdownParser.ts:91-127 | `script`, `style` and `iframe` are not allowed tags; `onclick`, `onerror` and `style` are not allowed attributes |
| MarkdownParser.HasIncompleteMarkdown | src/utils/markdownParser.ts:165-183 | false exactly when the fence, backtick, bold and lone-star counts are all even |
| MarkdownParser.CharCountIsMultiplicity | src/utils/markdownParser.ts:171 | the matches of a one-character global regex are the occurrences of that character |
| MarkdownParser.CharCountAppend | src/utils/markdownParser.ts:171 | occurrence counts add up over concatenation |
| MarkdownParser.FenceCountBound | src/utils/markdownParser.ts:167 | each fence match uses three backticks: 3 × fences ≤ backticks |
| MarkdownParser.BoldCountBound | src/utils/markdownParser.ts:175 | each bold match uses two stars: 2 × bold ≤ stars |
| MarkdownParser.LoneStarsBound | src/utils/markdownParser.ts:179 | there are no more lone stars than stars |
| MarkdownParser.FenceCountAppend | src/utils/markdownParser.ts:167 | fence matches add up when the left part does not end in a backtick |
| MarkdownParser.FenceCountRun | src/utils/markdownParser.ts:167 | a run of n backticks holds n / 3 fence matches (integer division) |
| MarkdownParser.BoldCountRun | src/utils/markdownParser.ts:175 | a run of n stars holds n / 2 bold matches |
| MarkdownParser.StarRunHasNoItalic | src/utils/markdownParser.ts:179 | no star in a run of two or more stars counts as italic |
| MarkdownParser.TripleStar | src/utils/markdownParser.ts:175-180 | `***` has one bold match and no italic match, so it is incomplete |
| MarkdownParser.StarFreeHasNoEmphasis | src/utils/markdownParser.ts:175-180 | text without stars has no bold and no italic matches |
| MarkdownParser.FencedBlockCounts | src/utils/markdownParser.ts:167-172 | a fenced block with a backtick-free body has two fences and six backticks |
| MarkdownParser.ClosedFenceComplete | src/utils/markdownParser.ts:165-183 | a closed fenced block of plain text is complete |
| MarkdownParser.OpenFenceIncomplete | src/utils/markdownParser.ts:165-168 | an opened, unclosed fence is incomplete |
| MarkdownParser.StrayBacktick | src/utils/markdownParser.ts:171-172 | a single backtick, with no fence anywhere, makes the text incomplete |
| MarkdownParser.FourBackticks | src/utils/markdownParser.ts:167-172 | four backticks hold one fence match (odd) and an even total of four backticks, so the fence test alone makes them incomplete |
| MarkdownParser.BoldExamples | src/utils/markdownParser.ts:165-183 | `**x**` is complete, `**x` is incomplete, and the empty text is complete |
| MarkdownParser.EscapeHtml | src/utils/markdownParser.ts:137-146 | the escaped text contains no `<`, `>`, `"` or `'` |
| MarkdownParser.UnescapeHtml | src/utils/markdownParser.ts:138-144 | decoding the five entities of the table never lengthens the text; it is the inverse EscapeRoundTrip proves |
| MarkdownParser.UnescapeEscapedChar | src/utils/markdownParser.ts:138-144 | each of the five entities decodes to the character it replaced |
| MarkdownParser.EscapeRoundTrip | src/utils/markdownParser.ts:137-146 | decoding the five entities of escaped text gives back the text |
| MarkdownParser.EscapeInjective | src/utils/markdownParser.ts:137-146 | distinct texts escape to distinct strings |
| MarkdownParser.NonWordRun | src/utils/markdownParser.ts:46 | the maximal leading run of non-`\w` characters |
| MarkdownParser.ReplaceNonWordRuns | src/utils/markdownParser.ts:46 | each maximal non-`\w` run becomes one `-`: the output is `\w` characters of the input and `-`, never `--`, and no longer than the input |
| MarkdownParser.Slug | src/utils/markdownParser.ts:46 | the id holds only lower-case `\w` characters and `-`, never two `-` in a row |
| MarkdownParser.ToLower | src/utils/markdownParser.ts:46 | `toLowerCase` on ASCII letters, character by character; LowerHasNoCapitals and LowerKeepsSlugChars state its meaning |
| MarkdownParser.LowerHasNoCapitals | src/utils/markdownParser.ts:46 | lower-casing keeps the length and leaves no capital letter |
| MarkdownParser.LowerKeepsSlugChars | src/utils/markdownParser.ts:46 | lower-casing changes nothing in text made of slug characters |
| MarkdownParser.ReplaceKeepsSlugs | src/utils/markdownParser.ts:46 | the run replacement changes nothing in a slug |
| MarkdownParser.SlugIdempotent | src/utils/markdownParser.ts:46 | the slug of a slug is itself |
| MarkdownParser.CodeLanguage | src/utils/markdownParser.ts:13 | the language is `language`, else `codeLanguage`, else `plaintext`, by truthiness, and never empty |
| MarkdownParser.CodeBlock | src/utils/markdownParser.ts:12-30 | `renderer.code` as a markup tree: highlighted when enabled and the highlighter succeeds, escaped otherwise; its text is CodeBlockTemplate; the language is written into two attribute values unescaped (CodeAttributesQuoteFree) |
| MarkdownParser.CodeSpan | src/utils/markdownParser.ts:33-35 | `renderer.codespan` as a markup tree; its text is CodeSpanTemplate |
| MarkdownParser.Link | src/utils/markdownParser.ts:38-42 | `renderer.link` as a markup tree, title attribute for a truthy title only; its text is LinkTemplate, its attributes LinkAttributes |
| MarkdownParser.Heading | src/utils/markdownParser.ts:45-48 | `renderer.heading` as a markup tree, `h<level>` with the slug id; its text is HeadingTemplate |
| MarkdownParser.Blockquote | src/utils/markdownParser.ts:51-53 | `renderer.blockquote` as a markup tree; its text is BlockquoteTemplate |
| MarkdownParser.List | src/utils/markdownParser.ts:56-59 | `renderer.list` as a markup tree, `ol` when ordered and `ul` otherwise; its text is ListAndTableTemplates |
| MarkdownParser.Table | src/utils/markdownParser.ts:62-64 | `renderer.table` as a markup tree with `thead` and `tbody`; its text is ListAndTableTemplates |
| MarkdownParser.CodeBlockTemplate | src/utils/markdownParser.ts:12-30 | highlighted output when highlighting is enabled and succeeds, the escaped fallback otherwise, each in the source's template |
| MarkdownParser.CodeAndListElements | src/utils/markdownParser.ts:13-58 | `data-language` names the fallback language; the class is `hljs language-…` exactly when highlighting was enabled and succeeded; otherwise the code is escaped; a list is `ol` exactly when ordered |
| MarkdownParser.CodeSpanTemplate | src/utils/markdownParser.ts:33-35 | inline code is `<code class="inline-code">` around the escaped code |
| MarkdownParser.LinkTemplate | src/utils/markdownParser.ts:38-42 | the link HTML is the source's template, with a title attribute only for a truthy title |
| MarkdownParser.LinkAttributes | src/utils/markdownParser.ts:38-42 | every link has `target="_blank"` and `rel="noopener noreferrer"`, has a title exactly when the title is truthy, and no attribute value contains `"` |
| MarkdownParser.HeadingTemplate | src/utils/markdownParser.ts:45-48 | the heading HTML is `h<level>` with the slug as its id, in the source's template |
| MarkdownParser.HeadingElement | src/utils/markdownParser.ts:45-48 | a level from 1 to 6 gives `h1` to `h6` with the slug as its only attribute |
| MarkdownParser.BlockquoteTemplate | src/utils/markdownParser.ts:51-53 | a blockquote is `<blockquote class="llm-blockquote">` around the quote |
| MarkdownParser.ListAndTableTemplates | src/utils/markdownParser.ts:56-64 | the list and table HTML are the source's templates, with `ol` or `ul` by `ordered` |
| MarkdownParser.CodeMarkupAllowed | src/utils/markdownParser.ts:91-127 | the markup trees of code blocks and inline code use only allowed tags and attributes; for a code block this carries over to the HTML text only when the language holds no `"` |
| MarkdownParser.CodeAttributesQuoteFree | src/utils/markdownParser.ts:13-29 | the code element's attribute values are free of `"` exactly when the language is |
| MarkdownParser.QuoteInLanguageAddsAttribute | src/utils/markdownParser.ts:13-29 | as written, the language `x"onclick="y` gives HTML text with an `onclick` attribute, although the tree is allow-listed |
| MarkdownParser.CodeBlockEscaped | src/utils/markdownParser.ts:12-30 | `renderer.code` with the language escaped inside attribute values; its properties are CodeBlockEscapedQuoteFree |
| MarkdownParser.CodeBlockEscapedQuoteFree | src/utils/markdownParser.ts:13-29 | with the language escaped, no attribute value of the code element holds `"`, whatever the language, and `data-language` decodes back to the language |
| MarkdownParser.CodeBlockEscapedAllowed | src/utils/markdownParser.ts:91-127 | the corrected code block's markup tree uses only allowed tags and attributes |
| MarkdownParser.LinkMarkupAllowed | src/utils/markdownParser.ts:91-127 | links use only allowed tags and attributes |
| MarkdownParser.HeadingMarkupAllowed | src/utils/markdownParser.ts:91-127 | headings use only allowed tags and attributes |
| MarkdownParser.BlockMarkupAllowed | src/utils/markdownParser.ts:91-127 | blockquotes, lists and tables use only allowed tags and attributes |
| PlainText.HashRun | src/utils/markdownParser.ts:153 | the maximal leading run of `#` |
| PlainText.RemoveHeadingMarkers | src/utils/markdownParser.ts:153 | removing `#{1,6}\s` matches never lengthens the text |
| PlainText.HeadingMarkersAbsent | src/utils/markdownParser.ts:153 | text without `#` is unchanged |
| PlainText.HeadingLine | src/utils/markdownParser.ts:153 | `#`×k (1 ≤ k ≤ 6), a space and a title become the title |
| PlainText.SevenSigns | src/utils/markdownParser.ts:153 | seven `#` and a space leave one `#` (the match starts at the second sign) |
| PlainText.LazyContent | src/utils/markdownParser.ts:154-156 | the lazy group's length, if any, lies inside the text and leaves room for the closing delimiter |
| PlainText.LazyContentIsLeastMatch | src/utils/markdownParser.ts:154-156 | the lazy group is the shortest non-empty, line-terminator-free group followed by the delimiter, and None means there is none |
| PlainText.DelimitedAt | src/utils/markdownParser.ts:154-156 | a delimited match lies inside the text and has non-empty content |
| PlainText.ReplaceDelimited | src/utils/markdownParser.ts:154-156 | replacing delimited spans by their content never lengthens the text |
| PlainText.LazyContentOf | src/utils/markdownParser.ts:154-156 | content free of the delimiter and of line terminators is exactly the lazy group |
| PlainText.DelimitedAbsent | src/utils/markdownParser.ts:154-156 | text without the delimiter is unchanged |
| PlainText.DelimitedSpan | src/utils/markdownParser.ts:154-156 | a delimited span (`**x**`, `*x*`, `` `x` ``) becomes its content |
| PlainText.LinkAt | src/utils/markdownParser.ts:157 | a link match found by backtracking lies inside the text, with non-empty groups |
| PlainText.LinkAtIsLeastMatch | src/utils/markdownParser.ts:157 | the link's text group is the shortest one for which the rest of the pattern matches, and None means no match |
| PlainText.LinkAfterBracket | src/utils/markdownParser.ts:157 | a link match after `[` lies inside the text |
| PlainText.ReplaceLinks | src/utils/markdownParser.ts:157 | replacing links by their text never lengthens the text |
| PlainText.ReplaceImages | src/utils/markdownParser.ts:158 | removing images never lengthens the text |
| PlainText.LinksAbsent | src/utils/markdownParser.ts:157 | text without `[` is unchanged by the link replacement |
| PlainText.ImagesAbsent | src/utils/markdownParser.ts:158 | text without `[` is unchanged by the image removal |
| PlainText.ImagesAbsentWithoutBang | src/utils/markdownParser.ts:158 | text without `!` is unchanged by the image removal |
| PlainText.LinkGroups | src/utils/markdownParser.ts:157 | for plain text and URL, the link groups are exactly the text and the URL |
| PlainText.LinkBecomesText | src/utils/markdownParser.ts:157 | `[text](url)` becomes `text` |
| PlainText.ImageRemoved | src/utils/markdownParser.ts:158 | the image pattern removes `![alt](src)` entirely |
| PlainText.LinkAfterBang | src/utils/markdownParser.ts:157 | the link pattern turns `![alt](src)` into `!alt` |
| PlainText.TrimStart | src/utils/markdownParser.ts:159 | removes exactly the leading JavaScript white space |
| PlainText.TrimEnd | src/utils/markdownParser.ts:159 | removes exactly the trailing JavaScript white space |
| PlainText.Trim | src/utils/markdownParser.ts:159 | neither end of the result is white space, and only white space at either end is removed |
| PlainText.TrimKeeps | src/utils/markdownParser.ts:159 | text with no white space at either end is unchanged |
| PlainText.TrimIdempotent | src/utils/markdownParser.ts:159 | trimming twice is trimming once |
| PlainText.GetPlainText | src/utils/markdownParser.ts:151-160 | the six replacements in source order and the trim never lengthen the text |
| PlainText.NoEmphasisOrCode | src/utils/markdownParser.ts:153-156 | text free of `#`, `*` and backticks passes the first four replacements unchanged |
| PlainText.LinkStages | src/utils/markdownParser.ts:151-160 | for such text only the link and image stages and the trim act |
| PlainText.UnmarkedTextIsTrimmed | src/utils/markdownParser.ts:151-160 | text with no markup characters comes out trimmed and otherwise unchanged |
| PlainText.LinkGivesText | src/utils/markdownParser.ts:151-160 | the plain text of `[text](url)` is `text` |
| PlainText.ImageLeavesAltText | src/utils/markdownParser.ts:157-158 | as written, the plain text of `![alt](src)` is `!alt` |
| PlainText.GetPlainTextImagesFirst | src/utils/markdownParser.ts:151-160 | the extractor with images removed before links; it never lengthens the text |
| PlainText.ImagesFirstRemovesImage | src/utils/markdownParser.ts:158 | with images first, `![alt](src)` leaves nothing |
| PlainText.ImagesFirstLinkGivesText | src/utils/markdownParser.ts:157 | with images first, `[text](url)` still gives `text` |
| ThemeUtils.Name | src/utils/themeUtils.ts:11-125 | the property name the source writes for each of the 74 variables; NameInjective and CssVariablesKeys state its meaning |
| ThemeUtils.Value | src/utils/themeUtils.ts:10-126 | the value read for a variable, None when its section or field is absent, font weights as decimal text; CssVariablesLookup states its use |
| ThemeUtils.Put | src/utils/themeUtils.ts:11 | one guarded assignment `if (value) cssVars[name] = value`; AssignIfTruthy performs it in place |
| ThemeUtils.Prefix | src/utils/themeUtils.ts:7-126 | the dictionary after the first k guarded assignments; PrefixLookup and PrefixKeys state its contents |
| ThemeUtils.CssVariables | src/utils/themeUtils.ts:6-129 | the dictionary `themeToCSSVariables` returns, all 74 assignments; CssVariablesLookup and CssVariablesKeys state its contents |
| ThemeUtils.NameInjective | src/utils/themeUtils.ts:11-125 | the 74 variable names are pairwise distinct |
| ThemeUtils.WeightText | src/utils/themeUtils.ts:83-86 | a weight gives text exactly when it is present and non-zero, and the text reads back as the weight |
| ThemeUtils.PrefixLookup | src/utils/themeUtils.ts:6-128 | after the first k assignments, a field's variable is present exactly when it is among them and truthy, and holds its value |
| ThemeUtils.PrefixKeys | src/utils/themeUtils.ts:6-128 | every key after k assignments names one of those fields with a truthy value |
| ThemeUtils.AbsentFieldsAddNothing | src/utils/themeUtils.ts:10-126 | assignments whose values are all absent leave the dictionary as it was |
| ThemeUtils.SameValuesSamePrefix | src/utils/themeUtils.ts:6-128 | two themes with the same field values give the same dictionary |
| ThemeUtils.AssignIfTruthy | src/utils/themeUtils.ts:11 | one guarded string assignment adds the field's variable iff the value is truthy |
| ThemeUtils.AssignWeightIfTruthy | src/utils/themeUtils.ts:83 | one guarded weight assignment adds the printed weight iff it is present and non-zero |
| ThemeUtils.AssignTextColors | src/utils/themeUtils.ts:11-13 | the text colour assignments perform their part of the fold |
| ThemeUtils.AssignLinkColors | src/utils/themeUtils.ts:15-17 | the link colour assignments perform their part of the fold |
| ThemeUtils.AssignCodeColors | src/utils/themeUtils.ts:19-22 | the code colour assignments perform their part of the fold |
| ThemeUtils.AssignBlockquoteColors | src/utils/themeUtils.ts:24-26 | the blockquote colour assignments perform their part of the fold |
| ThemeUtils.AssignTableColors | src/utils/themeUtils.ts:28-33 | the table colour assignments perform their part of the fold |
| ThemeUtils.AssignListColors | src/utils/themeUtils.ts:35-39 | the list and checkbox colour assignments perform their part of the fold |
| ThemeUtils.AssignOtherColors | src/utils/themeUtils.ts:41-46 | the rule, mark and kbd colour assignments perform their part of the fold |
| ThemeUtils.AssignInteractiveColors | src/utils/themeUtils.ts:48-50 | the details colour assignments perform their part of the fold |
| ThemeUtils.AssignCopyButtonColors | src/utils/themeUtils.ts:52-55 | the copy-button colour assignments perform their part of the fold |
| ThemeUtils.AssignBackgroundColor | src/utils/themeUtils.ts:57 | the background assignment performs its part of the fold |
| ThemeUtils.AssignColors | src/utils/themeUtils.ts:10-58 | the colours section performs assignments 0–37 of the fold |
| ThemeUtils.AssignFonts | src/utils/themeUtils.ts:61-66 | the fonts section performs its part of the fold |
| ThemeUtils.AssignFontSizes | src/utils/themeUtils.ts:69-79 | the font-size section performs its part of the fold |
| ThemeUtils.AssignFontWeights | src/utils/themeUtils.ts:82-87 | the font-weight section performs its part of the fold |
| ThemeUtils.AssignSpacing | src/utils/themeUtils.ts:90-98 | the spacing section performs its part of the fold |
| ThemeUtils.AssignBorders | src/utils/themeUtils.ts:101-107 | the borders section performs its part of the fold |
| ThemeUtils.AssignListStyles | src/utils/themeUtils.ts:110-114 | the list-style section performs its part of the fold |
| ThemeUtils.AssignTableSettings | src/utils/themeUtils.ts:117-120 | the table section performs its part of the fold |
| ThemeUtils.AssignAnimations | src/utils/themeUtils.ts:123-126 | the animation section performs its part of the fold |
| ThemeUtils.ColorAbsentAddsNothing | src/utils/themeUtils.ts:10 | an absent colours section adds no variable |
| ThemeUtils.FontAbsentAddsNothing | src/utils/themeUtils.ts:61 | an absent fonts section adds no variable |
| ThemeUtils.FontSizeAbsentAddsNothing | src/utils/themeUtils.ts:69 | an absent font-size section adds no variable |
| ThemeUtils.FontWeightAbsentAddsNothing | src/utils/themeUtils.ts:82 | an absent font-weight section adds no variable |
| ThemeUtils.SpacingAbsentAddsNothing | src/utils/themeUtils.ts:90 | an absent spacing section adds no variable |
| ThemeUtils.BorderAbsentAddsNothing | src/utils/themeUtils.ts:101 | an absent borders section adds no variable |
| ThemeUtils.ListAbsentAddsNothing | src/utils/themeUtils.ts:110 | an absent list section adds no variable |
| ThemeUtils.TableAbsentAddsNothing | src/utils/themeUtils.ts:117 | an absent table section adds no variable |
| ThemeUtils.AnimationAbsentAddsNothing | src/utils/themeUtils.ts:123 | an absent animation section adds no variable |
| ThemeUtils.ThemeToCssVariables | src/utils/themeUtils.ts:6-129 | the dictionary built in place equals the fold of all 74 guarded assignments |
| ThemeUtils.CssVariablesLookup | src/utils/themeUtils.ts:6-128 | a field's variable is present exactly when its section is present and its value truthy, and then holds that value |
| ThemeUtils.CssVariablesKeys | src/utils/themeUtils.ts:6-128 | every key names a field with a truthy value and starts with `--llm-` |
| ThemeUtils.TextColorVariable | src/utils/themeUtils.ts:11 | a truthy `colors.text` is stored under `--llm-text-color` |
| ThemeUtils.EmptyStringOmitted | src/utils/themeUtils.ts:11-125 | a field set to the empty string adds no variable |
| ThemeUtils.FontWeightVariable | src/utils/themeUtils.ts:83-86 | a weight is stored as its decimal text, which reads back as the weight, and 0 is omitted |
| ThemeUtils.EmptyThemeNoVariables | src/utils/themeUtils.ts:128 | a theme without sections gives an empty dictionary |
| ThemeUtils.BooleanSettingsIgnored | src/utils/themeUtils.ts:117-126 | `stripedRows`, `hoverEffect` and `enabled` never affect the result |
| ThemeUtils.DefaultPresetNoVariables | src/utils/themeUtils.ts:135 | the `default` preset gives an empty dictionary |
| ThemeUtils.OceanPresetVariables | src/utils/themeUtils.ts:137-151 | the `ocean` preset sets exactly its eight colours and the border radius |
| ThemeUtils.PresetBorderRadius | src/utils/themeUtils.ts:137-225 | each named preset sets the border radius it lists |
| ThemeUtils.PresetListAndFontSettings | src/utils/themeUtils.ts:186-225 | `minimal` sets square bullets and `modern` an 18px base font size |
| StreamingContent.Substring | src/hooks/useStreamingContent.ts:133 | `substring` within bounds is the slice, with swapped bounds it is the reversed-bounds slice, and it is never longer than the string |
| StreamingContent.CeilDiv | src/hooks/useStreamingContent.ts:125 | no chunks exactly for no characters |
| StreamingContent.CeilDivIsCeiling | src/hooks/useStreamingContent.ts:125 | the chunk count is the ceiling of length / chunk size |
| StreamingContent.AfterReset | src/hooks/useStreamingContent.ts:87-96 | the state after `reset`; StartForgetsEarlierState states its use |
| StreamingContent.AfterSetContent | src/hooks/useStreamingContent.ts:98-101 | the state after `setContent`; SetContentKeepsTimer states its effect on a run |
| StreamingContent.AfterAppend | src/hooks/useStreamingContent.ts:103-105 | the state after `appendContent`; AppendAddsChunk states it |
| StreamingContent.AfterStop | src/hooks/useStreamingContent.ts:107-115 | the state after `stopStreaming`; StopShowsTarget states its effect on a run |
| StreamingContent.AfterChunk | src/hooks/useStreamingContent.ts:123-138 | one run of the `streamChunk` closure; TickKeepsPrefix and TickAtEndFinishes state it |
| StreamingContent.AfterStart | src/hooks/useStreamingContent.ts:117-143 | the state after `startStreaming`; StartReleasesFirstChunk and StreamingCompletes state it |
| StreamingContent.AfterTick | src/hooks/useStreamingContent.ts:137 | the armed timer firing its captured closure; TickKeepsPrefix states it |
| StreamingContent.RunTicks | src/hooks/useStreamingContent.ts:137 | n timer periods elapsing; RunFinishes, RunStillStreaming and IdleTicks state it |
| StreamingContent.TickKeepsPrefix | src/hooks/useStreamingContent.ts:123-137 | before the end, a tick appends `full[i..min(i + chunkSize, length)]`, advances the index to that bound and keeps content == full[..index] |
| StreamingContent.TickAtEndFinishes | src/hooks/useStreamingContent.ts:127-131 | at the end, a tick stops streaming, calls `onComplete` once and schedules nothing |
| StreamingContent.ZeroChunkSizeStalls | src/hooks/useStreamingContent.ts:125-137 | with chunk size 0, a tick re-arms the same state for ever |
| StreamingContent.IdleTicks | src/hooks/useStreamingContent.ts:137 | without an armed timer, time passing changes nothing |
| StreamingContent.TicksKeepFullContent | src/hooks/useStreamingContent.ts:123-138 | ticks never change `fullContentRef` |
| StreamingContent.RunStillStreaming | src/hooks/useStreamingContent.ts:123-138 | before the last chunk's tick, the run is still streaming, its content a prefix of the target, and `onComplete` has not run |
| StreamingContent.RunFinishes | src/hooks/useStreamingContent.ts:123-138 | a run at index i finishes after ⌈(length − i) / chunkSize⌉ + 1 ticks, showing the target, with one `onComplete` |
| StreamingContent.StartReleasesFirstChunk | src/hooks/useStreamingContent.ts:117-141 | `startStreaming` shows the first chunk at once and arms the next tick |
| StreamingContent.EmptyTargetFinishesAtOnce | src/hooks/useStreamingContent.ts:125-131 | streaming an empty target completes immediately |
| StreamingContent.StreamingCompletes | src/hooks/useStreamingContent.ts:117-143 | after `startStreaming`, the run streams for ⌈length / chunkSize⌉ ticks, then shows the target, stops, has called `onComplete` exactly once and stays so |
| StreamingContent.StartForgetsEarlierState | src/hooks/useStreamingContent.ts:119-121 | `startStreaming` resets first: earlier content, index and pending timer do not matter |
| StreamingContent.StopShowsTarget | src/hooks/useStreamingContent.ts:107-115 | stopping at any point of a run, even after appended text, shows the whole target, stops streaming and cancels the timer |
| StreamingContent.SetContentKeepsTimer | src/hooks/useStreamingContent.ts:98-101 | `setContent` during a run clears `isStreaming` but not the timer, so the next tick appends the following chunk to the new content |
| StreamingContent.AppendAddsChunk | src/hooks/useStreamingContent.ts:103-105 | `appendContent` adds exactly the chunk at the end and changes nothing else |
| StreamingContent.StreamingHook.constructor | src/hooks/useStreamingContent.ts:79-85 | a new hook has empty content, is not streaming, has index 0 and no timer |
| StreamingContent.StreamingHook.Reset | src/hooks/useStreamingContent.ts:87-96 | content "", not streaming, full "", index 0, no timer; the callback count is unchanged |
| StreamingContent.StreamingHook.SetContent | src/hooks/useStreamingContent.ts:98-101 | content := x and streaming off; refs, timer and callback count unchanged |
| StreamingContent.StreamingHook.AppendContent | src/hooks/useStreamingContent.ts:103-105 | content := old content + chunk, nothing else changes |
| StreamingContent.StreamingHook.StopStreaming | src/hooks/useStreamingContent.ts:107-115 | timer cleared, content := full target, streaming off, one more `onComplete`; refs unchanged |
| StreamingContent.StreamingHook.StreamChunk | src/hooks/useStreamingContent.ts:123-138 | performs one chunk transition of the run |
| StreamingContent.StreamingHook.StartStreaming | src/hooks/useStreamingContent.ts:117-143 | reset, record the target, start streaming and release the first chunk |
| StreamingContent.StreamingHook.Tick | src/hooks/useStreamingContent.ts:137 | the armed timer fires and runs the chunk transition for its captured target |
| RichText.SettleTimer | src/components/LLMRichText.tsx:67-75 | the settle effect: a deadline now + 500 ms exactly when streaming content equals what is shown |
| RichText.Render | src/components/LLMRichText.tsx:54-75 | one render and its effects in React's order, with the ref recorded in the non-streaming branch or not; the lemmas below state it |
| RichText.AfterUpdate | src/components/LLMRichText.tsx:54-75 | a render of the component as written; UpdateKeepsConsistent and the streaming lemmas state it |
| RichText.AfterSettle | src/components/LLMRichText.tsx:69-72 | the settle timer firing; SettleCompletes states it |
| RichText.SettleDue | src/components/LLMRichText.tsx:69-72 | the armed timer's 500 ms have passed; Debounce states when |
| RichText.CursorVisible | src/components/LLMRichText.tsx:151 | the cursor is rendered when streaming, not complete and `showCursor`; NonStreamingShowsContent, StreamingNewContent and SettleCompletes state when |
| RichText.Consistent | src/components/LLMRichText.tsx:37-75 | the invariant between events; InitialConsistent, UpdateKeepsConsistent and SettleKeepsConsistent prove it |
| RichText.InitialConsistent | src/components/LLMRichText.tsx:37-39 | the initial state satisfies the component's invariant |
| RichText.UpdateKeepsConsistent | src/components/LLMRichText.tsx:55-75 | every render keeps the invariant: non-streaming content is shown and settled, and an armed timer belongs to shown streaming content |
| RichText.SettleKeepsConsistent | src/components/LLMRichText.tsx:69-72 | the timer firing keeps the invariant |
| RichText.NonStreamingShowsContent | src/components/LLMRichText.tsx:60-62 | a non-streaming update shows the content, marks it complete, arms nothing and hides the cursor |
| RichText.NonStreamingCallback | src/components/LLMRichText.tsx:135-139 | `onRenderComplete` runs on the render that turns streaming off (or mounts non-streaming), not on later non-streaming content |
| RichText.StreamingNewContent | src/components/LLMRichText.tsx:56-59 | a streaming update with content other than the ref's records and shows it, marks it incomplete, shows the cursor and arms the timer for now + 500 ms |
| RichText.StreamingRecordedContent | src/components/LLMRichText.tsx:56-75 | a streaming update equal to the ref keeps ref, display, completeness and callback count; unless the props repeat the last render, a fresh timer for now + 500 ms is armed exactly when the content is the one shown |
| RichText.StreamingSameContent | src/components/LLMRichText.tsx:56-75 | after a streaming render, repeating its content is a re-render with the same props and changes nothing, the armed timer included |
| RichText.RepeatAfterSwitchRearms | src/components/LLMRichText.tsx:56-75 | streaming "a", then non-streaming "a", then streaming "a" at time 2 shows "a" as complete yet arms a timer for 502 |
| RichText.ChangeCancelsTimer | src/components/LLMRichText.tsx:67-75 | a content change cancels the armed timer; at most a fresh one from now remains |
| RichText.SettleCompletes | src/components/LLMRichText.tsx:69-72 | when the timer fires, the content is complete, the cursor goes and `onRenderComplete` runs once |
| RichText.Debounce | src/components/LLMRichText.tsx:55-75 | three quick distinct streamed updates leave only the last one's deadline: the timer is due exactly from t3 + 500 ms on, and no callback has run |
| RichText.StaleDisplayAfterSwitch | src/components/LLMRichText.tsx:56-63 | as written, a non-streaming "x" followed by a streaming "" leaves "x" on display, complete, with no timer |
| RichText.RecordedShowsContent | src/components/LLMRichText.tsx:55-64 | with the ref recorded in both branches, every render shows exactly its content |
| RichText.AfterUpdateRecorded | src/components/LLMRichText.tsx:55-64 | a render whose streaming effect records the ref in both branches; RecordedShowsContent states it |
| RichText.Recorded | src/components/LLMRichText.tsx:55-64 | ref and display agree and hold the last props' content; RecordedShowsContent preserves it |
| RichText.ContainerStyle | src/components/LLMRichText.tsx:120-130 | without a theme the style is unchanged; with one, the keys are the union and theme variables override style keys of the same name |
| RichText.Component.constructor | src/components/LLMRichText.tsx:37-39 | ref and displayed content empty, not complete, no timer |
| RichText.Component.Update | src/components/LLMRichText.tsx:55-75 | one render with new props and the effects it runs, imperatively |
| RichText.Component.QuietElapsed | src/components/LLMRichText.tsx:69-72 | the settle timer fires at a time no earlier than its deadline: complete, timer spent, `onRenderComplete` called if given |

## Left out

- The markdown grammar (`marked`) is not part of this model. The renderer functions take the
  strings the library would hand them.
- The sanitizer (DOMPurify) is not part of this model; only its allow-lists are. Sanitizer
  behaviour on arbitrary HTML, script stripping and idempotence are therefore not stated.
- highlight.js is a function parameter of `CodeBlock` that returns the highlighted HTML, or
  None where the library throws.
- `configureMarked` registering the renderer and options with the library is library
  configuration, not modelled.
- `parseMarkdown` is not modelled as a whole, because it is the composition of the two
  libraries above.
- The copy-button DOM injection and the clipboard writes in the component are DOM and
  asynchronous I/O.
- JSX rendering, `dangerouslySetInnerHTML`, the class-name string, CSS imports, `fadeIn` and
  `cursorBlinkSpeed` are presentation only.
- Real timers are out: `setTimeout` becomes an explicit `Tick` (with `chunkDelay`, default 50,
  not modelled) or a deadline fired by `QuietElapsed`. React's scheduling is folded into
  `Update`: the effects run after the render in declaration order, and a changed
  `displayedContent` causes one more render.
- Callback identity is out: `onComplete` and `onRenderComplete` are assumed stable.
  - A new callback identity would re-run the settle effect and the non-streaming callback
    effect. The model does not capture this.
  - The callbacks are counted, not executed.
- Changing `chunkSize` between renders is out: the hook's chunk size is fixed when it is created.
- Strings are sequences of characters. JavaScript's UTF-16 code units, surrogate pairs and
  Unicode case mapping are out.
- MarkdownParser.LowerChar: lower-cases ASCII letters only; the source lower-cases all of Unicode.
- MarkdownParser.CodeMarkupAllowed: holds of the markup tree, where an attribute value is one unit.
  It does not hold of the HTML text when the language contains `"`: the value then closes early
  and adds attributes (QuoteInLanguageAddsAttribute; see "## Findings").
- MarkdownParser.HeadingMarkupAllowed: requires a level from 1 to 6, the range the markdown
  library produces; other levels would give tags outside the allow-list.
- Font weights and `chunkSize` are integers. JavaScript numbers may be fractional or NaN, which
  this model does not capture, and `Decimal` prints magnitudes of 1e21 and more in plain digits
  where JavaScript switches to exponent form.
- StreamingContent.StreamingCompletes: requires chunkSize ≥ 1. A chunk size of 0 never finishes
  (ZeroChunkSizeStalls), and a negative one drives the index below 0.
- Non-streaming `onRenderComplete` fires once per switch to non-streaming, not once per content
  set. Its effect depends on `[streaming, onRenderComplete]` only, and the model follows that
  (NonStreamingCallback).

## Findings

| source | as written | input that shows it | evidently intended | confidence | as-written member | corrected member |
|---|---|---|---|---|---|---|
| src/utils/markdownParser.ts:157-158 | links are replaced before images, so the link pattern consumes an image's `[alt](src)` and the image pattern never matches | `getPlainText("![alt](src)")` gives `!alt` | images are removed entirely (the image line's comment), so the result is empty | not executed; high | PlainText.ImageLeavesAltText | PlainText.ImagesFirstRemovesImage |
| src/components/LLMRichText.tsx:56-63 | the non-streaming branch does not record the content in `previousContentRef`, so streaming content equal to that stale ref is never displayed | non-streaming `"x"`, then streaming `""`: `"x"` stays displayed, marked complete, with no settle timer | the displayed content follows the `content` prop | not executed; medium | RichText.StaleDisplayAfterSwitch | RichText.RecordedShowsContent |
| src/utils/markdownParser.ts:13-29 | the code language (the fence's or the `codeLanguage` prop) is interpolated into `class` and `data-language` unescaped, while the link renderer escapes its attribute values | fence language `x"onclick="y` with highlighting off gives `<pre><code class="language-x"onclick="y" data-language="x"onclick="y">c</code></pre>`, an `onclick` attribute outside the allow-list that reaches the page when `sanitize` is false | the language is escaped in attribute values, so no value can close its quotes | not executed; medium | MarkdownParser.QuoteInLanguageAddsAttribute | MarkdownParser.CodeBlockEscapedQuoteFree |
