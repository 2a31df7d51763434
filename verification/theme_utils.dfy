/**
 * The theme-to-CSS-variables builder of the component library.
 *
 * A theme is a record of nine optional sections, each a record of optional fields.
 * `ThemeToCssVariables` fills a dictionary with one CSS custom property per field whose
 * value is truthy, in the fixed order of the source. Its specification `CssVariables` is
 * the fold of the same 74 guarded assignments, and the lemmas characterise that fold: a
 * field's variable is present exactly when its value is truthy and then holds that value,
 * every key is the name of such a field, all names start with `--llm-` and are pairwise
 * distinct, and the fields that have no variable never matter.
 */
module ThemeUtils {
  import opened Wrappers
  import opened Decimal

  // ----- The theme record -----

  datatype ColorConfig = ColorConfig(
    text: Option<string>,
    textSecondary: Option<string>,
    heading: Option<string>,
    link: Option<string>,
    linkHover: Option<string>,
    linkVisited: Option<string>,
    code: Option<string>,
    codeBg: Option<string>,
    codeBlockBg: Option<string>,
    codeBlockBorder: Option<string>,
    blockquoteBorder: Option<string>,
    blockquoteBg: Option<string>,
    blockquoteText: Option<string>,
    tableBorder: Option<string>,
    tableHeaderBg: Option<string>,
    tableHeaderText: Option<string>,
    tableRowBg: Option<string>,
    tableRowAltBg: Option<string>,
    tableRowHoverBg: Option<string>,
    listBulletColor: Option<string>,
    listNumberColor: Option<string>,
    taskCheckboxBg: Option<string>,
    taskCheckboxBorder: Option<string>,
    taskCheckboxChecked: Option<string>,
    hrColor: Option<string>,
    markBg: Option<string>,
    markText: Option<string>,
    kbdBg: Option<string>,
    kbdBorder: Option<string>,
    kbdText: Option<string>,
    detailsBg: Option<string>,
    detailsBorder: Option<string>,
    summaryHoverColor: Option<string>,
    copyButtonBg: Option<string>,
    copyButtonBorder: Option<string>,
    copyButtonText: Option<string>,
    copyButtonHoverBg: Option<string>,
    background: Option<string>
  )

  datatype FontConfig = FontConfig(
    body: Option<string>,
    heading: Option<string>,
    code: Option<string>,
    monospace: Option<string>
  )

  datatype FontSizeConfig = FontSizeConfig(
    base: Option<string>,
    h1: Option<string>,
    h2: Option<string>,
    h3: Option<string>,
    h4: Option<string>,
    h5: Option<string>,
    h6: Option<string>,
    code: Option<string>,
    small: Option<string>
  )

  /** Font weights are numbers; only integral weights are modelled. */
  datatype FontWeightConfig = FontWeightConfig(
    normal: Option<int>,
    medium: Option<int>,
    semibold: Option<int>,
    bold: Option<int>
  )

  datatype SpacingConfig = SpacingConfig(
    paragraphMargin: Option<string>,
    headingMargin: Option<string>,
    listMargin: Option<string>,
    listItemMargin: Option<string>,
    codeBlockPadding: Option<string>,
    blockquotePadding: Option<string>,
    tableCellPadding: Option<string>
  )

  datatype BorderConfig = BorderConfig(
    radius: Option<string>,
    radiusSmall: Option<string>,
    radiusLarge: Option<string>,
    width: Option<string>,
    style: Option<string>
  )

  datatype ListConfig = ListConfig(
    bulletStyle: Option<string>,
    numberStyle: Option<string>,
    indentation: Option<string>
  )

  datatype TableConfig = TableConfig(
    borderCollapse: Option<string>,
    borderSpacing: Option<string>,
    stripedRows: Option<bool>,
    hoverEffect: Option<bool>
  )

  datatype AnimationConfig = AnimationConfig(
    enabled: Option<bool>,
    duration: Option<string>,
    easing: Option<string>
  )

  datatype ThemeConfig = ThemeConfig(
    colors: Option<ColorConfig>,
    fonts: Option<FontConfig>,
    fontSizes: Option<FontSizeConfig>,
    fontWeights: Option<FontWeightConfig>,
    spacing: Option<SpacingConfig>,
    borders: Option<BorderConfig>,
    lists: Option<ListConfig>,
    tables: Option<TableConfig>,
    animations: Option<AnimationConfig>
  )

  // ----- The CSS variables, numbered in the order the source assigns them -----

  type CssVar = i: int | 0 <= i < 74

  // Colors
  const TextColor: CssVar := 0
  const TextSecondary: CssVar := 1
  const HeadingColor: CssVar := 2
  const LinkColor: CssVar := 3
  const LinkHover: CssVar := 4
  const LinkVisited: CssVar := 5
  const CodeColor: CssVar := 6
  const CodeBg: CssVar := 7
  const CodeBlockBg: CssVar := 8
  const CodeBlockBorder: CssVar := 9
  const BlockquoteBorder: CssVar := 10
  const BlockquoteBg: CssVar := 11
  const BlockquoteText: CssVar := 12
  const TableBorder: CssVar := 13
  const TableHeaderBg: CssVar := 14
  const TableHeaderText: CssVar := 15
  const TableRowBg: CssVar := 16
  const TableRowAltBg: CssVar := 17
  const TableRowHoverBg: CssVar := 18
  const ListBulletColor: CssVar := 19
  const ListNumberColor: CssVar := 20
  const TaskCheckboxBg: CssVar := 21
  const TaskCheckboxBorder: CssVar := 22
  const TaskCheckboxChecked: CssVar := 23
  const HrColor: CssVar := 24
  const MarkBg: CssVar := 25
  const MarkText: CssVar := 26
  const KbdBg: CssVar := 27
  const KbdBorder: CssVar := 28
  const KbdText: CssVar := 29
  const DetailsBg: CssVar := 30
  const DetailsBorder: CssVar := 31
  const SummaryHoverColor: CssVar := 32
  const CopyButtonBg: CssVar := 33
  const CopyButtonBorder: CssVar := 34
  const CopyButtonText: CssVar := 35
  const CopyButtonHoverBg: CssVar := 36
  const Background: CssVar := 37

  // Fonts
  const FontBody: CssVar := 38
  const FontHeading: CssVar := 39
  const FontCode: CssVar := 40
  const FontMonospace: CssVar := 41

  // Font Sizes
  const FontSizeBase: CssVar := 42
  const FontSizeH1: CssVar := 43
  const FontSizeH2: CssVar := 44
  const FontSizeH3: CssVar := 45
  const FontSizeH4: CssVar := 46
  const FontSizeH5: CssVar := 47
  const FontSizeH6: CssVar := 48
  const FontSizeCode: CssVar := 49
  const FontSizeSmall: CssVar := 50

  // Font Weights
  const FontWeightNormal: CssVar := 51
  const FontWeightMedium: CssVar := 52
  const FontWeightSemibold: CssVar := 53
  const FontWeightBold: CssVar := 54

  // Spacing
  const SpacingParagraph: CssVar := 55
  const SpacingHeading: CssVar := 56
  const SpacingList: CssVar := 57
  const SpacingListItem: CssVar := 58
  const SpacingCodeBlock: CssVar := 59
  const SpacingBlockquote: CssVar := 60
  const SpacingTableCell: CssVar := 61

  // Borders
  const BorderRadius: CssVar := 62
  const BorderRadiusSmall: CssVar := 63
  const BorderRadiusLarge: CssVar := 64
  const BorderWidth: CssVar := 65
  const BorderStyle: CssVar := 66

  // List Styles
  const ListBulletStyle: CssVar := 67
  const ListNumberStyle: CssVar := 68
  const ListIndentation: CssVar := 69

  // Table Settings
  const TableBorderCollapse: CssVar := 70
  const TableBorderSpacing: CssVar := 71

  // Animations
  const AnimationDuration: CssVar := 72
  const AnimationEasing: CssVar := 73

  function ColorSuffix(v: CssVar): string
    requires TextColor <= v <= Background
  {
    if v == TextColor then "text-color"
    else if v == TextSecondary then "text-secondary"
    else if v == HeadingColor then "heading-color"
    else if v == LinkColor then "link-color"
    else if v == LinkHover then "link-hover"
    else if v == LinkVisited then "link-visited"
    else if v == CodeColor then "code-color"
    else if v == CodeBg then "code-bg"
    else if v == CodeBlockBg then "code-block-bg"
    else if v == CodeBlockBorder then "code-block-border"
    else if v == BlockquoteBorder then "blockquote-border"
    else if v == BlockquoteBg then "blockquote-bg"
    else if v == BlockquoteText then "blockquote-text"
    else if v == TableBorder then "table-border"
    else if v == TableHeaderBg then "table-header-bg"
    else if v == TableHeaderText then "table-header-text"
    else if v == TableRowBg then "table-row-bg"
    else if v == TableRowAltBg then "table-row-alt-bg"
    else if v == TableRowHoverBg then "table-row-hover-bg"
    else if v == ListBulletColor then "list-bullet-color"
    else if v == ListNumberColor then "list-number-color"
    else if v == TaskCheckboxBg then "task-checkbox-bg"
    else if v == TaskCheckboxBorder then "task-checkbox-border"
    else if v == TaskCheckboxChecked then "task-checkbox-checked"
    else if v == HrColor then "hr-color"
    else if v == MarkBg then "mark-bg"
    else if v == MarkText then "mark-text"
    else if v == KbdBg then "kbd-bg"
    else if v == KbdBorder then "kbd-border"
    else if v == KbdText then "kbd-text"
    else if v == DetailsBg then "details-bg"
    else if v == DetailsBorder then "details-border"
    else if v == SummaryHoverColor then "summary-hover-color"
    else if v == CopyButtonBg then "copy-button-bg"
    else if v == CopyButtonBorder then "copy-button-border"
    else if v == CopyButtonText then "copy-button-text"
    else if v == CopyButtonHoverBg then "copy-button-hover-bg"
    else "background"
  }

  function FontSuffix(v: CssVar): string
    requires FontBody <= v <= FontMonospace
  {
    if v == FontBody then "font-body"
    else if v == FontHeading then "font-heading"
    else if v == FontCode then "font-code"
    else "font-monospace"
  }

  function FontSizeSuffix(v: CssVar): string
    requires FontSizeBase <= v <= FontSizeSmall
  {
    if v == FontSizeBase then "font-size-base"
    else if v == FontSizeH1 then "font-size-h1"
    else if v == FontSizeH2 then "font-size-h2"
    else if v == FontSizeH3 then "font-size-h3"
    else if v == FontSizeH4 then "font-size-h4"
    else if v == FontSizeH5 then "font-size-h5"
    else if v == FontSizeH6 then "font-size-h6"
    else if v == FontSizeCode then "font-size-code"
    else "font-size-small"
  }

  function FontWeightSuffix(v: CssVar): string
    requires FontWeightNormal <= v <= FontWeightBold
  {
    if v == FontWeightNormal then "font-weight-normal"
    else if v == FontWeightMedium then "font-weight-medium"
    else if v == FontWeightSemibold then "font-weight-semibold"
    else "font-weight-bold"
  }

  function SpacingSuffix(v: CssVar): string
    requires SpacingParagraph <= v <= SpacingTableCell
  {
    if v == SpacingParagraph then "spacing-paragraph"
    else if v == SpacingHeading then "spacing-heading"
    else if v == SpacingList then "spacing-list"
    else if v == SpacingListItem then "spacing-list-item"
    else if v == SpacingCodeBlock then "spacing-code-block"
    else if v == SpacingBlockquote then "spacing-blockquote"
    else "spacing-table-cell"
  }

  function BorderSuffix(v: CssVar): string
    requires BorderRadius <= v <= BorderStyle
  {
    if v == BorderRadius then "border-radius"
    else if v == BorderRadiusSmall then "border-radius-small"
    else if v == BorderRadiusLarge then "border-radius-large"
    else if v == BorderWidth then "border-width"
    else "border-style"
  }

  function ListSuffix(v: CssVar): string
    requires ListBulletStyle <= v <= ListIndentation
  {
    if v == ListBulletStyle then "list-bullet-style"
    else if v == ListNumberStyle then "list-number-style"
    else "list-indentation"
  }

  function TableSuffix(v: CssVar): string
    requires TableBorderCollapse <= v <= TableBorderSpacing
  {
    if v == TableBorderCollapse then "table-border-collapse"
    else "table-border-spacing"
  }

  function AnimationSuffix(v: CssVar): string
    requires AnimationDuration <= v <= AnimationEasing
  {
    if v == AnimationDuration then "animation-duration"
    else "animation-easing"
  }

  /** The part of a variable's name after the common `--llm-` prefix. */
  function Suffix(v: CssVar): string {
    if v <= Background then ColorSuffix(v)
    else if v <= FontMonospace then FontSuffix(v)
    else if v <= FontSizeSmall then FontSizeSuffix(v)
    else if v <= FontWeightBold then FontWeightSuffix(v)
    else if v <= SpacingTableCell then SpacingSuffix(v)
    else if v <= BorderStyle then BorderSuffix(v)
    else if v <= ListIndentation then ListSuffix(v)
    else if v <= TableBorderSpacing then TableSuffix(v)
    else AnimationSuffix(v)
  }

  /** The property name the source writes for a variable. */
  function Name(v: CssVar): string {
    "--llm-" + Suffix(v)
  }

  /** The field of a `colors` section that a variable is read from. */
  function ColorField(section: ColorConfig, v: CssVar): Option<string>
    requires TextColor <= v <= Background
  {
    if v == TextColor then section.text
    else if v == TextSecondary then section.textSecondary
    else if v == HeadingColor then section.heading
    else if v == LinkColor then section.link
    else if v == LinkHover then section.linkHover
    else if v == LinkVisited then section.linkVisited
    else if v == CodeColor then section.code
    else if v == CodeBg then section.codeBg
    else if v == CodeBlockBg then section.codeBlockBg
    else if v == CodeBlockBorder then section.codeBlockBorder
    else if v == BlockquoteBorder then section.blockquoteBorder
    else if v == BlockquoteBg then section.blockquoteBg
    else if v == BlockquoteText then section.blockquoteText
    else if v == TableBorder then section.tableBorder
    else if v == TableHeaderBg then section.tableHeaderBg
    else if v == TableHeaderText then section.tableHeaderText
    else if v == TableRowBg then section.tableRowBg
    else if v == TableRowAltBg then section.tableRowAltBg
    else if v == TableRowHoverBg then section.tableRowHoverBg
    else if v == ListBulletColor then section.listBulletColor
    else if v == ListNumberColor then section.listNumberColor
    else if v == TaskCheckboxBg then section.taskCheckboxBg
    else if v == TaskCheckboxBorder then section.taskCheckboxBorder
    else if v == TaskCheckboxChecked then section.taskCheckboxChecked
    else if v == HrColor then section.hrColor
    else if v == MarkBg then section.markBg
    else if v == MarkText then section.markText
    else if v == KbdBg then section.kbdBg
    else if v == KbdBorder then section.kbdBorder
    else if v == KbdText then section.kbdText
    else if v == DetailsBg then section.detailsBg
    else if v == DetailsBorder then section.detailsBorder
    else if v == SummaryHoverColor then section.summaryHoverColor
    else if v == CopyButtonBg then section.copyButtonBg
    else if v == CopyButtonBorder then section.copyButtonBorder
    else if v == CopyButtonText then section.copyButtonText
    else if v == CopyButtonHoverBg then section.copyButtonHoverBg
    else section.background
  }

  /** The field of a `fonts` section that a variable is read from. */
  function FontField(section: FontConfig, v: CssVar): Option<string>
    requires FontBody <= v <= FontMonospace
  {
    if v == FontBody then section.body
    else if v == FontHeading then section.heading
    else if v == FontCode then section.code
    else section.monospace
  }

  /** The field of a `fontSizes` section that a variable is read from. */
  function FontSizeField(section: FontSizeConfig, v: CssVar): Option<string>
    requires FontSizeBase <= v <= FontSizeSmall
  {
    if v == FontSizeBase then section.base
    else if v == FontSizeH1 then section.h1
    else if v == FontSizeH2 then section.h2
    else if v == FontSizeH3 then section.h3
    else if v == FontSizeH4 then section.h4
    else if v == FontSizeH5 then section.h5
    else if v == FontSizeH6 then section.h6
    else if v == FontSizeCode then section.code
    else section.small
  }

  /** The field of a `fontWeights` section that a variable is read from. */
  function FontWeightField(section: FontWeightConfig, v: CssVar): Option<int>
    requires FontWeightNormal <= v <= FontWeightBold
  {
    if v == FontWeightNormal then section.normal
    else if v == FontWeightMedium then section.medium
    else if v == FontWeightSemibold then section.semibold
    else section.bold
  }

  /** The field of a `spacing` section that a variable is read from. */
  function SpacingField(section: SpacingConfig, v: CssVar): Option<string>
    requires SpacingParagraph <= v <= SpacingTableCell
  {
    if v == SpacingParagraph then section.paragraphMargin
    else if v == SpacingHeading then section.headingMargin
    else if v == SpacingList then section.listMargin
    else if v == SpacingListItem then section.listItemMargin
    else if v == SpacingCodeBlock then section.codeBlockPadding
    else if v == SpacingBlockquote then section.blockquotePadding
    else section.tableCellPadding
  }

  /** The field of a `borders` section that a variable is read from. */
  function BorderField(section: BorderConfig, v: CssVar): Option<string>
    requires BorderRadius <= v <= BorderStyle
  {
    if v == BorderRadius then section.radius
    else if v == BorderRadiusSmall then section.radiusSmall
    else if v == BorderRadiusLarge then section.radiusLarge
    else if v == BorderWidth then section.width
    else section.style
  }

  /** The field of a `lists` section that a variable is read from. */
  function ListField(section: ListConfig, v: CssVar): Option<string>
    requires ListBulletStyle <= v <= ListIndentation
  {
    if v == ListBulletStyle then section.bulletStyle
    else if v == ListNumberStyle then section.numberStyle
    else section.indentation
  }

  /** The field of a `tables` section that a variable is read from. */
  function TableField(section: TableConfig, v: CssVar): Option<string>
    requires TableBorderCollapse <= v <= TableBorderSpacing
  {
    if v == TableBorderCollapse then section.borderCollapse
    else section.borderSpacing
  }

  /** The field of a `animations` section that a variable is read from. */
  function AnimationField(section: AnimationConfig, v: CssVar): Option<string>
    requires AnimationDuration <= v <= AnimationEasing
  {
    if v == AnimationDuration then section.duration
    else section.easing
  }

  /**
   * The value the source stores for a variable, or None when the variable's section is
   * absent or the field is. Font weights are stored as their decimal text.
   */
  function Value(theme: ThemeConfig, v: CssVar): Option<string> {
    if v <= Background then (if theme.colors.Some? then ColorField(theme.colors.value, v) else None)
    else if v <= FontMonospace then (if theme.fonts.Some? then FontField(theme.fonts.value, v) else None)
    else if v <= FontSizeSmall then (if theme.fontSizes.Some? then FontSizeField(theme.fontSizes.value, v) else None)
    else if v <= FontWeightBold then (if theme.fontWeights.Some? then WeightText(FontWeightField(theme.fontWeights.value, v)) else None)
    else if v <= SpacingTableCell then (if theme.spacing.Some? then SpacingField(theme.spacing.value, v) else None)
    else if v <= BorderStyle then (if theme.borders.Some? then BorderField(theme.borders.value, v) else None)
    else if v <= ListIndentation then (if theme.lists.Some? then ListField(theme.lists.value, v) else None)
    else if v <= TableBorderSpacing then (if theme.tables.Some? then TableField(theme.tables.value, v) else None)
    else (if theme.animations.Some? then AnimationField(theme.animations.value, v) else None)
  }

  // ----- Distinct variables have distinct names -----

  lemma SuffixesDistinctFrom0(a: CssVar, b: CssVar)
    requires 0 <= a < 4 && a < b
    ensures Suffix(a) != Suffix(b)
  {
  }

  lemma SuffixesDistinctFrom4(a: CssVar, b: CssVar)
    requires 4 <= a < 8 && a < b
    ensures Suffix(a) != Suffix(b)
  {
  }

  lemma SuffixesDistinctFrom8(a: CssVar, b: CssVar)
    requires 8 <= a < 12 && a < b
    ensures Suffix(a) != Suffix(b)
  {
  }

  lemma SuffixesDistinctFrom12(a: CssVar, b: CssVar)
    requires 12 <= a < 17 && a < b
    ensures Suffix(a) != Suffix(b)
  {
  }

  lemma SuffixesDistinctFrom17(a: CssVar, b: CssVar)
    requires 17 <= a < 22 && a < b
    ensures Suffix(a) != Suffix(b)
  {
  }

  lemma SuffixesDistinctFrom22(a: CssVar, b: CssVar)
    requires 22 <= a < 28 && a < b
    ensures Suffix(a) != Suffix(b)
  {
  }

  lemma SuffixesDistinctFrom28(a: CssVar, b: CssVar)
    requires 28 <= a < 33 && a < b
    ensures Suffix(a) != Suffix(b)
  {
  }

  lemma SuffixesDistinctFrom33(a: CssVar, b: CssVar)
    requires 33 <= a < 38 && a < b
    ensures Suffix(a) != Suffix(b)
  {
  }

  lemma SuffixesDistinctFrom38(a: CssVar, b: CssVar)
    requires 38 <= a < 43 && a < b
    ensures Suffix(a) != Suffix(b)
  {
  }

  lemma SuffixesDistinctFrom43(a: CssVar, b: CssVar)
    requires 43 <= a < 49 && a < b
    ensures Suffix(a) != Suffix(b)
  {
  }

  lemma SuffixesDistinctFrom49(a: CssVar, b: CssVar)
    requires 49 <= a < 55 && a < b
    ensures Suffix(a) != Suffix(b)
  {
  }

  lemma SuffixesDistinctFrom55(a: CssVar, b: CssVar)
    requires 55 <= a < 62 && a < b
    ensures Suffix(a) != Suffix(b)
  {
  }

  lemma SuffixesDistinctFrom62(a: CssVar, b: CssVar)
    requires 62 <= a < 67 && a < b
    ensures Suffix(a) != Suffix(b)
  {
  }

  lemma SuffixesDistinctFrom67(a: CssVar, b: CssVar)
    requires 67 <= a < 74 && a < b
    ensures Suffix(a) != Suffix(b)
  {
  }

  lemma SuffixesDistinct(a: CssVar, b: CssVar)
    requires a < b
    ensures Suffix(a) != Suffix(b)
  {
    if a < 4 {
      SuffixesDistinctFrom0(a, b);
    } else if a < 8 {
      SuffixesDistinctFrom4(a, b);
    } else if a < 12 {
      SuffixesDistinctFrom8(a, b);
    } else if a < 17 {
      SuffixesDistinctFrom12(a, b);
    } else if a < 22 {
      SuffixesDistinctFrom17(a, b);
    } else if a < 28 {
      SuffixesDistinctFrom22(a, b);
    } else if a < 33 {
      SuffixesDistinctFrom28(a, b);
    } else if a < 38 {
      SuffixesDistinctFrom33(a, b);
    } else if a < 43 {
      SuffixesDistinctFrom38(a, b);
    } else if a < 49 {
      SuffixesDistinctFrom43(a, b);
    } else if a < 55 {
      SuffixesDistinctFrom49(a, b);
    } else if a < 62 {
      SuffixesDistinctFrom55(a, b);
    } else if a < 67 {
      SuffixesDistinctFrom62(a, b);
    } else {
      SuffixesDistinctFrom67(a, b);
    }
  }

  /** A name is the `--llm-` prefix followed by the suffix, and no two variables share a name. */
  lemma NameInjective(a: CssVar, b: CssVar)
    requires Name(a) == Name(b)
    ensures a == b
  {
    assert Suffix(a) == Name(a)[6..];
    assert Suffix(b) == Name(b)[6..];
    if a < b {
      SuffixesDistinct(a, b);
    } else if b < a {
      SuffixesDistinct(b, a);
    }
  }

  /**
   * The guard and the stored text of a font weight, `if (w) cssVars[name] = w.toString()`:
   * a weight of 0 is falsy and stores nothing; any other weight stores its decimal text.
   */
  function WeightText(w: Option<int>): (text: Option<string>)
    ensures Truthy(text) <==> w.Some? && w.value != 0
    ensures text.Some? ==> w.Some? && DecimalValue(text.value) == w.value
  {
    if w.Some? && w.value != 0 then
      IntToDecimalRoundTrip(w.value);
      Some(IntToDecimal(w.value))
    else
      None
  }

  // ----- The specification: the guarded assignments as a fold -----

  /** One guarded assignment: the variable is set to its value when that value is truthy. */
  function Put(cssVars: map<string, string>, theme: ThemeConfig, v: CssVar): map<string, string> {
    var value := Value(theme, v);
    if Truthy(value) then cssVars[Name(v) := value.value] else cssVars
  }

  /** The dictionary after the first `count` guarded assignments of the source. */
  function Prefix(theme: ThemeConfig, count: nat): map<string, string>
    requires count <= 74
  {
    if count == 0 then map[] else Put(Prefix(theme, count - 1), theme, count - 1)
  }

  /** The dictionary `themeToCSSVariables` returns: all 74 guarded assignments. */
  function CssVariables(theme: ThemeConfig): map<string, string> {
    Prefix(theme, 74)
  }

  /** Skipping a run of assignments whose values are all absent leaves the dictionary as it was. */
  lemma {:induction false} AbsentFieldsAddNothing(theme: ThemeConfig, lo: nat, hi: nat)
    requires lo <= hi <= 74
    requires forall v: CssVar :: lo <= v < hi ==> Value(theme, v).None?
    ensures Prefix(theme, hi) == Prefix(theme, lo)
    decreases hi
  {
    if lo < hi {
      AbsentFieldsAddNothing(theme, lo, hi - 1);
    }
  }

  /** After `count` assignments, a variable is present exactly when it was among them and its value is truthy. */
  lemma {:induction false} PrefixLookup(theme: ThemeConfig, count: nat, v: CssVar)
    requires count <= 74
    ensures Name(v) in Prefix(theme, count) <==> v < count && Truthy(Value(theme, v))
    ensures Name(v) in Prefix(theme, count) ==> Prefix(theme, count)[Name(v)] == Value(theme, v).value
    decreases count
  {
    if count > 0 {
      PrefixLookup(theme, count - 1, v);
      var u: CssVar := count - 1;
      if Name(u) == Name(v) {
        NameInjective(u, v);
      }
    }
  }

  /** Every key present after `count` assignments is the name of one of them whose value is truthy. */
  lemma {:induction false} PrefixKeys(theme: ThemeConfig, count: nat, name: string)
    requires count <= 74
    requires name in Prefix(theme, count)
    ensures exists v: CssVar :: v < count && Name(v) == name && Truthy(Value(theme, v))
    decreases count
  {
    var u: CssVar := count - 1;
    if !(Truthy(Value(theme, u)) && name == Name(u)) {
      PrefixKeys(theme, count - 1, name);
    }
  }

  /** Themes that agree on every stored value give the same dictionary. */
  lemma {:induction false} SameValuesSamePrefix(t1: ThemeConfig, t2: ThemeConfig, count: nat)
    requires count <= 74
    requires forall v: CssVar :: Value(t1, v) == Value(t2, v)
    ensures Prefix(t1, count) == Prefix(t2, count)
    decreases count
  {
    if count > 0 {
      SameValuesSamePrefix(t1, t2, count - 1);
    }
  }

  // ----- The builder -----

  /** One guarded assignment of the source, `if (value) cssVars[name] = value`. */
  method AssignIfTruthy(cssVars: map<string, string>, ghost theme: ThemeConfig, v: CssVar, value: Option<string>)
    returns (updated: map<string, string>)
    requires value == Value(theme, v)
    requires cssVars == Prefix(theme, v)
    ensures updated == Prefix(theme, v + 1)
  {
    if Truthy(value) {
      updated := cssVars[Name(v) := value.value];
    } else {
      updated := cssVars;
    }
  }

  /** A font-weight assignment of the source, `if (weight) cssVars[name] = weight.toString()`. */
  method AssignWeightIfTruthy(cssVars: map<string, string>, ghost theme: ThemeConfig, v: CssVar, weight: Option<int>)
    returns (updated: map<string, string>)
    requires FontWeightNormal <= v <= FontWeightBold
    requires theme.fontWeights.Some? && FontWeightField(theme.fontWeights.value, v) == weight
    requires cssVars == Prefix(theme, v)
    ensures updated == Prefix(theme, v + 1)
  {
    if weight.Some? && weight.value != 0 {
      updated := cssVars[Name(v) := IntToDecimal(weight.value)];
    } else {
      updated := cssVars;
    }
  }

  /** Text colors. */
  method AssignTextColors(cssVars: map<string, string>, ghost theme: ThemeConfig, colors: ColorConfig)
    returns (updated: map<string, string>)
    requires theme.colors == Some(colors)
    requires cssVars == Prefix(theme, TextColor)
    ensures updated == Prefix(theme, HeadingColor + 1)
  {
    updated := cssVars;
    updated := AssignIfTruthy(updated, theme, TextColor, colors.text);
    updated := AssignIfTruthy(updated, theme, TextSecondary, colors.textSecondary);
    updated := AssignIfTruthy(updated, theme, HeadingColor, colors.heading);
  }

  /** Link colors. */
  method AssignLinkColors(cssVars: map<string, string>, ghost theme: ThemeConfig, colors: ColorConfig)
    returns (updated: map<string, string>)
    requires theme.colors == Some(colors)
    requires cssVars == Prefix(theme, LinkColor)
    ensures updated == Prefix(theme, LinkVisited + 1)
  {
    updated := cssVars;
    updated := AssignIfTruthy(updated, theme, LinkColor, colors.link);
    updated := AssignIfTruthy(updated, theme, LinkHover, colors.linkHover);
    updated := AssignIfTruthy(updated, theme, LinkVisited, colors.linkVisited);
  }

  /** Code colors. */
  method AssignCodeColors(cssVars: map<string, string>, ghost theme: ThemeConfig, colors: ColorConfig)
    returns (updated: map<string, string>)
    requires theme.colors == Some(colors)
    requires cssVars == Prefix(theme, CodeColor)
    ensures updated == Prefix(theme, CodeBlockBorder + 1)
  {
    updated := cssVars;
    updated := AssignIfTruthy(updated, theme, CodeColor, colors.code);
    updated := AssignIfTruthy(updated, theme, CodeBg, colors.codeBg);
    updated := AssignIfTruthy(updated, theme, CodeBlockBg, colors.codeBlockBg);
    updated := AssignIfTruthy(updated, theme, CodeBlockBorder, colors.codeBlockBorder);
  }

  /** Blockquote colors. */
  method AssignBlockquoteColors(cssVars: map<string, string>, ghost theme: ThemeConfig, colors: ColorConfig)
    returns (updated: map<string, string>)
    requires theme.colors == Some(colors)
    requires cssVars == Prefix(theme, BlockquoteBorder)
    ensures updated == Prefix(theme, BlockquoteText + 1)
  {
    updated := cssVars;
    updated := AssignIfTruthy(updated, theme, BlockquoteBorder, colors.blockquoteBorder);
    updated := AssignIfTruthy(updated, theme, BlockquoteBg, colors.blockquoteBg);
    updated := AssignIfTruthy(updated, theme, BlockquoteText, colors.blockquoteText);
  }

  /** Table colors. */
  method AssignTableColors(cssVars: map<string, string>, ghost theme: ThemeConfig, colors: ColorConfig)
    returns (updated: map<string, string>)
    requires theme.colors == Some(colors)
    requires cssVars == Prefix(theme, TableBorder)
    ensures updated == Prefix(theme, TableRowHoverBg + 1)
  {
    updated := cssVars;
    updated := AssignIfTruthy(updated, theme, TableBorder, colors.tableBorder);
    updated := AssignIfTruthy(updated, theme, TableHeaderBg, colors.tableHeaderBg);
    updated := AssignIfTruthy(updated, theme, TableHeaderText, colors.tableHeaderText);
    updated := AssignIfTruthy(updated, theme, TableRowBg, colors.tableRowBg);
    updated := AssignIfTruthy(updated, theme, TableRowAltBg, colors.tableRowAltBg);
    updated := AssignIfTruthy(updated, theme, TableRowHoverBg, colors.tableRowHoverBg);
  }

  /** List colors. */
  method AssignListColors(cssVars: map<string, string>, ghost theme: ThemeConfig, colors: ColorConfig)
    returns (updated: map<string, string>)
    requires theme.colors == Some(colors)
    requires cssVars == Prefix(theme, ListBulletColor)
    ensures updated == Prefix(theme, TaskCheckboxChecked + 1)
  {
    updated := cssVars;
    updated := AssignIfTruthy(updated, theme, ListBulletColor, colors.listBulletColor);
    updated := AssignIfTruthy(updated, theme, ListNumberColor, colors.listNumberColor);
    updated := AssignIfTruthy(updated, theme, TaskCheckboxBg, colors.taskCheckboxBg);
    updated := AssignIfTruthy(updated, theme, TaskCheckboxBorder, colors.taskCheckboxBorder);
    updated := AssignIfTruthy(updated, theme, TaskCheckboxChecked, colors.taskCheckboxChecked);
  }

  /** Other elements. */
  method AssignOtherColors(cssVars: map<string, string>, ghost theme: ThemeConfig, colors: ColorConfig)
    returns (updated: map<string, string>)
    requires theme.colors == Some(colors)
    requires cssVars == Prefix(theme, HrColor)
    ensures updated == Prefix(theme, KbdText + 1)
  {
    updated := cssVars;
    updated := AssignIfTruthy(updated, theme, HrColor, colors.hrColor);
    updated := AssignIfTruthy(updated, theme, MarkBg, colors.markBg);
    updated := AssignIfTruthy(updated, theme, MarkText, colors.markText);
    updated := AssignIfTruthy(updated, theme, KbdBg, colors.kbdBg);
    updated := AssignIfTruthy(updated, theme, KbdBorder, colors.kbdBorder);
    updated := AssignIfTruthy(updated, theme, KbdText, colors.kbdText);
  }

  /** Interactive elements. */
  method AssignInteractiveColors(cssVars: map<string, string>, ghost theme: ThemeConfig, colors: ColorConfig)
    returns (updated: map<string, string>)
    requires theme.colors == Some(colors)
    requires cssVars == Prefix(theme, DetailsBg)
    ensures updated == Prefix(theme, SummaryHoverColor + 1)
  {
    updated := cssVars;
    updated := AssignIfTruthy(updated, theme, DetailsBg, colors.detailsBg);
    updated := AssignIfTruthy(updated, theme, DetailsBorder, colors.detailsBorder);
    updated := AssignIfTruthy(updated, theme, SummaryHoverColor, colors.summaryHoverColor);
  }

  /** Copy button. */
  method AssignCopyButtonColors(cssVars: map<string, string>, ghost theme: ThemeConfig, colors: ColorConfig)
    returns (updated: map<string, string>)
    requires theme.colors == Some(colors)
    requires cssVars == Prefix(theme, CopyButtonBg)
    ensures updated == Prefix(theme, CopyButtonHoverBg + 1)
  {
    updated := cssVars;
    updated := AssignIfTruthy(updated, theme, CopyButtonBg, colors.copyButtonBg);
    updated := AssignIfTruthy(updated, theme, CopyButtonBorder, colors.copyButtonBorder);
    updated := AssignIfTruthy(updated, theme, CopyButtonText, colors.copyButtonText);
    updated := AssignIfTruthy(updated, theme, CopyButtonHoverBg, colors.copyButtonHoverBg);
  }

  /** Background. */
  method AssignBackgroundColor(cssVars: map<string, string>, ghost theme: ThemeConfig, colors: ColorConfig)
    returns (updated: map<string, string>)
    requires theme.colors == Some(colors)
    requires cssVars == Prefix(theme, Background)
    ensures updated == Prefix(theme, Background + 1)
  {
    updated := cssVars;
    updated := AssignIfTruthy(updated, theme, Background, colors.background);
  }

  method AssignColors(cssVars: map<string, string>, ghost theme: ThemeConfig, colors: ColorConfig)
    returns (updated: map<string, string>)
    requires theme.colors == Some(colors)
    requires cssVars == Prefix(theme, TextColor)
    ensures updated == Prefix(theme, Background + 1)
  {
    updated := cssVars;
    updated := AssignTextColors(updated, theme, colors);
    updated := AssignLinkColors(updated, theme, colors);
    updated := AssignCodeColors(updated, theme, colors);
    updated := AssignBlockquoteColors(updated, theme, colors);
    updated := AssignTableColors(updated, theme, colors);
    updated := AssignListColors(updated, theme, colors);
    updated := AssignOtherColors(updated, theme, colors);
    updated := AssignInteractiveColors(updated, theme, colors);
    updated := AssignCopyButtonColors(updated, theme, colors);
    updated := AssignBackgroundColor(updated, theme, colors);
  }

  method AssignFonts(cssVars: map<string, string>, ghost theme: ThemeConfig, fonts: FontConfig)
    returns (updated: map<string, string>)
    requires theme.fonts == Some(fonts)
    requires cssVars == Prefix(theme, FontBody)
    ensures updated == Prefix(theme, FontMonospace + 1)
  {
    updated := cssVars;
    updated := AssignIfTruthy(updated, theme, FontBody, fonts.body);
    updated := AssignIfTruthy(updated, theme, FontHeading, fonts.heading);
    updated := AssignIfTruthy(updated, theme, FontCode, fonts.code);
    updated := AssignIfTruthy(updated, theme, FontMonospace, fonts.monospace);
  }

  method AssignFontSizes(cssVars: map<string, string>, ghost theme: ThemeConfig, fontSizes: FontSizeConfig)
    returns (updated: map<string, string>)
    requires theme.fontSizes == Some(fontSizes)
    requires cssVars == Prefix(theme, FontSizeBase)
    ensures updated == Prefix(theme, FontSizeSmall + 1)
  {
    updated := cssVars;
    updated := AssignIfTruthy(updated, theme, FontSizeBase, fontSizes.base);
    updated := AssignIfTruthy(updated, theme, FontSizeH1, fontSizes.h1);
    updated := AssignIfTruthy(updated, theme, FontSizeH2, fontSizes.h2);
    updated := AssignIfTruthy(updated, theme, FontSizeH3, fontSizes.h3);
    updated := AssignIfTruthy(updated, theme, FontSizeH4, fontSizes.h4);
    updated := AssignIfTruthy(updated, theme, FontSizeH5, fontSizes.h5);
    updated := AssignIfTruthy(updated, theme, FontSizeH6, fontSizes.h6);
    updated := AssignIfTruthy(updated, theme, FontSizeCode, fontSizes.code);
    updated := AssignIfTruthy(updated, theme, FontSizeSmall, fontSizes.small);
  }

  method AssignFontWeights(cssVars: map<string, string>, ghost theme: ThemeConfig, fontWeights: FontWeightConfig)
    returns (updated: map<string, string>)
    requires theme.fontWeights == Some(fontWeights)
    requires cssVars == Prefix(theme, FontWeightNormal)
    ensures updated == Prefix(theme, FontWeightBold + 1)
  {
    updated := cssVars;
    updated := AssignWeightIfTruthy(updated, theme, FontWeightNormal, fontWeights.normal);
    updated := AssignWeightIfTruthy(updated, theme, FontWeightMedium, fontWeights.medium);
    updated := AssignWeightIfTruthy(updated, theme, FontWeightSemibold, fontWeights.semibold);
    updated := AssignWeightIfTruthy(updated, theme, FontWeightBold, fontWeights.bold);
  }

  method AssignSpacing(cssVars: map<string, string>, ghost theme: ThemeConfig, spacing: SpacingConfig)
    returns (updated: map<string, string>)
    requires theme.spacing == Some(spacing)
    requires cssVars == Prefix(theme, SpacingParagraph)
    ensures updated == Prefix(theme, SpacingTableCell + 1)
  {
    updated := cssVars;
    updated := AssignIfTruthy(updated, theme, SpacingParagraph, spacing.paragraphMargin);
    updated := AssignIfTruthy(updated, theme, SpacingHeading, spacing.headingMargin);
    updated := AssignIfTruthy(updated, theme, SpacingList, spacing.listMargin);
    updated := AssignIfTruthy(updated, theme, SpacingListItem, spacing.listItemMargin);
    updated := AssignIfTruthy(updated, theme, SpacingCodeBlock, spacing.codeBlockPadding);
    updated := AssignIfTruthy(updated, theme, SpacingBlockquote, spacing.blockquotePadding);
    updated := AssignIfTruthy(updated, theme, SpacingTableCell, spacing.tableCellPadding);
  }

  method AssignBorders(cssVars: map<string, string>, ghost theme: ThemeConfig, borders: BorderConfig)
    returns (updated: map<string, string>)
    requires theme.borders == Some(borders)
    requires cssVars == Prefix(theme, BorderRadius)
    ensures updated == Prefix(theme, BorderStyle + 1)
  {
    updated := cssVars;
    updated := AssignIfTruthy(updated, theme, BorderRadius, borders.radius);
    updated := AssignIfTruthy(updated, theme, BorderRadiusSmall, borders.radiusSmall);
    updated := AssignIfTruthy(updated, theme, BorderRadiusLarge, borders.radiusLarge);
    updated := AssignIfTruthy(updated, theme, BorderWidth, borders.width);
    updated := AssignIfTruthy(updated, theme, BorderStyle, borders.style);
  }

  method AssignListStyles(cssVars: map<string, string>, ghost theme: ThemeConfig, lists: ListConfig)
    returns (updated: map<string, string>)
    requires theme.lists == Some(lists)
    requires cssVars == Prefix(theme, ListBulletStyle)
    ensures updated == Prefix(theme, ListIndentation + 1)
  {
    updated := cssVars;
    updated := AssignIfTruthy(updated, theme, ListBulletStyle, lists.bulletStyle);
    updated := AssignIfTruthy(updated, theme, ListNumberStyle, lists.numberStyle);
    updated := AssignIfTruthy(updated, theme, ListIndentation, lists.indentation);
  }

  method AssignTableSettings(cssVars: map<string, string>, ghost theme: ThemeConfig, tables: TableConfig)
    returns (updated: map<string, string>)
    requires theme.tables == Some(tables)
    requires cssVars == Prefix(theme, TableBorderCollapse)
    ensures updated == Prefix(theme, TableBorderSpacing + 1)
  {
    updated := cssVars;
    updated := AssignIfTruthy(updated, theme, TableBorderCollapse, tables.borderCollapse);
    updated := AssignIfTruthy(updated, theme, TableBorderSpacing, tables.borderSpacing);
  }

  method AssignAnimations(cssVars: map<string, string>, ghost theme: ThemeConfig, animations: AnimationConfig)
    returns (updated: map<string, string>)
    requires theme.animations == Some(animations)
    requires cssVars == Prefix(theme, AnimationDuration)
    ensures updated == Prefix(theme, AnimationEasing + 1)
  {
    updated := cssVars;
    updated := AssignIfTruthy(updated, theme, AnimationDuration, animations.duration);
    updated := AssignIfTruthy(updated, theme, AnimationEasing, animations.easing);
  }

  lemma ColorAbsentAddsNothing(theme: ThemeConfig)
    requires theme.colors.None?
    ensures Prefix(theme, Background + 1) == Prefix(theme, TextColor)
  {
    AbsentFieldsAddNothing(theme, TextColor, Background + 1);
  }

  lemma FontAbsentAddsNothing(theme: ThemeConfig)
    requires theme.fonts.None?
    ensures Prefix(theme, FontMonospace + 1) == Prefix(theme, FontBody)
  {
    AbsentFieldsAddNothing(theme, FontBody, FontMonospace + 1);
  }

  lemma FontSizeAbsentAddsNothing(theme: ThemeConfig)
    requires theme.fontSizes.None?
    ensures Prefix(theme, FontSizeSmall + 1) == Prefix(theme, FontSizeBase)
  {
    AbsentFieldsAddNothing(theme, FontSizeBase, FontSizeSmall + 1);
  }

  lemma FontWeightAbsentAddsNothing(theme: ThemeConfig)
    requires theme.fontWeights.None?
    ensures Prefix(theme, FontWeightBold + 1) == Prefix(theme, FontWeightNormal)
  {
    AbsentFieldsAddNothing(theme, FontWeightNormal, FontWeightBold + 1);
  }

  lemma SpacingAbsentAddsNothing(theme: ThemeConfig)
    requires theme.spacing.None?
    ensures Prefix(theme, SpacingTableCell + 1) == Prefix(theme, SpacingParagraph)
  {
    AbsentFieldsAddNothing(theme, SpacingParagraph, SpacingTableCell + 1);
  }

  lemma BorderAbsentAddsNothing(theme: ThemeConfig)
    requires theme.borders.None?
    ensures Prefix(theme, BorderStyle + 1) == Prefix(theme, BorderRadius)
  {
    AbsentFieldsAddNothing(theme, BorderRadius, BorderStyle + 1);
  }

  lemma ListAbsentAddsNothing(theme: ThemeConfig)
    requires theme.lists.None?
    ensures Prefix(theme, ListIndentation + 1) == Prefix(theme, ListBulletStyle)
  {
    AbsentFieldsAddNothing(theme, ListBulletStyle, ListIndentation + 1);
  }

  lemma TableAbsentAddsNothing(theme: ThemeConfig)
    requires theme.tables.None?
    ensures Prefix(theme, TableBorderSpacing + 1) == Prefix(theme, TableBorderCollapse)
  {
    AbsentFieldsAddNothing(theme, TableBorderCollapse, TableBorderSpacing + 1);
  }

  lemma AnimationAbsentAddsNothing(theme: ThemeConfig)
    requires theme.animations.None?
    ensures Prefix(theme, AnimationEasing + 1) == Prefix(theme, AnimationDuration)
  {
    AbsentFieldsAddNothing(theme, AnimationDuration, AnimationEasing + 1);
  }

  /** `themeToCSSVariables`: one block per theme section, each guarded by the section's presence. */
  method ThemeToCssVariables(theme: ThemeConfig) returns (cssVars: map<string, string>)
    ensures cssVars == CssVariables(theme)
  {
    cssVars := map[];

    // Colors
    if theme.colors.Some? {
      cssVars := AssignColors(cssVars, theme, theme.colors.value);
    } else {
      ColorAbsentAddsNothing(theme);
    }

    // Fonts
    if theme.fonts.Some? {
      cssVars := AssignFonts(cssVars, theme, theme.fonts.value);
    } else {
      FontAbsentAddsNothing(theme);
    }

    // Font Sizes
    if theme.fontSizes.Some? {
      cssVars := AssignFontSizes(cssVars, theme, theme.fontSizes.value);
    } else {
      FontSizeAbsentAddsNothing(theme);
    }

    // Font Weights
    if theme.fontWeights.Some? {
      cssVars := AssignFontWeights(cssVars, theme, theme.fontWeights.value);
    } else {
      FontWeightAbsentAddsNothing(theme);
    }

    // Spacing
    if theme.spacing.Some? {
      cssVars := AssignSpacing(cssVars, theme, theme.spacing.value);
    } else {
      SpacingAbsentAddsNothing(theme);
    }

    // Borders
    if theme.borders.Some? {
      cssVars := AssignBorders(cssVars, theme, theme.borders.value);
    } else {
      BorderAbsentAddsNothing(theme);
    }

    // List Styles
    if theme.lists.Some? {
      cssVars := AssignListStyles(cssVars, theme, theme.lists.value);
    } else {
      ListAbsentAddsNothing(theme);
    }

    // Table Settings
    if theme.tables.Some? {
      cssVars := AssignTableSettings(cssVars, theme, theme.tables.value);
    } else {
      TableAbsentAddsNothing(theme);
    }

    // Animations
    if theme.animations.Some? {
      cssVars := AssignAnimations(cssVars, theme, theme.animations.value);
    } else {
      AnimationAbsentAddsNothing(theme);
    }
  }

  // ----- Properties of the result -----

  /**
   * A field's variable is present exactly when its section is present and its value is truthy,
   * and then it holds that value.
   */
  lemma CssVariablesLookup(theme: ThemeConfig, v: CssVar)
    ensures Name(v) in CssVariables(theme) <==> Truthy(Value(theme, v))
    ensures Name(v) in CssVariables(theme) ==> CssVariables(theme)[Name(v)] == Value(theme, v).value
  {
    PrefixLookup(theme, 74, v);
  }

  /** Every key of the result is the name of a field with a truthy value, so it starts with `--llm-`. */
  lemma CssVariablesKeys(theme: ThemeConfig, name: string)
    requires name in CssVariables(theme)
    ensures exists v: CssVar :: Name(v) == name && Truthy(Value(theme, v))
    ensures |name| >= 6 && name[..6] == "--llm-"
  {
    PrefixKeys(theme, 74, name);
    var v: CssVar :| Name(v) == name && Truthy(Value(theme, v));
    assert name == "--llm-" + Suffix(v);
  }

  /** For example, a truthy `colors.text` is stored under `--llm-text-color`. */
  lemma TextColorVariable(theme: ThemeConfig, colors: ColorConfig)
    requires theme.colors == Some(colors) && Truthy(colors.text)
    ensures "--llm-text-color" in CssVariables(theme)
    ensures CssVariables(theme)["--llm-text-color"] == colors.text.value
  {
    CssVariablesLookup(theme, TextColor);
    assert Name(TextColor) == "--llm-text-color";
  }

  /** An empty string is falsy: a field set to "" adds no variable. */
  lemma EmptyStringOmitted(theme: ThemeConfig, v: CssVar)
    requires Value(theme, v) == Some("")
    ensures Name(v) !in CssVariables(theme)
  {
    CssVariablesLookup(theme, v);
  }

  /** A font weight is stored as its decimal text, and a weight of 0 is omitted. */
  lemma FontWeightVariable(theme: ThemeConfig, weights: FontWeightConfig, v: CssVar, w: int)
    requires FontWeightNormal <= v <= FontWeightBold
    requires theme.fontWeights == Some(weights) && FontWeightField(weights, v) == Some(w)
    ensures Name(v) in CssVariables(theme) <==> w != 0
    ensures w != 0 ==> CssVariables(theme)[Name(v)] == IntToDecimal(w)
    ensures w != 0 ==> DecimalValue(CssVariables(theme)[Name(v)]) == w
  {
    CssVariablesLookup(theme, v);
  }

  /** A theme without sections gives an empty dictionary. */
  lemma EmptyThemeNoVariables()
    ensures CssVariables(EmptyTheme) == map[]
  {
    AbsentFieldsAddNothing(EmptyTheme, 0, 74);
  }

  /** `tables.stripedRows`, `tables.hoverEffect` and `animations.enabled` have no variable. */
  lemma BooleanSettingsIgnored(theme: ThemeConfig, striped: Option<bool>, hover: Option<bool>, enabled: Option<bool>)
    requires theme.tables.Some? && theme.animations.Some?
    ensures
      var changed := theme.(
        tables := Some(theme.tables.value.(stripedRows := striped, hoverEffect := hover)),
        animations := Some(theme.animations.value.(enabled := enabled)));
      CssVariables(changed) == CssVariables(theme)
  {
    var changed := theme.(
      tables := Some(theme.tables.value.(stripedRows := striped, hoverEffect := hover)),
      animations := Some(theme.animations.value.(enabled := enabled)));
    forall v: CssVar
      ensures Value(changed, v) == Value(theme, v)
    {
    }
    SameValuesSamePrefix(changed, theme, 74);
  }

  // ----- Presets (themePresets) -----

  const EmptyColor: ColorConfig := ColorConfig(None, None, None, None, None, None, None, None, None, None, None, None, None, None, None, None, None, None, None, None, None, None, None, None, None, None, None, None, None, None, None, None, None, None, None, None, None, None)
  const EmptyFont: FontConfig := FontConfig(None, None, None, None)
  const EmptyFontSize: FontSizeConfig := FontSizeConfig(None, None, None, None, None, None, None, None, None)
  const EmptyFontWeight: FontWeightConfig := FontWeightConfig(None, None, None, None)
  const EmptySpacing: SpacingConfig := SpacingConfig(None, None, None, None, None, None, None)
  const EmptyBorder: BorderConfig := BorderConfig(None, None, None, None, None)
  const EmptyList: ListConfig := ListConfig(None, None, None)
  const EmptyTable: TableConfig := TableConfig(None, None, None, None)
  const EmptyAnimation: AnimationConfig := AnimationConfig(None, None, None)

  /** The theme with no sections. */
  const EmptyTheme: ThemeConfig := ThemeConfig(None, None, None, None, None, None, None, None, None)


  const DefaultPreset: ThemeConfig := EmptyTheme

  const OceanPreset: ThemeConfig := EmptyTheme.(
    colors := Some(EmptyColor.(
      text := Some("#2c3e50"), heading := Some("#16a085"), link := Some("#3498db"), linkHover := Some("#2980b9"),
      tableBorder := Some("#3498db"), tableHeaderBg := Some("#ecf0f1"), codeBlockBg := Some("#ecf0f1"),
      blockquoteBorder := Some("#3498db"))),
    borders := Some(EmptyBorder.(radius := Some("8px"))))

  const SunsetPreset: ThemeConfig := EmptyTheme.(
    colors := Some(EmptyColor.(
      text := Some("#2d3436"), heading := Some("#d63031"), link := Some("#fd79a8"), linkHover := Some("#e84393"),
      tableBorder := Some("#fd79a8"), tableHeaderBg := Some("#ffeaa7"), codeBlockBg := Some("#fff5e6"),
      blockquoteBorder := Some("#fd79a8"), markBg := Some("#ffeaa7"))),
    borders := Some(EmptyBorder.(radius := Some("12px"))))

  const ForestPreset: ThemeConfig := EmptyTheme.(
    colors := Some(EmptyColor.(
      text := Some("#27ae60"), heading := Some("#1e8449"), link := Some("#27ae60"), linkHover := Some("#229954"),
      tableBorder := Some("#52be80"), tableHeaderBg := Some("#d4edda"), codeBlockBg := Some("#d4edda"),
      blockquoteBorder := Some("#27ae60"))),
    borders := Some(EmptyBorder.(radius := Some("4px"))))

  const MinimalPreset: ThemeConfig := EmptyTheme.(
    colors := Some(EmptyColor.(
      text := Some("#000"), heading := Some("#000"), link := Some("#000"), linkHover := Some("#666"),
      tableBorder := Some("#000"), tableHeaderBg := Some("#f5f5f5"), codeBlockBg := Some("#f5f5f5"),
      blockquoteBorder := Some("#000"))),
    lists := Some(EmptyList.(bulletStyle := Some("square"))),
    borders := Some(EmptyBorder.(radius := Some("0px"))))

  const ModernPreset: ThemeConfig := EmptyTheme.(
    colors := Some(EmptyColor.(
      text := Some("#1a202c"), heading := Some("#2d3748"), link := Some("#4299e1"), linkHover := Some("#3182ce"),
      tableBorder := Some("#cbd5e0"), tableHeaderBg := Some("#edf2f7"), tableRowAltBg := Some("#f7fafc"),
      codeBlockBg := Some("#f7fafc"), codeBg := Some("#edf2f7"), blockquoteBorder := Some("#4299e1"),
      blockquoteBg := Some("#ebf8ff"))),
    borders := Some(EmptyBorder.(radius := Some("6px"))),
    fontSizes := Some(EmptyFontSize.(base := Some("18px"))))

  /** The `default` preset sets no variable. */
  lemma DefaultPresetNoVariables()
    ensures CssVariables(DefaultPreset) == map[]
  {
    EmptyThemeNoVariables();
  }

  /** The variables the `ocean` preset sets: its eight colours and the border radius, and no other. */
  lemma OceanPresetVariables(v: CssVar)
    ensures Name(v) in CssVariables(OceanPreset) <==>
      v in {TextColor, HeadingColor, LinkColor, LinkHover, TableBorder, TableHeaderBg, CodeBlockBg,
            BlockquoteBorder, BorderRadius}
  {
    CssVariablesLookup(OceanPreset, v);
    if v <= Background {
      assert Value(OceanPreset, v) == ColorField(OceanPreset.colors.value, v);
    } else if v < BorderRadius || v > BorderStyle {
      assert Value(OceanPreset, v) == None;
    } else {
      assert Value(OceanPreset, v) == BorderField(OceanPreset.borders.value, v);
    }
  }

  /** Each named preset sets the border radius it lists. */
  lemma PresetBorderRadius()
    ensures Name(BorderRadius) in CssVariables(OceanPreset) && CssVariables(OceanPreset)[Name(BorderRadius)] == "8px"
    ensures Name(BorderRadius) in CssVariables(SunsetPreset) && CssVariables(SunsetPreset)[Name(BorderRadius)] == "12px"
    ensures Name(BorderRadius) in CssVariables(ForestPreset) && CssVariables(ForestPreset)[Name(BorderRadius)] == "4px"
    ensures Name(BorderRadius) in CssVariables(MinimalPreset) && CssVariables(MinimalPreset)[Name(BorderRadius)] == "0px"
    ensures Name(BorderRadius) in CssVariables(ModernPreset) && CssVariables(ModernPreset)[Name(BorderRadius)] == "6px"
  {
    CssVariablesLookup(OceanPreset, BorderRadius);
    CssVariablesLookup(SunsetPreset, BorderRadius);
    CssVariablesLookup(ForestPreset, BorderRadius);
    CssVariablesLookup(MinimalPreset, BorderRadius);
    CssVariablesLookup(ModernPreset, BorderRadius);
  }

  /** The `minimal` preset's square bullets and the `modern` preset's 18px base font size. */
  lemma PresetListAndFontSettings()
    ensures Name(ListBulletStyle) in CssVariables(MinimalPreset)
    ensures CssVariables(MinimalPreset)[Name(ListBulletStyle)] == "square"
    ensures Name(FontSizeBase) in CssVariables(ModernPreset)
    ensures CssVariables(ModernPreset)[Name(FontSizeBase)] == "18px"
  {
    CssVariablesLookup(MinimalPreset, ListBulletStyle);
    CssVariablesLookup(ModernPreset, FontSizeBase);
  }

}
