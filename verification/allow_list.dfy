/**
 * The fixed allow-list the sanitizer is configured with in `parseMarkdown`: the tags and
 * attributes DOMPurify keeps. The sanitizer itself is not part of this model.
 */
module SanitizerAllowList {
  /** A tag the sanitizer keeps (`ALLOWED_TAGS`). */
  predicate IsAllowedTag(name: string) {
    name in {
      // Headings
      "h1", "h2", "h3", "h4", "h5", "h6",
      // Block elements
      "p", "br", "hr", "div", "span", "section",
      // Text formatting
      "strong", "em", "u", "s", "del", "mark", "b", "i", "sup", "sub", "small", "abbr", "kbd",
      // Links and media
      "a", "img",
      // Code
      "code", "pre", "samp", "var",
      // Lists
      "ul", "ol", "li", "dl", "dt", "dd",
      // Quotes
      "blockquote", "q", "cite",
      // Tables
      "table", "thead", "tbody", "tfoot", "tr", "th", "td", "caption", "colgroup", "col",
      // Interactive elements
      "details", "summary",
      // Form elements, for task-list checkboxes
      "input", "label"
    }
  }

  /** An attribute the sanitizer keeps (`ALLOWED_ATTR`). */
  predicate IsAllowedAttribute(name: string) {
    name in {
      // Links
      "href", "title", "target", "rel",
      // Structure
      "class", "id", "data-language", "data-footnote-ref",
      // Media
      "src", "alt", "width", "height",
      // Tables
      "align", "valign", "colspan", "rowspan",
      // Forms and interactive elements
      "type", "checked", "disabled",
      // Accessibility
      "aria-label", "aria-describedby", "role"
    }
  }

  /** Scripts, style sheets, frames and event handlers are not on the list. */
  lemma ScriptNotAllowed()
    ensures !IsAllowedTag("script") && !IsAllowedTag("style") && !IsAllowedTag("iframe")
    ensures !IsAllowedAttribute("onclick") && !IsAllowedAttribute("onerror") && !IsAllowedAttribute("style")
  {
  }
}
