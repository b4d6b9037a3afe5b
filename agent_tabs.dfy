/** The agent page's embed tab: the server address, the shareable chat link and the
    `<script>` tag to paste into a site, and how the embed script reads that tag back. The
    environment variable is an explicit argument. */
module AgentTabs {
  import opened Wrappers
  import opened AgentActions
  import opened EmbedScript

  const LocalBaseUrl := "http://localhost:3000"

  /** `process.env.NEXT_PUBLIC_BASE_URL || "http://localhost:3000"`: an unset and an empty
      variable both fall back. */
  function BaseUrl(env: Option<string>): (r: string)
    ensures env.Some? && env.value != [] ==> r == env.value
    ensures env.None? || env.value == [] ==> r == LocalBaseUrl
    ensures r != []
  {
    if env.Some? && env.value != [] then env.value else LocalBaseUrl
  }

  /** The shareable chat link. */
  function TestUrl(baseUrl: string, slug: string): string {
    baseUrl + "/chat/" + slug
  }

  const TagOpen := "<script src=\""
  const TagMiddle := "\" data-slug=\""
  const TagClose := "\"></script>"

  /** The tag a site owner pastes. */
  function EmbedCode(baseUrl: string, slug: string): string {
    TagOpen + baseUrl + "/embed.js" + TagMiddle + slug + TagClose
  }

  // ---------------------------------------------------------------------------
  // Reading the tag back

  /** No `"` occurs in `s`. */
  predicate QuoteFree(s: string) {
    forall k :: 0 <= k < |s| ==> s[k] != '"'
  }

  /** The longest prefix without `"`: an attribute value up to its closing quote. */
  function TakeUntilQuote(s: string): (r: string)
    ensures |r| <= |s| && r == s[..|r|] && QuoteFree(r)
    ensures |r| < |s| ==> s[|r|] == '"'
  {
    if s == [] || s[0] == '"' then [] else [s[0]] + TakeUntilQuote(s[1..])
  }

  lemma {:induction false} TakeUntilQuoteStopsAtQuote(v: string, rest: string)
    requires QuoteFree(v)
    requires rest != [] && rest[0] == '"'
    ensures TakeUntilQuote(v + rest) == v
  {
    if v == [] {
      assert v + rest == rest;
    } else {
      assert (v + rest)[1..] == v[1..] + rest;
      TakeUntilQuoteStopsAtQuote(v[1..], rest);
    }
  }

  /** How a browser reads the pasted tag: the `src` and `data-slug` attribute values, each
      ending at the first `"` after it opens. */
  function ParseEmbedCode(tag: string): Option<ScriptTag> {
    if !(TagOpen <= tag) then None
    else
      var rest := tag[|TagOpen|..];
      var src := TakeUntilQuote(rest);
      var afterSrc := rest[|src|..];
      if !(TagMiddle <= afterSrc) then None
      else
        var rest2 := afterSrc[|TagMiddle|..];
        var slug := TakeUntilQuote(rest2);
        if rest2[|slug|..] == TagClose then Some(ScriptTag(src, Some(slug))) else None
  }

  /** `p` is a prefix of `p + s`, and dropping it leaves `s`. */
  lemma DropPrefix(p: string, s: string)
    ensures p <= p + s && (p + s)[|p|..] == s
  {
  }

  /** A tag with quote-free attribute values reads back as exactly those values. */
  lemma ParseWellFormedTag(src: string, slug: string)
    requires QuoteFree(src) && QuoteFree(slug)
    ensures ParseEmbedCode(TagOpen + (src + (TagMiddle + (slug + TagClose)))) == Some(ScriptTag(src, Some(slug)))
  {
    var tail := slug + TagClose;
    var rest := src + (TagMiddle + tail);
    DropPrefix(TagOpen, rest);
    TakeUntilQuoteStopsAtQuote(src, TagMiddle + tail);
    DropPrefix(src, TagMiddle + tail);
    DropPrefix(TagMiddle, tail);
    TakeUntilQuoteStopsAtQuote(slug, TagClose);
    DropPrefix(slug, TagClose);
  }

  /** A tag built from a base address and a slug without `"` reads back as exactly those
      attribute values. */
  lemma EmbedCodeReadsBack(baseUrl: string, slug: string)
    requires QuoteFree(baseUrl) && QuoteFree(slug)
    ensures ParseEmbedCode(EmbedCode(baseUrl, slug)) == Some(ScriptTag(baseUrl + "/embed.js", Some(slug)))
  {
    var src := baseUrl + "/embed.js";
    assert QuoteFree(src) by {
      forall k | 0 <= k < |src| ensures src[k] != '"' {
        if k >= |baseUrl| {
          assert src[k] == "/embed.js"[k - |baseUrl|];
        }
      }
    }
    assert EmbedCode(baseUrl, slug) == TagOpen + (src + (TagMiddle + (slug + TagClose)));
    ParseWellFormedTag(src, slug);
  }

  /** A slug the validator accepted is free of `"`, so its `data-slug` attribute is well formed. */
  lemma ValidSlugIsQuoteFree(slug: string)
    requires MatchesSlugPattern(slug)
    ensures QuoteFree(slug)
  {
    forall k | 0 <= k < |slug| ensures slug[k] != '"' {
      assert IsSlugChar(slug[k]);
    }
  }

  /** The dashboard and the widget agree: for a quote-free server address and a validated
      slug, the frame the embedded script opens is the dashboard's shareable link. */
  lemma WidgetOpensTestUrl(baseUrl: string, slug: string)
    requires QuoteFree(baseUrl) && MatchesSlugPattern(slug)
    ensures ParseEmbedCode(EmbedCode(baseUrl, slug)).Some?
    ensures var tag := ParseEmbedCode(EmbedCode(baseUrl, slug)).value;
            HasSlug(tag) && IframeSrc(tag.src, tag.dataSlug.value) == TestUrl(baseUrl, slug)
  {
    ValidSlugIsQuoteFree(slug);
    EmbedCodeReadsBack(baseUrl, slug);
    BaseUrlOfEmbedScript(baseUrl);
  }

  /** Without the validator, a slug holding `"` ends its attribute early: the tag then no
      longer reads back as that slug. */
  lemma QuoteInSlugBreaksTag(src: string, before: string, after: string)
    requires QuoteFree(src) && QuoteFree(before)
    ensures ParseEmbedCode(TagOpen + (src + (TagMiddle + (before + "\"" + after) + TagClose)))
            != Some(ScriptTag(src, Some(before + "\"" + after)))
  {
    var slug := before + "\"" + after;
    var tail := slug + TagClose;
    var rest := src + (TagMiddle + tail);
    assert TagOpen + (src + (TagMiddle + slug + TagClose)) == TagOpen + rest;
    DropPrefix(TagOpen, rest);
    TakeUntilQuoteStopsAtQuote(src, TagMiddle + tail);
    DropPrefix(src, TagMiddle + tail);
    DropPrefix(TagMiddle, tail);
    assert tail == before + ("\"" + after + TagClose);
    TakeUntilQuoteStopsAtQuote(before, "\"" + after + TagClose);
    assert |before| < |slug|;
  }
}
