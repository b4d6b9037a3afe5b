/** The embed-code card: the `<script>` tag for a slug, the default server address, and the
    "copied" indicator that the copy button raises and a timer lowers. The clipboard is a
    log of the texts written to it. */
module EmbedCodeCard {
  import opened Wrappers
  import AgentTabs

  const DefaultBaseUrl := "https://chatappsaas.ai"

  /** The card's tag. The default address applies only when the property is omitted; an
      empty address passed explicitly is kept. */
  function CardEmbedCode(slug: string, baseUrl: Option<string>): string {
    var base := baseUrl.GetOr(DefaultBaseUrl);
    "<script src=\"" + base + "/embed.js\" data-slug=\"" + slug + "\"></script>"
  }

  /** With the address given, the card shows the same tag as the agent page; without it,
      the tag points at the default address. */
  lemma CardAgreesWithAgentPage(slug: string, baseUrl: string)
    ensures CardEmbedCode(slug, Some(baseUrl)) == AgentTabs.EmbedCode(baseUrl, slug)
    ensures CardEmbedCode(slug, None) == AgentTabs.EmbedCode(DefaultBaseUrl, slug)
  {
    assert "<script src=\"" + baseUrl + "/embed.js\" data-slug=\"" + slug + "\"></script>"
        == AgentTabs.TagOpen + baseUrl + "/embed.js" + AgentTabs.TagMiddle + slug + AgentTabs.TagClose;
    assert "<script src=\"" + DefaultBaseUrl + "/embed.js\" data-slug=\"" + slug + "\"></script>"
        == AgentTabs.TagOpen + DefaultBaseUrl + "/embed.js" + AgentTabs.TagMiddle + slug + AgentTabs.TagClose;
  }

  class EmbedCodeView {
    const embedCode: string
    var copied: bool
    /** The texts written to the clipboard, oldest first. */
    var clipboard: seq<string>

    constructor (slug: string, baseUrl: Option<string>)
      ensures embedCode == CardEmbedCode(slug, baseUrl) && !copied && clipboard == []
    {
      embedCode := CardEmbedCode(slug, baseUrl);
      copied := false;
      clipboard := [];
    }

    /** `copyToClipboard`: the tag is written and the indicator raised. */
    method CopyToClipboard()
      modifies this
      ensures clipboard == old(clipboard) + [embedCode] && copied
    {
      clipboard := clipboard + [embedCode];
      copied := true;
    }

    /** The two-second timer fires: the indicator is lowered, the clipboard is untouched. */
    method CopiedTimerFires()
      modifies this
      ensures !copied && clipboard == old(clipboard)
    {
      copied := false;
    }
  }
}
