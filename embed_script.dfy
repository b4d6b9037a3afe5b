/** The script a host page loads to show the chat launcher: where it finds its agent, the URL
    of the chat frame it opens, and the open/close state driven by clicks and by messages from
    the frame. Element styling and animation timers are not part of the model; each delayed
    step is folded into the event that schedules it. */
module EmbedScript {
  import opened Wrappers

  // ---------------------------------------------------------------------------
  // Locating the agent and the server

  /** `String.prototype.lastIndexOf` for one character: its last position, or -1. */
  function LastIndexOf(s: string, c: char): (r: int)
    ensures -1 <= r < |s|
    ensures r >= 0 ==> s[r] == c
    ensures forall k :: r < k < |s| ==> s[k] != c
  {
    if s == [] then -1
    else if s[|s| - 1] == c then |s| - 1
    else LastIndexOf(s[..|s| - 1], c)
  }

  function Clamp(i: int, n: nat): (r: nat)
    ensures r <= n
    ensures 0 <= i <= n ==> r == i
  {
    if i < 0 then 0 else if i > n then n else i
  }

  /** `String.prototype.substring`: both ends are clamped to the string, and swapped if the
      start comes after the end. */
  function Substring(s: string, start: int, end: int): (r: string)
    ensures 0 <= start <= end <= |s| ==> r == s[start..end]
    ensures end < 0 && start >= 0 ==> r == s[..Clamp(start, |s|)]
  {
    var a := Clamp(start, |s|);
    var b := Clamp(end, |s|);
    if a <= b then s[a..b] else s[b..a]
  }

  /** `substring` is symmetric in its two ends and first clamps both to the string: it takes
      the characters between the smaller and the larger clamped end. */
  lemma SubstringClampsAndSwaps(s: string, start: int, end: int)
    ensures Substring(s, start, end) == Substring(s, end, start)
    ensures Substring(s, start, end) == Substring(s, Clamp(start, |s|), Clamp(end, |s|))
  {
  }

  /** `scriptSrc.substring(0, scriptSrc.lastIndexOf("/"))`: the address up to, not including,
      its last `/`. A source without any `/` yields the empty string. */
  function BaseUrlFromSrc(src: string): (base: string)
    ensures LastIndexOf(src, '/') >= 0 ==> base == src[..LastIndexOf(src, '/')]
    ensures LastIndexOf(src, '/') < 0 ==> base == []
  {
    Substring(src, 0, LastIndexOf(src, '/'))
  }

  /** The address the chat frame loads. */
  function IframeSrc(src: string, slug: string): string {
    BaseUrlFromSrc(src) + "/chat/" + slug
  }

  /** A file name without `/` after a base: cutting at the last `/` gives the base back. */
  lemma {:induction false} LastSlashBeforeFileName(base: string, file: string)
    requires forall k :: 0 <= k < |file| ==> file[k] != '/'
    ensures LastIndexOf(base + "/" + file, '/') == |base|
    decreases |file|
  {
    var s := base + "/" + file;
    if file != [] {
      var shorter := file[..|file| - 1];
      assert s[..|s| - 1] == base + "/" + shorter;
      LastSlashBeforeFileName(base, shorter);
    } else {
      assert s[|s| - 1] == '/';
    }
  }

  /** The base address is recovered from any script address of the form `base/embed.js`. */
  lemma BaseUrlOfEmbedScript(base: string)
    ensures BaseUrlFromSrc(base + "/embed.js") == base
  {
    var src := base + "/embed.js";
    LastSlashBeforeFileName(base, "embed.js");
    assert src == base + "/" + "embed.js";
    assert src[..|base|] == base;
  }

  // ---------------------------------------------------------------------------
  // The page the script runs in

  /** The `<script>` element: its resolved `src` and its `data-slug` attribute, if present. */
  datatype ScriptTag = ScriptTag(src: string, dataSlug: Option<string>)

  datatype ReadyState = Loading | Interactive | Complete

  /** `document.currentScript || document.querySelector("script[data-slug]")`. */
  function FindScriptTag(currentScript: Option<ScriptTag>, firstWithSlug: Option<ScriptTag>): (r: Option<ScriptTag>)
    ensures r.None? <==> currentScript.None? && firstWithSlug.None?
    ensures currentScript.Some? ==> r == currentScript
  {
    if currentScript.Some? then currentScript else firstWithSlug
  }

  /** `!slug`: a missing attribute and an empty one both count as missing. */
  predicate HasSlug(tag: ScriptTag) {
    tag.dataSlug.Some? && tag.dataSlug.value != []
  }

  const MissingSlugMessage := "ChatterCraft: Missing data-slug attribute on script tag"

  /** The elements the script appends to the body. */
  datatype Element = Launcher | Container(iframeSrc: string)

  /** The fields of a message posted to the host window, when they are present. */
  datatype MessageData = MessageData(kind: Option<string>, action: Option<string>)

  datatype WidgetAction = CloseWidget | Bounce | Ignore

  /** The message listener's dispatch: only messages of the widget's own type act, and only
      the `close` and `bounce` actions. */
  function Dispatch(data: Option<MessageData>): (a: WidgetAction)
    ensures a == CloseWidget <==> data == Some(MessageData(Some("chattercraft-widget"), Some("close")))
    ensures a == Bounce <==>
              data.Some? && data.value.kind == Some("chattercraft-widget") && data.value.action == Some("bounce")
  {
    match data
    case Some(MessageData(Some(kind), Some(action))) =>
      if kind != "chattercraft-widget" then Ignore
      else if action == "close" then CloseWidget
      else if action == "bounce" then Bounce
      else Ignore
    case _ => Ignore
  }

  // ---------------------------------------------------------------------------
  // The widget

  class EmbedWidget {
    /** Style sheets the script added to the head. */
    var stylesheets: nat
    /** Elements the script appended to the body, in order. */
    var body: seq<Element>
    /** Messages written to the console as errors. */
    var errors: seq<string>
    /** The script stopped with an exception: no script tag was found. */
    var threw: bool
    /** A `DOMContentLoaded` listener is waiting to build the widget. */
    var waitingForDom: bool
    /** The launcher and the container are in the page and their listeners are attached. */
    var mounted: bool
    var isOpen: bool
    /** The container is displayed. */
    var containerShown: bool
    /** The launcher shows the close icon instead of the chat icon. */
    var launcherShowsClose: bool
    /** Bounce animations played on the launcher. */
    var bounces: nat

    /** At most one build happens; the container is shown, and the launcher shows its close
        icon, exactly while the widget is open; only a mounted widget can be open. */
    ghost predicate Valid()
      reads this
    {
      && stylesheets <= 1
      && (waitingForDom ==> stylesheets == 0 && body == [] && !mounted && !threw && errors == [])
      && (mounted ==> stylesheets == 1 && |body| == 2 && body[0] == Launcher && body[1].Container?)
      && (!mounted ==> body == [] && !isOpen)
      && containerShown == isOpen && launcherShowsClose == isOpen
    }

    /** The script's top level: outside the top window it does nothing; while the document
        is still loading it waits for `DOMContentLoaded`; otherwise it builds at once. */
    constructor (isTopWindow: bool, readyState: ReadyState,
                 currentScript: Option<ScriptTag>, firstWithSlug: Option<ScriptTag>)
      ensures Valid()
      ensures !isTopWindow ==> stylesheets == 0 && body == [] && !waitingForDom && !threw && errors == []
      ensures isTopWindow && readyState == Loading ==> waitingForDom && stylesheets == 0 && body == []
      ensures isTopWindow && readyState != Loading ==>
                !waitingForDom && Built(FindScriptTag(currentScript, firstWithSlug), [])
      ensures bounces == 0
    {
      stylesheets, body, errors, threw := 0, [], [], false;
      waitingForDom := isTopWindow && readyState == Loading;
      mounted, isOpen, containerShown, launcherShowsClose, bounces := false, false, false, false, 0;
      new;
      if isTopWindow && readyState != Loading {
        CreateChatWidget(FindScriptTag(currentScript, firstWithSlug));
      }
    }

    /** The state `createChatWidget` leaves, over a body that held `before`: the style sheet is
        always added first; with no script tag the script throws; with no slug it logs and
        stops before appending anything; otherwise the launcher and the container, whose frame
        loads `IframeSrc`, are appended, closed. */
    ghost predicate Built(tag: Option<ScriptTag>, before: seq<Element>)
      reads this
    {
      && stylesheets == 1
      && (tag.None? ==> threw && !mounted && body == before && errors == [])
      && (tag.Some? && !HasSlug(tag.value) ==>
            !threw && !mounted && body == before && errors == [MissingSlugMessage])
      && (tag.Some? && HasSlug(tag.value) ==>
            && !threw && mounted && !isOpen && errors == []
            && body == before + [Launcher, Container(IframeSrc(tag.value.src, tag.value.dataSlug.value))])
    }

    method CreateChatWidget(tag: Option<ScriptTag>)
      requires stylesheets == 0 && body == [] && !mounted && !isOpen && !threw && errors == []
      requires !containerShown && !launcherShowsClose && !waitingForDom
      modifies this
      ensures Valid() && Built(tag, []) && !waitingForDom && bounces == old(bounces)
    {
      stylesheets := stylesheets + 1;
      if tag.None? {
        threw := true;
        return;
      }
      if !HasSlug(tag.value) {
        errors := errors + [MissingSlugMessage];
        return;
      }
      var src := IframeSrc(tag.value.src, tag.value.dataSlug.value);
      body := body + [Launcher, Container(src)];
      mounted := true;
    }

    /** `DOMContentLoaded` fires once: a waiting script builds the widget then, and the
        listener does not run again. The listener runs after the script's own evaluation, when
        `document.currentScript` is null, so the tag is always the first `script[data-slug]`
        of the page. */
    method DomContentLoaded(firstWithSlug: Option<ScriptTag>)
      requires Valid()
      modifies this
      ensures Valid() && !waitingForDom
      ensures old(waitingForDom) ==> Built(FindScriptTag(None, firstWithSlug), [])
      ensures !old(waitingForDom) ==>
                && stylesheets == old(stylesheets) && body == old(body) && mounted == old(mounted)
                && isOpen == old(isOpen) && errors == old(errors) && threw == old(threw)
    {
      if waitingForDom {
        waitingForDom := false;
        CreateChatWidget(FindScriptTag(None, firstWithSlug));
      }
    }

    /** A click on the launcher flips the open state, showing or hiding the container. */
    method ClickLauncher()
      requires Valid() && mounted
      modifies this
      ensures Valid()
      ensures isOpen == !old(isOpen)
      ensures body == old(body) && mounted && stylesheets == old(stylesheets) && bounces == old(bounces)
      ensures errors == old(errors) && threw == old(threw) && waitingForDom == old(waitingForDom)
    {
      isOpen := !isOpen;
      containerShown, launcherShowsClose := isOpen, isOpen;
    }

    /** The container's close button: the widget ends closed and the launcher is reset. The
        click does not propagate, so the launcher's own handler does not run. */
    method ClickCloseButton()
      requires Valid() && mounted
      modifies this
      ensures Valid()
      ensures !isOpen && !containerShown && !launcherShowsClose
      ensures body == old(body) && mounted && stylesheets == old(stylesheets) && bounces == old(bounces)
      ensures errors == old(errors) && threw == old(threw) && waitingForDom == old(waitingForDom)
    {
      isOpen, containerShown, launcherShowsClose := false, false, false;
    }

    /** A message to the host window. A `close` acts as a click on the close button, a
        `bounce` only animates the launcher, anything else is ignored; before the widget is
        mounted there is no listener. */
    method ReceiveMessage(data: Option<MessageData>)
      requires Valid()
      modifies this
      ensures Valid()
      ensures mounted && Dispatch(data) == CloseWidget ==> !isOpen
      ensures !(mounted && Dispatch(data) == CloseWidget) ==> isOpen == old(isOpen)
      ensures bounces == if mounted && Dispatch(data) == Bounce then old(bounces) + 1 else old(bounces)
      ensures body == old(body) && mounted == old(mounted) && stylesheets == old(stylesheets)
      ensures errors == old(errors) && threw == old(threw) && waitingForDom == old(waitingForDom)
    {
      if mounted {
        match Dispatch(data)
        case CloseWidget => ClickCloseButton();
        case Bounce => bounces := bounces + 1;
        case Ignore =>
      }
    }
  }

  /** A script tag with its slug, in the top window of a loaded page, mounts a closed widget
      whose frame loads the chat page of that slug; a click opens it, and a `close` message
      from the frame closes it again. */
  method OpenThenCloseByMessage(base: string, slug: string) returns (w: EmbedWidget)
    requires slug != []
    ensures w.mounted && !w.isOpen
    ensures w.body == [Launcher, Container(base + "/chat/" + slug)]
  {
    var tag := ScriptTag(base + "/embed.js", Some(slug));
    w := new EmbedWidget(true, Complete, Some(tag), None);
    BaseUrlOfEmbedScript(base);
    w.ClickLauncher();
    assert w.isOpen;
    w.ReceiveMessage(Some(MessageData(Some("chattercraft-widget"), Some("close"))));
  }
}
