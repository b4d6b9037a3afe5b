/** The widget-appearance form: its validator, its default values, the live preview that
    merges partial edits, and the saving flag. The save request is an explicit response. */
module UiCustomization {
  import opened Wrappers
  import opened Schema

  /** The seventeen appearance settings the form edits and the preview renders. */
  datatype UiFormValues = UiFormValues(
    primaryColor: string,
    secondaryColor: string,
    backgroundColor: string,
    textColor: string,
    buttonPosition: string,
    buttonSize: int,
    widgetWidth: int,
    widgetHeight: int,
    borderRadius: int,
    welcomeMessage: string,
    buttonIcon: string,
    headerTitle: string,
    showAgentAvatar: bool,
    showTimestamp: bool,
    showTypingIndicator: bool,
    enableDarkMode: bool,
    allowAttachments: bool)

  // ---------------------------------------------------------------------------
  // The validator

  /** A character of the class `[A-Fa-f0-9]`. */
  predicate IsHexDigit(c: char) {
    ('0' <= c <= '9') || ('a' <= c <= 'f') || ('A' <= c <= 'F')
  }

  /** The regular expression `^#([A-Fa-f0-9]{6}|[A-Fa-f0-9]{3})$`. */
  predicate IsHexColor(s: string) {
    && (|s| == 7 || |s| == 4)
    && s[0] == '#'
    && forall i :: 1 <= i < |s| ==> IsHexDigit(s[i])
  }

  /** The form schema: four hex colours, any button position, four inclusive ranges,
      three required texts; the five switches are free. */
  predicate UiFormAccepts(v: UiFormValues) {
    && IsHexColor(v.primaryColor) && IsHexColor(v.secondaryColor)
    && IsHexColor(v.backgroundColor) && IsHexColor(v.textColor)
    && 40 <= v.buttonSize <= 80
    && 300 <= v.widgetWidth <= 500
    && 400 <= v.widgetHeight <= 700
    && 0 <= v.borderRadius <= 20
    && |v.welcomeMessage| >= 1 && |v.buttonIcon| >= 1 && |v.headerTitle| >= 1
  }

  /** A colour is `#` followed by exactly three or exactly six hex digits of either case. */
  lemma HexColorShape(s: string)
    ensures IsHexColor(s) <==>
              exists d :: s == "#" + d && (|d| == 3 || |d| == 6)
                          && forall i :: 0 <= i < |d| ==> IsHexDigit(d[i])
  {
    if IsHexColor(s) {
      var d := s[1..];
      assert s == "#" + d;
      assert forall i :: 0 <= i < |d| ==> d[i] == s[i + 1];
    }
  }

  /** An accepted colour always fits its 20-character column. */
  lemma AcceptedColorsFitColumns(v: UiFormValues)
    requires UiFormAccepts(v)
    ensures |v.primaryColor| <= ColorCap && |v.secondaryColor| <= ColorCap
    ensures |v.backgroundColor| <= ColorCap && |v.textColor| <= ColorCap
  {
  }

  /** The schema puts no upper bound on the position, the icon or the title, so an accepted
      form can still exceed their columns; the database refuses such a value unless the excess
      is all spaces. */
  lemma AcceptedFormMayOverflowColumns(title: string)
    requires |title| > HeaderTitleCap
    ensures UiFormAccepts(DefaultValues.(headerTitle := title))
    ensures !UiConfigFitsColumns(Stored(0, 0, DefaultValues.(headerTitle := title), 0))
  {
  }

  // ---------------------------------------------------------------------------
  // Default values

  const DefaultValues := UiFormValues(
    "#0070f3", "#f5f5f5", "#ffffff", "#333333",
    "bottom-right", 60, 380, 600, 8,
    "Hello! How can I help you today?", "message", "Chat Support",
    true, true, true, false, false)

  /** The appearance columns of a `ui_configs` row. */
  function Appearance(c: UiConfig): UiFormValues {
    UiFormValues(c.primaryColor, c.secondaryColor, c.backgroundColor, c.textColor,
                 c.buttonPosition, c.buttonSize, c.widgetWidth, c.widgetHeight, c.borderRadius,
                 c.welcomeMessage, c.buttonIcon, c.headerTitle,
                 c.showAgentAvatar, c.showTimestamp, c.showTypingIndicator,
                 c.enableDarkMode, c.allowAttachments)
  }

  /** A `ui_configs` row holding the given settings. */
  function Stored(id: RowId, agentId: AgentId, v: UiFormValues, now: Timestamp): (c: UiConfig)
    ensures Appearance(c) == v && c.agentId == agentId
  {
    UiConfig(id, agentId, v.primaryColor, v.secondaryColor, v.backgroundColor, v.textColor,
             v.buttonPosition, v.buttonSize, v.widgetWidth, v.widgetHeight, v.borderRadius,
             v.welcomeMessage, v.buttonIcon, v.headerTitle,
             v.showAgentAvatar, v.showTimestamp, v.showTypingIndicator,
             v.enableDarkMode, v.allowAttachments, now, now)
  }

  /** The form's defaults pass the form's own schema and coincide, setting by setting, with
      the column defaults of a freshly inserted `ui_configs` row. */
  lemma DefaultValuesAreValidColumnDefaults(id: RowId, agentId: AgentId, now: Timestamp)
    ensures UiFormAccepts(DefaultValues)
    ensures Appearance(NewUiConfig(id, agentId, now)) == DefaultValues
    ensures Stored(id, agentId, DefaultValues, now) == NewUiConfig(id, agentId, now)
  {
    assert IsHexColor("#0070f3") && IsHexColor("#f5f5f5");
    assert IsHexColor("#ffffff") && IsHexColor("#333333");
  }

  // ---------------------------------------------------------------------------
  // Partial edits of the preview

  /** A partial set of settings: `None` is a key the object does not have. */
  datatype UiFormPatch = UiFormPatch(
    primaryColor: Option<string>,
    secondaryColor: Option<string>,
    backgroundColor: Option<string>,
    textColor: Option<string>,
    buttonPosition: Option<string>,
    buttonSize: Option<int>,
    widgetWidth: Option<int>,
    widgetHeight: Option<int>,
    borderRadius: Option<int>,
    welcomeMessage: Option<string>,
    buttonIcon: Option<string>,
    headerTitle: Option<string>,
    showAgentAvatar: Option<bool>,
    showTimestamp: Option<bool>,
    showTypingIndicator: Option<bool>,
    enableDarkMode: Option<bool>,
    allowAttachments: Option<bool>)

  /** The patch with no keys, `{}`. */
  const EmptyPatch := UiFormPatch(None, None, None, None, None, None, None, None, None,
                                  None, None, None, None, None, None, None, None)

  /** `{ ...current, ...values }`. */
  function Merge(current: UiFormValues, p: UiFormPatch): UiFormValues {
    UiFormValues(
      p.primaryColor.GetOr(current.primaryColor),
      p.secondaryColor.GetOr(current.secondaryColor),
      p.backgroundColor.GetOr(current.backgroundColor),
      p.textColor.GetOr(current.textColor),
      p.buttonPosition.GetOr(current.buttonPosition),
      p.buttonSize.GetOr(current.buttonSize),
      p.widgetWidth.GetOr(current.widgetWidth),
      p.widgetHeight.GetOr(current.widgetHeight),
      p.borderRadius.GetOr(current.borderRadius),
      p.welcomeMessage.GetOr(current.welcomeMessage),
      p.buttonIcon.GetOr(current.buttonIcon),
      p.headerTitle.GetOr(current.headerTitle),
      p.showAgentAvatar.GetOr(current.showAgentAvatar),
      p.showTimestamp.GetOr(current.showTimestamp),
      p.showTypingIndicator.GetOr(current.showTypingIndicator),
      p.enableDarkMode.GetOr(current.enableDarkMode),
      p.allowAttachments.GetOr(current.allowAttachments))
  }

  /** The later patch wins where both have a key. */
  function Then(p: UiFormPatch, q: UiFormPatch): UiFormPatch {
    UiFormPatch(
      if q.primaryColor.Some? then q.primaryColor else p.primaryColor,
      if q.secondaryColor.Some? then q.secondaryColor else p.secondaryColor,
      if q.backgroundColor.Some? then q.backgroundColor else p.backgroundColor,
      if q.textColor.Some? then q.textColor else p.textColor,
      if q.buttonPosition.Some? then q.buttonPosition else p.buttonPosition,
      if q.buttonSize.Some? then q.buttonSize else p.buttonSize,
      if q.widgetWidth.Some? then q.widgetWidth else p.widgetWidth,
      if q.widgetHeight.Some? then q.widgetHeight else p.widgetHeight,
      if q.borderRadius.Some? then q.borderRadius else p.borderRadius,
      if q.welcomeMessage.Some? then q.welcomeMessage else p.welcomeMessage,
      if q.buttonIcon.Some? then q.buttonIcon else p.buttonIcon,
      if q.headerTitle.Some? then q.headerTitle else p.headerTitle,
      if q.showAgentAvatar.Some? then q.showAgentAvatar else p.showAgentAvatar,
      if q.showTimestamp.Some? then q.showTimestamp else p.showTimestamp,
      if q.showTypingIndicator.Some? then q.showTypingIndicator else p.showTypingIndicator,
      if q.enableDarkMode.Some? then q.enableDarkMode else p.enableDarkMode,
      if q.allowAttachments.Some? then q.allowAttachments else p.allowAttachments)
  }

  /** The patch that sets every setting to its value in `v`. */
  function Full(v: UiFormValues): UiFormPatch {
    UiFormPatch(Some(v.primaryColor), Some(v.secondaryColor), Some(v.backgroundColor),
                Some(v.textColor), Some(v.buttonPosition), Some(v.buttonSize),
                Some(v.widgetWidth), Some(v.widgetHeight), Some(v.borderRadius),
                Some(v.welcomeMessage), Some(v.buttonIcon), Some(v.headerTitle),
                Some(v.showAgentAvatar), Some(v.showTimestamp), Some(v.showTypingIndicator),
                Some(v.enableDarkMode), Some(v.allowAttachments))
  }

  /** Field by field, a key of the patch overwrites its setting and a setting without a key
      is kept: the merged settings, as a full patch, are the current ones overridden by `p`. */
  lemma MergeIsFieldwise(current: UiFormValues, p: UiFormPatch)
    ensures Full(Merge(current, p)) == Then(Full(current), p)
  {
  }

  /** Merging `{}` changes nothing; merging every key replaces everything. */
  lemma MergeEmptyAndFull(current: UiFormValues, v: UiFormValues)
    ensures Merge(current, EmptyPatch) == current
    ensures Merge(current, Full(v)) == v
  {
  }

  /** Merging the same patch again changes nothing more, and two merges in a row are the
      merge of the patches combined. */
  lemma MergeIdempotentAndComposes(current: UiFormValues, p: UiFormPatch, q: UiFormPatch)
    ensures Merge(Merge(current, p), p) == Merge(current, p)
    ensures Merge(Merge(current, p), q) == Merge(current, Then(p, q))
  {
  }

  // ---------------------------------------------------------------------------
  // The component's state

  /** How the save request ended: accepted, or refused with the message of its body, if any. */
  datatype SaveResponse = Saved | Refused(message: Option<string>)

  datatype Toast = Toast(title: string, description: string, destructive: bool)

  /** The notice shown after a save; a missing or empty error message falls back to the
      generic one. The ui-config route (app/api/agents/[id]/ui-config/route.ts:15-92) answers
      every refusal with an `error` field and never with `message`, so against that route a
      refusal is always `Refused(None)` and shows the generic text. */
  function SaveToast(r: SaveResponse): (t: Toast)
    ensures t.destructive <==> r.Refused?
    ensures r.Saved? ==>
              t.title == "Settings saved" && t.description == "Your chat widget appearance has been updated successfully."
    ensures r.Refused? ==> t.title == "Error"
    ensures r.Refused? && r.message.Some? && r.message.value != [] ==> t.description == r.message.value
    ensures r.Refused? && (r.message.None? || r.message.value == []) ==> t.description == "Failed to save UI configuration"
    ensures t.description != []
  {
    match r
    case Saved => Toast("Settings saved", "Your chat widget appearance has been updated successfully.", false)
    case Refused(m) =>
      Toast("Error", if m.Some? && m.value != [] then m.value else "Failed to save UI configuration", true)
  }

  class UiCustomizationForm {
    /** The settings the form starts from. */
    var formDefaults: UiFormValues
    /** The settings the preview renders. */
    var previewConfig: UiFormValues
    var isSubmitting: bool

    /** The preview and the form both start from the stored settings if there are any,
        otherwise from the defaults. */
    constructor (existingConfig: Option<UiFormValues>)
      ensures previewConfig == formDefaults == existingConfig.GetOr(DefaultValues)
      ensures existingConfig.None? ==> UiFormAccepts(previewConfig)
      ensures !isSubmitting
    {
      formDefaults := existingConfig.GetOr(DefaultValues);
      previewConfig := formDefaults;
      isSubmitting := false;
      DefaultValuesAreValidColumnDefaults(0, 0, 0);
    }

    /** `updatePreview`: the edited settings are merged into the preview. */
    method UpdatePreview(values: UiFormPatch)
      modifies this
      ensures previewConfig == Merge(old(previewConfig), values)
      ensures formDefaults == old(formDefaults) && isSubmitting == old(isSubmitting)
    {
      previewConfig := Merge(previewConfig, values);
    }

    /** The submit handler starts: the flag is raised while the request is out. */
    method BeginSubmit()
      modifies this
      ensures isSubmitting
      ensures formDefaults == old(formDefaults) && previewConfig == old(previewConfig)
    {
      isSubmitting := true;
    }

    /** The request settles: the flag is lowered however it ended, and a notice is shown. */
    method FinishSubmit(response: SaveResponse) returns (t: Toast)
      modifies this
      ensures !isSubmitting && t == SaveToast(response)
      ensures formDefaults == old(formDefaults) && previewConfig == old(previewConfig)
    {
      t := SaveToast(response);
      isSubmitting := false;
    }
  }
}
