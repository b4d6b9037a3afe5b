/** The dialog that creates an agent: its own copy of the agent validator, its default
    values, and the slug it derives from the name with a random suffix. The random draws
    are an explicit argument. */
module AgentsPopup {
  import opened Wrappers
  import opened Text
  import opened AgentActions

  // ---------------------------------------------------------------------------
  // The dialog's validator

  /** The dialog's validator repeats the server's rules field by field, in declaration
      order; each entry is a field and one check it fails. */
  function FormIssues(v: AgentFormValues): seq<(Field, Issue)> {
    (if |v.name| < 2 then [(Name, TooShort(2))] else [])
    + (if |v.slug| < 2 then [(Slug, TooShort(2))] else [])
    + (if MatchesSlugPattern(v.slug) then [] else [(Slug, NotSlugCharacters)])
    + (if |v.systemPrompt| < 10 then [(SystemPrompt, TooShort(10))] else [])
    + (if v.modelProvider in ModelProviders then [] else [(ModelProvider, NotAnEnumValue)])
  }

  predicate FormSchemaAccepts(v: AgentFormValues) {
    FormIssues(v) == []
  }

  /** The dialog and the server accept exactly the same submissions, and report a field
      exactly when the server does. */
  lemma FormSchemaAgreesWithServer(v: AgentFormValues)
    ensures FormSchemaAccepts(v) <==> AgentSchemaAccepts(v)
    ensures forall f :: (exists k :: 0 <= k < |FormIssues(v)| && FormIssues(v)[k].0 == f) <==> f in FieldErrors(v)
  {
    var issues := FormIssues(v);
    forall f ensures (exists k :: 0 <= k < |issues| && issues[k].0 == f) <==> f in FieldErrors(v) {
      if f in FieldErrors(v) {
        var k := FirstIssueOf(v, f);
      }
    }
  }

  /** The position of the first issue the dialog reports for a field the server lists. */
  lemma FirstIssueOf(v: AgentFormValues, f: Field) returns (k: nat)
    requires f in FieldErrors(v)
    ensures k < |FormIssues(v)| && FormIssues(v)[k].0 == f
  {
    var a := if |v.name| < 2 then [(Name, TooShort(2))] else [];
    var b := if |v.slug| < 2 then [(Slug, TooShort(2))] else [];
    var c := if MatchesSlugPattern(v.slug) then [] else [(Slug, NotSlugCharacters)];
    var d := if |v.systemPrompt| < 10 then [(SystemPrompt, TooShort(10))] else [];
    var e := if v.modelProvider in ModelProviders then [] else [(ModelProvider, NotAnEnumValue)];
    assert FormIssues(v) == a + b + c + d + e;
    match f
    case Name => k := 0;
    case Slug => k := |a|;
    case SystemPrompt => k := |a| + |b| + |c|;
    case ModelProvider => k := |a| + |b| + |c| + |d|;
  }

  // ---------------------------------------------------------------------------
  // Default values

  /** The values the dialog opens with. */
  const DefaultFormValues := AgentFormValues(
    "", "",
    "You are a helpful AI assistant that answers questions about our products and services.",
    "gemini")

  // ---------------------------------------------------------------------------
  // Random suffix

  /** The alphabet of the random suffix. */
  const Characters: string := "abcdefghijklmnopqrstuvwxyz0123456789"

  /** A draw of `Math.floor(Math.random() * characters.length)`: an index into the alphabet. */
  type Draw = i: nat | i < 36

  /** The length of the suffix the watcher asks for (the default argument). */
  const SuffixLength := 6

  /** The characters a sequence of draws spells. */
  function Spell(draws: seq<Draw>): string {
    seq(|draws|, i requires 0 <= i < |draws| => Characters[draws[i]])
  }

  /** `generateRandomString`: one character of the alphabet per iteration, appended. */
  method GenerateRandomString(length: nat, draws: seq<Draw>) returns (result: string)
    requires |draws| == length
    ensures |result| == length
    ensures forall i :: 0 <= i < length ==> result[i] == Characters[draws[i]]
    ensures result == Spell(draws)
  {
    result := "";
    var i := 0;
    while i < length
      invariant 0 <= i <= length
      invariant |result| == i
      invariant forall k :: 0 <= k < i ==> result[k] == Characters[draws[k]]
    {
      result := result + [Characters[draws[i]]];
      i := i + 1;
    }
  }

  /** Every character of the alphabet is allowed in a slug. */
  lemma SpelledCharsAreSlugChars(draws: seq<Draw>)
    ensures |Spell(draws)| == |draws|
    ensures forall i :: 0 <= i < |draws| ==> Spell(draws)[i] in Characters && IsSlugChar(Spell(draws)[i])
  {
    forall i | 0 <= i < |draws| ensures IsSlugChar(Characters[draws[i]]) {
      var d := draws[i];
      assert d < 26 ==> Characters[d] == 'a' + (d as char);
    }
  }

  // ---------------------------------------------------------------------------
  // The base slug

  /** `toLowerCase` on the ASCII letters. */
  function ToLowerChar(c: char): (d: char)
    ensures 'A' <= c <= 'Z' ==> 'a' <= d <= 'z' && d as int == c as int + 32
    ensures !('A' <= c <= 'Z') ==> d == c
  {
    if 'A' <= c <= 'Z' then (c as int + 32) as char else c
  }

  function ToLower(s: string): (r: string)
    ensures |r| == |s|
  {
    seq(|s|, i requires 0 <= i < |s| => ToLowerChar(s[i]))
  }

  /** `replace(/\s+/g, "-")`: each maximal run of white space becomes one `-`. */
  function CollapseWhitespace(s: string): (r: string)
    ensures forall i :: 0 <= i < |r| ==> !IsJsWhitespace(r[i])
    decreases |s|
  {
    if s == [] then []
    else if IsJsWhitespace(s[0]) then "-" + CollapseWhitespace(TrimStart(s[1..]))
    else [s[0]] + CollapseWhitespace(s[1..])
  }

  /** A string without white space is left as it is. */
  lemma {:induction false} CollapseWithoutWhitespace(s: string)
    requires forall i :: 0 <= i < |s| ==> !IsJsWhitespace(s[i])
    ensures CollapseWhitespace(s) == s
  {
    if s != [] {
      CollapseWithoutWhitespace(s[1..]);
    }
  }

  /** A run of white space between two spans becomes exactly one `-`, however long it is. */
  lemma {:induction false} CollapseRun(a: string, w: string, b: string)
    requires forall i :: 0 <= i < |a| ==> !IsJsWhitespace(a[i])
    requires w != [] && IsBlank(w)
    requires b == [] || !IsJsWhitespace(b[0])
    ensures CollapseWhitespace(a + w + b) == a + "-" + CollapseWhitespace(b)
  {
    if a == [] {
      assert a + w + b == w + b;
      TrimStartOfBlankPrefix(w[1..], b);
      assert (w + b)[1..] == w[1..] + b;
    } else {
      CollapseRun(a[1..], w, b);
      assert (a + w + b)[1..] == a[1..] + w + b;
    }
  }

  /** Trimming a blank prefix leaves what follows it, when that does not start with white space. */
  lemma {:induction false} TrimStartOfBlankPrefix(w: string, b: string)
    requires IsBlank(w)
    requires b == [] || !IsJsWhitespace(b[0])
    ensures TrimStart(w + b) == b
  {
    if w != [] {
      assert (w + b)[1..] == w[1..] + b;
      TrimStartOfBlankPrefix(w[1..], b);
    } else {
      assert w + b == b;
    }
  }

  /** `replace(/[^a-z0-9-]/g, "")`: the characters outside `[a-z0-9-]` are dropped. */
  function StripDisallowed(s: string): (r: string)
    ensures |r| <= |s|
    ensures forall i :: 0 <= i < |r| ==> IsSlugChar(r[i])
  {
    if s == [] then []
    else (if IsSlugChar(s[0]) then [s[0]] else []) + StripDisallowed(s[1..])
  }

  /** Stripping keeps every allowed character, in order: on a string already made of them it
      changes nothing. */
  lemma {:induction false} StripKeepsSlugChars(s: string)
    requires forall i :: 0 <= i < |s| ==> IsSlugChar(s[i])
    ensures StripDisallowed(s) == s
  {
    if s != [] {
      StripKeepsSlugChars(s[1..]);
    }
  }

  /** The name lowered, its white-space runs turned into `-`, everything else outside
      `[a-z0-9-]` dropped. */
  function BaseSlug(name: string): string {
    StripDisallowed(CollapseWhitespace(ToLower(name)))
  }

  /** The slug the watcher writes: the base slug, a `-`, and the random suffix. */
  function GeneratedSlug(name: string, draws: seq<Draw>): string {
    BaseSlug(name) + "-" + Spell(draws)
  }

  /** For every name, even one that strips to nothing, the generated slug is at least seven
      characters of `[a-z0-9-]`, so the slug check of the validator passes. */
  lemma GeneratedSlugPassesValidator(name: string, draws: seq<Draw>)
    requires |draws| == SuffixLength
    ensures |GeneratedSlug(name, draws)| >= SuffixLength + 1
    ensures MatchesSlugPattern(GeneratedSlug(name, draws))
    ensures SlugIssues(GeneratedSlug(name, draws)) == []
  {
    var base := BaseSlug(name);
    var slug := GeneratedSlug(name, draws);
    SpelledCharsAreSlugChars(draws);
    forall i | 0 <= i < |slug| ensures IsSlugChar(slug[i]) {
      if i < |base| {
        assert slug[i] == base[i];
      } else if i > |base| {
        assert slug[i] == Spell(draws)[i - |base| - 1];
      }
    }
  }

  /** A two-word name: the space becomes a hyphen and the capitals are lowered. */
  lemma SupportBotExample()
    ensures BaseSlug("Support Bot") == "support-bot"
  {
    LowerSupportBot();
    CollapseRun("support", " ", "bot");
    assert "support" + " " + "bot" == "support bot";
    CollapseWithoutWhitespace("bot");
    assert "support" + "-" + "bot" == "support-bot";
    StripKeepsSlugChars("support-bot");
  }

  lemma LowerSupportBot()
    ensures ToLower("Support Bot") == "support bot"
  {
    var s := "Support Bot";
    forall i | 0 <= i < |s| ensures ToLower(s)[i] == "support bot"[i] {
      if i == 0 {
        assert ToLowerChar('S') == 's';
      } else if i == 8 {
        assert ToLowerChar('B') == 'b';
      }
    }
  }

  /** The dialog's defaults carry a valid prompt and provider; only the empty name (and the
      slug still to derive from it) stop the defaults from passing. Once a name of two or
      more characters is typed, the form with its generated slug is accepted. */
  lemma DefaultsNeedOnlyAName(name: string, draws: seq<Draw>)
    requires |draws| == SuffixLength
    ensures |DefaultFormValues.systemPrompt| >= 10 && DefaultFormValues.modelProvider == "gemini"
    ensures !AgentSchemaAccepts(DefaultFormValues)
    ensures FieldErrors(DefaultFormValues).Keys == {Name, Slug}
    ensures |name| >= 2 ==>
              AgentSchemaAccepts(DefaultFormValues.(name := name, slug := GeneratedSlug(name, draws)))
  {
    GeneratedSlugPassesValidator(name, draws);
  }

  // ---------------------------------------------------------------------------
  // The form and its watcher

  /** The field values of `v` with `f` set to `text`. */
  function WithField(v: AgentFormValues, f: Field, text: string): (w: AgentFormValues)
    ensures f == Name ==> w == v.(name := text)
    ensures f == Slug ==> w == v.(slug := text)
    ensures f == SystemPrompt ==> w == v.(systemPrompt := text)
    ensures f == ModelProvider ==> w == v.(modelProvider := text)
  {
    match f
    case Name => v.(name := text)
    case Slug => v.(slug := text)
    case SystemPrompt => v.(systemPrompt := text)
    case ModelProvider => v.(modelProvider := text)
  }

  /** The values held by the dialog's form. */
  class AgentForm {
    var values: AgentFormValues

    constructor ()
      ensures values == DefaultFormValues
    {
      values := DefaultFormValues;
    }

    /** The watcher: when the change was to the name and the name is not empty, the slug is
        replaced by one generated from it; any other change (including the watcher's own
        write to the slug) leaves the values as they are. */
    method Watch(changed: Option<Field>, draws: seq<Draw>)
      requires |draws| == SuffixLength
      modifies this
      ensures changed == Some(Name) && old(values).name != [] ==>
                values == old(values).(slug := GeneratedSlug(old(values).name, draws))
      ensures !(changed == Some(Name) && old(values).name != []) ==> values == old(values)
    {
      if changed == Some(Name) && values.name != [] {
        var base := BaseSlug(values.name);
        var suffix := GenerateRandomString(SuffixLength, draws);
        values := values.(slug := base + "-" + suffix);
      }
    }

    /** The user edits one field, and the watcher runs for that field. */
    method Edit(f: Field, text: string, draws: seq<Draw>)
      requires |draws| == SuffixLength
      modifies this
      ensures f == Name && text != [] ==>
                values == old(values).(name := text, slug := GeneratedSlug(text, draws))
      ensures !(f == Name && text != []) ==> values == WithField(old(values), f, text)
      ensures f == Name && text != [] ==> MatchesSlugPattern(values.slug)
    {
      values := WithField(values, f, text);
      Watch(Some(f), draws);
      if f == Name && text != [] {
        GeneratedSlugPassesValidator(text, draws);
      }
    }
  }
}
