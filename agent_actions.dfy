/** The server actions that manage agents: the agent form validator and the create, list,
    look-up, update and delete operations over the agent table. The signed-in user, which the
    source reads from the identity provider, is an explicit `Option<UserId>` argument. */
module AgentActions {
  import opened Wrappers
  import opened Schema

  // ---------------------------------------------------------------------------
  // The agent form and its validator

  /** The four fields the dashboard submits for an agent. */
  datatype AgentFormValues = AgentFormValues(
    name: string,
    slug: string,
    systemPrompt: string,
    modelProvider: string)

  /** The model providers the enum admits. */
  const ModelProviders: seq<string> := ["gemini", "anthropic", "cohere"]

  /** A character of the class `[a-z0-9-]`. */
  predicate IsSlugChar(c: char) {
    ('a' <= c <= 'z') || ('0' <= c <= '9') || c == '-'
  }

  /** The regular expression `^[a-z0-9-]+$`. */
  predicate MatchesSlugPattern(s: string) {
    |s| >= 1 && forall i :: 0 <= i < |s| ==> IsSlugChar(s[i])
  }

  /** What the agent schema accepts: all four field rules hold. */
  predicate AgentSchemaAccepts(v: AgentFormValues) {
    && |v.name| >= 2
    && |v.slug| >= 2 && MatchesSlugPattern(v.slug)
    && |v.systemPrompt| >= 10
    && v.modelProvider in ModelProviders
  }

  datatype Field = Name | Slug | SystemPrompt | ModelProvider

  /** One failed check of the schema. */
  datatype Issue = TooShort(minimum: nat) | NotSlugCharacters | NotAnEnumValue

  /** The message a field issue carries; the enum message is the validation library's own. */
  function IssueMessage(f: Field, i: Issue): string {
    match (f, i)
    case (Name, TooShort(_)) => "Name must be at least 2 characters."
    case (Slug, TooShort(_)) => "Slug must be at least 2 characters."
    case (Slug, NotSlugCharacters) => "Slug can only contain lowercase letters, numbers, and hyphens."
    case (SystemPrompt, TooShort(_)) => "System prompt must be at least 10 characters."
    case _ => "Invalid enum value"
  }

  function NameIssues(name: string): seq<Issue> {
    if |name| < 2 then [TooShort(2)] else []
  }

  /** Both string checks of the slug run, so an input may fail both. */
  function SlugIssues(slug: string): seq<Issue> {
    (if |slug| < 2 then [TooShort(2)] else []) + (if MatchesSlugPattern(slug) then [] else [NotSlugCharacters])
  }

  function SystemPromptIssues(prompt: string): seq<Issue> {
    if |prompt| < 10 then [TooShort(10)] else []
  }

  function ModelProviderIssues(provider: string): seq<Issue> {
    if provider in ModelProviders then [] else [NotAnEnumValue]
  }

  /** The flattened field errors: a field is listed exactly when one of its own checks fails. */
  function FieldErrors(v: AgentFormValues): (r: map<Field, seq<Issue>>)
    ensures Name in r <==> |v.name| < 2
    ensures Slug in r <==> !(|v.slug| >= 2 && MatchesSlugPattern(v.slug))
    ensures SystemPrompt in r <==> |v.systemPrompt| < 10
    ensures ModelProvider in r <==> v.modelProvider !in ModelProviders
    ensures forall f :: f in r ==> r[f] != []
  {
    var all := map[Name := NameIssues(v.name), Slug := SlugIssues(v.slug),
                   SystemPrompt := SystemPromptIssues(v.systemPrompt),
                   ModelProvider := ModelProviderIssues(v.modelProvider)];
    map f | f in all && all[f] != [] :: all[f]
  }

  /** The `fieldErrors` the response carries: each listed field with the messages of its failed
      checks, in the order the checks are declared. */
  function FieldMessages(v: AgentFormValues): (m: map<Field, seq<string>>)
    ensures m.Keys == FieldErrors(v).Keys
    ensures Name in m ==> m[Name] == ["Name must be at least 2 characters."]
    ensures Slug in m ==>
              m[Slug] == (if |v.slug| < 2 then ["Slug must be at least 2 characters."] else [])
                         + (if MatchesSlugPattern(v.slug) then []
                            else ["Slug can only contain lowercase letters, numbers, and hyphens."])
    ensures SystemPrompt in m ==> m[SystemPrompt] == ["System prompt must be at least 10 characters."]
    ensures ModelProvider in m ==> m[ModelProvider] == ["Invalid enum value"]
  {
    var e := FieldErrors(v);
    map f | f in e :: seq(|e[f]|, i requires 0 <= i < |e[f]| => IssueMessage(f, e[f][i]))
  }

  /** Validation succeeds exactly when there are no field errors. */
  lemma FieldErrorsEmptyIffAccepted(v: AgentFormValues)
    ensures FieldErrors(v) == map[] <==> AgentSchemaAccepts(v)
  {
    var r := FieldErrors(v);
    if !AgentSchemaAccepts(v) {
      assert Name in r || Slug in r || SystemPrompt in r || ModelProvider in r;
    }
  }

  /** An accepted form always fits the `model_provider` column; only name and slug can overflow. */
  lemma AcceptedProviderFitsColumn(v: AgentFormValues)
    requires AgentSchemaAccepts(v)
    ensures |v.modelProvider| <= ModelProviderCap
  {
  }

  /** An accepted slug is never cut by its column: a character at the cap would have to be a
      space, which the pattern excludes, so the slug is within the cap and stored whole. */
  lemma AcceptedSlugIsNeverCut(slug: string)
    requires MatchesSlugPattern(slug) && VarcharAccepts(slug, SlugCap)
    ensures |slug| > SlugCap ==> slug[SlugCap] == ' '
    ensures |slug| <= SlugCap && VarcharStored(slug, SlugCap) == slug
  {
  }

  // ---------------------------------------------------------------------------
  // Results

  datatype Operation = Create | Update | Delete

  datatype ActionError =
    | Unauthorized
    | InvalidFormData(issues: map<Field, seq<string>>)
    | SlugAlreadyTaken
    | NotFoundOrForbidden
      /** The catch-all branch: the database refused the write. */
    | Failed

  datatype ActionResult = Success | Error(error: ActionError)

  /** The `error` string each failure returns. */
  function ErrorMessage(e: ActionError, op: Operation): string {
    match e
    case Unauthorized => "Unauthorized"
    case InvalidFormData(_) => "Invalid form data"
    case SlugAlreadyTaken => "Slug already taken. Please choose a different slug."
    case NotFoundOrForbidden =>
      if op == Update then "Agent not found or you don't have permission to edit it."
      else "Agent not found or you don't have permission to delete it."
    case Failed =>
      match op
      case Create => "Failed to create agent. Please try again."
      case Update => "Failed to update agent. Please try again."
      case Delete => "Failed to delete agent. Please try again."
  }

  /** The object an action returns: `{ success: true }`, or `{ error }` with `issues` when the
      form was refused. */
  datatype Response = SuccessTrue | ErrorBody(error: string, issues: Option<map<Field, seq<string>>>)

  function Respond(r: ActionResult, op: Operation): Response {
    match r
    case Success => SuccessTrue
    case Error(InvalidFormData(issues)) => ErrorBody(ErrorMessage(r.error, op), Some(issues))
    case Error(e) => ErrorBody(ErrorMessage(e, op), None)
  }

  /** Each operation's messages differ from one another, so the returned object tells the
      caller exactly which branch ran. */
  lemma RespondTellsBranchesApart(r1: ActionResult, r2: ActionResult, op: Operation)
    ensures Respond(r1, op) == Respond(r2, op) <==> r1 == r2
  {
  }

  // ---------------------------------------------------------------------------
  // Queries over the agent table

  /** The `where` clauses the actions use. */
  datatype Where =
    | IdAndOwner(id: AgentId, userId: UserId)
    | SlugIs(slug: string)
    | ActiveSlugIs(slug: string)

  predicate Matches(w: Where, a: Agent) {
    match w
    case IdAndOwner(id, userId) => a.id == id && a.userId == userId
    case SlugIs(slug) => a.slug == slug
    case ActiveSlugIs(slug) => a.slug == slug && a.isActive
  }

  /** `findFirst`: some row satisfying the clause, or nothing when no row does. */
  function FindFirst(agents: seq<Agent>, w: Where): (r: Option<Agent>)
    ensures r.None? <==> forall i :: 0 <= i < |agents| ==> !Matches(w, agents[i])
    ensures r.Some? ==> r.value in agents && Matches(w, r.value)
  {
    if agents == [] then None
    else if Matches(w, agents[0]) then Some(agents[0])
    else FindFirst(agents[1..], w)
  }

  /** Under the primary key and the unique slug, each clause selects at most one row. */
  lemma MatchesAtMostOne(agents: seq<Agent>, w: Where, i: int, j: int)
    requires IdsUnique(agents) && SlugsUnique(agents)
    requires 0 <= i < |agents| && 0 <= j < |agents|
    requires Matches(w, agents[i]) && Matches(w, agents[j])
    ensures i == j
  {
    RowDeterminedByIdAndBySlug(agents, i, j);
  }

  /** So `findFirst` returns the one matching row whenever there is one. */
  lemma FindFirstIsTheMatch(agents: seq<Agent>, w: Where, a: Agent)
    requires IdsUnique(agents) && SlugsUnique(agents)
    requires a in agents && Matches(w, a)
    ensures FindFirst(agents, w) == Some(a)
  {
    var r := FindFirst(agents, w);
    var i :| 0 <= i < |agents| && agents[i] == a;
    var j :| 0 <= j < |agents| && agents[j] == r.value;
    MatchesAtMostOne(agents, w, i, j);
  }

  /** Some row, of any owner and any active state, already holds `slug`. */
  predicate SlugTaken(agents: seq<Agent>, slug: string) {
    exists i :: 0 <= i < |agents| && agents[i].slug == slug
  }

  /** The agents of `owner`, newest first: `where user_id = owner order by created_at desc`
      over a table kept in insertion order. */
  function OwnedNewestFirst(agents: seq<Agent>, owner: UserId): (r: seq<Agent>)
    ensures forall a :: a in r <==> a in agents && a.userId == owner
    ensures |r| <= |agents|
  {
    if agents == [] then []
    else
      var last := agents[|agents| - 1];
      var earlier := OwnedNewestFirst(agents[..|agents| - 1], owner);
      if last.userId == owner then [last] + earlier else earlier
  }

  /** Creation times strictly decrease along `r`. */
  predicate NewestFirst(r: seq<Agent>) {
    forall i, j :: 0 <= i < j < |r| ==> r[i].createdAt > r[j].createdAt
  }

  /** The listing is ordered by creation time, newest first. */
  lemma {:induction false} OwnedNewestFirstOrdered(agents: seq<Agent>, owner: UserId)
    requires CreatedInOrder(agents)
    ensures NewestFirst(OwnedNewestFirst(agents, owner))
  {
    if agents != [] {
      var prefix := agents[..|agents| - 1];
      var last := agents[|agents| - 1];
      assert CreatedInOrder(prefix) by {
        forall i, j | 0 <= i < j < |prefix| ensures prefix[i].createdAt < prefix[j].createdAt {
          assert prefix[i] == agents[i] && prefix[j] == agents[j];
        }
      }
      OwnedNewestFirstOrdered(prefix, owner);
      var earlier := OwnedNewestFirst(prefix, owner);
      if last.userId == owner {
        var r := [last] + earlier;
        forall k | 0 <= k < |earlier| ensures last.createdAt > earlier[k].createdAt {
          assert earlier[k] in prefix;
          var m :| 0 <= m < |prefix| && prefix[m] == earlier[k];
          assert agents[m] == earlier[k];
        }
        forall i, j | 0 <= i < j < |r| ensures r[i].createdAt > r[j].createdAt {
          assert r[j] == earlier[j - 1];
          if i > 0 {
            assert r[i] == earlier[i - 1];
          }
        }
        assert OwnedNewestFirst(agents, owner) == r;
      } else {
        assert OwnedNewestFirst(agents, owner) == earlier;
      }
    }
  }

  /** An inactive agent is hidden from the public look-up, yet its owner still finds it by id. */
  lemma InactiveAgentVisibleOnlyToOwner(agents: seq<Agent>, a: Agent)
    requires IdsUnique(agents) && SlugsUnique(agents)
    requires a in agents && !a.isActive
    ensures FindFirst(agents, ActiveSlugIs(a.slug)).None?
    ensures FindFirst(agents, IdAndOwner(a.id, a.userId)) == Some(a)
  {
    FindFirstIsTheMatch(agents, IdAndOwner(a.id, a.userId), a);
    var i :| 0 <= i < |agents| && agents[i] == a;
    forall j | 0 <= j < |agents| ensures !Matches(ActiveSlugIs(a.slug), agents[j]) {
      RowDeterminedByIdAndBySlug(agents, i, j);
    }
  }

  // ---------------------------------------------------------------------------
  // Rows written by the actions

  /** The row `createAgent` inserts: the caller as owner, the validated fields, active. */
  function InsertedRow(id: AgentId, userId: UserId, v: AgentFormValues, now: Timestamp): Agent {
    NewAgent(id, userId, v.name, v.slug, v.systemPrompt, v.modelProvider, now)
  }

  /** The row after `updateAgent`'s `set`: the four form fields and `updatedAt` change. */
  function UpdatedRow(a: Agent, v: AgentFormValues, now: Timestamp): (b: Agent)
    ensures b.id == a.id && b.userId == a.userId && b.isActive == a.isActive && b.createdAt == a.createdAt
    ensures b.name == v.name && b.slug == v.slug && b.systemPrompt == v.systemPrompt
    ensures b.modelProvider == v.modelProvider && b.updatedAt == now
  {
    a.(name := v.name, slug := v.slug, systemPrompt := v.systemPrompt,
       modelProvider := v.modelProvider, updatedAt := now)
  }

  /** The row a successful create stores: only a name past its cap is cut, losing trailing
      spaces; every other column holds what was submitted. */
  lemma StoredInsertedRow(id: AgentId, userId: UserId, v: AgentFormValues, now: Timestamp)
    requires |userId| <= UserIdCap && AgentSchemaAccepts(v) && |v.slug| <= SlugCap
    ensures var b := AgentAsStored(InsertedRow(id, userId, v, now));
            && b.id == id && b.userId == userId && b.name == VarcharStored(v.name, NameCap)
            && b.slug == v.slug && b.systemPrompt == v.systemPrompt && b.modelProvider == v.modelProvider
            && b.isActive && b.createdAt == now && b.updatedAt == now
  {
  }

  /** A name padded past its cap with spaces is no failure: the column takes the row and keeps
      the name up to the cap, so the stored name is the unpadded name followed by spaces. */
  lemma PaddedNameIsCut(id: AgentId, userId: UserId, v: AgentFormValues, now: Timestamp, base: string, pad: string)
    requires |userId| <= UserIdCap && AgentSchemaAccepts(v) && |v.slug| <= SlugCap
    requires |base| <= NameCap && v.name == base + pad && forall k :: 0 <= k < |pad| ==> pad[k] == ' '
    ensures AgentAcceptedByColumns(InsertedRow(id, userId, v, now))
    ensures var stored := AgentAsStored(InsertedRow(id, userId, v, now)).name;
            |stored| == (if |v.name| <= NameCap then |v.name| else NameCap)
            && stored[..|base|] == base && forall k :: |base| <= k < |stored| ==> stored[k] == ' '
  {
    var name := v.name;
    forall k | NameCap <= k < |name| ensures name[k] == ' ' {
      assert name[k] == pad[k - |base|];
    }
    var stored := VarcharStored(name, NameCap);
    forall k | |base| <= k < |stored| ensures stored[k] == ' ' {
      assert stored[k] == name[k] == pad[k - |base|];
    }
  }

  /** `update agents set ... where id = id`, each `varchar` as its column stores it. */
  function UpdateWhereId(agents: seq<Agent>, id: AgentId, v: AgentFormValues, now: Timestamp): (r: seq<Agent>)
    ensures |r| == |agents|
    ensures forall i :: 0 <= i < |r| ==>
              r[i] == if agents[i].id == id then AgentAsStored(UpdatedRow(agents[i], v, now)) else agents[i]
  {
    seq(|agents|, i requires 0 <= i < |agents| =>
      if agents[i].id == id then AgentAsStored(UpdatedRow(agents[i], v, now)) else agents[i])
  }

  // ---------------------------------------------------------------------------
  // The store

  /** The agent table together with the two config tables that reference it, a logical clock
      for the timestamp columns, and a counter that stands in for generated uuids. */
  class AgentStore {
    var agents: seq<Agent>
    var shopifyConfigs: seq<ShopifyConfig>
    var uiConfigs: seq<UiConfig>
    var clock: Timestamp
    var nextId: AgentId

    function Tables(): Database
      reads this
    {
      Database(agents, shopifyConfigs, uiConfigs)
    }

    /** The schema's constraints, insertion order, and fresh ids and times still to come. */
    ghost predicate Valid()
      reads this
    {
      && Consistent(Tables())
      && CreatedInOrder(agents)
      && (forall a :: a in agents ==> a.id < nextId && a.createdAt <= a.updatedAt < clock)
    }

    /** Opens a store over existing tables. */
    constructor (db: Database, now: Timestamp, freshId: AgentId)
      requires Consistent(db) && CreatedInOrder(db.agents)
      requires forall a :: a in db.agents ==> a.id < freshId && a.createdAt <= a.updatedAt < now
      ensures Valid()
      ensures Tables() == db && clock == now && nextId == freshId
    {
      agents, shopifyConfigs, uiConfigs := db.agents, db.shopifyConfigs, db.uiConfigs;
      clock, nextId := now, freshId;
    }

    /** `createAgent`. */
    method CreateAgent(user: Option<UserId>, formData: AgentFormValues) returns (r: ActionResult)
      requires Valid()
      modifies this
      ensures Valid()
      ensures user.None? ==> r == Error(Unauthorized)
      ensures user.Some? && !AgentSchemaAccepts(formData) ==> r == Error(InvalidFormData(FieldMessages(formData)))
      ensures user.Some? && AgentSchemaAccepts(formData) && SlugTaken(old(agents), formData.slug) ==>
                r == Error(SlugAlreadyTaken)
      ensures r == Error(Failed) ==> !AgentAcceptedByColumns(InsertedRow(old(nextId), user.value, formData, old(clock)))
      ensures user.Some? && AgentSchemaAccepts(formData) && !SlugTaken(old(agents), formData.slug)
              && !AgentAcceptedByColumns(InsertedRow(old(nextId), user.value, formData, old(clock))) ==>
                r == Error(Failed)
      ensures r.Success? <==>
                && user.Some? && AgentSchemaAccepts(formData) && !SlugTaken(old(agents), formData.slug)
                && AgentAcceptedByColumns(InsertedRow(old(nextId), user.value, formData, old(clock)))
      ensures r.Success? ==>
                && agents == old(agents) + [AgentAsStored(InsertedRow(old(nextId), user.value, formData, old(clock)))]
                && nextId == old(nextId) + 1 && clock == old(clock) + 1
      ensures !r.Success? ==> agents == old(agents) && nextId == old(nextId) && clock == old(clock)
      ensures shopifyConfigs == old(shopifyConfigs) && uiConfigs == old(uiConfigs)
    {
      if user.None? {
        return Error(Unauthorized);
      }
      if !AgentSchemaAccepts(formData) {
        return Error(InvalidFormData(FieldMessages(formData)));
      }
      var existing := FindFirst(agents, SlugIs(formData.slug));
      if existing.Some? {
        return Error(SlugAlreadyTaken);
      }
      var written := InsertedRow(nextId, user.value, formData, clock);
      if !AgentAcceptedByColumns(written) {
        return Error(Failed);
      }
      AcceptedSlugIsNeverCut(formData.slug);
      var row := AgentAsStored(written);
      ghost var before := agents;
      agents := agents + [row];
      assert forall a :: a in agents ==> a in before || a == row;
      forall c | c in shopifyConfigs ensures HasAgent(agents, c.agentId) {
        var a :| a in before && a.id == c.agentId;
        assert a in agents;
      }
      forall c | c in uiConfigs ensures HasAgent(agents, c.agentId) {
        var a :| a in before && a.id == c.agentId;
        assert a in agents;
      }
      assert forall i :: 0 <= i < |before| ==> before[i] in before;
      nextId, clock := nextId + 1, clock + 1;
      r := Success;
    }

    /** `getUserAgents`: the caller's agents, newest first; nothing when signed out. */
    method GetUserAgents(user: Option<UserId>) returns (r: seq<Agent>)
      requires Valid()
      ensures forall a :: a in r <==> user.Some? && a in agents && a.userId == user.value
      ensures forall i, j :: 0 <= i < j < |r| ==> r[i].createdAt > r[j].createdAt
      ensures user.Some? ==> r == OwnedNewestFirst(agents, user.value)
    {
      if user.None? {
        return [];
      }
      OwnedNewestFirstOrdered(agents, user.value);
      r := OwnedNewestFirst(agents, user.value);
    }

    /** `getAgentById`: the agent with that id if the caller owns it; a missing and a foreign
        agent look the same. */
    method GetAgentById(user: Option<UserId>, id: AgentId) returns (r: Option<Agent>)
      requires Valid()
      ensures r.Some? <==> user.Some? && exists a :: a in agents && a.id == id && a.userId == user.value
      ensures r.Some? ==> r.value in agents && r.value.id == id && r.value.userId == user.value
      ensures r.Some? ==> forall a :: a in agents && a.id == id ==> a == r.value
    {
      if user.None? {
        return None;
      }
      r := FindFirst(agents, IdAndOwner(id, user.value));
      if r.Some? {
        forall a | a in agents && a.id == id ensures a == r.value {
          var i :| 0 <= i < |agents| && agents[i] == a;
          var j :| 0 <= j < |agents| && agents[j] == r.value;
          RowDeterminedByIdAndBySlug(agents, i, j);
        }
      }
    }

    /** `getAgentBySlug`: public; finds only an active agent with that slug. */
    method GetAgentBySlug(slug: string) returns (r: Option<Agent>)
      requires Valid()
      ensures r.Some? <==> exists a :: a in agents && a.slug == slug && a.isActive
      ensures r.Some? ==> r.value in agents && r.value.slug == slug && r.value.isActive
    {
      r := FindFirst(agents, ActiveSlugIs(slug));
    }

    /** `updateAgent`. */
    method UpdateAgent(user: Option<UserId>, id: AgentId, formData: AgentFormValues) returns (r: ActionResult)
      requires Valid()
      modifies this
      ensures Valid()
      ensures user.None? ==> r == Error(Unauthorized)
      ensures user.Some? && !AgentSchemaAccepts(formData) ==> r == Error(InvalidFormData(FieldMessages(formData)))
      ensures user.Some? && AgentSchemaAccepts(formData) && FindFirst(old(agents), IdAndOwner(id, user.value)).None? ==>
                r == Error(NotFoundOrForbidden)
      ensures user.Some? && AgentSchemaAccepts(formData) ==>
                var found := FindFirst(old(agents), IdAndOwner(id, user.value));
                found.Some? && formData.slug != found.value.slug && SlugTaken(old(agents), formData.slug) ==>
                  r == Error(SlugAlreadyTaken)
      ensures user.Some? && AgentSchemaAccepts(formData) ==>
                var found := FindFirst(old(agents), IdAndOwner(id, user.value));
                found.Some? && formData.slug == found.value.slug ==> r != Error(SlugAlreadyTaken)
      ensures user.Some? && AgentSchemaAccepts(formData) ==>
                var found := FindFirst(old(agents), IdAndOwner(id, user.value));
                found.Some? && (formData.slug == found.value.slug || !SlugTaken(old(agents), formData.slug))
                && !AgentAcceptedByColumns(UpdatedRow(found.value, formData, old(clock))) ==>
                  r == Error(Failed)
      ensures r == Error(Failed) ==>
                && user.Some? && FindFirst(old(agents), IdAndOwner(id, user.value)).Some?
                && !AgentAcceptedByColumns(UpdatedRow(FindFirst(old(agents), IdAndOwner(id, user.value)).value, formData, old(clock)))
      ensures r.Success? <==>
                && user.Some? && AgentSchemaAccepts(formData)
                && FindFirst(old(agents), IdAndOwner(id, user.value)).Some?
                && (formData.slug == FindFirst(old(agents), IdAndOwner(id, user.value)).value.slug
                    || !SlugTaken(old(agents), formData.slug))
                && AgentAcceptedByColumns(UpdatedRow(FindFirst(old(agents), IdAndOwner(id, user.value)).value, formData, old(clock)))
      ensures r.Success? ==> agents == UpdateWhereId(old(agents), id, formData, old(clock)) && clock == old(clock) + 1
      ensures !r.Success? ==> agents == old(agents) && clock == old(clock)
      ensures nextId == old(nextId) && shopifyConfigs == old(shopifyConfigs) && uiConfigs == old(uiConfigs)
    {
      if user.None? {
        return Error(Unauthorized);
      }
      if !AgentSchemaAccepts(formData) {
        return Error(InvalidFormData(FieldMessages(formData)));
      }
      var existing := FindFirst(agents, IdAndOwner(id, user.value));
      if existing.None? {
        return Error(NotFoundOrForbidden);
      }
      if formData.slug != existing.value.slug {
        var slugExists := FindFirst(agents, SlugIs(formData.slug));
        if slugExists.Some? {
          return Error(SlugAlreadyTaken);
        }
      }
      var updated := UpdatedRow(existing.value, formData, clock);
      if !AgentAcceptedByColumns(updated) {
        return Error(Failed);
      }
      AcceptedSlugIsNeverCut(formData.slug);
      ghost var before := Tables();
      agents := UpdateWhereId(agents, id, formData, clock);
      UpdateKeepsKeysAndOrder(before.agents, agents, existing.value, formData, clock);
      UpdateKeepsRowFacts(before, agents, existing.value, formData, clock, nextId);
      clock := clock + 1;
      r := Success;
    }

    /** `deleteAgent`: removes the caller's agent and, by the cascade, its config rows. */
    method DeleteAgent(user: Option<UserId>, id: AgentId) returns (r: ActionResult)
      requires Valid()
      modifies this
      ensures Valid()
      ensures user.None? ==> r == Error(Unauthorized)
      ensures user.Some? && FindFirst(old(agents), IdAndOwner(id, user.value)).None? ==> r == Error(NotFoundOrForbidden)
      ensures r.Success? <==> user.Some? && FindFirst(old(agents), IdAndOwner(id, user.value)).Some?
      ensures r.Success? ==> Tables() == DeleteAgentCascade(old(Tables()), id)
      ensures !r.Success? ==> Tables() == old(Tables())
      ensures clock == old(clock) && nextId == old(nextId)
    {
      if user.None? {
        return Error(Unauthorized);
      }
      var existing := FindFirst(agents, IdAndOwner(id, user.value));
      if existing.None? {
        return Error(NotFoundOrForbidden);
      }
      var db := DeleteAgentCascade(Tables(), id);
      CascadeKeepsConsistency(Tables(), id);
      agents, shopifyConfigs, uiConfigs := db.agents, db.shopifyConfigs, db.uiConfigs;
      r := Success;
    }
  }

  /** An update keeps the primary key, the unique slug and the insertion order: the only row
      that changes keeps its id and creation time, and takes a slug that is either its own or
      held by no other row. */
  lemma UpdateKeepsKeysAndOrder(before: seq<Agent>, after: seq<Agent>, existing: Agent, v: AgentFormValues, now: Timestamp)
    requires IdsUnique(before) && SlugsUnique(before) && CreatedInOrder(before)
    requires existing in before
    requires v.slug == existing.slug || !SlugTaken(before, v.slug)
    requires |v.slug| <= SlugCap
    requires after == UpdateWhereId(before, existing.id, v, now)
    ensures IdsUnique(after) && SlugsUnique(after) && CreatedInOrder(after)
  {
    var k :| 0 <= k < |before| && before[k] == existing;
    forall i | 0 <= i < |before| && before[i].id == existing.id ensures i == k {
      RowDeterminedByIdAndBySlug(before, i, k);
    }
    forall i, j | 0 <= i < j < |after| ensures after[i].slug != after[j].slug {
      if i == k || j == k {
        var o := if i == k then j else i;
        assert after[o] == before[o];
        RowDeterminedByIdAndBySlug(before, o, k);
        if v.slug != existing.slug {
          assert before[o].slug != v.slug;
        }
      } else {
        assert after[i] == before[i] && after[j] == before[j];
      }
    }
  }

  /** An update keeps the column caps, the foreign keys and the store's bounds on ids and
      times: the one changed row is the owner's row, stored within the caps. */
  lemma UpdateKeepsRowFacts(db: Database, after: seq<Agent>, existing: Agent, v: AgentFormValues,
                            now: Timestamp, freshId: AgentId)
    requires Consistent(db)
    requires existing in db.agents
    requires forall a :: a in db.agents ==> a.id < freshId && a.createdAt <= a.updatedAt < now
    requires after == UpdateWhereId(db.agents, existing.id, v, now)
    ensures ForeignKeysHold(Database(after, db.shopifyConfigs, db.uiConfigs))
    ensures forall a :: a in after ==> AgentFitsColumns(a)
    ensures forall a :: a in after ==> a.id < freshId && a.createdAt <= a.updatedAt < now + 1
  {
    var before := db.agents;
    var k :| 0 <= k < |before| && before[k] == existing;
    forall a | a in after
      ensures AgentFitsColumns(a) && a.id < freshId && a.createdAt <= a.updatedAt < now + 1
    {
      var i :| 0 <= i < |after| && after[i] == a;
      assert before[i] in before;
      RowDeterminedByIdAndBySlug(before, i, k);
    }
    forall c | c in db.shopifyConfigs ensures HasAgent(after, c.agentId) {
      var a :| a in before && a.id == c.agentId;
      var i :| 0 <= i < |before| && before[i] == a;
      assert after[i].id == a.id;
    }
    forall c | c in db.uiConfigs ensures HasAgent(after, c.agentId) {
      var a :| a in before && a.id == c.agentId;
      var i :| 0 <= i < |before| && before[i] == a;
      assert after[i].id == a.id;
    }
  }

  // ---------------------------------------------------------------------------
  // Scenarios a caller can rely on

  /** Creating an agent and then listing the caller's agents shows the new record first,
      equal on every submitted field (a name past its cap loses only its trailing spaces),
      active and with equal timestamps; the look-up by id and the public look-up by slug then
      find the same record. */
  method CreateThenFetch(store: AgentStore, user: UserId, formData: AgentFormValues)
    returns (created: ActionResult, newest: Agent, byId: Option<Agent>, bySlug: Option<Agent>)
    requires store.Valid()
    requires AgentSchemaAccepts(formData) && !SlugTaken(store.agents, formData.slug)
    requires |user| <= UserIdCap && VarcharAccepts(formData.name, NameCap) && |formData.slug| <= SlugCap
    modifies store
    ensures created == Success
    ensures newest.userId == user && newest.name == VarcharStored(formData.name, NameCap)
    ensures newest.slug == formData.slug
    ensures newest.systemPrompt == formData.systemPrompt && newest.modelProvider == formData.modelProvider
    ensures newest.isActive && newest.createdAt == newest.updatedAt
    ensures byId == Some(newest) && bySlug == Some(newest)
  {
    ghost var written := InsertedRow(store.nextId, user, formData, store.clock);
    created := store.CreateAgent(Some(user), formData);
    var row := store.agents[|store.agents| - 1];
    assert row == AgentAsStored(written);
    StoredInsertedRow(written.id, user, formData, written.createdAt);
    var listing := store.GetUserAgents(Some(user));
    assert row in listing;
    var k :| 0 <= k < |listing| && listing[k] == row;
    assert listing[0].createdAt >= listing[k].createdAt;
    assert listing[0] in store.agents;
    var m :| 0 <= m < |store.agents| && store.agents[m] == listing[0];
    RowDeterminedByCreation(store.agents, m, |store.agents| - 1);
    newest := listing[0];
    byId := store.GetAgentById(Some(user), newest.id);
    bySlug := store.GetAgentBySlug(formData.slug);
    FindFirstIsTheMatch(store.agents, ActiveSlugIs(formData.slug), newest);
  }

  /** A second create with a slug already in use fails and persists nothing, whoever asks. */
  method DuplicateSlugRejected(store: AgentStore, first: UserId, second: UserId,
                               a: AgentFormValues, b: AgentFormValues)
    returns (r1: ActionResult, r2: ActionResult)
    requires store.Valid()
    requires AgentSchemaAccepts(a) && AgentSchemaAccepts(b) && a.slug == b.slug
    requires VarcharAccepts(first, UserIdCap) && VarcharAccepts(a.name, NameCap) && VarcharAccepts(a.slug, SlugCap)
    modifies store
    ensures r2 == Error(SlugAlreadyTaken)
    ensures |store.agents| <= |old(store.agents)| + 1
  {
    r1 := store.CreateAgent(Some(first), a);
    AcceptedSlugIsNeverCut(a.slug);
    if r1 == Success {
      assert store.agents[|store.agents| - 1].slug == b.slug;
    }
    r2 := store.CreateAgent(Some(second), b);
  }
}
