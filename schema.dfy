/** The three tables of the relational schema (`agents`, `shopify_configs`, `ui_configs`),
    their column defaults and length caps, the unique slug, and the cascading foreign keys. */
module Schema {

  /** `agents.id`, a uuid the database generates; only its identity matters here. */
  type AgentId = nat
  /** The uuid primary key of a config row. */
  type RowId = nat
  /** The identity provider's user id, stored in `agents.user_id`. The actions treat an empty
      id like a missing one (`!userId`), so a signed-in user's id is never empty. */
  type UserId = s: string | s != [] witness "u"
  /** A reading of a logical clock, standing in for the `timestamp` columns. */
  type Timestamp = nat

  // Length caps of the `varchar` columns.
  const UserIdCap := 191
  const NameCap := 191
  const SlugCap := 191
  const ModelProviderCap := 50
  const ShopifyFieldCap := 191
  const ColorCap := 20
  const ButtonPositionCap := 20
  const ButtonIconCap := 20
  const HeaderTitleCap := 100

  /** A row of `agents`. */
  datatype Agent = Agent(
    id: AgentId,
    userId: UserId,
    name: string,
    slug: string,
    systemPrompt: string,
    modelProvider: string,
    isActive: bool,
    createdAt: Timestamp,
    updatedAt: Timestamp)

  /** A row of `shopify_configs`. */
  datatype ShopifyConfig = ShopifyConfig(
    id: RowId,
    agentId: AgentId,
    shopDomain: string,
    apiKey: string,
    apiSecretKey: string,
    accessToken: string,
    enableProductRecommendations: bool,
    maxProductsToShow: int,
    createdAt: Timestamp,
    updatedAt: Timestamp)

  /** A row of `ui_configs`. */
  datatype UiConfig = UiConfig(
    id: RowId,
    agentId: AgentId,
    primaryColor: string,
    secondaryColor: string,
    backgroundColor: string,
    textColor: string,
    buttonPosition: string,
    buttonSize: int,
    widgetWidth: int,
    widgetHeight: int,
    borderRadius: int,
    welcomeMessage: string,
    buttonIcon: string,
    headerTitle: string,
    showAgentAvatar: bool,
    showTimestamp: bool,
    showTypingIndicator: bool,
    enableDarkMode: bool,
    allowAttachments: bool,
    createdAt: Timestamp,
    updatedAt: Timestamp)

  /** The whole database: the three tables, each in insertion order. */
  datatype Database = Database(
    agents: seq<Agent>,
    shopifyConfigs: seq<ShopifyConfig>,
    uiConfigs: seq<UiConfig>)

  // ---------------------------------------------------------------------------
  // Rows as inserted when the optional columns are left to their defaults

  /** An `agents` row given every column without a default; `is_active` defaults to true
      and both timestamps to the insertion time. */
  function NewAgent(id: AgentId, userId: UserId, name: string, slug: string,
                    systemPrompt: string, modelProvider: string, now: Timestamp): (a: Agent)
    ensures a.isActive && a.createdAt == now && a.updatedAt == now
    ensures a.id == id && a.userId == userId && a.name == name && a.slug == slug
    ensures a.systemPrompt == systemPrompt && a.modelProvider == modelProvider
  {
    Agent(id, userId, name, slug, systemPrompt, modelProvider, true, now, now)
  }

  /** A `shopify_configs` row with its defaults: recommendations on, at most 3 products. */
  function NewShopifyConfig(id: RowId, agentId: AgentId, shopDomain: string, apiKey: string,
                            apiSecretKey: string, accessToken: string, now: Timestamp): (c: ShopifyConfig)
    ensures c.enableProductRecommendations && c.maxProductsToShow == 3
    ensures c.createdAt == now && c.updatedAt == now
    ensures c.agentId == agentId
  {
    ShopifyConfig(id, agentId, shopDomain, apiKey, apiSecretKey, accessToken, true, 3, now, now)
  }

  /** A `ui_configs` row with every appearance column at its default. */
  function NewUiConfig(id: RowId, agentId: AgentId, now: Timestamp): (c: UiConfig)
    ensures UiConfigFitsColumns(c)
    ensures c.agentId == agentId && c.createdAt == now && c.updatedAt == now
  {
    UiConfig(id, agentId,
             "#0070f3", "#f5f5f5", "#ffffff", "#333333",
             "bottom-right", 60, 380, 600, 8,
             "Hello! How can I help you today?", "message", "Chat Support",
             true, true, true, false, false,
             now, now)
  }

  // ---------------------------------------------------------------------------
  // Column constraints

  /** A `varchar(cap)` column takes a written value when everything past the cap is a space:
      a longer value with any other character past the cap makes the insert or update fail. */
  predicate VarcharAccepts(s: string, cap: nat) {
    forall k :: cap <= k < |s| ==> s[k] == ' '
  }

  /** The value a `varchar(cap)` column holds after a write it accepted: a value within the cap
      as written, a longer one cut to the cap, so that only trailing spaces are lost. */
  function VarcharStored(s: string, cap: nat): (r: string)
    ensures |r| == if |s| <= cap then |s| else cap
    ensures r == s[..|r|]
    ensures VarcharAccepts(s, cap) ==> forall k :: |r| <= k < |s| ==> s[k] == ' '
  {
    if |s| <= cap then s else s[..cap]
  }

  /** Whether the `agents` columns take the row, each `varchar` by `VarcharAccepts`. */
  predicate AgentAcceptedByColumns(a: Agent) {
    && VarcharAccepts(a.userId, UserIdCap)
    && VarcharAccepts(a.name, NameCap)
    && VarcharAccepts(a.slug, SlugCap)
    && VarcharAccepts(a.modelProvider, ModelProviderCap)
  }

  /** The row the table holds after a write of `a` it accepted: each `varchar` as stored. */
  function AgentAsStored(a: Agent): (b: Agent)
    ensures AgentFitsColumns(b)
    ensures AgentFitsColumns(a) ==> b == a
    ensures b.id == a.id && b.isActive == a.isActive && b.createdAt == a.createdAt && b.updatedAt == a.updatedAt
    ensures b.systemPrompt == a.systemPrompt
    ensures b.userId == VarcharStored(a.userId, UserIdCap) && b.name == VarcharStored(a.name, NameCap)
    ensures b.slug == VarcharStored(a.slug, SlugCap)
    ensures b.modelProvider == VarcharStored(a.modelProvider, ModelProviderCap)
  {
    a.(userId := VarcharStored(a.userId, UserIdCap), name := VarcharStored(a.name, NameCap),
       slug := VarcharStored(a.slug, SlugCap), modelProvider := VarcharStored(a.modelProvider, ModelProviderCap))
  }

  /** A row within the `varchar` caps of `agents`: every stored row is. */
  predicate AgentFitsColumns(a: Agent) {
    && |a.userId| <= UserIdCap
    && |a.name| <= NameCap
    && |a.slug| <= SlugCap
    && |a.modelProvider| <= ModelProviderCap
  }

  predicate ShopifyConfigFitsColumns(c: ShopifyConfig) {
    && |c.shopDomain| <= ShopifyFieldCap
    && |c.apiKey| <= ShopifyFieldCap
    && |c.apiSecretKey| <= ShopifyFieldCap
    && |c.accessToken| <= ShopifyFieldCap
  }

  predicate UiConfigFitsColumns(c: UiConfig) {
    && |c.primaryColor| <= ColorCap
    && |c.secondaryColor| <= ColorCap
    && |c.backgroundColor| <= ColorCap
    && |c.textColor| <= ColorCap
    && |c.buttonPosition| <= ButtonPositionCap
    && |c.buttonIcon| <= ButtonIconCap
    && |c.headerTitle| <= HeaderTitleCap
  }

  /** `agents.id` is the primary key. */
  predicate IdsUnique(agents: seq<Agent>) {
    forall i, j :: 0 <= i < j < |agents| ==> agents[i].id != agents[j].id
  }

  /** `shopify_configs.id` is the primary key. */
  predicate ShopifyConfigIdsUnique(rows: seq<ShopifyConfig>) {
    forall i, j :: 0 <= i < j < |rows| ==> rows[i].id != rows[j].id
  }

  /** `ui_configs.id` is the primary key. */
  predicate UiConfigIdsUnique(rows: seq<UiConfig>) {
    forall i, j :: 0 <= i < j < |rows| ==> rows[i].id != rows[j].id
  }

  /** `agents.slug` is declared unique across the whole table. */
  predicate SlugsUnique(agents: seq<Agent>) {
    forall i, j :: 0 <= i < j < |agents| ==> agents[i].slug != agents[j].slug
  }

  /** Rows sit in insertion order, so creation times strictly increase along the table. */
  predicate CreatedInOrder(agents: seq<Agent>) {
    forall i, j :: 0 <= i < j < |agents| ==> agents[i].createdAt < agents[j].createdAt
  }

  /** Under the primary key and the unique slug, a row is determined by its id, and by its slug. */
  lemma RowDeterminedByIdAndBySlug(agents: seq<Agent>, i: int, j: int)
    requires IdsUnique(agents) && SlugsUnique(agents)
    requires 0 <= i < |agents| && 0 <= j < |agents|
    ensures agents[i].id == agents[j].id ==> i == j
    ensures agents[i].slug == agents[j].slug ==> i == j
  {
    if j < i {
      assert agents[j].id != agents[i].id && agents[j].slug != agents[i].slug;
    }
  }

  /** Under the insertion order, a row is determined by its creation time. */
  lemma RowDeterminedByCreation(agents: seq<Agent>, i: int, j: int)
    requires CreatedInOrder(agents)
    requires 0 <= i < |agents| && 0 <= j < |agents|
    ensures agents[i].createdAt == agents[j].createdAt ==> i == j
    ensures i < |agents| - 1 ==> agents[i].createdAt < agents[|agents| - 1].createdAt
  {
    if j < i {
      assert agents[j].createdAt < agents[i].createdAt;
    }
  }

  predicate HasAgent(agents: seq<Agent>, id: AgentId) {
    exists a :: a in agents && a.id == id
  }

  /** Every config row's `agent_id` references an existing agent. Nothing more is
      required: several config rows may reference the same agent. */
  predicate ForeignKeysHold(db: Database) {
    && (forall c :: c in db.shopifyConfigs ==> HasAgent(db.agents, c.agentId))
    && (forall c :: c in db.uiConfigs ==> HasAgent(db.agents, c.agentId))
  }

  /** Everything the schema enforces. */
  predicate Consistent(db: Database) {
    && IdsUnique(db.agents)
    && ShopifyConfigIdsUnique(db.shopifyConfigs)
    && UiConfigIdsUnique(db.uiConfigs)
    && SlugsUnique(db.agents)
    && ForeignKeysHold(db)
    && (forall a :: a in db.agents ==> AgentFitsColumns(a))
    && (forall c :: c in db.shopifyConfigs ==> ShopifyConfigFitsColumns(c))
    && (forall c :: c in db.uiConfigs ==> UiConfigFitsColumns(c))
  }

  // ---------------------------------------------------------------------------
  // Deletion

  /** `DELETE FROM rows WHERE key = id`, keeping the order of the remaining rows. */
  function DeleteWhere<T(!new)>(rows: seq<T>, key: T -> AgentId, id: AgentId): (r: seq<T>)
    ensures |r| <= |rows|
    ensures forall x :: x in r <==> x in rows && key(x) != id
  {
    if rows == [] then []
    else (if key(rows[0]) != id then [rows[0]] else []) + DeleteWhere(rows[1..], key, id)
  }

  function AgentKey(a: Agent): AgentId { a.id }
  function ShopifyConfigKey(c: ShopifyConfig): AgentId { c.agentId }
  function UiConfigKey(c: UiConfig): AgentId { c.agentId }

  /** Deleting an agent; `on delete cascade` removes the config rows referencing it. */
  function DeleteAgentCascade(db: Database, id: AgentId): (r: Database)
    ensures forall a :: a in r.agents <==> a in db.agents && a.id != id
    ensures forall c :: c in r.shopifyConfigs <==> c in db.shopifyConfigs && c.agentId != id
    ensures forall c :: c in r.uiConfigs <==> c in db.uiConfigs && c.agentId != id
  {
    Database(DeleteWhere(db.agents, AgentKey, id),
             DeleteWhere(db.shopifyConfigs, ShopifyConfigKey, id),
             DeleteWhere(db.uiConfigs, UiConfigKey, id))
  }

  /** `R` holds between every row and every later row. */
  ghost predicate Pairwise<T>(rows: seq<T>, R: (T, T) -> bool) {
    forall i, j :: 0 <= i < j < |rows| ==> R(rows[i], rows[j])
  }

  lemma PairwiseCons<T>(x: T, rest: seq<T>, R: (T, T) -> bool)
    requires Pairwise(rest, R)
    requires forall k :: 0 <= k < |rest| ==> R(x, rest[k])
    ensures Pairwise([x] + rest, R)
  {
    var r := [x] + rest;
    forall i, j | 0 <= i < j < |r| ensures R(r[i], r[j]) {
      assert r[j] == rest[j - 1];
      if i > 0 {
        assert r[i] == rest[i - 1];
      }
    }
  }

  /** Deleting rows keeps the remaining rows in their order, so any relation that holds
      between every earlier and every later row still holds afterwards. */
  lemma {:induction false} DeleteWhereKeepsPairwise<T(!new)>(rows: seq<T>, key: T -> AgentId, id: AgentId,
                                                             R: (T, T) -> bool)
    requires Pairwise(rows, R)
    ensures Pairwise(DeleteWhere(rows, key, id), R)
  {
    if rows != [] {
      var tail := rows[1..];
      assert Pairwise(tail, R) by {
        forall i, j | 0 <= i < j < |tail| ensures R(tail[i], tail[j]) {
          assert tail[i] == rows[i + 1] && tail[j] == rows[j + 1];
        }
      }
      DeleteWhereKeepsPairwise(tail, key, id, R);
      var rest := DeleteWhere(tail, key, id);
      if key(rows[0]) != id {
        forall k | 0 <= k < |rest| ensures R(rows[0], rest[k]) {
          assert rest[k] in tail;
          var m :| 0 <= m < |tail| && tail[m] == rest[k];
          assert rows[m + 1] == rest[k];
        }
        PairwiseCons(rows[0], rest, R);
        assert DeleteWhere(rows, key, id) == [rows[0]] + rest;
      } else {
        assert DeleteWhere(rows, key, id) == rest;
      }
    }
  }

  /** The cascade leaves no orphan config row and keeps every schema constraint,
      and the remaining agents keep their insertion order. */
  lemma CascadeKeepsConsistency(db: Database, id: AgentId)
    requires Consistent(db)
    ensures Consistent(DeleteAgentCascade(db, id))
    ensures CreatedInOrder(db.agents) ==> CreatedInOrder(DeleteAgentCascade(db, id).agents)
    ensures forall c :: c in DeleteAgentCascade(db, id).shopifyConfigs ==> c.agentId != id
    ensures forall c :: c in DeleteAgentCascade(db, id).uiConfigs ==> c.agentId != id
  {
    var r := DeleteAgentCascade(db, id);
    var key := AgentKey;
    var distinctIds := (a: Agent, b: Agent) => a.id != b.id;
    var distinctSlugs := (a: Agent, b: Agent) => a.slug != b.slug;
    var older := (a: Agent, b: Agent) => a.createdAt < b.createdAt;
    var distinctShopifyIds := (a: ShopifyConfig, b: ShopifyConfig) => a.id != b.id;
    var distinctUiIds := (a: UiConfig, b: UiConfig) => a.id != b.id;
    assert Pairwise(db.agents, distinctIds) && Pairwise(db.agents, distinctSlugs);
    DeleteWhereKeepsPairwise(db.agents, key, id, distinctIds);
    DeleteWhereKeepsPairwise(db.agents, key, id, distinctSlugs);
    assert Pairwise(db.shopifyConfigs, distinctShopifyIds) && Pairwise(db.uiConfigs, distinctUiIds);
    DeleteWhereKeepsPairwise(db.shopifyConfigs, ShopifyConfigKey, id, distinctShopifyIds);
    DeleteWhereKeepsPairwise(db.uiConfigs, UiConfigKey, id, distinctUiIds);
    if CreatedInOrder(db.agents) {
      assert Pairwise(db.agents, older);
      DeleteWhereKeepsPairwise(db.agents, key, id, older);
    }
    forall c | c in r.shopifyConfigs ensures HasAgent(r.agents, c.agentId) {
      var a :| a in db.agents && a.id == c.agentId;
      assert a in r.agents;
    }
    forall c | c in r.uiConfigs ensures HasAgent(r.agents, c.agentId) {
      var a :| a in db.agents && a.id == c.agentId;
      assert a in r.agents;
    }
  }

  /** Neither foreign key is unique: one agent may own several config rows of each kind. */
  lemma SeveralConfigsPerAgentAllowed()
    ensures exists db :: Consistent(db) && |db.shopifyConfigs| == 2 && |db.uiConfigs| == 2
                         && db.shopifyConfigs[0].agentId == db.shopifyConfigs[1].agentId
                         && db.uiConfigs[0].agentId == db.uiConfigs[1].agentId
  {
    var a := NewAgent(0, "user", "Support Bot", "support-bot", "You are a helpful assistant.", "gemini", 0);
    var s := NewShopifyConfig(1, 0, "shop.example", "key", "secret", "token", 0);
    var u := NewUiConfig(2, 0, 0);
    var db := Database([a], [s, s.(id := 3)], [u, u.(id := 4)]);
    assert a in db.agents;
    assert Consistent(db);
  }
}
