/**
 The configuration records of opaiui (src/opaiui/__init__.py): the per-agent
 `AgentConfig`, the application-wide `AppConfig` with its defaults, and the two
 validators that guard an `AppConfig` when it is built.
 */
module OpaiuiConfig {
  import opened Outcomes

  /** The exceptions the configuration code and `serve_app` can raise. */
  datatype Error =
    | InvalidMenuKeys(extraKeys: set<string>)  // ValueError: keys outside the allowed menu keys
    | NoAgentConfigs                           // ValueError: empty agent list
    | UnsupportedOperand                       // TypeError: `-` between a set and a list
    | IndexOutOfRange                          // IndexError: `[0]` on an empty list
    | ValidationFailed(errors: seq<Error>)     // the validators' ValueErrors, in field order

  /** A page menu: each allowed entry maps to a link or text, or to None. */
  type MenuItems = map<string, Option<string>>

  /** The `pydantic_ai.Agent` object is foreign; the model keeps a name for it. */
  type AgentHandle = string

  /** The agent's dependency object is foreign too; the model keeps a handle. */
  type DepsHandle = nat

  /** Display and wiring of one agent. The sidebar callback is UI and not kept. */
  datatype AgentConfig = AgentConfig(
    agent: AgentHandle,
    description: string,
    greeting: string,
    name: string,
    deps: Option<DepsHandle>,
    agentAvatar: string,
    userAvatar: string)

  /** `AgentConfig(agent=agent)`: every other field takes its declared default. */
  function NewAgentConfig(agent: AgentHandle): (r: AgentConfig)
    ensures r.agent == agent
    ensures r.name == "Agent"
    ensures r.description == "An agent."
    ensures r.greeting == "Hello, how can I assist you today?"
    ensures r.deps == None
    ensures r.agentAvatar == "👾" && r.userAvatar == "👤"
  {
    AgentConfig(agent, "An agent.", "Hello, how can I assist you today?", "Agent", None, "👾", "👤")
  }

  /** The only keys a page menu may have, in the order they are listed. */
  const AllowedMenuKeys: seq<string> := ["Get Help", "Report a Bug", "About"]

  function AllowedMenuKeySet(): set<string>
  {
    set k | k in AllowedMenuKeys
  }

  /** The menu an `AppConfig` gets when none is given: every allowed key, unset. */
  function DefaultMenuItems(): MenuItems
  {
    map["Get Help" := None, "Report a Bug" := None, "About" := None]
  }

  /** 60 days, in seconds. */
  const DefaultShareChatTtlSeconds: int := (60 * 60 * 24) * 60

  datatype AppConfig = AppConfig(
    showFunctionCalls: bool,
    showFunctionCallsStatus: bool,
    pageTitle: string,
    pageIcon: string,
    sidebarCollapsed: bool,
    menuItems: MenuItems,
    shareChatTtlSeconds: int,
    agentConfigs: seq<AgentConfig>)

  /** The default menu holds exactly the allowed keys, none of them set, and the
      default share TTL is 60 days and positive. */
  lemma AppConfigDefaults()
    ensures DefaultMenuItems().Keys == AllowedMenuKeySet()
    ensures forall k :: k in DefaultMenuItems() ==> DefaultMenuItems()[k] == None
    ensures DefaultShareChatTtlSeconds == 5184000 && DefaultShareChatTtlSeconds > 0
  {
  }

  /** The two operands Python's `-` may meet in the menu check. */
  datatype Operand = PySet(elements: set<string>) | PyList(items: seq<string>)

  /** Python's `a - b`: set difference between two sets; between a set and a
      list it raises TypeError. */
  function Difference(a: Operand, b: Operand): (r: Result<set<string>, Error>)
    ensures r.Ok? <==> a.PySet? && b.PySet?
    ensures r.Ok? ==> forall x :: x in r.value <==> x in a.elements && x !in b.elements
    ensures r.Err? ==> r.error == UnsupportedOperand
  {
    if a.PySet? && b.PySet? then Ok(a.elements - b.elements) else Err(UnsupportedOperand)
  }

  /** The menu validator as the source writes it: the difference is taken
      against the list of allowed keys. Like every field validator it either
      returns the menu unchanged or raises. */
  function ValidateMenuItemsAsWritten(v: MenuItems): (r: Result<MenuItems, Error>)
    ensures r.Ok? ==> r.value == v
    ensures r.Err? ==> r.error == UnsupportedOperand || (r.error.InvalidMenuKeys? && r.error.extraKeys != {})
  {
    match Difference(PySet(v.Keys), PyList(AllowedMenuKeys))
    case Err(e) => Err(e)
    case Ok(extra) => if extra != {} then Err(InvalidMenuKeys(extra)) else Ok(v)
  }

  /** As written, the validator raises TypeError on every menu, the default one
      included, instead of returning it. */
  lemma ValidateMenuItemsAsWrittenAlwaysRaises(v: MenuItems)
    ensures ValidateMenuItemsAsWritten(v) == Err(UnsupportedOperand)
  {
  }

  /** The menu validator as intended: the difference is taken against the set
      of allowed keys. The menu comes back unchanged exactly when each of its
      keys is allowed; otherwise a ValueError names the keys that are not. */
  function ValidateMenuItems(v: MenuItems): (r: Result<MenuItems, Error>)
    ensures r.Ok? <==> forall k :: k in v ==> k in AllowedMenuKeys
    ensures r.Ok? ==> r.value == v
    ensures r.Err? ==> r.error.InvalidMenuKeys? && r.error.extraKeys != {}
    ensures r.Err? ==> forall k :: k in r.error.extraKeys <==> k in v && k !in AllowedMenuKeys
  {
    match Difference(PySet(v.Keys), PySet(AllowedMenuKeySet()))
    case Err(e) => Err(e)
    case Ok(extra) => if extra != {} then Err(InvalidMenuKeys(extra)) else Ok(v)
  }

  /** The default menu passes the intended check, and the written one rejects it. */
  lemma DefaultMenuDiscrepancy()
    ensures ValidateMenuItems(DefaultMenuItems()) == Ok(DefaultMenuItems())
    ensures ValidateMenuItemsAsWritten(DefaultMenuItems()).Err?
  {
  }

  /** The agent-list validator: an empty list raises ValueError, any other list
      comes back unchanged. */
  function CheckNonEmpty(v: seq<AgentConfig>): (r: Result<seq<AgentConfig>, Error>)
    ensures r.Ok? <==> |v| > 0
    ensures r.Ok? ==> r.value == v
    ensures r.Err? ==> r.error == NoAgentConfigs
  {
    if |v| == 0 then Err(NoAgentConfigs) else Ok(v)
  }

  /** What every successfully built `AppConfig` satisfies. */
  predicate ValidAppConfig(c: AppConfig)
  {
    && |c.agentConfigs| > 0
    && forall k :: k in c.menuItems ==> k in AllowedMenuKeys
  }

  /** The ValueErrors of the validators that fail, in field order. A field
      validator in "after" mode runs only on a value the caller gave, so the
      menu is checked only when it is supplied; the agent list has no default
      and is always checked. */
  function ValidatorErrors(agentConfigs: seq<AgentConfig>, menuItems: Option<MenuItems>): seq<Error>
  {
    (match menuItems
     case Some(m) => (if ValidateMenuItems(m).Err? then [ValidateMenuItems(m).error] else [])
     case None => [])
    + (if CheckNonEmpty(agentConfigs).Err? then [CheckNonEmpty(agentConfigs).error] else [])
  }

  /** `AppConfig(agent_configs=..., menu_items=...)` with every other field at its
      default: built when both validators pass, otherwise rejected with their
      errors. A built config is valid, which is what `serve_app` relies on
      when it takes the first agent. */
  function NewAppConfig(agentConfigs: seq<AgentConfig>, menuItems: Option<MenuItems>): (r: Result<AppConfig, Error>)
    ensures r.Ok? <==> |agentConfigs| > 0 && (menuItems.Some? ==> forall k :: k in menuItems.value ==> k in AllowedMenuKeys)
    ensures r.Ok? ==> ValidAppConfig(r.value)
    ensures r.Ok? ==> r.value.agentConfigs == agentConfigs && r.value.menuItems == menuItems.GetOr(DefaultMenuItems())
    ensures r.Ok? ==> r.value.showFunctionCalls && r.value.showFunctionCallsStatus && r.value.sidebarCollapsed
    ensures r.Ok? ==> r.value.pageTitle == "Agents" && r.value.pageIcon == "🤖"
    ensures r.Ok? ==> r.value.shareChatTtlSeconds == DefaultShareChatTtlSeconds
    ensures r.Err? ==> r.error.ValidationFailed? && 1 <= |r.error.errors| <= 2
    ensures r.Err? ==> (NoAgentConfigs in r.error.errors <==> |agentConfigs| == 0)
  {
    var errors := ValidatorErrors(agentConfigs, menuItems);
    if errors != [] then Err(ValidationFailed(errors))
    else
      var menu := menuItems.GetOr(DefaultMenuItems());
      assert menuItems.None? ==> menu.Keys == AllowedMenuKeySet();
      Ok(AppConfig(true, true, "Agents", "🤖", true, menu, DefaultShareChatTtlSeconds, agentConfigs))
  }
}
