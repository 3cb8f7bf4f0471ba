/**
 Start-up of an opaiui app (src/opaiui/app.py): `serve_app` records the chosen
 configuration in Streamlit's per-user session state, and `initialize_config`
 splits the caller's keyword settings between that session state and the page
 configuration handed to `st.set_page_config`.

 The session state is a mutable dictionary, modelled as a `SessionState` object
 holding a `map` that its methods reassign. Keyword arguments are a value `map`
 from argument name to value; the page configuration `initialize_config` builds
 is returned instead of being passed on.
 */
module OpaiuiApp {
  import opened Outcomes
  import opened OpaiuiConfig

  /** The values the session state and the keyword arguments hold. */
  datatype Value =
    | VBool(b: bool)
    | VInt(i: int)
    | VStr(s: string)
    | VNone
    | VLinks(links: map<string, string>)
    | VMenu(menu: MenuItems)
    | VAppConfig(app: AppConfig)
    | VAgentConfig(agentConfig: AgentConfig)
    | VOpaque(kind: OpaqueKind)

  /** The Python objects the session holds that the model does not look into. */
  datatype OpaqueKind = Logger | EventLoop

  /** The keys of the session state and the keyword arguments this code uses,
      each named after its Python spelling (`PageTitle` is "page_title",
      `MenuItemsKey` is "menu_items", `LoggerKey` is "logger", `AppConfigKey`
      is "app_config", ...); `Other(name)` stands for any other key. */
  datatype Key =
    | PageTitle | PageIcon | Layout | InitialSidebarState | MenuItemsKey
    | ShowFunctionCalls | ShareChatTtlSeconds | ShowFunctionCallsStatus
    | LoggerKey | EventLoopKey | DefaultApiKey | UiDisabled | LockWidgets
    | AppConfigKey | CurrentAgentConfig | CurrentAgentName
    | Other(name: string)

  type Settings = map<Key, Value>

  /** `st.session_state`: one dictionary per user session. */
  class SessionState {
    var entries: Settings

    constructor ()
      ensures entries == map[]
    {
      entries := map[];
    }

    /** `session_state.setdefault(key, v)`: stores `v` only when `key` is
        absent; on a key present the stored value wins. */
    method SetDefault(key: Key, v: Value)
      modifies this
      ensures entries == map[key := v] + old(entries)
    {
      if key !in entries {
        entries := entries[key := v];
      }
    }

    /** `session_state.key = v`: always stores `v`. */
    method Set(key: Key, v: Value)
      modifies this
      ensures entries == old(entries)[key := v]
    {
      entries := entries[key := v];
    }
  }

  /** `d.get(key, default)`. */
  function Get(d: Settings, key: Key, default: Value): Value
  {
    if key in d then d[key] else default
  }

  /** `m` with every key of `d` that `m` lacks filled in from `d`: what a series
      of `setdefault` calls does. A key `m` already has keeps its value. */
  function FillMissing(m: Settings, d: Settings): (r: Settings)
    ensures r.Keys == m.Keys + d.Keys
    ensures forall k :: k in m ==> r[k] == m[k]
    ensures forall k :: k in d && k !in m ==> r[k] == d[k]
  {
    d + m
  }

  /** Filling in twice changes nothing more than filling in once. */
  lemma FillMissingIdempotent(m: Settings, d: Settings)
    ensures FillMissing(FillMissing(m, d), d) == FillMissing(m, d)
  {
  }

  /** 30 days, in seconds: the share TTL `_initialize_session_state` falls back on. */
  const SessionShareChatTtlSeconds: int := 60 * 60 * 24 * 30

  /** The keys `_initialize_session_state` sets up. */
  const SessionKeys: set<Key> := {
    LoggerKey, EventLoopKey, DefaultApiKey, UiDisabled, LockWidgets,
    ShareChatTtlSeconds, ShowFunctionCalls, ShowFunctionCallsStatus}

  /** The keyword arguments that configure the session only and are removed
      before the page is configured. */
  const StrippedKeys: set<Key> := {ShowFunctionCalls, ShareChatTtlSeconds, ShowFunctionCallsStatus}

  /** The value `_initialize_session_state` offers for each key it sets up. The
      three display settings come from the keyword arguments when given there. */
  function SessionDefaults(kwargs: Settings): Settings
  {
    SessionDefaultsWith(
      Get(kwargs, ShareChatTtlSeconds, VInt(SessionShareChatTtlSeconds)),
      Get(kwargs, ShowFunctionCalls, VBool(false)),
      Get(kwargs, ShowFunctionCallsStatus, VBool(true)))
  }

  function SessionDefaultsWith(ttlSeconds: Value, showCalls: Value, showStatus: Value): Settings
  {
    map[
      LoggerKey := VOpaque(Logger),
      EventLoopKey := VOpaque(EventLoop),
      DefaultApiKey := VNone,
      UiDisabled := VBool(false),
      LockWidgets := VBool(false),
      ShareChatTtlSeconds := ttlSeconds,
      ShowFunctionCalls := showCalls,
      ShowFunctionCallsStatus := showStatus
    ]
  }

  /** One `setdefault` more is one more default laid under the session. */
  lemma SetDefaultStep(m: Settings, d: Settings, key: Key, v: Value)
    requires key !in d
    ensures map[key := v] + (d + m) == d[key := v] + m
  {
  }

  /** The eight `setdefault` calls of `_initialize_session_state`, one after the
      other, lay all of `SessionDefaultsWith` under the session at once. */
  lemma SetDefaultsInOrder(m: Settings, ttlSeconds: Value, showCalls: Value, showStatus: Value)
    ensures
      map[ShowFunctionCallsStatus := showStatus] +
      (map[ShowFunctionCalls := showCalls] +
      (map[ShareChatTtlSeconds := ttlSeconds] +
      (map[LockWidgets := VBool(false)] +
      (map[UiDisabled := VBool(false)] +
      (map[DefaultApiKey := VNone] +
      (map[EventLoopKey := VOpaque(EventLoop)] +
      (map[LoggerKey := VOpaque(Logger)] + m)))))))
      == SessionDefaultsWith(ttlSeconds, showCalls, showStatus) + m
  {
    var d: Settings := map[LoggerKey := VOpaque(Logger)];
    SetDefaultStep(m, d, EventLoopKey, VOpaque(EventLoop));
    d := d[EventLoopKey := VOpaque(EventLoop)];
    SetDefaultStep(m, d, DefaultApiKey, VNone);
    d := d[DefaultApiKey := VNone];
    SetDefaultStep(m, d, UiDisabled, VBool(false));
    d := d[UiDisabled := VBool(false)];
    SetDefaultStep(m, d, LockWidgets, VBool(false));
    d := d[LockWidgets := VBool(false)];
    SetDefaultStep(m, d, ShareChatTtlSeconds, ttlSeconds);
    d := d[ShareChatTtlSeconds := ttlSeconds];
    SetDefaultStep(m, d, ShowFunctionCalls, showCalls);
    d := d[ShowFunctionCalls := showCalls];
    SetDefaultStep(m, d, ShowFunctionCallsStatus, showStatus);
    d := d[ShowFunctionCallsStatus := showStatus];
    assert d == SessionDefaultsWith(ttlSeconds, showCalls, showStatus);
  }

  /** `_initialize_session_state(**kwargs)`: sets up each session key that is
      still missing and leaves every key already present as it was, that is,
      the new session is `FillMissing(old session, SessionDefaults(kwargs))`. */
  method InitializeSessionState(state: SessionState, kwargs: Settings)
    modifies state
    ensures state.entries == SessionDefaults(kwargs) + old(state.entries)
  {
    // The logger is created and configured only when the session has none,
    // which on the session is a `setdefault`.
    state.SetDefault(LoggerKey, VOpaque(Logger));
    state.SetDefault(EventLoopKey, VOpaque(EventLoop));
    state.SetDefault(DefaultApiKey, VNone);
    state.SetDefault(UiDisabled, VBool(false));
    state.SetDefault(LockWidgets, VBool(false));
    var ttlSeconds := Get(kwargs, ShareChatTtlSeconds, VInt(SessionShareChatTtlSeconds));
    state.SetDefault(ShareChatTtlSeconds, ttlSeconds);
    var showCalls := Get(kwargs, ShowFunctionCalls, VBool(false));
    state.SetDefault(ShowFunctionCalls, showCalls);
    var showStatus := Get(kwargs, ShowFunctionCallsStatus, VBool(true));
    state.SetDefault(ShowFunctionCallsStatus, showStatus);
    SetDefaultsInOrder(old(state.entries), ttlSeconds, showCalls, showStatus);
  }

  /** Initialising the session is idempotent: a second call with any keyword
      arguments changes nothing, because every key it sets up is present. */
  lemma InitializeSessionStateIdempotent(m: Settings, first: Settings, second: Settings)
    ensures FillMissing(FillMissing(m, SessionDefaults(first)), SessionDefaults(second))
      == FillMissing(m, SessionDefaults(first))
  {
    var once := FillMissing(m, SessionDefaults(first));
    assert SessionDefaults(second).Keys <= once.Keys;
  }

  /** A key already in the session keeps its value; a key missing from both the
      session and the keyword arguments gets its fixed default; a display
      setting given as a keyword argument reaches a session that lacks it. */
  lemma SessionDefaultsFilled(m: Settings, kwargs: Settings)
    ensures forall k :: k in m ==> FillMissing(m, SessionDefaults(kwargs))[k] == m[k]
    ensures SessionKeys <= FillMissing(m, SessionDefaults(kwargs)).Keys
    ensures ShareChatTtlSeconds !in m && ShareChatTtlSeconds !in kwargs ==>
      FillMissing(m, SessionDefaults(kwargs))[ShareChatTtlSeconds] == VInt(2592000)
    ensures ShowFunctionCalls !in m && ShowFunctionCalls !in kwargs ==>
      FillMissing(m, SessionDefaults(kwargs))[ShowFunctionCalls] == VBool(false)
    ensures ShowFunctionCallsStatus !in m && ShowFunctionCallsStatus !in kwargs ==>
      FillMissing(m, SessionDefaults(kwargs))[ShowFunctionCallsStatus] == VBool(true)
    ensures UiDisabled !in m ==> FillMissing(m, SessionDefaults(kwargs))[UiDisabled] == VBool(false)
    ensures LockWidgets !in m ==> FillMissing(m, SessionDefaults(kwargs))[LockWidgets] == VBool(false)
    ensures forall k :: k in StrippedKeys && k in kwargs && k !in m ==>
      FillMissing(m, SessionDefaults(kwargs))[k] == kwargs[k]
  {
  }

  /** The page configuration used where the caller gives none. */
  function PageDefaults(): Settings
  {
    map[
      PageTitle := VStr("Kani AI"),
      PageIcon := VNone,
      Layout := VStr("centered"),
      InitialSidebarState := VStr("collapsed"),
      MenuItemsKey := VLinks(map[
        "Get Help" := "https://github.com/monarch-initiative/agent-smith-ai",
        "Report a Bug" := "https://github.com/monarch-initiative/agent-smith-ai/issues",
        "About" := "Agent Smith (AI) is a framework for developing tool-using AI-based chatbots."])
    ]
  }

  /** What `initialize_config` passes to `st.set_page_config`: the defaults,
      overridden by every keyword argument except the session-only ones. */
  function PageConfig(kwargs: Settings): (r: Settings)
    ensures r.Keys == PageDefaults().Keys + (kwargs.Keys - StrippedKeys)
    ensures forall k :: k in StrippedKeys ==> k !in r
    ensures forall k :: k in kwargs && k !in StrippedKeys ==> r[k] == kwargs[k]
    ensures forall k :: k in PageDefaults() && k !in kwargs ==> r[k] == PageDefaults()[k]
  {
    PageDefaults() + (kwargs - StrippedKeys)
  }

  /** The page title `initialize_config` records in the session. */
  function RecordedTitle(kwargs: Settings): Value
  {
    Get(kwargs, PageTitle, VStr("Kani AI"))
  }

  /** The title recorded in the session is the one the page is configured with:
      the caller's, or "Kani AI" when none is given. */
  lemma RecordedTitleMatchesPageConfig(kwargs: Settings)
    ensures RecordedTitle(kwargs) == PageConfig(kwargs)[PageTitle]
    ensures PageTitle !in kwargs ==> RecordedTitle(kwargs) == VStr("Kani AI")
    ensures PageTitle in kwargs ==> RecordedTitle(kwargs) == kwargs[PageTitle]
  {
  }

  /** The session after `initialize_config(**kwargs)`. */
  function ConfiguredSession(m: Settings, kwargs: Settings): (r: Settings)
    ensures m.Keys + SessionKeys + {PageTitle} <= r.Keys
    ensures r[PageTitle] == RecordedTitle(kwargs)
  {
    (SessionDefaults(kwargs) + m)[PageTitle := RecordedTitle(kwargs)]
  }

  /** After `initialize_config(**kwargs)` the session holds the recorded title,
      every session key (as it was, or its default when it was missing), and
      every other key as it was. */
  lemma ConfiguredSessionContents(m: Settings, kwargs: Settings)
    ensures ConfiguredSession(m, kwargs).Keys == m.Keys + SessionKeys + {PageTitle}
    ensures ConfiguredSession(m, kwargs)[PageTitle] == RecordedTitle(kwargs)
    ensures forall k :: k in SessionKeys ==> ConfiguredSession(m, kwargs)[k] == Get(m, k, SessionDefaults(kwargs)[k])
    ensures forall k :: k in m && k !in SessionKeys && k != PageTitle ==> ConfiguredSession(m, kwargs)[k] == m[k]
  {
  }

  /** `initialize_config(**kwargs)`: sets up the session from all the keyword
      arguments, then removes the session-only ones, records the page title and
      returns the page configuration. */
  method InitializeConfig(state: SessionState, kwargs: Settings) returns (pageConfig: Settings)
    modifies state
    ensures pageConfig == PageConfig(kwargs)
    ensures state.entries == ConfiguredSession(old(state.entries), kwargs)
  {
    InitializeSessionState(state, kwargs);

    var kw := kwargs;
    if ShowFunctionCalls in kw {
      kw := kw - {ShowFunctionCalls};
    }
    if ShareChatTtlSeconds in kw {
      kw := kw - {ShareChatTtlSeconds};
    }
    if ShowFunctionCallsStatus in kw {
      kw := kw - {ShowFunctionCallsStatus};
    }
    assert kw == kwargs - StrippedKeys;

    var defaults := PageDefaults();
    state.Set(PageTitle, Get(kw, PageTitle, defaults[PageTitle]));
    pageConfig := defaults + kw;
  }

  /** `"expanded" if not collapsed else "collapsed"`. */
  function SidebarState(collapsed: bool): (r: string)
    ensures r == "collapsed" <==> collapsed
    ensures r == "expanded" <==> !collapsed
  {
    if !collapsed then "expanded" else "collapsed"
  }

  /** The keyword arguments `serve_app` passes to `initialize_config`. */
  function ServeKwargs(config: AppConfig): Settings
  {
    map[
      PageTitle := VStr(config.pageTitle),
      PageIcon := VStr(config.pageIcon),
      ShowFunctionCalls := VBool(config.showFunctionCalls),
      ShowFunctionCallsStatus := VBool(config.showFunctionCallsStatus),
      InitialSidebarState := VStr(SidebarState(config.sidebarCollapsed)),
      MenuItemsKey := VMenu(config.menuItems),
      ShareChatTtlSeconds := VInt(config.shareChatTtlSeconds)
    ]
  }

  /** The page `serve_app` configures: the app's title, icon, menu and sidebar
      state, the default layout, and none of the session-only settings. */
  lemma ServedPageConfig(config: AppConfig)
    ensures PageConfig(ServeKwargs(config)).Keys == PageDefaults().Keys
    ensures PageConfig(ServeKwargs(config))[PageTitle] == VStr(config.pageTitle)
    ensures PageConfig(ServeKwargs(config))[PageIcon] == VStr(config.pageIcon)
    ensures PageConfig(ServeKwargs(config))[MenuItemsKey] == VMenu(config.menuItems)
    ensures PageConfig(ServeKwargs(config))[Layout] == VStr("centered")
    ensures PageConfig(ServeKwargs(config))[InitialSidebarState] == VStr("collapsed") <==> config.sidebarCollapsed
    ensures PageConfig(ServeKwargs(config))[InitialSidebarState] == VStr("expanded") <==> !config.sidebarCollapsed
  {
    var kwargs := ServeKwargs(config);
    assert kwargs.Keys - StrippedKeys == {PageTitle, PageIcon, InitialSidebarState, MenuItemsKey};
  }

  /** The session before `initialize_config` is called: the app config stored
      when none is, and the first agent selected. */
  function SelectFirstAgent(m: Settings, config: AppConfig): Settings
    requires |config.agentConfigs| > 0
  {
    var first := config.agentConfigs[0];
    (map[AppConfigKey := VAppConfig(config)] + m)
      [CurrentAgentConfig := VAgentConfig(first)]
      [CurrentAgentName := VStr(first.name)]
  }

  /** The session after `serve_app(config)` with a non-empty agent list. */
  function ServedSession(m: Settings, config: AppConfig): (r: Settings)
    requires |config.agentConfigs| > 0
    ensures m.Keys + SessionKeys + {AppConfigKey, CurrentAgentConfig, CurrentAgentName, PageTitle} <= r.Keys
    ensures r[CurrentAgentName] == VStr(config.agentConfigs[0].name)
  {
    ConfiguredSession(SelectFirstAgent(m, config), ServeKwargs(config))
  }

  /** Selecting the first agent stores the app config when none is stored and
      leaves every session setting as it was. */
  lemma SelectFirstAgentContents(m: Settings, config: AppConfig)
    requires |config.agentConfigs| > 0
    ensures SelectFirstAgent(m, config).Keys == m.Keys + {AppConfigKey, CurrentAgentConfig, CurrentAgentName}
    ensures SelectFirstAgent(m, config)[AppConfigKey] == Get(m, AppConfigKey, VAppConfig(config))
    ensures SelectFirstAgent(m, config)[CurrentAgentConfig] == VAgentConfig(config.agentConfigs[0])
    ensures SelectFirstAgent(m, config)[CurrentAgentName] == VStr(config.agentConfigs[0].name)
    ensures forall k :: k in SessionKeys ==> (k in SelectFirstAgent(m, config) <==> k in m)
    ensures forall k :: k in SessionKeys && k in m ==> SelectFirstAgent(m, config)[k] == m[k]
  {
  }

  /** After `serve_app(config)` the session has the app config, the current
      agent, the page title and every session setting. */
  lemma ServedSessionKeys(m: Settings, config: AppConfig)
    requires |config.agentConfigs| > 0
    ensures {AppConfigKey, CurrentAgentConfig, CurrentAgentName, PageTitle} + SessionKeys <= ServedSession(m, config).Keys
  {
    var selected := SelectFirstAgent(m, config);
    var kwargs := ServeKwargs(config);
    SelectFirstAgentContents(m, config);
    ConfiguredSessionContents(selected, kwargs);
  }
  /** The stored app config is the one stored first; the current agent is the
      first agent of this config. */
  lemma ServedSessionAgent(m: Settings, config: AppConfig)
    requires |config.agentConfigs| > 0
    ensures ServedSession(m, config)[AppConfigKey] == Get(m, AppConfigKey, VAppConfig(config))
    ensures ServedSession(m, config)[CurrentAgentConfig] == VAgentConfig(config.agentConfigs[0])
    ensures ServedSession(m, config)[CurrentAgentName] == VStr(config.agentConfigs[0].name)
  {
    var selected := SelectFirstAgent(m, config);
    var kwargs := ServeKwargs(config);
    SelectFirstAgentContents(m, config);
    ConfiguredSessionContents(selected, kwargs);
  }
  /** `serve_app` passes the app config's title as `page_title`. */
  lemma ServeKwargsTitle(config: AppConfig)
    ensures RecordedTitle(ServeKwargs(config)) == VStr(config.pageTitle)
  {
  }
  /** The recorded page title is the app config's. */
  lemma ServedSessionTitle(m: Settings, config: AppConfig)
    requires |config.agentConfigs| > 0
    ensures ServedSession(m, config)[PageTitle] == VStr(config.pageTitle)
  {
    ServeKwargsTitle(config);
  }
  /** Each session setting stays as it was or, when it was missing, is set up
      from this app config. */
  lemma ServedSessionSettings(m: Settings, config: AppConfig)
    requires |config.agentConfigs| > 0
    ensures forall k :: k in SessionKeys ==>
      ServedSession(m, config)[k] == Get(m, k, SessionDefaults(ServeKwargs(config))[k])
  {
    var selected := SelectFirstAgent(m, config);
    var kwargs := ServeKwargs(config);
    SelectFirstAgentContents(m, config);
    ConfiguredSessionContents(selected, kwargs);
  }

  /** All of the above: what the session holds after `serve_app(config)`. */
  lemma ServedSessionContents(m: Settings, config: AppConfig)
    requires |config.agentConfigs| > 0
    ensures {AppConfigKey, CurrentAgentConfig, CurrentAgentName, PageTitle} + SessionKeys <= ServedSession(m, config).Keys
    ensures ServedSession(m, config)[AppConfigKey] == Get(m, AppConfigKey, VAppConfig(config))
    ensures ServedSession(m, config)[CurrentAgentConfig] == VAgentConfig(config.agentConfigs[0])
    ensures ServedSession(m, config)[CurrentAgentName] == VStr(config.agentConfigs[0].name)
    ensures ServedSession(m, config)[PageTitle] == VStr(config.pageTitle)
    ensures forall k :: k in SessionKeys ==>
      ServedSession(m, config)[k] == Get(m, k, SessionDefaults(ServeKwargs(config))[k])
  {
    ServedSessionKeys(m, config);
    ServedSessionAgent(m, config);
    ServedSessionTitle(m, config);
    ServedSessionSettings(m, config);
  }

  /** `serve_app(config)` up to the point where it runs the UI: stores the app
      config unless one is stored, selects the first agent and configures the
      page and the session. With no agent, indexing the list raises IndexError
      after the app config has been stored. */
  method ServeApp(state: SessionState, config: AppConfig) returns (r: Result<Settings, Error>)
    modifies state
    ensures |config.agentConfigs| == 0 ==> r == Err(IndexOutOfRange)
    ensures |config.agentConfigs| == 0 ==>
      state.entries == map[AppConfigKey := VAppConfig(config)] + old(state.entries)
    ensures |config.agentConfigs| > 0 ==> r == Ok(PageConfig(ServeKwargs(config)))
    ensures |config.agentConfigs| > 0 ==> state.entries == ServedSession(old(state.entries), config)
  {
    if AppConfigKey !in state.entries {
      state.Set(AppConfigKey, VAppConfig(config));
    }

    if |config.agentConfigs| == 0 {
      return Err(IndexOutOfRange);
    }
    state.Set(CurrentAgentConfig, VAgentConfig(config.agentConfigs[0]));
    state.Set(CurrentAgentName, VStr(config.agentConfigs[0].name));
    assert state.entries == SelectFirstAgent(old(state.entries), config);

    var pageConfig := InitializeConfig(state, ServeKwargs(config));
    r := Ok(pageConfig);
  }

  /** Serving into a session that has none of these keys yet: the first agent is
      current, and the share TTL and display settings are the app config's, so
      the 30-day fallback of `_initialize_session_state` does not apply. */
  lemma ServeFreshSession(m: Settings, config: AppConfig)
    requires |config.agentConfigs| > 0
    requires forall k :: k in StrippedKeys ==> k !in m
    requires AppConfigKey !in m
    ensures ServedSession(m, config)[AppConfigKey] == VAppConfig(config)
    ensures ServedSession(m, config)[CurrentAgentName] == VStr(config.agentConfigs[0].name)
    ensures ServedSession(m, config)[ShareChatTtlSeconds] == VInt(config.shareChatTtlSeconds)
    ensures ServedSession(m, config)[ShowFunctionCalls] == VBool(config.showFunctionCalls)
    ensures ServedSession(m, config)[ShowFunctionCallsStatus] == VBool(config.showFunctionCallsStatus)
    ensures ServedSession(m, config)[PageTitle] == VStr(config.pageTitle)
  {
    ServedSessionContents(m, config);
  }

  /** Serving a second config into the same session switches the current agent
      and the page title, but the stored app config and the session settings
      stay those of the first call. */
  lemma ServeTwice(m: Settings, first: AppConfig, second: AppConfig)
    requires |first.agentConfigs| > 0 && |second.agentConfigs| > 0
    ensures ServedSession(ServedSession(m, first), second)[AppConfigKey] == ServedSession(m, first)[AppConfigKey]
    ensures ServedSession(ServedSession(m, first), second)[CurrentAgentName] == VStr(second.agentConfigs[0].name)
    ensures ServedSession(ServedSession(m, first), second)[PageTitle] == VStr(second.pageTitle)
    ensures forall k :: k in SessionKeys ==>
      ServedSession(ServedSession(m, first), second)[k] == ServedSession(m, first)[k]
  {
    var once := ServedSession(m, first);
    ServedSessionContents(m, first);
    ServedSessionContents(once, second);
  }
}
