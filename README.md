# opaiui start-up, configuration and library memory, in Dafny

This project models three parts of opaiui, a Streamlit front end for pydantic-ai agents, and proves properties about them:

- **Configuration records** (`config.dfy`, module `OpaiuiConfig`). These are `AgentConfig` and `AppConfig` with their declared defaults, and the two field validators that guard an `AppConfig`. One checks the page-menu keys; the other rejects an empty agent list.
- **App start-up** (`app.dfy`, module `OpaiuiApp`):
  - `serve_app` stores the app config and selects the first agent.
  - `initialize_config` splits the caller's keyword settings between the per-user session state and the page configuration.
  - `_initialize_session_state` fills in every session setting that is missing.

  The session state is a `SessionState` object whose `map` the methods reassign, with `setdefault` and plain assignment as its two operations. The page configuration that would go to `st.set_page_config` is returned.
- **The demo app's article library** (`scholar.dfy`, module `ScholarApp`):
  - `Library` is an append-only list of articles. It renders to markdown: "None" when empty, otherwise one `- entry` line per article.
  - Two agent tools sit on top. `add_to_library` appends and reports the new size; `get_library` reads the markdown.

Two support modules are included. `Outcomes` holds `Option` and `Result`: a Python call that raises is modelled as one returning `Err`. `PyText` holds the Python string operations the library uses, `sep.join` and `str(n)`. It also holds `str.split`, which the source never calls; the model uses it only to read rendered markdown back and prove that nothing is lost.

Keys of the session state and keyword arguments are a `Key` datatype with one constructor per key the code uses, plus `Other(name)` for any other key. Values are a `Value` datatype. The logger and the asyncio event loop are opaque values.

## Model

| member | source | states |
|---|---|---|
| OpaiuiConfig.NewAgentConfig | src/opaiui/__init__.py:13-22 | An `AgentConfig` given only its agent keeps that agent and has name "Agent", description "An agent.", the default greeting, no deps, and avatars "👾" and "👤". |
| OpaiuiConfig.AppConfigDefaults | src/opaiui/__init__.py:33-38 | The default menu has exactly the three allowed keys, all unset. The default share TTL is 5184000 seconds (60 days) and positive. |
| OpaiuiConfig.Difference | src/opaiui/__init__.py:44 | Python's `-` is a set difference between two sets and raises TypeError when its right operand is a list. |
| OpaiuiConfig.ValidateMenuItemsAsWritten | src/opaiui/__init__.py:41-47 | The menu validator as written: it returns the menu unchanged or raises, either TypeError from the `-` or ValueError naming a non-empty set of extra keys. |
| OpaiuiConfig.ValidateMenuItemsAsWrittenAlwaysRaises | src/opaiui/__init__.py:41-47 | As written, the menu validator raises TypeError on every menu. |
| OpaiuiConfig.ValidateMenuItems | src/opaiui/__init__.py:41-47 | The menu comes back unchanged if and only if every key is allowed. Otherwise it raises ValueError naming exactly the keys that are not allowed, and that set is non-empty. |
| OpaiuiConfig.DefaultMenuDiscrepancy | src/opaiui/__init__.py:33-47 | The default menu passes the intended check, and the check as written rejects it. |
| OpaiuiConfig.CheckNonEmpty | src/opaiui/__init__.py:50-55 | An empty agent list raises ValueError; any other list comes back unchanged. |
| OpaiuiConfig.NewAppConfig | src/opaiui/__init__.py:26-55 | Building succeeds if and only if the agent list is non-empty and a supplied menu has only allowed keys, checked with the corrected menu validator. A defaulted menu is not validated. A built config is valid and carries the declared defaults. A failure reports one or two validator errors, including the empty-list error exactly when the list is empty. |
| OpaiuiApp.SessionState.SetDefault | src/opaiui/app.py:47-55 | `setdefault` stores the value only when the key is absent; otherwise the session is unchanged. |
| OpaiuiApp.SessionState.Set | src/opaiui/app.py:33 | Assignment stores the value under the key and changes no other key. |
| OpaiuiApp.FillMissing | src/opaiui/app.py:47-55 | Filling in keeps every key already present with its value and adds exactly the missing default keys with their defaults. |
| OpaiuiApp.FillMissingIdempotent | src/opaiui/app.py:47-55 | Filling in a second time changes nothing. |
| OpaiuiApp.SetDefaultsInOrder | src/opaiui/app.py:41-55 | The eight `setdefault`s in sequence add up to laying all the session defaults under the session at once. |
| OpaiuiApp.InitializeSessionState | src/opaiui/app.py:40-55 | The new session is the old one with each missing session key set up. Nothing present is overwritten. |
| OpaiuiApp.InitializeSessionStateIdempotent | src/opaiui/app.py:40-55 | A second initialisation, with any keyword arguments, leaves the session as the first one left it. |
| OpaiuiApp.SessionDefaultsFilled | src/opaiui/app.py:47-55 | Existing values are kept and every session key is present afterwards. When a setting is absent from both the session and the arguments, the defaults are a TTL of 2592000 (30 days), `show_function_calls` false, `show_function_calls_status` true, and `ui_disabled` and `lock_widgets` false. A display setting given as an argument reaches a session that lacks it. |
| OpaiuiApp.PageConfig | src/opaiui/app.py:13-37 | The page configuration never contains the three session-only keys. Every other supplied key overrides its default, and every default the caller omits (such as `layout`) is kept. |
| OpaiuiApp.RecordedTitleMatchesPageConfig | src/opaiui/app.py:20-36 | The title recorded in the session equals the page configuration's title: the supplied one, or "Kani AI" when none is supplied. |
| OpaiuiApp.ConfiguredSession | src/opaiui/app.py:7-33 | The session after `initialize_config` keeps every key it had, has every session key, and holds the recorded page title. |
| OpaiuiApp.ConfiguredSessionContents | src/opaiui/app.py:7-33 | After `initialize_config` the session has its old keys plus the session keys and the title. The title is the recorded one, session keys hold their old or default values, and every other key is unchanged. |
| OpaiuiApp.InitializeConfig | src/opaiui/app.py:7-37 | Returns exactly the page configuration above, and leaves the session set up from the full arguments, before stripping, with the title recorded. |
| OpaiuiApp.SidebarState | src/opaiui/app.py:74 | The sidebar state is "collapsed" exactly when the config is collapsed, and "expanded" exactly when it is not. |
| OpaiuiApp.ServedPageConfig | src/opaiui/app.py:69-77 | The page `serve_app` configures has the default keys only, with the app's title, icon and menu, layout "centered", and the sidebar state matching `sidebar_collapsed` in both directions. |
| OpaiuiApp.SelectFirstAgentContents | src/opaiui/app.py:61-66 | The app config is stored only when none is stored. The current agent config and name are those of the first agent, and session settings are untouched. |
| OpaiuiApp.ServedSession | src/opaiui/app.py:59-77 | The session after `serve_app` keeps every key it had, has the app config, the current agent, the title and every session key, and names the first agent as current. |
| OpaiuiApp.ServedSessionKeys | src/opaiui/app.py:59-77 | After serving, the session has the app config, the current agent, the title and every session setting. |
| OpaiuiApp.ServedSessionAgent | src/opaiui/app.py:61-66 | After serving, the stored app config is the first one ever stored, and the current agent is the first agent of this config. |
| OpaiuiApp.ServeKwargsTitle | src/opaiui/app.py:69-70 | `serve_app` passes the app's title as `page_title`. |
| OpaiuiApp.ServedSessionTitle | src/opaiui/app.py:33-70 | After serving, the session's page title is the app's title. |
| OpaiuiApp.ServedSessionSettings | src/opaiui/app.py:47-77 | After serving, each session setting is as it was or, when missing, is taken from this app config. |
| OpaiuiApp.ServedSessionContents | src/opaiui/app.py:59-77 | The four statements above together. |
| OpaiuiApp.ServeApp | src/opaiui/app.py:59-77 | With agents: returns the served page configuration and leaves the served session. With none: raises IndexError, after the app config has been stored if none was. |
| OpaiuiApp.ServeFreshSession | src/opaiui/app.py:59-77 | On a fresh session, the stored config, current agent name, share TTL, both display settings and the title all come from the app config. The 30-day fallback does not apply. |
| OpaiuiApp.ServeTwice | src/opaiui/app.py:59-77 | Serving a second config switches the current agent and the title, but keeps the first stored app config and the first call's session settings. |
| PyText.SplitJoin | scholar_app.py:41 | Splitting a newline join gives the parts back when no part contains a newline. |
| PyText.JoinAppend | scholar_app.py:41 | Joining one more part appends a separator and that part. |
| PyText.ParseNatToString | scholar_app.py:47 | The decimal text of a size reads back as the same size. |
| ScholarApp.Bullets | scholar_app.py:41 | One bullet line per entry, in order, each "- " followed by the entry. |
| ScholarApp.Library.constructor | scholar_app.py:30-32 | A new library is empty. |
| ScholarApp.Library.Add | scholar_app.py:34-36 | The article is appended at the end. The length grows by one and earlier entries keep their order. |
| ScholarApp.Markdown | scholar_app.py:38-41 | The markdown is "None" if and only if the library is empty; otherwise it starts with the first entry's bullet line. |
| ScholarApp.Library.AsMarkdown | scholar_app.py:38-41 | A library's markdown is "None" if and only if it holds no article; otherwise it starts with the first article's bullet line. |
| ScholarApp.MarkdownLines | scholar_app.py:41 | With no newline in any entry, a non-empty library renders to exactly one line per entry, in order, each the entry's bullet, with no trailing newline. |
| ScholarApp.MarkdownAppend | scholar_app.py:34-41 | Adding an article adds its bullet as a new last line and leaves the earlier text as it was. |
| ScholarApp.ReadMarkdownRoundTrip | scholar_app.py:38-41 | With no newline in any entry, reading the markdown back gives the entries, so the rendering loses nothing. |
| ScholarApp.ReportedSizeOfAddedMessage | scholar_app.py:47 | The reply "Article added. Current library size: N" reads back as exactly N. |
| ScholarApp.AddToLibrary | scholar_app.py:43-47 | Appends the article and replies with the library size after the append. |
| ScholarApp.GetLibrary | scholar_app.py:49-52 | Returns the library's markdown, which is "None" exactly when the library is empty, and changes nothing. |

## Left out

- Streamlit rendering and widgets are not modelled. This covers the sidebar, the chat area, buttons, checkboxes and the `sidebar_func` callback of `AgentConfig`, which is therefore not a field of the model's `AgentConfig`. They are user interface only.
- The Upstash Redis client and its environment checks are not modelled: they are network I/O against a store the code cannot see.
- The asyncio event loop and `run_until_complete(_main())` are not modelled; `ServeApp` stops where the UI would start. The loop is an opaque session value. The source builds a new loop on every call, even when the key is already present; that discarded object is not modelled.
- The logger is an opaque session value. Its creation and handler set-up happen only when the session has none, which the model treats as a `setdefault`.
- The streaming run loop, history commit, sharing, rehydrating, chat clearing and message rendering are not modelled. The code only calls them; their definitions are not part of this model.
- InitializeConfig: returns the map it would pass to `st.set_page_config`, and does not model that call's own checks, such as rejecting an unknown key.
- NewAppConfig: checks a supplied menu with the corrected validator. As written, line 44 of src/opaiui/__init__.py raises TypeError for every supplied menu, and pydantic lets that TypeError out of the constructor, so as written an `AppConfig` can be built only with the default menu. The written validator is `ValidateMenuItemsAsWritten`.
- NewAppConfig: only the agent list and the menu can be supplied; every other field takes its declared default. Pydantic's joined error message is modelled as the list of validator errors, in field order.
- Python's class-definition checks on `AppConfig` are not modelled. Two of its declarations may fail them: `agent_configs`, a field without a default, follows fields with defaults, and `menu_items` has a dictionary as its default value. A standard-library dataclass rejects both when the module is imported. The model takes the declared defaults as written. `AgentConfig` has neither issue.
- The pydantic-ai `Agent`, its tool-registration decorators, and the MCP server of the demo app are not modelled: they are foreign library wiring. Agents and deps are kept as handles.
- The demo app's top-level wiring is not modelled: it calls `app.serve` with a dictionary of agent configs, which does not match `serve_app(config)`.
- `AgentState`, which the demo app imports, is not part of this model, so `Library` keeps its article list directly.
- semantic_scholar_mcp.py and test.py are not modelled: one is a wrapper over a network client, the other a demo whose one branch depends on the wall clock.
- Key `Other(name)`: arbitrary caller-supplied keyword arguments appear only under this constructor, and their values are whatever `Value` holds. The encoding assumes that `name` is never one of the keys that have their own constructor, such as "show_function_calls". The model does not enforce this; an `Other` key with such a name is treated as a different key, so the properties about the named keys say nothing about it.

## Findings

| source | as written | input that shows it | evidently intended | confidence | as-written member | corrected member |
|---|---|---|---|---|---|---|
| src/opaiui/__init__.py:44 | `set(v) - ALLOWED_MENU_KEYS` subtracts a list from a set, which raises TypeError for every menu | `AppConfig(agent_configs=[a], menu_items={"Get Help": None, "Report a Bug": None, "About": None})`: the default menu, passed explicitly. A menu left at its default is never validated, so the demo app's own `AppConfig` does not reach line 44 | subtract the set of allowed keys, so that only menus with unknown keys raise ValueError | not executed | OpaiuiConfig.ValidateMenuItemsAsWritten (shown by OpaiuiConfig.ValidateMenuItemsAsWrittenAlwaysRaises and OpaiuiConfig.DefaultMenuDiscrepancy) | OpaiuiConfig.ValidateMenuItems, used by OpaiuiConfig.NewAppConfig |
