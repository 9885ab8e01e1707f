# Text-summary plugin of the GPT AI Flow browser extension, in Dafny

This project models the text-summary plugin of the GPT AI Flow Chrome
extension and proves properties of the model. The plugin lets a user select
text on a web page, pick "📝 AI总结选中文本" from the context menu, and get a
summary shown in a dialog on the page. The summary can be saved to a history
that keeps the newest 50 entries.

Five components take part:

- **The summary feature** (`text_summary_feature.dfy`, module `TextSummaryFeature`).
  - Its precondition: the trimmed selection is at least 10 characters long and an `apiUrl` is set.
  - Its execution returns a fixed placeholder summary.
  - It saves a record into the framework storage under `text_summary_history`.
- **The plugin** (`text_summary_plugin.dfy`, module `TextSummaryPlugin`).
  - Its lifecycle is driven by whether it holds a menu manager and an initialization context.
  - Its config is shallowly merged, stamped, persisted under `plugin_config_text-summary-plugin` and reloaded.
  - Its status report derives the number of active features from the status.
  - Its summary entry point writes the selection into the config's settings object, then runs the feature.
- **The context-menu manager** (`context_menu_manager.dfy`, module `ContextMenus`).
  - Registration removes every entry, creates the single entry `gpt-ai-flow-summary`, and adds a click listener.
  - A click on a non-blank selection in a tab with a truthy id sends `SUMMARY_REQUESTED` to that tab.
  - The browser's menu registry is a class. It holds the entries by id and the click listeners in order.
  - Listeners are added on every successful registration and never removed. So after N registrations, one click delivers N identical requests (`ContextMenus.ClickFansOutToEveryListener`).
  - The coordinator registers once at start-up and again on every install or update event, each time with a new manager.
- **The coordinator** (`background_extension.dfy`, module `Background`).
  - It seeds default settings when `apiUrl` is unset.
  - It answers five message types: settings, settings update, history, history clear and statistics. It returns false (no reply) for every other type, including `EXECUTE_FEATURE` and `GET_PLUGIN_STATUS`.
  - A settings update writes the supplied keys, then broadcasts `UPDATE_CONFIG` to every open tab with an id. Tabs that cannot be reached are skipped.
- **The page script** (`content_script.dfy`, module `ContentScript`).
  - It initializes once.
  - It routes `SUMMARY_REQUESTED`, `UPDATE_CONFIG` and `GET_PLUGIN_STATUS`.
  - It guards a summary request and sends `EXECUTE_FEATURE` with the selection and the stored settings, defaults filled in.
  - It turns the reply into a notice or a result dialog.
  - It keeps at most one dialog and one overlay on the page.
  - Its save button prepends a record to `summaryHistory` in `chrome.storage.local` and caps the list at 50.

The coordinator answers no `EXECUTE_FEATURE` request, so the page script's
request gets no reply. Reading `success` from the missing reply throws, and
the user sees "总结请求失败，请稍后重试" (`ContentScript.UnansweredRequestFails`).

Shared modules:

- `values.dfy`: JavaScript values (`Json`), truthiness, optional chaining, `||` and object spread.
- `text.dfy`: `String.prototype.trim` over the ECMAScript whitespace set, `substring(0, n)`, and decimal printing.
- `history.dfy`: the history record and the prepend-and-cap-at-50 update that the feature and the page script share.
- `storage.dfy`: a key-value store with Chrome-style `get(defaults)`/`set(items)` and framework-style `getItem`/`setItem`.
- `browser.dfy`: messages, the open tabs with a log of what reached them, and the page-to-coordinator channel.

Failures of the browser APIs are parameters of the operations: a rejected
read or write, a refused menu creation, a tab without a listening page
script, and the coordinator's reply. The clock is a parameter too.

## Model

| member | source | states |
|---|---|---|
| Text.Trim | src/plugins/text-summary/features/02-text-summary.feature.ts:41-46 | the trimmed text is a contiguous slice of the input, everything before and after the slice is whitespace, and the slice has no whitespace at either end; it is empty exactly when the input is all whitespace |
| Text.DecimalString | src/plugins/text-summary/features/02-text-summary.feature.ts:226 | `Date.now().toString()` is a non-empty string of decimal digits that denotes the number, with no leading zero |
| Text.Prefix | src/plugins/text-summary/features/02-text-summary.feature.ts:229 | `substring(0, n)` is a prefix of the input of length min(n, length) |
| Values.Spread | src/plugins/text-summary/05-context-menu-manager.ts:120 | object spread: the keys are the union; keys of the second object take its values; the rest keep theirs |
| Values.OrElse | src/plugins/text-summary/03-background-extension.ts:305-307 | a value with a fallback yields the value exactly when it is truthy, the fallback otherwise |
| Storage.WithDefaults | src/plugins/text-summary/03-background-extension.ts:224-229 | a read with defaults returns exactly the defaults' keys, each with the stored value when one exists, else the default |
| Storage.ItemsAfterWrite | src/plugins/text-summary/features/02-text-summary.feature.ts:241 | a committed `setItem` sets the key to the value and keeps every other entry; a declined or rejected one leaves the entries as they were |
| Storage.Store.SetItem | src/plugins/text-summary/code_v2/usage-example_v2.ts:39 | resolves `{success: true}` having written the key, `{success: false}` having written nothing, or rejects having written nothing |
| History.NewRecord | src/plugins/text-summary/features/02-text-summary.feature.ts:225-231 | a record has exactly the keys id, timestamp, url, originalText and summary; originalText is the first min(length, 500) characters |
| History.PushNewest | src/plugins/text-summary/features/02-text-summary.feature.ts:233-238 | after a save the new record is entry 0, the old entries follow in order, and the length is min(old + 1, 50) |
| History.PushAllIsNewestFirst | src/plugins/text-summary/features/02-text-summary.feature.ts:233-238 | a series of saves leaves the records newest first in front of the old history, cut to 50 |
| History.PushAllStaysBounded | src/plugins/text-summary/features/02-text-summary.feature.ts:236-238 | however many saves follow, the history never exceeds 50 entries and its head is the latest record |
| TextSummaryFeature.AppliesEverywhere | src/plugins/text-summary/features/02-text-summary.feature.ts:30-33 | the feature applies to every URL |
| TextSummaryFeature.CanExecute | src/plugins/text-summary/features/02-text-summary.feature.ts:38-57 | true exactly when the trimmed selection has at least 10 characters and apiUrl is truthy; throws exactly when the selection is a truthy non-string; false whenever the selection is falsy |
| TextSummaryFeature.BlankSelectionCannotRun | src/plugins/text-summary/features/02-text-summary.feature.ts:41-43 | a whitespace-only selection is refused whatever else is configured |
| TextSummaryFeature.HistoryAfterSave | src/plugins/text-summary/features/02-text-summary.feature.ts:221-238 | a rejected read writes nothing; an unsuccessful read counts as an empty history; a delivered list becomes PushNewest of it (the record, then the old entries in order, capped at 50); a delivered non-list writes nothing |
| TextSummaryFeature.SaveSummaryHistory | src/plugins/text-summary/features/02-text-summary.feature.ts:212-249 | without storage nothing changes; otherwise the history key holds the prepended, capped list, or the store is unchanged when a step fails |
| TextSummaryFeature.Execute | src/plugins/text-summary/features/02-text-summary.feature.ts:62-114 | refused or throwing precondition: the matching error and no storage change; otherwise success with actions [summary] and the history saved, whatever the save's outcome |
| TextSummaryFeature.GetSummaryHistory | src/plugins/text-summary/features/02-text-summary.feature.ts:254-262 | the stored list after a successful read, [] after any other read and [] when there is no storage to read |
| TextSummaryFeature.SavedRecordComesFirst | src/plugins/text-summary/features/02-text-summary.feature.ts:225-241 | after a successful run and write, the history's head holds the selection cut to 500 characters and its length is min(old + 1, 50) |
| TextSummaryPlugin.MergeConfig | src/plugins/text-summary/01-text-summary.plugin.ts:112 | each supplied field replaces the old one, settings as a whole; each unsupplied field is kept |
| TextSummaryPlugin.ConfigAfterLoad | src/plugins/text-summary/01-text-summary.plugin.ts:153-155 | a delivered truthy value is merged over the config with MergeConfig of its decoded fields; a delivered falsy value or a read that does not deliver leaves the config unchanged |
| TextSummaryPlugin.DecodeEncode | src/plugins/text-summary/01-text-summary.plugin.ts:117-120 | the stored form of a config decodes back to every field of it |
| TextSummaryPlugin.LoadRestoresSaved | src/plugins/text-summary/01-text-summary.plugin.ts:144-158 | loading a saved config yields exactly that config, from any current config; with nothing stored, loading changes nothing |
| TextSummaryPlugin.StatusInfoOf | src/plugins/text-summary/01-text-summary.plugin.ts:132-139 | featuresCount is the number of features; activeFeatures is positive exactly when the status is ACTIVE, and then equals featuresCount |
| TextSummaryPlugin.TextSummaryPlugin.constructor | src/plugins/text-summary/01-text-summary.plugin.ts:27-40 | a new plugin is unloaded, holds no manager and no context, and has the default config |
| TextSummaryPlugin.TextSummaryPlugin.Initialize | src/plugins/text-summary/01-text-summary.plugin.ts:45-57 | keeps the context, loads the config as ConfigAfterLoad says, and creates a fresh manager over the loaded settings |
| TextSummaryPlugin.TextSummaryPlugin.Activate | src/plugins/text-summary/01-text-summary.plugin.ts:62-73 | rejects with "Plugin not initialized" and touches no menu without a manager; otherwise registers the menu |
| TextSummaryPlugin.TextSummaryPlugin.Deactivate | src/plugins/text-summary/01-text-summary.plugin.ts:78-86 | removes the menu entries when there is a manager; leaves listeners alone |
| TextSummaryPlugin.TextSummaryPlugin.Dispose | src/plugins/text-summary/01-text-summary.plugin.ts:91-99 | deactivates, then clears manager and context, so the plugin no longer counts as initialized |
| TextSummaryPlugin.TextSummaryPlugin.GetConfig | src/plugins/text-summary/01-text-summary.plugin.ts:104-106 | returns the current config |
| TextSummaryPlugin.TextSummaryPlugin.SetConfig | src/plugins/text-summary/01-text-summary.plugin.ts:111-127 | merges, stamps lastUpdated, persists under plugin_config_text-summary-plugin when there is storage (only a committed write changes it; a rejected write rejects and skips the rest), and hands supplied settings to an existing manager also after a declined write, whose `{success:false}` is not looked at |
| TextSummaryPlugin.TextSummaryPlugin.GetStatusInfo | src/plugins/text-summary/01-text-summary.plugin.ts:132-139 | reports StatusInfoOf the current status |
| TextSummaryPlugin.TextSummaryPlugin.LoadConfig | src/plugins/text-summary/01-text-summary.plugin.ts:144-159 | unchanged without storage or on a failed read; stored fields merged over the config otherwise |
| TextSummaryPlugin.TextSummaryPlugin.HandleSummaryRequest | src/plugins/text-summary/01-text-summary.plugin.ts:164-223 | without a context: "插件未初始化" and nothing runs; otherwise the selection lands in the config's settings and the feature's verdict is returned; a run that passes the feature's precondition leaves the framework storage as ItemsAfterSave of the history read and write, and any other call leaves it unchanged |
| TextSummaryPlugin.InitializeThenDispose | src/plugins/text-summary/01-text-summary.plugin.ts:45-99 | after initialize then dispose, the plugin refuses activation and its menu entries are gone |
| ContextMenus.ClickRequest | src/plugins/text-summary/05-context-menu-manager.ts:89-114 | a click sends exactly when it is on the summary entry, the selection is not blank and the tab has a truthy id; it then sends SUMMARY_REQUESTED with the selection to that tab |
| ContextMenus.MenuRegistry.Create | src/plugins/text-summary/05-context-menu-manager.ts:36-50 | a create with an id in use or a browser error is refused with that error and changes nothing; otherwise the entry is added |
| ContextMenus.MenuRegistry.Click | src/plugins/text-summary/05-context-menu-manager.ts:54-56 | a click runs every installed listener: the tabs receive ClickDeliveries for that many listeners |
| ContextMenus.ContextMenuManager.Initialize | src/plugins/text-summary/05-context-menu-manager.ts:16-18 | same outcome as registering the menu |
| ContextMenus.ContextMenuManager.RegisterContextMenu | src/plugins/text-summary/05-context-menu-manager.ts:23-63 | no-op without the API; otherwise exactly the summary entry remains and a listener is added, or a create error leaves no entry and rejects |
| ContextMenus.ContextMenuManager.UnregisterContextMenu | src/plugins/text-summary/05-context-menu-manager.ts:68-84 | removes every entry when the API exists, never rejects, never removes a listener |
| ContextMenus.ContextMenuManager.HandleMenuClick | src/plugins/text-summary/05-context-menu-manager.ts:89-114 | the tabs receive ClickRequest's message when the tab is reachable, nothing otherwise |
| ContextMenus.ContextMenuManager.UpdateSettings | src/plugins/text-summary/05-context-menu-manager.ts:119-121 | the new settings are the old ones spread under the given ones |
| ContextMenus.ClickFansOutToEveryListener | src/plugins/text-summary/05-context-menu-manager.ts:54-56 | with n listeners installed, one valid click delivers n identical SUMMARY_REQUESTED messages to the tab |
| Background.Route | src/plugins/text-summary/03-background-extension.ts:186-217 | a type is handled exactly when it is one of the five coordinator types, each by its own handler |
| Background.ExecutionAndStatusGoUnanswered | src/plugins/text-summary/03-background-extension.ts:188-215 | EXECUTE_FEATURE, GET_PLUGIN_STATUS, SUMMARY_REQUESTED and UPDATE_CONFIG fall to the default branch |
| Background.StatsOf | src/plugins/text-summary/03-background-extension.ts:297-313 | totalSummaries is the history's length (0 when unreadable), isConfigured is whether apiKey is truthy, lastUsed is entry 0's timestamp when entry 0 is an object with a truthy timestamp, and null otherwise |
| Background.UpdatedSettingsReadBack | src/plugins/text-summary/03-background-extension.ts:222-243 | after an update, each supplied setting reads back with its new value and each other setting reads back as before |
| Background.ClearedHistoryReadsEmpty | src/plugins/text-summary/03-background-extension.ts:271-286 | after a clear the history reads back empty and the statistics report zero summaries and no last use |
| Background.BroadcastReachesEveryListeningTab | src/plugins/text-summary/03-background-extension.ts:246-260 | every tab with a truthy id and a listening page script receives exactly the new config; nothing else is delivered; the count equals the number of such tabs |
| Background.TextSummaryBackground.InitializeDefaultSettings | src/plugins/text-summary/03-background-extension.ts:158-181 | the synced settings become SeededSettings of the old ones |
| Background.SeededSettings | src/plugins/text-summary/03-background-extension.ts:158-181 | the full default set is written over the settings only when the stored apiUrl is unset or empty and both calls succeed; otherwise the settings are unchanged |
| Background.SeedingSetsApiUrl | src/plugins/text-summary/03-background-extension.ts:158-181 | after a seeding whose calls succeed the stored apiUrl is set, and seeding again changes nothing |
| Background.TextSummaryBackground.InitializeContextMenu | src/plugins/text-summary/03-background-extension.ts:51-63 | a fresh manager over the read settings (an empty object when the read fails), then a registration whose failure is swallowed: the entries are the summary entry alone, none after a refused create, or unchanged without the menu API; one more listener exactly when the create succeeds |
| Background.TextSummaryBackground.Init | src/plugins/text-summary/03-background-extension.ts:26-46 | the synced settings become SeededSettings of the old ones; then a fresh manager over the seeded settings (read separately) registers the menu, with the same entries and listeners as InitializeContextMenu |
| Background.TextSummaryBackground.OnInstalled | src/plugins/text-summary/03-background-extension.ts:141-153 | on install or update: the settings as SeededSettings says, a fresh manager, the entries and one more listener as in Init; other reasons change nothing |
| Background.TextSummaryBackground.GetSettings | src/plugins/text-summary/03-background-extension.ts:222-236 | the four settings, each stored or defaulted, or `{success:false, error}` when the read rejects |
| Background.TextSummaryBackground.UpdateSettings | src/plugins/text-summary/03-background-extension.ts:241-266 | a rejected write rejects with nothing changed; otherwise the keys are written and BroadcastDeliveries reach the tabs; a rejected tab query rejects after the write |
| Background.TextSummaryBackground.GetSummaryHistory | src/plugins/text-summary/03-background-extension.ts:271-279 | the stored history, [] when none, or the read's error |
| Background.TextSummaryBackground.ClearSummaryHistory | src/plugins/text-summary/03-background-extension.ts:284-292 | stores an empty history, after which it reads back empty; a rejected write rejects with nothing changed |
| Background.TextSummaryBackground.GetStats | src/plugins/text-summary/03-background-extension.ts:297-313 | StatsOf the history and settings replies |
| Background.TextSummaryBackground.OnMessage | src/plugins/text-summary/03-background-extension.ts:186-217 | returns true exactly for the five handled types; an unhandled type gets no reply; reads change no store; an update writes the supplied settings and broadcasts as UpdateSettings says, a clear empties the local history, each acknowledged only when it settles; the stats reply is StatsOf the two reads |
| ContentScript.RemoveFirstCounts | src/plugins/text-summary/04-content-script.ts:242-250 | removing by id takes away one element with that id when there is one, and no other element |
| ContentScript.ShowingKeepsOneDialog | src/plugins/text-summary/04-content-script.ts:259-261 | from a page with at most one dialog and one overlay, showing a result leaves exactly one of each and every other element |
| ContentScript.SelectionCheck | src/plugins/text-summary/04-content-script.ts:100-105 | the request proceeds exactly when the selection is a string of at least 10 characters once trimmed; a falsy selection or a string shorter than 10 characters once trimmed draws the warning, a truthy non-string the failure notice |
| ContentScript.RequestCarriesStoredSettings | src/plugins/text-summary/04-content-script.ts:111-161 | a request built from the settings read asks for feature text-summary and carries exactly the selection and the four settings, each stored or defaulted |
| ContentScript.RequestPassesFeatureGuard | src/plugins/text-summary/04-content-script.ts:100-161 | a selection that passed the page's guard, sent with the stored settings, satisfies the feature's precondition exactly when the stored or default apiUrl is truthy |
| ContentScript.SettingsRead | src/plugins/text-summary/04-content-script.ts:111-116 | the page script's settings read yields exactly the four setting keys, each holding the stored value or else its default, or the rejection's message |
| ContentScript.SummaryNotices | src/plugins/text-summary/04-content-script.ts:94-179 | no notice before initialization, the guard's one notice for a bad selection, otherwise the progress notice followed by a second notice exactly when the settings read fails or the reply is an error |
| ContentScript.SummarySent | src/plugins/text-summary/04-content-script.ts:94-179 | exactly one EXECUTE_FEATURE request when initialized, the selection passes the guard and the settings read succeeds; nothing otherwise |
| ContentScript.SummaryBody | src/plugins/text-summary/04-content-script.ts:94-179 | the page body changes only when the request is sent and its reply carries a summary |
| ContentScript.FeedbackOf | src/plugins/text-summary/04-content-script.ts:169-178 | a dialog exactly when the reply has a truthy success, showing the first action or "总结完成", never a falsy summary; no reply or null fails the request; otherwise "总结失败: " and the reply's error |
| ContentScript.UnansweredRequestFails | src/plugins/text-summary/04-content-script.ts:151-178 | the coordinator leaves EXECUTE_FEATURE unhandled, and without a reply the request ends in the failure notice |
| ContentScript.ContentRoute | src/plugins/text-summary/04-content-script.ts:59-89 | exactly SUMMARY_REQUESTED, UPDATE_CONFIG and GET_PLUGIN_STATUS are handled, each by its own handler |
| ContentScript.Page.ShowNotification | src/plugins/text-summary/04-content-script.ts:198-235 | a notice with its text and level is added; the body is unchanged |
| ContentScript.ContentScriptManager.constructor | src/plugins/text-summary/04-content-script.ts:6-38 | a new manager has no dialog, initializes now or waits for the document to load, and keeps the dialog invariant |
| ContentScript.ContentScriptManager.Init | src/plugins/text-summary/04-content-script.ts:18-38 | a loading document defers initialization to DOMContentLoaded; otherwise initialization happens now |
| ContentScript.ContentScriptManager.OnDomContentLoaded | src/plugins/text-summary/04-content-script.ts:23-26 | initializes when initialization was deferred |
| ContentScript.ContentScriptManager.InitializeContentScript | src/plugins/text-summary/04-content-script.ts:43-54 | sets the flag; once set, a later call changes nothing |
| ContentScript.ContentScriptManager.OnMessage | src/plugins/text-summary/04-content-script.ts:59-89 | returns true exactly for the three handled types; summary requests and config updates are answered `{success:true}`; a status request is forwarded and answered with the coordinator's reply; other types change nothing; a summary request adds SummaryNotices, sends SummarySent and leaves SummaryBody of the settings read; status and config messages leave the page as it was |
| ContentScript.ContentScriptManager.HandleSummaryRequest | src/plugins/text-summary/04-content-script.ts:94-179 | nothing before initialization; the guard's notice and nothing sent for a bad selection; otherwise the progress notice, the EXECUTE_FEATURE request, then FeedbackOf's error notice or dialog; a rejected settings read shows the failure notice and sends nothing |
| ContentScript.ContentScriptManager.RequestSummary | src/plugins/text-summary/04-content-script.ts:111-178 | a rejected settings read shows the failure notice and sends nothing; otherwise the request built from the read settings is sent and FeedbackOf the reply is shown |
| ContentScript.ContentScriptManager.ShowFeedback | src/plugins/text-summary/04-content-script.ts:169-174 | an error notice leaves the page's dialog as it was; a result replaces the dialog with one showing the text and summary |
| ContentScript.ContentScriptManager.UpdateConfig | src/plugins/text-summary/04-content-script.ts:184-193 | an object config is written over the synced settings unless the write fails; failures are swallowed |
| ContentScript.ContentScriptManager.CloseExistingModal | src/plugins/text-summary/04-content-script.ts:240-254 | overlay and dialog removed, references cleared, no dialog or overlay left on the page |
| ContentScript.ContentScriptManager.ShowSummaryResult | src/plugins/text-summary/04-content-script.ts:259-447 | the old pair is closed, and one overlay and one dialog showing the text and summary are appended and referenced |
| ContentScript.ContentScriptManager.OnCopyClicked | src/plugins/text-summary/04-content-script.ts:410-414 | the copied notice appears once the clipboard accepts the summary |
| ContentScript.ContentScriptManager.OnSaveClicked | src/plugins/text-summary/04-content-script.ts:416-436 | the local history becomes SavedHistory when the read succeeds on a list and the write succeeds; the saved notice follows any write |
| ContentScript.SavedHistory | src/plugins/text-summary/04-content-script.ts:418-430 | a failed read or a stored non-list writes nothing; a missing history becomes [record]; otherwise the record is prepended and the list capped at 50 |
| ContentScript.SavedSummaryHeadsHistory | src/plugins/text-summary/04-content-script.ts:416-436 | after a save, the coordinator's history reply starts with the new record, holding the text cut to 500 characters, in a list of at most 50 |

## Left out

- Logging, DOM construction and styling, the dialog's style sheet, the ESC-key listener, and notice auto-dismissal after 3 or 5 seconds. Notices are a log on the page; they are never removed.
- The close button, the overlay click and the Escape key all call `CloseExistingModal`. The keydown listener that each dialog adds stays installed until Escape is pressed; that is not modelled.
- The network summary call and its fallback are commented out in the feature, so the summary is the fixed placeholder. The feature's `dispose`, `getStatus` (which reads the clock) and its metadata fields are not modelled.
- `execute`'s catch branch for non-`Error` throws ("未知错误") is unreachable in the modelled code. The only throw is the `trim` TypeError of a non-string selection.
- The plugin's `showError` only logs. The model takes the page address as a parameter, so the `handleSummaryRequest` catch branch is unreachable in it. In the source, `window.location` and `document` throw a ReferenceError where there is no `window` (a service worker, for one), and the catch branch then returns `{success: false}` carrying that error's own message; its "总结请求失败" only goes to `showError`, which logs it.
- The plugin's and the page script's `siteConfig`, `document` and `chrome.storage` parts of the execution context are not modelled. `window.location.href` is a parameter.
- The plugin's status is written by a plugin manager that is not part of this model. `PluginStatus` is imported from `core/interfaces/plugin.interface` (01-text-summary.plugin.ts:3), which is not part of this model; its members are assumed.
- TextSummaryPlugin.DecodeConfig keeps only well-typed `enabled`, `settings` and `lastUpdated` fields. A stored object with mistyped or extra keys would be spread as is, and a truthy non-object would spread its own keys; the model treats such fields as absent. `lastUpdated` is an integer count of milliseconds, not a `Date`.
- The context-menu manager is constructed over the plugin's own settings object, so later writes into the plugin's settings also show in the manager's. The model copies the value instead, and the manager never reads its settings.
- String lengths count characters. The source's `length` and `substring` count UTF-16 code units, so selections with characters outside the Basic Multilingual Plane are measured differently.
- Numbers are integers. Nothing in the core computes with fractions.
- ContentScript.ContentScriptManager.UpdateConfig: a config that is not a plain object, an array included, writes nothing, as when the browser refuses it. How the browser would store an array's index keys is not modelled.
- Background.TextSummaryBackground.UpdateSettings: when `settings` is not a plain object (including arrays), the rejection's message is a fixed stand-in for the browser's invocation error.
- Background.TextSummaryBackground.OnMessage takes the synced and the local area to be two separate stores, as the browser's are.
- Storage quotas, `storage.onChanged` events and `chrome.runtime.lastError` for a send to a tab without a page script are not modelled. Such a send simply delivers nothing.
- Asynchronous interleaving is not modelled. Each handler runs to completion before its reply, and the page script answers `{success:true}` to `SUMMARY_REQUESTED` only after the request finishes; in the source it answers first. The coordinator's singleton `getInstance` is not modelled.
- The page script's constructor requires a host page that uses neither `summary-modal` nor `summary-modal-overlay` as an element id.
- Superseded variants of the plugin, coordinator and page script, the popup pages, the usage examples and the coordinator's entry file are not part of this model.
