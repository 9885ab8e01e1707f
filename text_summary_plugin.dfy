/**
 * The text-summary plugin: its configuration, its lifecycle (driven by
 * whether it holds a menu manager and an initialization context) and its
 * summary entry point. The plugin's `status` is written by the plugin
 * manager, which is not part of this model; here it is an input that no
 * operation changes.
 */
module TextSummaryPlugin {
  import opened Values
  import opened Storage
  import opened History
  import opened ContextMenus
  import Feature = TextSummaryFeature

  const PluginId := "text-summary-plugin"
  /** `plugin_config_${this.id}`. */
  const ConfigKey := "plugin_config_" + PluginId
  const NotInitializedError := "Plugin not initialized"
  const NotInitializedResult := "插件未初始化"

  /** The plugin's features: the text-summary feature alone. */
  const Features: seq<string> := [Feature.FeatureId]

  datatype PluginStatus = Unloaded | Initializing | Initialized | Active | Deactivating | Disposed | Failed

  /** `{enabled, settings, lastUpdated}`; the date is kept as milliseconds since the epoch. */
  datatype PluginConfig = PluginConfig(enabled: bool, settings: map<string, Json>, lastUpdated: int)

  /** `Partial<PluginConfig>`: the fields a caller supplies. */
  datatype ConfigPatch = ConfigPatch(enabled: Option<bool>, settings: Option<map<string, Json>>, lastUpdated: Option<int>)

  const DefaultSettings: map<string, Json> := map[
    "apiUrl" := JStr("https://api.example.com/summarize"),
    "apiKey" := JStr(""),
    "maxLength" := JNum(200),
    "language" := JStr("zh-CN")
  ]

  function DefaultConfig(now: int): PluginConfig
  {
    PluginConfig(true, DefaultSettings, now)
  }

  /**
   * `{...config, ...patch}`: a supplied field replaces the old one (`settings`
   * as a whole, not key by key), an unsupplied field is kept.
   */
  function MergeConfig(config: PluginConfig, patch: ConfigPatch): (r: PluginConfig)
    ensures patch.enabled.Some? ==> r.enabled == patch.enabled.value
    ensures patch.enabled.None? ==> r.enabled == config.enabled
    ensures patch.settings.Some? ==> r.settings == patch.settings.value
    ensures patch.settings.None? ==> r.settings == config.settings
    ensures patch.lastUpdated.Some? ==> r.lastUpdated == patch.lastUpdated.value
    ensures patch.lastUpdated.None? ==> r.lastUpdated == config.lastUpdated
  {
    PluginConfig(
      if patch.enabled.Some? then patch.enabled.value else config.enabled,
      if patch.settings.Some? then patch.settings.value else config.settings,
      if patch.lastUpdated.Some? then patch.lastUpdated.value else config.lastUpdated)
  }

  /** Every field supplied. */
  function Whole(config: PluginConfig): ConfigPatch
  {
    ConfigPatch(Some(config.enabled), Some(config.settings), Some(config.lastUpdated))
  }

  /** Nothing supplied. */
  const NoChange := ConfigPatch(None, None, None)

  /** The config as it is written to storage. */
  function EncodeConfig(config: PluginConfig): Json
  {
    JObj(map[
      "enabled" := JBool(config.enabled),
      "settings" := JObj(config.settings),
      "lastUpdated" := JNum(config.lastUpdated)
    ])
  }

  /** The config fields a stored value supplies when it is spread over the config. */
  function DecodeConfig(data: Json): ConfigPatch
  {
    match data
    case JObj(fields) =>
      ConfigPatch(
        if "enabled" in fields && fields["enabled"].JBool? then Some(fields["enabled"].b) else None,
        if "settings" in fields && fields["settings"].JObj? then Some(fields["settings"].fields) else None,
        if "lastUpdated" in fields && fields["lastUpdated"].JNum? then Some(fields["lastUpdated"].n) else None)
    case _ => NoChange
  }

  /** Reading back what was written gives every field back. */
  lemma DecodeEncode(config: PluginConfig)
    ensures DecodeConfig(EncodeConfig(config)) == Whole(config)
  {
  }

  /**
   * The config after `loadConfig` read `read`: a successful read of a truthy
   * value is merged over the config; anything else leaves it as it was.
   * This is the definition of a load; `LoadRestoresSaved` is its round trip.
   */
  function ConfigAfterLoad(config: PluginConfig, read: ItemRead): (r: PluginConfig)
    ensures !read.Delivered? ==> r == config
    ensures read.Delivered? ==> r == (if Truthy(read.data) then MergeConfig(config, DecodeConfig(read.data)) else config)
  {
    if read.Delivered? && Truthy(read.data) then MergeConfig(config, DecodeConfig(read.data)) else config
  }

  /**
   * `setConfig` followed by `loadConfig` round-trips: whatever config the
   * plugin starts from, loading a saved config yields exactly the saved one;
   * and when nothing is stored, the default of the read is the current
   * config, so loading changes nothing.
   */
  lemma {:induction false} LoadRestoresSaved(current: PluginConfig, saved: PluginConfig)
    ensures ConfigAfterLoad(current, Delivered(EncodeConfig(saved))) == saved
    ensures ConfigAfterLoad(current, Delivered(EncodeConfig(current))) == current
  {
    DecodeEncode(saved);
    DecodeEncode(current);
  }

  datatype StatusInfo = StatusInfo(status: PluginStatus, featuresCount: nat, activeFeatures: nat)

  /** `getStatusInfo()` for a plugin in `status`. */
  function StatusInfoOf(status: PluginStatus): (info: StatusInfo)
    ensures info.status == status && info.featuresCount == |Features|
    ensures info.activeFeatures <= info.featuresCount
    ensures info.activeFeatures > 0 <==> status == Active
    ensures status == Active ==> info.activeFeatures == info.featuresCount
  {
    StatusInfo(status, |Features|, if status == Active then |Features| else 0)
  }

  /** What `initialize` is handed: the framework storage, when there is one. */
  datatype InitContext = InitContext(storage: Store?)

  function StorageOf(context: Option<InitContext>): Store?
  {
    if context.Some? then context.value.storage else null
  }

  class TextSummaryPlugin {
    var status: PluginStatus
    var menuManager: ContextMenuManager?
    var initContext: Option<InitContext>
    var config: PluginConfig
    const menus: MenuRegistry

    constructor (menus: MenuRegistry, now: int)
      ensures status == Unloaded && menuManager == null && initContext == None
      ensures config == DefaultConfig(now) && this.menus == menus
      ensures Valid()
    {
      status := Unloaded;
      menuManager := null;
      initContext := None;
      config := DefaultConfig(now);
      this.menus := menus;
    }

    /** The menu manager, when there is one, works on this plugin's menu registry. */
    ghost predicate Valid()
      reads this
    {
      menuManager != null ==> menuManager.menus == menus
    }

    /** The plugin can be activated. */
    predicate IsInitialized()
      reads this
    {
      menuManager != null
    }

    /**
     * `initialize(context)`: keep the context, load the stored config, and
     * create a fresh menu manager over the loaded settings.
     */
    method Initialize(context: InitContext, load: ReadOutcome)
      modifies this
      ensures initContext == Some(context) && status == old(status)
      ensures context.storage == null ==> config == old(config)
      ensures context.storage != null ==>
        config == ConfigAfterLoad(old(config), ItemReadOf(context.storage.items, ConfigKey, EncodeConfig(old(config)), load))
      ensures menuManager != null && fresh(menuManager)
      ensures menuManager.settings == config.settings && Valid()
    {
      initContext := Some(context);
      LoadConfig(load);
      menuManager := new ContextMenuManager(config.settings, menus);
    }

    /** `activate()`: rejects unless initialized, otherwise registers the menu. */
    method Activate(createFault: Option<string>) returns (r: Outcome)
      requires Valid()
      modifies menus
      ensures menuManager == null ==>
        r == Fail(NotInitializedError) && menus.entries == old(menus.entries) && menus.listeners == old(menus.listeners)
      ensures menuManager != null && !menus.available ==> r == Pass && menus.entries == old(menus.entries)
      ensures menuManager != null && menus.available ==>
        && r == (if createFault.Some? then Fail(createFault.value) else Pass)
        && menus.entries == (if createFault.Some? then map[] else map[MenuId := SummaryEntry])
      ensures menuManager != null ==>
        menus.listeners == old(menus.listeners) + (if menus.available && createFault.None? then [menuManager] else [])
    {
      if menuManager == null {
        return Fail(NotInitializedError);
      }
      r := menuManager.Initialize(createFault);
    }

    /** `deactivate()`: remove the menu entries when there is a manager. */
    method Deactivate()
      requires Valid()
      modifies menus
      ensures menus.entries == if menuManager != null && menus.available then map[] else old(menus.entries)
      ensures menus.listeners == old(menus.listeners)
    {
      if menuManager != null {
        menuManager.UnregisterContextMenu();
      }
    }

    /** `dispose()`: deactivate, then drop the manager and the context; activation fails from then on. */
    method Dispose()
      requires Valid()
      modifies this, menus
      ensures menuManager == null && initContext == None && !IsInitialized() && Valid()
      ensures config == old(config) && status == old(status)
      ensures menus.entries == if old(menuManager) != null && menus.available then map[] else old(menus.entries)
      ensures menus.listeners == old(menus.listeners)
    {
      Deactivate();
      menuManager := null;
      initContext := None;
    }

    /** `getConfig()`: a copy of the config. */
    function GetConfig(): (c: PluginConfig)
      reads this
      ensures c == config
    {
      config
    }

    /**
     * `setConfig(patch)`: merge, stamp `lastUpdated`, persist when there is
     * storage (a rejected write rejects the call and skips the rest), then
     * hand supplied settings to the menu manager. The write's `{success}`
     * flag is not looked at, so a declined write goes on as a committed one.
     */
    method SetConfig(patch: ConfigPatch, now: int, write: WriteOutcome) returns (r: Outcome)
      modifies this, StorageOf(initContext), menuManager
      ensures config == MergeConfig(old(config), patch).(lastUpdated := now)
      ensures initContext == old(initContext) && menuManager == old(menuManager) && status == old(status)
      ensures var store := StorageOf(initContext);
        store != null ==> store.items == ItemsAfterWrite(old(store.items), ConfigKey, EncodeConfig(config), write)
      ensures r == if StorageOf(initContext) != null && write.WriteRaises? then Fail(write.error) else Pass
      ensures menuManager != null ==>
        menuManager.settings == if r.Pass? && patch.settings.Some?
          then Spread(old(menuManager.settings), patch.settings.value) else old(menuManager.settings)
    {
      config := MergeConfig(config, patch);
      config := config.(lastUpdated := now);
      var store := StorageOf(initContext);
      if store != null {
        var written := store.SetItem(ConfigKey, EncodeConfig(config), write);
        if written.Err? {
          return Fail(written.error);
        }
      }
      r := Pass;
      if menuManager != null && patch.settings.Some? {
        menuManager.UpdateSettings(patch.settings.value);
      }
    }

    /** `getStatusInfo()`. */
    function GetStatusInfo(): (info: StatusInfo)
      reads this
      ensures info == StatusInfoOf(status)
      ensures info.activeFeatures > 0 <==> status == Active
    {
      StatusInfoOf(status)
    }

    /** `loadConfig()`: merge the stored config over the current one; every failure keeps it. */
    method LoadConfig(load: ReadOutcome)
      modifies this
      ensures initContext == old(initContext) && menuManager == old(menuManager) && status == old(status)
      ensures StorageOf(initContext) == null ==> config == old(config)
      ensures StorageOf(initContext) != null ==>
        config == ConfigAfterLoad(old(config), ItemReadOf(StorageOf(initContext).items, ConfigKey, EncodeConfig(old(config)), load))
    {
      var store := StorageOf(initContext);
      if store == null {
        return;
      }
      var result := store.GetItem(ConfigKey, EncodeConfig(config), load);
      if result.Delivered? && Truthy(result.data) {
        config := MergeConfig(config, DecodeConfig(result.data));
      }
    }

    /**
     * `handleSummaryRequest(selectedText)`: refuse without a context.
     * Otherwise the request's settings are the plugin's own settings object,
     * so writing the selection into them writes it into the config; then the
     * feature runs against the framework storage.
     */
    method HandleSummaryRequest(selectedText: string, url: string, clock: Clock,
                                read: ReadOutcome, write: WriteOutcome) returns (r: Feature.ExecutionResult)
      modifies this, StorageOf(initContext)
      ensures initContext == old(initContext) && menuManager == old(menuManager) && status == old(status)
      ensures initContext.None? ==> r == Feature.Failed(NotInitializedResult) && config == old(config)
      ensures initContext.Some? ==>
        config == old(config).(settings := old(config.settings)["selectedText" := JStr(selectedText)])
      ensures initContext.Some? ==>
        var runnable := Feature.CanExecute(config.settings);
        && (runnable == Some(false) ==> r == Feature.Failed(Feature.PreconditionError))
        && (runnable == Some(true) ==> r == Feature.Succeeded([Feature.PlaceholderSummary]))
      ensures var store := StorageOf(initContext);
        store != null && (initContext.None? || Feature.CanExecute(config.settings) != Some(true)) ==>
          store.items == old(store.items)
      ensures var store := StorageOf(initContext);
        store != null && initContext.Some? && Feature.CanExecute(config.settings) == Some(true) ==>
          store.items == Feature.ItemsAfterSave(old(store.items),
            ItemReadOf(old(store.items), Feature.HistoryKey, JArr([]), read),
            Feature.FeatureRecord(clock, url, selectedText, Feature.PlaceholderSummary), write)
    {
      if initContext.None? {
        return Feature.Failed(NotInitializedResult);
      }
      config := config.(settings := config.settings["selectedText" := JStr(selectedText)]);
      r := Feature.Execute(config.settings, url, initContext.value.storage, clock, read, write);
    }
  }

  /**
   * The lifecycle as its fields see it: a plugin that is initialized and then
   * disposed is back to refusing activation, and its menu entries are gone.
   */
  method InitializeThenDispose(plugin: TextSummaryPlugin, context: InitContext, load: ReadOutcome)
    modifies plugin, plugin.menus
    ensures !plugin.IsInitialized() && plugin.initContext == None
    ensures plugin.menus.available ==> plugin.menus.entries == map[]
  {
    plugin.Initialize(context, load);
    assert plugin.IsInitialized();
    plugin.Dispose();
  }
}
