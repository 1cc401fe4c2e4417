/**
 * The decision logic of the push-message handler: which launcher icon a
 * message selects, how the launcher aliases are switched so that exactly
 * that one is enabled, and when an "update available" prompt is shown.
 * The clock is replaced by a month parameter and the package manager by a
 * map from component class name to its enabled state.
 */
module IconMessaging {
  import opened Options
  import opened Text
  import opened Notifications

  // ---------------------------------------------------------------------
  // Icon keys
  // ---------------------------------------------------------------------

  /** The four icon keys the launcher aliases are declared for. */
  const IconKeys: set<string> := {"default", "jan", "feb", "mar"}

  /** The seasonal keys, indexed by month - 1 for January to March. */
  const SeasonalKeys: seq<string> := ["jan", "feb", "mar"]

  /** Every spelling of a key a payload may use, in normal form. */
  const IconNames: set<string> := {"january", "jan", "february", "feb", "march", "mar", "default"}

  /** The icon of the current month: January to March have their own, the rest use the default. */
  function MonthKey(month: int): (r: string)
    requires 1 <= month <= 12
    ensures r in IconKeys
    ensures month <= 3 ==> r == SeasonalKeys[month - 1]
    ensures 4 <= month ==> r == "default"
  {
    match month
    case 1 => "jan"
    case 2 => "feb"
    case 3 => "mar"
    case _ => "default"
  }

  /**
   * The key a payload value selects once trimmed and lowercased: a
   * recognised name selects its key, anything else (blank, `auto`, unknown)
   * the month's key.
   */
  function MatchIconName(v: string, month: int): (r: string)
    requires 1 <= month <= 12
    ensures r in IconKeys
  {
    if v == "" then MonthKey(month)
    else if v == "auto" then MonthKey(month)
    else if v == "january" || v == "jan" then "jan"
    else if v == "february" || v == "feb" then "feb"
    else if v == "march" || v == "mar" then "mar"
    else if v == "default" then "default"
    else MonthKey(month)
  }

  /** The icon key a push payload's `icon` value selects; an absent value selects the month's key. */
  function ResolveIconKey(value: Option<string>, month: int): (r: string)
    requires 1 <= month <= 12
    ensures r in IconKeys
  {
    if value.None? then MonthKey(month) else MatchIconName(TrimLower(value.value), month)
  }

  /** A value outside the recognised names selects the month's key. */
  lemma MatchUnknownName(v: string, month: int)
    requires 1 <= month <= 12
    requires v !in IconNames
    ensures MatchIconName(v, month) == MonthKey(month)
  {
  }

  /** Each key is a recognised name of itself. */
  lemma MatchKeyName(k: string, month: int)
    requires 1 <= month <= 12
    requires k in IconKeys
    ensures k in IconNames && MatchIconName(k, month) == k
  {
  }

  /** Full and short month names select the same key, whatever the month. */
  lemma MatchFullAndShortNames(month: int)
    requires 1 <= month <= 12
    ensures MatchIconName("january", month) == MatchIconName("jan", month) == "jan"
    ensures MatchIconName("february", month) == MatchIconName("feb", month) == "feb"
    ensures MatchIconName("march", month) == MatchIconName("mar", month) == "mar"
  {
  }

  /** An absent, blank, `auto` or unrecognised value selects the month's key. */
  lemma ResolveFallback(value: Option<string>, month: int)
    requires 1 <= month <= 12
    requires value.None? || IsBlank(value.value) || TrimLower(value.value) !in IconNames
    ensures ResolveIconKey(value, month) == MonthKey(month)
  {
    if value.Some? {
      var v := TrimLower(value.value);
      if IsBlank(value.value) {
        TrimShape(value.value);
      }
      MatchUnknownName(v, month);
    }
  }

  /** Each of the four keys is in normal form. */
  lemma KeyIsNormal(k: string)
    requires k in IconKeys
    ensures TrimLower(k) == k
  {
    if k == "default" {
      TrimFixed(k); LowerFixed(k);
    } else if k == "jan" {
      TrimFixed(k); LowerFixed(k);
    } else if k == "feb" {
      TrimFixed(k); LowerFixed(k);
    } else {
      TrimFixed(k); LowerFixed(k);
    }
  }

  /** Feeding a resolved key back in selects the same key again. */
  lemma ResolveIdempotent(value: Option<string>, month: int)
    requires 1 <= month <= 12
    ensures ResolveIconKey(Some(ResolveIconKey(value, month)), month) == ResolveIconKey(value, month)
  {
    var k := ResolveIconKey(value, month);
    KeyIsNormal(k);
    MatchKeyName(k, month);
  }

  /** Padding with whitespace and changing letter case never change the selected key. */
  lemma ResolveIgnoresCaseAndPadding(w1: string, s: string, t: string, w2: string, month: int)
    requires 1 <= month <= 12
    requires IsBlank(w1) && IsBlank(w2)
    requires ToLower(s) == ToLower(t)
    ensures ResolveIconKey(Some(w1 + s + w2), month) == ResolveIconKey(Some(t), month)
  {
    TrimLowerInsensitive(w1, s, t, w2);
  }

  /** `" January "` selects `jan`. */
  lemma ResolvePaddedFullName(value: string, month: int)
    requires 1 <= month <= 12
    requires value == " January "
    ensures ResolveIconKey(Some(value), month) == "jan"
  {
    var s, name := "January", "january";
    assert value == " " + s + " ";
    assert ToLower(s) == name;
    TrimFixed(name); LowerFixed(name);
    TrimLowerInsensitive(" ", s, name, " ");
    MatchFullAndShortNames(month);
  }

  /** `"JAN"` selects `jan`. */
  lemma ResolveUpperShortName(value: string, month: int)
    requires 1 <= month <= 12
    requires value == "JAN"
    ensures ResolveIconKey(Some(value), month) == "jan"
  {
    TrimFixed(value);
    assert ToLower(value) == "jan";
    MatchFullAndShortNames(month);
  }

  // ---------------------------------------------------------------------
  // Launcher aliases
  // ---------------------------------------------------------------------

  datatype ComponentState = Enabled | Disabled

  const DefaultAlias := "com.sholo.imageconverter.LauncherDefault"

  /** The alias table, in the order the switch visits it: icon key to component class name. */
  const Aliases: seq<(string, string)> := [
    ("default", DefaultAlias),
    ("jan", "com.sholo.imageconverter.LauncherJan"),
    ("feb", "com.sholo.imageconverter.LauncherFeb"),
    ("mar", "com.sholo.imageconverter.LauncherMar")]

  function ClassesOf(table: seq<(string, string)>): set<string>
  {
    set p | p in table :: p.1
  }

  /** The component class names of the launcher aliases. */
  const AliasClasses: set<string> := ClassesOf(Aliases)

  /** `table[key]`: the class name the table lists for `key`, if any. */
  function LookupAlias(table: seq<(string, string)>, key: string): (r: Option<string>)
    ensures r.Some? ==> (key, r.value) in table
    ensures r.None? ==> forall p :: p in table ==> p.0 != key
  {
    if table == [] then None
    else if table[0].0 == key then Some(table[0].1)
    else LookupAlias(table[1..], key)
  }

  /** The alias to enable for `key`: its own, or the default alias when `key` has none. */
  function DesiredAlias(key: string): (c: string)
    ensures c in AliasClasses
    ensures key in IconKeys ==> (key, c) in Aliases
    ensures key !in IconKeys ==> c == DefaultAlias
  {
    match LookupAlias(Aliases, key)
    case Some(c) => c
    case None =>
      var d := LookupAlias(Aliases, "default");
      assert d == Some(DefaultAlias);
      d.value
  }

  function StateFor(className: string, desired: string): ComponentState
  {
    if className == desired then Enabled else Disabled
  }

  /** The settings after visiting `table` in order, enabling `desired` and disabling the others. */
  function ApplyAliases(settings: map<string, ComponentState>, desired: string,
                        table: seq<(string, string)>): map<string, ComponentState>
  {
    if table == [] then settings
    else
      var className := table[|table| - 1].1;
      ApplyAliases(settings, desired, table[..|table| - 1])[className := StateFor(className, desired)]
  }

  /** The package-manager settings after switching the launcher icon to `key`. */
  function WithIcon(settings: map<string, ComponentState>, key: string): map<string, ComponentState>
  {
    ApplyAliases(settings, DesiredAlias(key), Aliases)
  }

  /** What one component's setting is after a pass over `table`. */
  lemma {:induction false} ApplyAliasesAt(settings: map<string, ComponentState>, desired: string,
                                          table: seq<(string, string)>, c: string)
    ensures c in ApplyAliases(settings, desired, table) <==> c in settings || c in ClassesOf(table)
    ensures c in ClassesOf(table) ==>
              ApplyAliases(settings, desired, table)[c] == StateFor(c, desired)
    ensures c !in ClassesOf(table) && c in settings ==>
              ApplyAliases(settings, desired, table)[c] == settings[c]
  {
    if table != [] {
      var front, last := table[..|table| - 1], table[|table| - 1];
      assert table == front + [last];
      assert ClassesOf(table) == ClassesOf(front) + {last.1};
      ApplyAliasesAt(settings, desired, front, c);
    }
  }

  /**
   * After the switch, exactly one launcher alias is enabled, whatever the
   * settings were before: the alias of `key`, or the default alias when
   * `key` has none. Every other component keeps its setting.
   */
  lemma ExactlyOneAliasEnabled(settings: map<string, ComponentState>, key: string)
    ensures AliasClasses <= WithIcon(settings, key).Keys
    ensures forall c :: c in AliasClasses ==>
              (WithIcon(settings, key)[c] == Enabled <==> c == DesiredAlias(key))
    ensures (set c | c in AliasClasses && WithIcon(settings, key)[c] == Enabled) == {DesiredAlias(key)}
    ensures forall c :: c !in AliasClasses ==>
              (c in WithIcon(settings, key) <==> c in settings) &&
              (c in settings ==> WithIcon(settings, key)[c] == settings[c])
  {
    var d := DesiredAlias(key);
    forall c {
      ApplyAliasesAt(settings, d, Aliases, c);
    }
    var r := WithIcon(settings, key);
    assert d in (set c | c in AliasClasses && r[c] == Enabled);
  }

  /** The package manager: each component's enabled setting, by class name. */
  class PackageManager {
    var settings: map<string, ComponentState>

    constructor (settings: map<string, ComponentState>)
      ensures this.settings == settings
    {
      this.settings := settings;
    }

    /** `setComponentEnabledSetting(component, state, DONT_KILL_APP)`. */
    method SetComponentEnabledSetting(className: string, state: ComponentState)
      modifies this
      ensures settings == old(settings)[className := state]
    {
      settings := settings[className := state];
    }
  }

  /** Visits the alias table in order, enabling the alias of `key` and disabling every other alias. */
  method SetLauncherIcon(pm: PackageManager, key: string)
    modifies pm
    ensures pm.settings == WithIcon(old(pm.settings), key)
  {
    var desired := DesiredAlias(key);
    var i := 0;
    while i < |Aliases|
      invariant 0 <= i <= |Aliases|
      invariant pm.settings == ApplyAliases(old(pm.settings), desired, Aliases[..i])
    {
      var className := Aliases[i].1;
      var state := if className == desired then Enabled else Disabled;
      pm.SetComponentEnabledSetting(className, state);
      assert Aliases[..i + 1][..i] == Aliases[..i];
      i := i + 1;
    }
    assert Aliases[..i] == Aliases;
  }

  // ---------------------------------------------------------------------
  // Update prompt
  // ---------------------------------------------------------------------

  const UpdateFlags: set<string> := {"1", "true", "yes"}
  const DefaultUpdateTitle := "Update available"
  const DefaultUpdateBody := "A new version is ready. Tap to update."
  const UpdateNotificationId := 2001
  const UpdatesChannel := "updates"

  datatype UpdatePrompt = UpdatePrompt(title: string, body: string, url: string)

  /** The store page of the app, the update link when the payload gives none. */
  function MarketUrl(packageName: string): string
  {
    "market://details?id=" + packageName
  }

  /**
   * The update prompt a payload asks for: none unless its `update` value,
   * trimmed and lowercased, is `1`, `true` or `yes`; each of title, body and
   * link is the payload's own when present and not blank, else a default.
   */
  function UpdatePromptFor(data: map<string, string>, packageName: string): (r: Option<UpdatePrompt>)
    ensures r.Some? <==> "update" in data && TrimLower(data["update"]) in UpdateFlags
    ensures r.Some? ==> !IsBlank(r.value.title) && !IsBlank(r.value.body) && !IsBlank(r.value.url)
    ensures r.Some? && "title" in data && !IsBlank(data["title"]) ==> r.value.title == data["title"]
    ensures r.Some? && ("title" !in data || IsBlank(data["title"])) ==> r.value.title == DefaultUpdateTitle
    ensures r.Some? && "body" in data && !IsBlank(data["body"]) ==> r.value.body == data["body"]
    ensures r.Some? && ("body" !in data || IsBlank(data["body"])) ==> r.value.body == DefaultUpdateBody
    ensures r.Some? && "update_url" in data && !IsBlank(data["update_url"]) ==>
              r.value.url == data["update_url"]
    ensures r.Some? && ("update_url" !in data || IsBlank(data["update_url"])) ==>
              r.value.url == MarketUrl(packageName)
  {
    if "update" !in data then None
    else
      var update := TrimLower(data["update"]);
      if update !in UpdateFlags then None
      else
        DefaultsNotBlank(packageName);
        var title := NonBlankOr(Get(data, "title"), DefaultUpdateTitle);
        var body := NonBlankOr(Get(data, "body"), DefaultUpdateBody);
        var url := NonBlankOr(Get(data, "update_url"), MarketUrl(packageName));
        Some(UpdatePrompt(title, body, url))
  }

  lemma DefaultsNotBlank(packageName: string)
    ensures !IsBlank(DefaultUpdateTitle) && !IsBlank(DefaultUpdateBody) && !IsBlank(MarketUrl(packageName))
  {
    NotBlankAt(DefaultUpdateTitle, 0);
    NotBlankAt(DefaultUpdateBody, 0);
    NotBlankAt(MarketUrl(packageName), 0);
  }

  /** `" TRUE "` asks for the prompt: the flag ignores case and surrounding whitespace. */
  lemma UpdateFlagPaddedUpper(packageName: string)
    ensures UpdatePromptFor(map["update" := " TRUE "], packageName).Some?
  {
    var s, flag := "TRUE", "true";
    assert " TRUE " == " " + s + " ";
    assert ToLower(s) == flag;
    TrimFixed(flag); LowerFixed(flag);
    assert ToLower(flag) == flag;
    TrimLowerInsensitive(" ", s, flag, " ");
  }

  /** `"no"` does not ask for the prompt. */
  lemma UpdateFlagNo(flag: string, packageName: string)
    requires flag == "no"
    ensures UpdatePromptFor(map["update" := flag], packageName).None?
  {
    TrimFixed(flag); LowerFixed(flag);
  }

  /** The notification shown for an update prompt: tapping it or its action opens the link. */
  function UpdateNotification(p: UpdatePrompt): (n: Notification)
    ensures n.channel == UpdatesChannel && n.title == p.title && n.text == p.body
    ensures n.target == OpenUri(p.url) && n.actions == ["Update now"]
    ensures n.autoCancel && !n.ongoing && n.bar.None?
  {
    Notification(UpdatesChannel, p.title, p.body, None, false, false, true, OpenUri(p.url), ["Update now"])
  }

  /** Posts the update prompt under id 2001 on the `updates` channel, or does nothing. */
  method MaybeShowUpdateNotification(nm: NotificationManager, data: map<string, string>, packageName: string)
    modifies nm
    ensures UpdatePromptFor(data, packageName).None? ==>
              nm.posted == old(nm.posted) && nm.channels == old(nm.channels) && nm.history == old(nm.history)
    ensures UpdatePromptFor(data, packageName).Some? ==>
              var n := UpdateNotification(UpdatePromptFor(data, packageName).value);
              && nm.posted == old(nm.posted)[UpdateNotificationId := n]
              && nm.channels == old(nm.channels) + {UpdatesChannel}
              && nm.history == old(nm.history) + [Posted(UpdateNotificationId, n)]
  {
    var prompt := UpdatePromptFor(data, packageName);
    if prompt.Some? {
      nm.CreateNotificationChannel(UpdatesChannel);
      nm.Notify(UpdateNotificationId, UpdateNotification(prompt.value));
    }
  }

  /** A push message: switch the launcher icon it selects, then maybe prompt for an update. */
  method OnMessageReceived(pm: PackageManager, nm: NotificationManager,
                           data: map<string, string>, packageName: string, month: int)
    requires 1 <= month <= 12
    modifies pm, nm
    ensures pm.settings == WithIcon(old(pm.settings), ResolveIconKey(Get(data, "icon"), month))
    ensures UpdatePromptFor(data, packageName).None? ==>
              nm.posted == old(nm.posted) && nm.channels == old(nm.channels) && nm.history == old(nm.history)
    ensures UpdatePromptFor(data, packageName).Some? ==>
              var n := UpdateNotification(UpdatePromptFor(data, packageName).value);
              && nm.posted == old(nm.posted)[UpdateNotificationId := n]
              && nm.channels == old(nm.channels) + {UpdatesChannel}
              && nm.history == old(nm.history) + [Posted(UpdateNotificationId, n)]
  {
    var key := ResolveIconKey(Get(data, "icon"), month);
    SetLauncherIcon(pm, key);
    MaybeShowUpdateNotification(nm, data, packageName);
  }
}
