/** The options page: its settings object (loaded over the page's defaults,
    collected from the form with fallbacks, reset to the defaults) and the
    statistics it shows about the stored host document. */
module Options {
  import opened Js
  import opened Hosts
  import opened SettingsStore

  /** The raw values of the options form. */
  datatype SettingsForm = SettingsForm(
    enableHealthProbe: bool,
    enableDarkMode: bool,
    sshUser: string,
    rdpUser: string,
    sshPort: string,
    rdpPort: string)

  /** `value.trim() || fallback`. */
  function UserOrDefault(raw: string, fallback: string): (r: string)
    ensures Trim(raw) != [] ==> r == Trim(raw)
    ensures Trim(raw) == [] ==> r == fallback
  {
    if Trim(raw) != [] then Trim(raw) else fallback
  }

  /** `parseInt(value) || fallback`: the fallback exactly when nothing parses
      or zero does; any other integer, negative ones included, is kept. */
  function PortOrDefault(raw: string, fallback: int): (r: int)
    ensures ParseInt(raw).None? || ParseInt(raw) == Some(0) ==> r == fallback
    ensures ParseInt(raw).Some? && ParseInt(raw).value != 0 ==> r == ParseInt(raw).value
  {
    match ParseInt(raw)
    case Some(n) => if n != 0 then n else fallback
    case None => fallback
  }

  /** What `collectFormData` writes into the settings. */
  function Collected(form: SettingsForm): (r: Settings)
    ensures r.enableHealthProbe == form.enableHealthProbe && r.enableDarkMode == form.enableDarkMode
    ensures r.defaultSSHUser != [] && r.defaultRDPUser != []
    ensures r.defaultSSHPort != 0 && r.defaultRDPPort != 0
  {
    Settings(
      form.enableHealthProbe,
      form.enableDarkMode,
      UserOrDefault(form.sshUser, "admin"),
      UserOrDefault(form.rdpUser, "Administrator"),
      PortOrDefault(form.sshPort, 22),
      PortOrDefault(form.rdpPort, 3389))
  }

  /** What `populateForm` shows for the settings. */
  function Populated(s: Settings): SettingsForm {
    SettingsForm(
      s.enableHealthProbe, s.enableDarkMode,
      s.defaultSSHUser, s.defaultRDPUser,
      IntToString(s.defaultSSHPort), IntToString(s.defaultRDPPort))
  }

  /** Settings as the form leaves them: trimmed non-empty user names and
      non-zero ports. */
  predicate Normal(s: Settings) {
    && s.defaultSSHUser != [] && Trimmed(s.defaultSSHUser)
    && s.defaultRDPUser != [] && Trimmed(s.defaultRDPUser)
    && s.defaultSSHPort != 0 && s.defaultRDPPort != 0
  }

  /** The built-in user names have no surrounding whitespace. */
  lemma FallbackUsersTrimmed()
    ensures Trimmed("admin") && Trimmed("Administrator")
  {
    assert "admin"[0] == 'a' && "admin"[4] == 'n';
    assert "Administrator"[0] == 'A' && "Administrator"[12] == 'r';
  }

  /** Whatever the form holds, the collected settings are normal. */
  lemma CollectedNormal(form: SettingsForm)
    ensures Normal(Collected(form))
  {
    FallbackUsersTrimmed();
  }

  /** Showing normal settings in the form and collecting them again gives the
      same settings back. */
  lemma CollectPopulated(s: Settings)
    requires Normal(s)
    ensures Collected(Populated(s)) == s
  {
    TrimFixed(s.defaultSSHUser);
    TrimFixed(s.defaultRDPUser);
    ParseIntToString(s.defaultSSHPort);
    ParseIntToString(s.defaultRDPPort);
  }

  /** The options page's settings. */
  class OptionsManager {
    var settings: Settings

    /** The page starts from its own defaults, with health probing off. */
    constructor()
      ensures settings == OptionsDefaults
    {
      settings := OptionsDefaults;
    }

    /** `loadSettings`: a stored settings object is merged over the current
        settings; when nothing is stored they stay as they are. */
    method LoadSettings(stored: Option<StoredSettings>)
      modifies this
      ensures settings == if stored.Some? then Merge(old(settings), stored.value) else old(settings)
    {
      if stored.Some? {
        settings := Merge(settings, stored.value);
      }
    }

    /** `collectFormData`: every field is overwritten from the form. */
    method CollectFormData(form: SettingsForm)
      modifies this
      ensures settings == Collected(form)
      ensures Normal(settings)
    {
      settings := settings.(enableHealthProbe := form.enableHealthProbe);
      settings := settings.(enableDarkMode := form.enableDarkMode);
      settings := settings.(defaultSSHUser := UserOrDefault(form.sshUser, "admin"));
      settings := settings.(defaultRDPUser := UserOrDefault(form.rdpUser, "Administrator"));
      settings := settings.(defaultSSHPort := PortOrDefault(form.sshPort, 22));
      settings := settings.(defaultRDPPort := PortOrDefault(form.rdpPort, 3389));
      CollectedNormal(form);
    }

    /** `resetSettings`: back to exactly the defaults the page starts from. */
    method ResetSettings()
      modifies this
      ensures settings == OptionsDefaults
      ensures Normal(settings)
    {
      settings := OptionsDefaults;
      FallbackUsersTrimmed();
    }

    /** `saveSettings`: the object handed to storage, every key present. */
    method SaveSettings() returns (stored: StoredSettings)
      ensures stored == Stored(settings)
      ensures forall base :: Merge(base, stored) == settings
    {
      stored := Stored(settings);
    }
  }

  // ---------------------------------------------------------------------
  // loadDataStats
  // ---------------------------------------------------------------------

  /** The three numbers the page shows. */
  datatype Stats = Stats(totalHosts: nat, totalEnvs: nat, totalTags: nat)

  /** The distinct tags of a list of hosts. */
  function TagsOf(hosts: seq<Host>): set<string> {
    set h, t | h in hosts && t in h.tags :: t
  }

  /** The distinct tags of the whole document. */
  function AllTags(envs: seq<Env>): set<string> {
    TagsOf(Flatten(envs))
  }

  lemma TagsOfConcat(a: seq<Host>, b: seq<Host>)
    ensures TagsOf(a + b) == TagsOf(a) + TagsOf(b)
  {
  }

  /** Extending the prefix of environments by one adds that environment's
      hosts at the end. */
  lemma FlattenPrefix(envs: seq<Env>, e: nat)
    requires e < |envs|
    ensures Flatten(envs[..e + 1]) == Flatten(envs[..e]) + envs[e].items
  {
    assert envs[..e + 1] == envs[..e] + [envs[e]];
    FlattenConcat(envs[..e], [envs[e]]);
    FlattenSingle(envs[e]);
  }

  /** The tags of one host. */
  lemma TagsOfSingle(h: Host)
    ensures TagsOf([h]) == set t | t in h.tags
  {
  }

  /** The innermost loop of `loadDataStats`: adds one host's tags to the set. */
  method AddHostTags(tags0: set<string>, h: Host) returns (tags: set<string>)
    ensures tags == tags0 + TagsOf([h])
  {
    tags := tags0;
    var m := 0;
    while m < |h.tags|
      invariant 0 <= m <= |h.tags|
      invariant tags == tags0 + set t | t in h.tags[..m]
    {
      tags := tags + {h.tags[m]};
      m := m + 1;
    }
    assert h.tags[..m] == h.tags;
    TagsOfSingle(h);
  }

  /** The middle loop of `loadDataStats`: adds the tags of one environment's
      hosts to the set. */
  method AddListTags(tags0: set<string>, items: seq<Host>) returns (tags: set<string>)
    ensures tags == tags0 + TagsOf(items)
  {
    tags := tags0;
    var k := 0;
    while k < |items|
      invariant 0 <= k <= |items|
      invariant tags == tags0 + TagsOf(items[..k])
    {
      tags := AddHostTags(tags, items[k]);
      assert items[..k + 1] == items[..k] + [items[k]];
      TagsOfConcat(items[..k], [items[k]]);
      k := k + 1;
    }
    assert items[..k] == items;
  }

  /** `loadDataStats`: nothing without a stored document; otherwise the sum of
      the list lengths, the number of environments and the number of distinct
      tags, counted in nested loops. */
  method LoadDataStats(stored: Option<Document>) returns (stats: Option<Stats>)
    ensures stored.None? ==> stats.None?
    ensures stored.Some? ==> stats.Some?
    ensures stored.Some? ==> var envs := stored.value.envs;
      && stats.value.totalHosts == TotalHosts(envs) == |Flatten(envs)|
      && stats.value.totalEnvs == |envs|
      && stats.value.totalTags == |AllTags(envs)|
  {
    if stored.None? {
      return None;
    }
    var envs := stored.value.envs;
    var totalHosts := 0;
    var tags: set<string> := {};
    var e := 0;
    while e < |envs|
      invariant 0 <= e <= |envs|
      invariant totalHosts == |Flatten(envs[..e])|
      invariant tags == TagsOf(Flatten(envs[..e]))
    {
      var items := envs[e].items;
      totalHosts := totalHosts + |items|;
      tags := AddListTags(tags, items);
      FlattenPrefix(envs, e);
      TagsOfConcat(Flatten(envs[..e]), items);
      e := e + 1;
    }
    assert envs[..e] == envs;
    FlattenLength(envs);
    stats := Some(Stats(totalHosts, |envs|, |tags|));
  }
}
