/** The settings document kept under the storage key `ipManagerSettings`,
    its defaults, and the merge that applies stored values over defaults. */
module SettingsStore {
  import opened Js

  /** The six user settings. */
  datatype Settings = Settings(
    enableHealthProbe: bool,
    enableDarkMode: bool,
    defaultSSHUser: string,
    defaultRDPUser: string,
    defaultSSHPort: int,
    defaultRDPPort: int)

  /** The popup's built-in settings (health probing on). */
  const PopupDefaults: Settings := Settings(true, false, "admin", "Administrator", 22, 3389)

  /** The options page's built-in settings, which are also what "reset" restores
      (health probing off). */
  const OptionsDefaults: Settings := Settings(false, false, "admin", "Administrator", 22, 3389)

  /** A stored settings object: any key may be missing. */
  datatype StoredSettings = StoredSettings(
    enableHealthProbe: Option<bool>,
    enableDarkMode: Option<bool>,
    defaultSSHUser: Option<string>,
    defaultRDPUser: Option<string>,
    defaultSSHPort: Option<int>,
    defaultRDPPort: Option<int>)

  /** A stored key if present, the base value otherwise. */
  function Pick<T>(stored: Option<T>, base: T): T {
    match stored
    case Some(v) => v
    case None => base
  }

  /** `{ ...base, ...stored }`: every key present in storage wins over the base
      value, every absent key keeps it. */
  function Merge(base: Settings, stored: StoredSettings): (r: Settings)
    ensures stored.enableHealthProbe.Some? ==> r.enableHealthProbe == stored.enableHealthProbe.value
    ensures stored.enableHealthProbe.None? ==> r.enableHealthProbe == base.enableHealthProbe
    ensures stored.enableDarkMode.Some? ==> r.enableDarkMode == stored.enableDarkMode.value
    ensures stored.enableDarkMode.None? ==> r.enableDarkMode == base.enableDarkMode
    ensures stored.defaultSSHUser.Some? ==> r.defaultSSHUser == stored.defaultSSHUser.value
    ensures stored.defaultSSHUser.None? ==> r.defaultSSHUser == base.defaultSSHUser
    ensures stored.defaultRDPUser.Some? ==> r.defaultRDPUser == stored.defaultRDPUser.value
    ensures stored.defaultRDPUser.None? ==> r.defaultRDPUser == base.defaultRDPUser
    ensures stored.defaultSSHPort.Some? ==> r.defaultSSHPort == stored.defaultSSHPort.value
    ensures stored.defaultSSHPort.None? ==> r.defaultSSHPort == base.defaultSSHPort
    ensures stored.defaultRDPPort.Some? ==> r.defaultRDPPort == stored.defaultRDPPort.value
    ensures stored.defaultRDPPort.None? ==> r.defaultRDPPort == base.defaultRDPPort
  {
    Settings(
      Pick(stored.enableHealthProbe, base.enableHealthProbe),
      Pick(stored.enableDarkMode, base.enableDarkMode),
      Pick(stored.defaultSSHUser, base.defaultSSHUser),
      Pick(stored.defaultRDPUser, base.defaultRDPUser),
      Pick(stored.defaultSSHPort, base.defaultSSHPort),
      Pick(stored.defaultRDPPort, base.defaultRDPPort))
  }

  /** What `chrome.storage.local.set({ ipManagerSettings: settings })` stores:
      every key. */
  function Stored(s: Settings): StoredSettings {
    StoredSettings(
      Some(s.enableHealthProbe), Some(s.enableDarkMode),
      Some(s.defaultSSHUser), Some(s.defaultRDPUser),
      Some(s.defaultSSHPort), Some(s.defaultRDPPort))
  }

  /** Saved settings load back unchanged, whatever defaults they are merged over. */
  lemma SaveThenLoad(base: Settings, s: Settings)
    ensures Merge(base, Stored(s)) == s
  {
  }

  /** Merging the same stored object twice is merging it once. */
  lemma MergeIdempotent(base: Settings, stored: StoredSettings)
    ensures Merge(Merge(base, stored), stored) == Merge(base, stored)
  {
  }

  /** The popup and the options page load the same stored object over their
      own defaults. The results differ only in whether health probing is on,
      and only when the stored object lacks that key: the popup then probes
      and the options page does not. */
  lemma DefaultsDifferOnlyInProbe(stored: StoredSettings)
    ensures Merge(PopupDefaults, stored).(enableHealthProbe := false)
      == Merge(OptionsDefaults, stored).(enableHealthProbe := false)
    ensures stored.enableHealthProbe.Some? ==> Merge(PopupDefaults, stored) == Merge(OptionsDefaults, stored)
    ensures stored.enableHealthProbe.None? ==>
      Merge(PopupDefaults, stored).enableHealthProbe && !Merge(OptionsDefaults, stored).enableHealthProbe
  {
  }
}
