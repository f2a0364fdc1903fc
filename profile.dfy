/**
 * kiwi's profile builder (kiwi/system/profile.py): translates the build
 * configuration into the key/value dictionary `dot_profile` read by the
 * first-boot shell code, and serialises it as sorted `key=value` lines.
 *
 * The XML accessors become the fields of `XmlState`; every
 * `_..._to_profile` step is a method of `Profile` that updates the
 * dictionary in place and is specified by a map-valued function.
 */
module KiwiProfile {
  import opened Wrappers
  import opened Strings

  // ---------------------------------------------------------------------------
  // Values of the dictionary
  // ---------------------------------------------------------------------------

  /** What the XML accessors hand to the dictionary: `None`, a bool, an int or a str. */
  datatype Value = Null | Bool(b: bool) | Int(i: int) | Str(s: string)

  /** Python truthiness, as tested by `if value:`. */
  predicate Truthy(v: Value)
  {
    match v
    case Null => false
    case Bool(b) => b
    case Int(i) => i != 0
    case Str(s) => s != ""
  }

  /** An accessor that returns a str or `None`. */
  function OptionalStr(o: Option<string>): Value
  {
    match o
    case None => Null
    case Some(s) => Str(s)
  }

  /**
   * `_text`: the text of an XML element of the shape `<section>text</section>`,
   * handed over as a list. An empty list (or `None`, modelled as the empty
   * list) gives `None`; the text `'false'` gives `False`; any other text is
   * returned as it is.
   */
  function Text(content: seq<string>): (r: Value)
    ensures r == Null <==> |content| == 0
    ensures r == Bool(false) <==> |content| > 0 && content[0] == "false"
    ensures r != Null && r != Bool(false) ==> r == Str(content[0])
  {
    if |content| == 0 then Null
    else if content[0] == "false" then Bool(false)
    else Str(content[0])
  }

  /**
   * `_format`: `True` is written as `true`, every other value as Python's
   * `format(value)` writes it. A value that `create` writes is never empty.
   */
  function Format(v: Value): (r: string)
    ensures v == Bool(true) <==> r == "true" && !v.Str?
    ensures Truthy(v) ==> |r| > 0
  {
    match v
    case Null => "None"
    case Bool(b) => if b then "true" else "False"
    case Int(i) => IntToString(i)
    case Str(s) => s
  }

  /**
   * What `_text` yields reaches the profile file exactly when the element has
   * text other than `''` and `'false'`, and then the file holds that text.
   */
  lemma TextInProfile(content: seq<string>)
    ensures Truthy(Text(content)) <==> |content| > 0 && content[0] != "" && content[0] != "false"
    ensures Truthy(Text(content)) ==> Format(Text(content)) == content[0]
    ensures |content| > 0 && content[0] == "false" ==> Text(content) == Bool(false) && Format(Text(content)) == "False"
  {
  }

  // ---------------------------------------------------------------------------
  // Serialisation: create
  // ---------------------------------------------------------------------------

  /** One line of the profile file, without its newline. */
  function Line(key: string, value: Value): string
  {
    key + "=" + Format(value)
  }

  /** The keys among `keys` whose value is truthy, in the same order. */
  function Truthful(keys: seq<string>, m: map<string, Value>): (r: seq<string>)
    requires forall i :: 0 <= i < |keys| ==> keys[i] in m
    ensures |r| <= |keys|
    ensures forall k :: k in r <==> k in keys && Truthy(m[k])
    ensures forall i :: 0 <= i < |r| ==> r[i] in m
    decreases |keys|
  {
    if |keys| == 0 then []
    else
      var init := keys[..|keys| - 1];
      var last := keys[|keys| - 1];
      assert forall k :: k in keys <==> k in init || k == last;
      Truthful(init, m) + (if Truthy(m[last]) then [last] else [])
  }

  /** Dropping the falsy entries keeps the remaining keys in ascending order. */
  lemma {:induction false} TruthfulAscending(keys: seq<string>, m: map<string, Value>)
    requires forall i :: 0 <= i < |keys| ==> keys[i] in m
    requires StrictlyAscending(keys)
    ensures StrictlyAscending(Truthful(keys, m))
    decreases |keys|
  {
    if |keys| > 0 {
      var init := keys[..|keys| - 1];
      var last := keys[|keys| - 1];
      TruthfulAscending(init, m);
      var t := Truthful(init, m);
      forall i | 0 <= i < |t|
        ensures Less(t[i], last)
      {
        assert t[i] in init;
      }
    }
  }

  /** The lines written for `keys`, in that order. */
  function Lines(keys: seq<string>, m: map<string, Value>): (r: seq<string>)
    requires forall i :: 0 <= i < |keys| ==> keys[i] in m
    ensures |r| == |keys|
    ensures forall i :: 0 <= i < |keys| ==> r[i] == Line(keys[i], m[keys[i]])
  {
    seq(|keys|, i requires 0 <= i < |keys| => Line(keys[i], m[keys[i]]))
  }

  lemma TruthfulAppend(keys: seq<string>, key: string, m: map<string, Value>)
    requires forall i :: 0 <= i < |keys| ==> keys[i] in m
    requires key in m
    ensures Truthful(keys + [key], m) == Truthful(keys, m) + (if Truthy(m[key]) then [key] else [])
  {
    assert (keys + [key])[..|keys|] == keys;
  }

  lemma LinesAppend(keys: seq<string>, key: string, m: map<string, Value>)
    requires forall i :: 0 <= i < |keys| ==> keys[i] in m
    requires key in m
    ensures Lines(keys + [key], m) == Lines(keys, m) + [Line(key, m[key])]
  {
  }

  /** The keys `create` writes: those with a truthy value, in ascending order. */
  ghost function EmittedKeys(m: map<string, Value>): (r: seq<string>)
    ensures StrictlyAscending(r)
    ensures forall k :: k in r <==> k in m && Truthy(m[k])
  {
    SortedSpec(m.Keys);
    TruthfulAscending(Sorted(m.Keys), m);
    Truthful(Sorted(m.Keys), m)
  }

  /** The lines `create` writes for the dictionary `m`. */
  ghost function Dump(m: map<string, Value>): (r: seq<string>)
    ensures |r| == |EmittedKeys(m)|
    ensures forall i :: 0 <= i < |r| ==> r[i] == Line(EmittedKeys(m)[i], m[EmittedKeys(m)[i]])
  {
    Lines(EmittedKeys(m), m)
  }

  /** `add` then `create`: the added key is written exactly when its value is truthy. */
  lemma AddedKeyWritten(m: map<string, Value>, key: string, value: Value)
    ensures key in EmittedKeys(m[key := value]) <==> Truthy(value)
    ensures Truthy(value) ==> Line(key, value) in Dump(m[key := value])
  {
    if Truthy(value) {
      var ks := EmittedKeys(m[key := value]);
      assert key in ks;
      var i :| 0 <= i < |ks| && ks[i] == key;
      assert Dump(m[key := value])[i] == Line(key, value);
    }
  }

  /** `delete` then `create`: the deleted key is never written; the others are as before. */
  lemma DeletedKeyNotWritten(m: map<string, Value>, key: string)
    ensures key !in EmittedKeys(m - {key})
    ensures forall k :: k != key ==> (k in EmittedKeys(m - {key}) <==> k in EmittedKeys(m))
  {
  }

  /** One round of `create`'s loop: the smallest remaining key is the next in sorted order. */
  lemma CreateStep(m: map<string, Value>, order: seq<string>, n: nat, remaining: set<string>, key: string)
    requires forall i :: 0 <= i < |order| ==> order[i] in m
    requires n <= |order| && order[n..] == Sorted(remaining)
    requires IsLeast(key, remaining)
    ensures n < |order| && order[n] == key
    ensures order[n + 1..] == Sorted(remaining - {key})
    ensures Lines(Truthful(order[..n + 1], m), m)
         == Lines(Truthful(order[..n], m), m) + (if Truthy(m[key]) then [Line(key, m[key])] else [])
  {
    SortedFirst(remaining, key);
    assert order[n] == key;
    assert order[n + 1..] == order[n..][1..];
    assert order[..n + 1] == order[..n] + [key];
    TruthfulAppend(order[..n], key, m);
    if Truthy(m[key]) {
      LinesAppend(Truthful(order[..n], m), key, m);
    }
  }

  /** When nothing remains, the loop of `create` has written `Dump(m)`. */
  lemma CreateDone(m: map<string, Value>, order: seq<string>, n: nat, remaining: set<string>)
    requires order == Sorted(m.Keys)
    requires forall i :: 0 <= i < |order| ==> order[i] in m
    requires n <= |order| && order[n..] == Sorted(remaining) && remaining == {}
    ensures Lines(Truthful(order[..n], m), m) == Dump(m)
  {
    assert order[..n] == order;
  }

  // ---------------------------------------------------------------------------
  // The build configuration, as the XML accessors deliver it
  // ---------------------------------------------------------------------------

  /** One `<preferences>` section; each accessor returns the element's text list. */
  datatype Preferences = Preferences(
    version: seq<string>,
    showlicense: seq<string>,
    keytable: seq<string>,
    timezone: seq<string>,
    hwclock: seq<string>,
    locale: seq<string>,
    bootsplashTheme: seq<string>,
    bootloaderTheme: seq<string>)

  /** The `<systemdisk>` section of the build type. */
  datatype SystemDisk = SystemDisk(name: Option<string>)

  /** One `<volume>` of the system disk. */
  datatype Volume = Volume(name: string, size: string, fullsize: bool, mountpoint: Option<string>)

  /** The `<machine>` section of the build type. */
  datatype Machine = Machine(domain: Option<string>)

  /** The attributes of the selected `<type>`, as returned by its getters. */
  datatype TypeSection = TypeSection(
    image: Value, compressed: Value, boottimeout: Value, wwidWaitTimeout: Value,
    hybrid: Value, hybridpersistent: Value, hybridpersistentFilesystem: Value,
    initrdSystem: Value, ramonly: Value, targetBlocksize: Value, kernelcmdline: Value,
    firmware: Value, bootloader: Value, bootloaderConsole: Value,
    btrfsRootIsSnapshot: Value, gptHybridMbr: Value, devicepersistency: Value,
    installboot: Value, bootkernel: Value, fsmountoptions: Value, bootprofile: Value,
    vga: Value)

  /** The `<oemconfig>` section of the build type; each accessor returns a text list. */
  datatype OemConfig = OemConfig(
    ataraidScan: seq<string>, vmcpParmfile: seq<string>, multipathScan: seq<string>,
    swapsize: seq<string>, systemsize: seq<string>, swap: seq<string>,
    partitionInstall: seq<string>, deviceFilter: seq<string>, bootTitle: seq<string>,
    kiwiInitrd: seq<string>, reboot: seq<string>, rebootInteractive: seq<string>,
    shutdown: seq<string>, shutdownInteractive: seq<string>, silentBoot: seq<string>,
    silentInstall: seq<string>, silentVerify: seq<string>, skipVerify: seq<string>,
    bootwait: seq<string>, unattended: seq<string>, unattendedId: seq<string>,
    recovery: seq<string>, recoveryId: seq<string>, recoveryPartSize: seq<string>,
    inplaceRecovery: seq<string>)

  /** Everything the profile builder reads through `xml_state`. */
  datatype XmlState = XmlState(
    name: string,
    displayName: Option<string>,
    buildTypeName: string,
    profiles: seq<string>,
    deletedPackages: seq<string>,
    buildType: TypeSection,
    preferences: seq<Preferences>,
    systemDisk: Option<SystemDisk>,
    volumeManagement: Option<string>,
    volumes: seq<Volume>,
    stripDelete: seq<string>,
    stripTools: seq<string>,
    stripLibs: seq<string>,
    machine: Option<Machine>,
    oemConfig: Option<OemConfig>,
    drivers: seq<string>)

  // ---------------------------------------------------------------------------
  // What each step adds to the dictionary
  // ---------------------------------------------------------------------------

  /** `_image_names_to_profile`. */
  function ImageNameEntries(name: string, displayName: Option<string>, buildTypeName: string): map<string, Value>
  {
    var shown := if Truthy(OptionalStr(displayName)) then OptionalStr(displayName) else Str(name);
    map["kiwi_iname" := Str(name), "kiwi_displayname" := shown]
      + (if buildTypeName == "cpio" then map["kiwi_cpio_name" := Str(name)] else map[])
  }

  /** The display name falls back to the image name; the cpio name is set, to the image name, for cpio builds only. */
  lemma ImageNames(name: string, displayName: Option<string>, buildTypeName: string)
    ensures var e := ImageNameEntries(name, displayName, buildTypeName);
      && e["kiwi_iname"] == Str(name)
      && (!Truthy(OptionalStr(displayName)) ==> e["kiwi_displayname"] == e["kiwi_iname"])
      && (Truthy(OptionalStr(displayName)) ==> e["kiwi_displayname"] == Str(displayName.value))
      && ("kiwi_cpio_name" in e <==> buildTypeName == "cpio")
      && ("kiwi_cpio_name" in e ==> e["kiwi_cpio_name"] == e["kiwi_iname"])
  {
  }

  /**
   * The eight presence checks of one pass of `_preferences_to_profile`, in
   * the source's order: each preference key with the text of its element.
   */
  function PreferencePairs(p: Preferences): (r: seq<(string, Value)>)
    ensures |r| == 8
  {
    [ ("kiwi_iversion", Text(p.version)),
      ("kiwi_showlicense", Text(p.showlicense)),
      ("kiwi_keytable", Text(p.keytable)),
      ("kiwi_timezone", Text(p.timezone)),
      ("kiwi_hwclock", Text(p.hwclock)),
      ("kiwi_language", Text(p.locale)),
      ("kiwi_splash_theme", Text(p.bootsplashTheme)),
      ("kiwi_loader_theme", Text(p.bootloaderTheme)) ]
  }

  /** `if key not in dot_profile: dot_profile[key] = value`. */
  function SetDefault(m: map<string, Value>, key: string, value: Value): map<string, Value>
  {
    if key in m then m else m[key := value]
  }

  /** The presence checks of `pairs`, one after the other, on the dictionary `m`. */
  function SetDefaults(m: map<string, Value>, pairs: seq<(string, Value)>): map<string, Value>
    decreases |pairs|
  {
    if |pairs| == 0 then m
    else
      var last := pairs[|pairs| - 1];
      SetDefault(SetDefaults(m, pairs[..|pairs| - 1]), last.0, last.1)
  }

  /** The entries of `pairs`, where an earlier pair wins over a later one with the same key. */
  function FirstWins(pairs: seq<(string, Value)>): (r: map<string, Value>)
    ensures r.Keys == set i | 0 <= i < |pairs| :: pairs[i].0
    decreases |pairs|
  {
    if |pairs| == 0 then map[]
    else
      var init := pairs[..|pairs| - 1];
      var last := pairs[|pairs| - 1];
      var r := FirstWins(init);
      assert (set i | 0 <= i < |pairs| :: pairs[i].0) == (set i | 0 <= i < |init| :: init[i].0) + {last.0};
      if last.0 in r then r else r[last.0 := last.1]
  }

  /** Each key of `FirstWins(pairs)` holds the value of the first pair with that key. */
  lemma {:induction false} FirstWinsTakesFirst(pairs: seq<(string, Value)>, k: string)
    requires k in FirstWins(pairs)
    ensures exists i ::
              && 0 <= i < |pairs| && pairs[i].0 == k && FirstWins(pairs)[k] == pairs[i].1
              && (forall h :: 0 <= h < i ==> pairs[h].0 != k)
    decreases |pairs|
  {
    var init := pairs[..|pairs| - 1];
    var last := pairs[|pairs| - 1];
    if k in FirstWins(init) {
      FirstWinsTakesFirst(init, k);
      var i :| 0 <= i < |init| && init[i].0 == k && FirstWins(init)[k] == init[i].1
        && forall h :: 0 <= h < i ==> init[h].0 != k;
      assert pairs[i] == init[i];
    } else {
      var i := |pairs| - 1;
      forall h | 0 <= h < i
        ensures pairs[h].0 != k
      {
        assert pairs[h] == init[h];
      }
    }
  }

  /** Presence checks only fill in keys that are absent, each from its first pair. */
  lemma {:induction false} SetDefaultsFillAbsent(m: map<string, Value>, pairs: seq<(string, Value)>)
    ensures SetDefaults(m, pairs) == FirstWins(pairs) + m
    decreases |pairs|
  {
    if |pairs| > 0 {
      var init := pairs[..|pairs| - 1];
      var last := pairs[|pairs| - 1];
      SetDefaultsFillAbsent(m, init);
      var f := FirstWins(init);
      if last.0 !in f && last.0 in m {
        assert f[last.0 := last.1] + m == f + m;
      }
    }
  }

  /** The eight `kiwi_*` keys one preferences section provides, with their values. */
  function PreferenceEntries(p: Preferences): map<string, Value>
  {
    FirstWins(PreferencePairs(p))
  }

  /** Every section provides the same eight keys. */
  lemma PreferenceKeysAlike(p: Preferences, q: Preferences)
    ensures PreferenceEntries(p).Keys == PreferenceEntries(q).Keys
  {
    var a, b := PreferencePairs(p), PreferencePairs(q);
    assert forall i :: 0 <= i < 8 ==> a[i].0 == b[i].0;
    assert (set i | 0 <= i < |a| :: a[i].0) == (set i | 0 <= i < |b| :: b[i].0);
  }

  /** One pass of the loop body of `_preferences_to_profile`. */
  function FillFrom(m: map<string, Value>, p: Preferences): map<string, Value>
  {
    SetDefaults(m, PreferencePairs(p))
  }

  /** `_preferences_to_profile` applied to the dictionary `m`. */
  function WithPreferences(m: map<string, Value>, sections: seq<Preferences>): map<string, Value>
    decreases |sections|
  {
    if |sections| == 0 then m
    else FillFrom(WithPreferences(m, sections[..|sections| - 1]), sections[|sections| - 1])
  }

  /** Once a section has been applied, a later section changes nothing. */
  lemma LaterSectionChangesNothing(m: map<string, Value>, first: Preferences, later: Preferences)
    ensures FillFrom(FillFrom(m, first), later) == FillFrom(m, first)
  {
    SetDefaultsFillAbsent(m, PreferencePairs(first));
    SetDefaultsFillAbsent(FillFrom(m, first), PreferencePairs(later));
    PreferenceKeysAlike(first, later);
    var f := FillFrom(m, first);
    assert PreferenceEntries(later) + f == f;
  }

  /**
   * First wins: every preference key keeps the value of the first section
   * that set it, even when that value is `None`; keys already present keep
   * their value; no other key changes.
   */
  lemma {:induction false} PreferencesFirstWins(m: map<string, Value>, sections: seq<Preferences>)
    ensures |sections| == 0 ==> WithPreferences(m, sections) == m
    ensures |sections| > 0 ==> WithPreferences(m, sections) == PreferenceEntries(sections[0]) + m
    decreases |sections|
  {
    if |sections| > 1 {
      var init := sections[..|sections| - 1];
      PreferencesFirstWins(m, init);
      assert init[0] == sections[0];
      SetDefaultsFillAbsent(m, PreferencePairs(sections[0]));
      LaterSectionChangesNothing(m, sections[0], sections[|sections| - 1]);
    } else if |sections| == 1 {
      assert sections[..0] == [];
      SetDefaultsFillAbsent(m, PreferencePairs(sections[0]));
    }
  }

  /** `volume.mountpoint or ''`. */
  function MountpointText(mountpoint: Option<string>): string
  {
    match mountpoint
    case None => ""
    case Some(s) => s
  }

  /** The middle field of a volume entry. */
  function SizeText(v: Volume): string
  {
    if v.fullsize then "size:all" else v.size
  }

  /** `'|'.join([name, size, mountpoint])` for one volume. */
  function VolumeText(v: Volume): string
  {
    Join([v.name, SizeText(v), MountpointText(v.mountpoint)], '|')
  }

  /** A volume entry splits back into name, size and mountpoint when none of them holds '|'. */
  lemma VolumeFields(v: Volume)
    requires '|' !in v.name && '|' !in SizeText(v) && '|' !in MountpointText(v.mountpoint)
    ensures Split(VolumeText(v), '|') == [v.name, SizeText(v), MountpointText(v.mountpoint)]
    ensures Split(VolumeText(v), '|')[1] == "size:all" <==> v.fullsize || v.size == "size:all"
  {
    var parts := [v.name, SizeText(v), MountpointText(v.mountpoint)];
    SplitJoin(parts, '|');
  }

  /** `'kiwi_Volume_' + format(n)`. */
  function VolumeKey(n: nat): string
  {
    "kiwi_Volume_" + NatToString(n)
  }

  lemma VolumeKeyInjective(i: nat, j: nat)
    requires VolumeKey(i) == VolumeKey(j)
    ensures i == j
  {
    var prefix := "kiwi_Volume_";
    assert VolumeKey(i)[|prefix|..] == NatToString(i);
    assert VolumeKey(j)[|prefix|..] == NatToString(j);
    NatToStringInjective(i, j);
  }

  /** The `kiwi_Volume_N` entries for the volumes, numbered from 1. */
  function VolumeEntries(volumes: seq<Volume>): map<string, Value>
    decreases |volumes|
  {
    if |volumes| == 0 then map[]
    else VolumeEntries(volumes[..|volumes| - 1])[VolumeKey(|volumes|) := Str(VolumeText(volumes[|volumes| - 1]))]
  }

  /**
   * The volume keys are exactly `kiwi_Volume_1 … kiwi_Volume_n`, with no gap,
   * and the i-th describes the i-th volume.
   */
  lemma {:induction false} VolumeNumbering(volumes: seq<Volume>)
    ensures forall j :: 1 <= j <= |volumes| ==>
      VolumeKey(j) in VolumeEntries(volumes) && VolumeEntries(volumes)[VolumeKey(j)] == Str(VolumeText(volumes[j - 1]))
    ensures forall k :: k in VolumeEntries(volumes) ==> exists j :: 1 <= j <= |volumes| && k == VolumeKey(j)
    decreases |volumes|
  {
    var n := |volumes|;
    if n > 0 {
      var init := volumes[..n - 1];
      VolumeNumbering(init);
      forall j | 1 <= j < n
        ensures VolumeKey(j) != VolumeKey(n)
      {
        if VolumeKey(j) == VolumeKey(n) { VolumeKeyInjective(j, n); }
      }
    }
  }

  /** The loop of `_systemdisk_to_profile` adds one numbered entry per volume. */
  lemma VolumeEntriesStep(base: map<string, Value>, volumes: seq<Volume>, i: nat)
    requires i < |volumes|
    ensures (base + VolumeEntries(volumes[..i]))[VolumeKey(i + 1) := Str(VolumeText(volumes[i]))]
         == base + VolumeEntries(volumes[..i + 1])
  {
    assert volumes[..i + 1][..i] == volumes[..i];
  }

  /** Every volume key starts with `kiwi_V`, which no other key of the profile does. */
  lemma {:induction false} VolumeKeysPrefix(volumes: seq<Volume>)
    ensures forall k :: k in VolumeEntries(volumes) ==> |k| > 5 && k[..6] == "kiwi_V" && k[5] == 'V'
    decreases |volumes|
  {
    if |volumes| > 0 {
      VolumeKeysPrefix(volumes[..|volumes| - 1]);
    }
  }

  /** The volume group and LVM entries `_systemdisk_to_profile` sets for `disk`. */
  function VolumeGroupEntries(disk: SystemDisk, volumeManagement: Option<string>, defaultVolumeGroup: string): map<string, Value>
  {
    var group := OptionalStr(disk.name);
    map["kiwi_lvmgroup" := if Truthy(group) then group else Str(defaultVolumeGroup)]
      + (if Truthy(OptionalStr(volumeManagement)) then map["kiwi_lvm" := Str("true")] else map[])
  }

  /** `_systemdisk_to_profile` applied to the dictionary `m`. */
  function WithSystemDisk(
    m: map<string, Value>, systemDisk: Option<SystemDisk>, volumeManagement: Option<string>,
    volumes: seq<Volume>, defaultVolumeGroup: string): map<string, Value>
  {
    match systemDisk
    case None => m
    case Some(disk) => m + VolumeGroupEntries(disk, volumeManagement, defaultVolumeGroup) + VolumeEntries(volumes)
  }

  /**
   * Without a system disk nothing changes. With one, the volume group falls
   * back to the default name when the configured one is empty, `kiwi_lvm` is
   * set to `true` only under volume management, and the volume entries are added.
   */
  lemma SystemDiskKeys(
    m: map<string, Value>, systemDisk: Option<SystemDisk>, volumeManagement: Option<string>,
    volumes: seq<Volume>, defaultVolumeGroup: string)
    ensures var r := WithSystemDisk(m, systemDisk, volumeManagement, volumes, defaultVolumeGroup);
      && (systemDisk.None? ==> r == m)
      && (systemDisk.Some? ==>
            && r["kiwi_lvmgroup"] == (if Truthy(OptionalStr(systemDisk.value.name))
                                      then Str(systemDisk.value.name.value) else Str(defaultVolumeGroup))
            && ("kiwi_lvm" in r <==> "kiwi_lvm" in m || Truthy(OptionalStr(volumeManagement)))
            && (Truthy(OptionalStr(volumeManagement)) ==> r["kiwi_lvm"] == Str("true"))
            && (forall j :: 1 <= j <= |volumes| ==> VolumeKey(j) in r && r[VolumeKey(j)] == Str(VolumeText(volumes[j - 1]))))
  {
    if systemDisk.Some? {
      VolumeNumbering(volumes);
      VolumeKeysPrefix(volumes);
      assert "kiwi_lvmgroup"[5] == 'l' && "kiwi_lvm"[5] == 'l';
    }
  }

  /** `_type_to_profile`: the build type's attributes, as the getters return them. */
  function TypeEntries(t: TypeSection): map<string, Value>
  {
    map[
      "kiwi_type" := t.image,
      "kiwi_compressed" := t.compressed,
      "kiwi_boot_timeout" := t.boottimeout,
      "kiwi_wwid_wait_timeout" := t.wwidWaitTimeout,
      "kiwi_hybrid" := t.hybrid,
      "kiwi_hybridpersistent" := t.hybridpersistent,
      "kiwi_hybridpersistent_filesystem" := t.hybridpersistentFilesystem,
      "kiwi_initrd_system" := t.initrdSystem,
      "kiwi_ramonly" := t.ramonly,
      "kiwi_target_blocksize" := t.targetBlocksize,
      "kiwi_cmdline" := t.kernelcmdline,
      "kiwi_firmware" := t.firmware,
      "kiwi_bootloader" := t.bootloader,
      "kiwi_bootloader_console" := t.bootloaderConsole,
      "kiwi_btrfs_root_is_snapshot" := t.btrfsRootIsSnapshot,
      "kiwi_gpt_hybrid_mbr" := t.gptHybridMbr,
      "kiwi_devicepersistency" := t.devicepersistency,
      "kiwi_installboot" := t.installboot,
      "kiwi_bootkernel" := t.bootkernel,
      "kiwi_fsmountoptions" := t.fsmountoptions,
      "kiwi_bootprofile" := t.bootprofile,
      "kiwi_vga" := t.vga]
  }

  /** `_oemconfig_to_profile`: the text of each OEM setting, when the section exists. */
  function OemEntries(oem: Option<OemConfig>): map<string, Value>
  {
    match oem
    case None => map[]
    case Some(o) =>
      map[
        "kiwi_oemataraid_scan" := Text(o.ataraidScan),
        "kiwi_oemvmcp_parmfile" := Text(o.vmcpParmfile),
        "kiwi_oemmultipath_scan" := Text(o.multipathScan),
        "kiwi_oemswapMB" := Text(o.swapsize),
        "kiwi_oemrootMB" := Text(o.systemsize),
        "kiwi_oemswap" := Text(o.swap),
        "kiwi_oempartition_install" := Text(o.partitionInstall),
        "kiwi_oemdevicefilter" := Text(o.deviceFilter),
        "kiwi_oemtitle" := Text(o.bootTitle),
        "kiwi_oemkboot" := Text(o.kiwiInitrd),
        "kiwi_oemreboot" := Text(o.reboot),
        "kiwi_oemrebootinteractive" := Text(o.rebootInteractive),
        "kiwi_oemshutdown" := Text(o.shutdown),
        "kiwi_oemshutdowninteractive" := Text(o.shutdownInteractive),
        "kiwi_oemsilentboot" := Text(o.silentBoot),
        "kiwi_oemsilentinstall" := Text(o.silentInstall),
        "kiwi_oemsilentverify" := Text(o.silentVerify),
        "kiwi_oemskipverify" := Text(o.skipVerify),
        "kiwi_oembootwait" := Text(o.bootwait),
        "kiwi_oemunattended" := Text(o.unattended),
        "kiwi_oemunattended_id" := Text(o.unattendedId),
        "kiwi_oemrecovery" := Text(o.recovery),
        "kiwi_oemrecoveryID" := Text(o.recoveryId),
        "kiwi_oemrecoveryPartSize" := Text(o.recoveryPartSize),
        "kiwi_oemrecoveryInPlace" := Text(o.inplaceRecovery)]
  }

  /** `_machine_to_profile`: the Xen domain, when the section exists. */
  function MachineEntries(machine: Option<Machine>): map<string, Value>
  {
    match machine
    case None => map[]
    case Some(mc) => map["kiwi_xendomain" := OptionalStr(mc.domain)]
  }

  /** `_strip_to_profile`: the three strip lists, space-joined. */
  function StripEntries(delete: seq<string>, tools: seq<string>, libs: seq<string>): map<string, Value>
  {
    map[
      "kiwi_strip_delete" := Str(Join(delete, ' ')),
      "kiwi_strip_tools" := Str(Join(tools, ' ')),
      "kiwi_strip_libs" := Str(Join(libs, ' '))]
  }

  /** The dictionary `Profile(xml_state)` builds, step by step as its constructor does. */
  function Initial(xml: XmlState, defaultVolumeGroup: string): map<string, Value>
  {
    var m := map[] + ImageNameEntries(xml.name, xml.displayName, xml.buildTypeName);
    var m := m["kiwi_profiles" := Str(Join(xml.profiles, ','))];
    var m := m["kiwi_delete" := Str(Join(xml.deletedPackages, ' '))];
    var m := m + TypeEntries(xml.buildType);
    var m := WithPreferences(m, xml.preferences);
    var m := WithSystemDisk(m, xml.systemDisk, xml.volumeManagement, xml.volumes, defaultVolumeGroup);
    var m := m + StripEntries(xml.stripDelete, xml.stripTools, xml.stripLibs);
    var m := m + MachineEntries(xml.machine);
    var m := m + OemEntries(xml.oemConfig);
    m["kiwi_drivers" := Str(Join(xml.drivers, ','))]
  }

  // ---------------------------------------------------------------------------
  // The profile object
  // ---------------------------------------------------------------------------

  class Profile {
    const xmlState: XmlState
    /** `Defaults.get_default_volume_group_name()`. */
    const defaultVolumeGroup: string
    var dotProfile: map<string, Value>

    /** `Profile(xml_state)`: runs every step, in the source's order, on an empty dictionary. */
    constructor (xmlState: XmlState, defaultVolumeGroup: string)
      ensures this.xmlState == xmlState && this.defaultVolumeGroup == defaultVolumeGroup
      ensures dotProfile == Initial(xmlState, defaultVolumeGroup)
    {
      this.xmlState := xmlState;
      this.defaultVolumeGroup := defaultVolumeGroup;
      dotProfile := map[];
      new;
      ImageNamesToProfile();
      ProfileNamesToProfile();
      PackagesMarkedForDeletionToProfile();
      TypeToProfile();
      ghost var beforePreferences := dotProfile;
      PreferencesToProfile();
      assert dotProfile == WithPreferences(beforePreferences, xmlState.preferences);
      SystemDiskToProfile();
      StripToProfile();
      MachineToProfile();
      OemConfigToProfile();
      DriversToProfile();
    }

    /** `add`: sets `key`, overwriting an earlier value; no other key changes. */
    method Add(key: string, value: Value)
      modifies this
      ensures dotProfile == old(dotProfile)[key := value]
    {
      dotProfile := dotProfile[key := value];
    }

    /** `delete`: removes `key` when present, silently does nothing otherwise; no other key changes. */
    method Delete(key: string)
      modifies this
      ensures dotProfile == old(dotProfile) - {key}
    {
      if key in dotProfile {
        dotProfile := dotProfile - {key};
      }
    }

    /**
     * `create`: one `key=value` line per entry with a truthy value, in
     * ascending key order; entries are visited smallest key first.
     */
    method Create() returns (lines: seq<string>)
      ensures lines == Dump(dotProfile)
    {
      var m := dotProfile;
      var remaining := m.Keys;
      ghost var order := Sorted(m.Keys);
      SortedSpec(m.Keys);
      ghost var n := 0;
      lines := [];
      while remaining != {}
        invariant forall i :: 0 <= i < |order| ==> order[i] in m
        invariant n <= |order| && order[n..] == Sorted(remaining)
        invariant lines == Lines(Truthful(order[..n], m), m)
        decreases |remaining|
      {
        var key := Least(remaining);
        CreateStep(m, order, n, remaining, key);
        if Truthy(m[key]) {
          lines := lines + [Line(key, m[key])];
        }
        n := n + 1;
        remaining := remaining - {key};
      }
      CreateDone(m, order, n, remaining);
    }

    method ImageNamesToProfile()
      modifies this
      ensures dotProfile == old(dotProfile) + ImageNameEntries(xmlState.name, xmlState.displayName, xmlState.buildTypeName)
    {
      dotProfile := dotProfile["kiwi_iname" := Str(xmlState.name)];
      dotProfile := dotProfile["kiwi_displayname" := OptionalStr(xmlState.displayName)];
      if !Truthy(dotProfile["kiwi_displayname"]) {
        dotProfile := dotProfile["kiwi_displayname" := dotProfile["kiwi_iname"]];
      }
      if xmlState.buildTypeName == "cpio" {
        dotProfile := dotProfile["kiwi_cpio_name" := dotProfile["kiwi_iname"]];
      }
    }

    method ProfileNamesToProfile()
      modifies this
      ensures dotProfile == old(dotProfile)["kiwi_profiles" := Str(Join(xmlState.profiles, ','))]
    {
      dotProfile := dotProfile["kiwi_profiles" := Str(Join(xmlState.profiles, ','))];
    }

    method PackagesMarkedForDeletionToProfile()
      modifies this
      ensures dotProfile == old(dotProfile)["kiwi_delete" := Str(Join(xmlState.deletedPackages, ' '))]
    {
      dotProfile := dotProfile["kiwi_delete" := Str(Join(xmlState.deletedPackages, ' '))];
    }

    method TypeToProfile()
      modifies this
      ensures dotProfile == old(dotProfile) + TypeEntries(xmlState.buildType)
    {
      dotProfile := dotProfile + TypeEntries(xmlState.buildType);
    }

    /** `if key not in dot_profile: dot_profile[key] = value`. */
    method SetIfAbsent(key: string, value: Value)
      modifies this
      ensures dotProfile == if key in old(dotProfile) then old(dotProfile) else old(dotProfile)[key := value]
    {
      if key !in dotProfile {
        dotProfile := dotProfile[key := value];
      }
    }

    /** One pass of the loop body of `_preferences_to_profile`. */
    method SectionToProfile(p: Preferences)
      modifies this
      ensures dotProfile == FillFrom(old(dotProfile), p)
    {
      var pairs := PreferencePairs(p);
      for j := 0 to |pairs|
        invariant dotProfile == SetDefaults(old(dotProfile), pairs[..j])
      {
        SetIfAbsent(pairs[j].0, pairs[j].1);
        assert pairs[..j + 1][..j] == pairs[..j];
      }
      assert pairs[..|pairs|] == pairs;
    }

    /** `_preferences_to_profile`: the first section that sets a key wins. */
    method PreferencesToProfile()
      modifies this
      ensures dotProfile == WithPreferences(old(dotProfile), xmlState.preferences)
      ensures |xmlState.preferences| > 0 ==> dotProfile == PreferenceEntries(xmlState.preferences[0]) + old(dotProfile)
    {
      var sections := xmlState.preferences;
      for i := 0 to |sections|
        invariant dotProfile == WithPreferences(old(dotProfile), sections[..i])
      {
        SectionToProfile(sections[i]);
        assert sections[..i + 1][..i] == sections[..i];
      }
      assert sections[..|sections|] == sections;
      PreferencesFirstWins(old(dotProfile), sections);
    }

    /** `_systemdisk_to_profile`. */
    method SystemDiskToProfile()
      modifies this
      ensures dotProfile == WithSystemDisk(
        old(dotProfile), xmlState.systemDisk, xmlState.volumeManagement, xmlState.volumes, defaultVolumeGroup)
    {
      var systemDisk := xmlState.systemDisk;
      if systemDisk.Some? {
        dotProfile := dotProfile["kiwi_lvmgroup" := OptionalStr(systemDisk.value.name)];
        if !Truthy(dotProfile["kiwi_lvmgroup"]) {
          dotProfile := dotProfile["kiwi_lvmgroup" := Str(defaultVolumeGroup)];
        }
        if Truthy(OptionalStr(xmlState.volumeManagement)) {
          dotProfile := dotProfile["kiwi_lvm" := Str("true")];
        }
        ghost var base := dotProfile;
        assert base == old(dotProfile) + VolumeGroupEntries(systemDisk.value, xmlState.volumeManagement, defaultVolumeGroup);
        var volumes := xmlState.volumes;
        var volumeCount := 1;
        for i := 0 to |volumes|
          invariant volumeCount == i + 1
          invariant dotProfile == base + VolumeEntries(volumes[..i])
        {
          VolumeEntriesStep(base, volumes, i);
          dotProfile := dotProfile[VolumeKey(volumeCount) := Str(VolumeText(volumes[i]))];
          volumeCount := volumeCount + 1;
        }
        assert volumes[..|volumes|] == volumes;
      }
    }

    method StripToProfile()
      modifies this
      ensures dotProfile == old(dotProfile) + StripEntries(xmlState.stripDelete, xmlState.stripTools, xmlState.stripLibs)
    {
      dotProfile := dotProfile["kiwi_strip_delete" := Str(Join(xmlState.stripDelete, ' '))];
      dotProfile := dotProfile["kiwi_strip_tools" := Str(Join(xmlState.stripTools, ' '))];
      dotProfile := dotProfile["kiwi_strip_libs" := Str(Join(xmlState.stripLibs, ' '))];
    }

    method MachineToProfile()
      modifies this
      ensures dotProfile == old(dotProfile) + MachineEntries(xmlState.machine)
    {
      if xmlState.machine.Some? {
        dotProfile := dotProfile["kiwi_xendomain" := OptionalStr(xmlState.machine.value.domain)];
      }
    }

    method OemConfigToProfile()
      modifies this
      ensures dotProfile == old(dotProfile) + OemEntries(xmlState.oemConfig)
    {
      dotProfile := dotProfile + OemEntries(xmlState.oemConfig);
    }

    method DriversToProfile()
      modifies this
      ensures dotProfile == old(dotProfile)["kiwi_drivers" := Str(Join(xmlState.drivers, ','))]
    {
      dotProfile := dotProfile["kiwi_drivers" := Str(Join(xmlState.drivers, ','))];
    }
  }
}
