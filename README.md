# kiwi image builder core, modelled in Dafny

This project models three parts of kiwi, the appliance image builder, and
proves properties of them.

- **The profile builder** (`Profile`, kiwi/system/profile.py). It turns the
  build configuration into the dictionary `dot_profile`, which the first-boot
  shell code reads, and `create` serialises that dictionary as `key=value`
  lines.
  - Module `KiwiProfile`: a class `Profile` whose field `dotProfile` is a
    `map<string, Value>`.
  - Each `_..._to_profile` step is a method that updates the map and is
    specified by a map-valued function.
  - `create` is a selection loop over the sorted keys. It is proved equal to
    `Dump`, the specification of the file's lines.
- **The filesystem image builder** (`FileSystemBuilder`,
  kiwi/builder/filesystem.py). Module `KiwiFilesystemBuilder`.
  - Construction is the function `Configure`. It returns either the builder's
    fields or the `KiwiFileSystemSetupError` that `__init__` raises.
  - `create` appends the calls it makes on its collaborators to a trace, and
    the entries it adds to a result list. It is proved equal to the function
    `CreateSteps`.
- **The dracut initrd step** (`BootImageDracut`,
  kiwi/boot/image/dracut.py). Module `KiwiDracut`.
  - `prepare` and `create_initrd` append their calls to a step trace: the
    package installation calls, the commands run, and the xz compression.
  - `create_initrd` also sets `initrd_filename`.

Two shared modules support these:

- `Wrappers`: `Option` and `Result`.
- `Strings`: the Python built-ins the code relies on, stated on `seq<char>`.
  - `str.join` and its inverse `str.split`
  - `format` of integers, with its inverse for non-negative integers
  - `os.path.basename`
  - the code-point order of `str` that `sorted()` uses

What the collaborators return is an input of the model. This covers:

- the XML state accessors
- `Defaults`, `RuntimeConfig` and `platform.machine()`
- `SystemSetup`, `Kernel`, `Compress` and `is_prepared()`

The dracut command line follows the code. Dracut runs with `--no-compress`,
and compression is a separate `Compress(...).xz()` step afterwards
(kiwi/boot/image/dracut.py:68, 85-86). A variant of this step that calls
dracut once with `--xz`, or passes module include/omit lists, is not what
this code does, so it is not modelled.

## Model

| member | source | states |
|---|---|---|
| KiwiProfile.Text | kiwi/system/profile.py:347-358 | Empty content gives `None`. The text `'false'` gives `False`. Any other first element is returned as it is. |
| KiwiProfile.TextInProfile | kiwi/system/profile.py:347-358 | What `_text` returns gets written exactly when the text is neither `''` nor `'false'`, and then the line holds that text. `'false'` becomes `False` and would be formatted as `False`. |
| KiwiProfile.Format | kiwi/system/profile.py:360-368 | Of all non-string values, only `True` is written as `true`. A value that `create` writes never formats to the empty string. |
| KiwiProfile.Truthful | kiwi/system/profile.py:80-81 | Keeps exactly the keys whose value is truthy (`if value:`), and each kept key is in the dictionary. |
| KiwiProfile.TruthfulAscending | kiwi/system/profile.py:75-84 | Skipping the falsy entries keeps the written keys strictly ascending. |
| KiwiProfile.Lines | kiwi/system/profile.py:82-84 | One `key=format(value)` line per key, in key order. |
| KiwiProfile.EmittedKeys | kiwi/system/profile.py:75-84 | The keys `create` writes are in strictly ascending order. They are exactly the keys with a truthy value. |
| KiwiProfile.Dump | kiwi/system/profile.py:75-84 | The i-th line is `key=value` for the i-th written key. |
| KiwiProfile.CreateStep | kiwi/system/profile.py:75-84 | The smallest remaining key is the next one in sorted order. The lines grow by that key's line exactly when its value is truthy. |
| KiwiProfile.CreateDone | kiwi/system/profile.py:75-84 | Once every key has been visited, the lines written are `Dump` of the dictionary. |
| KiwiProfile.AddedKeyWritten | kiwi/system/profile.py:55-84 | After `add(key, value)`, `create` writes `key` exactly when `value` is truthy, and then writes the line `key=format(value)`. |
| KiwiProfile.DeletedKeyNotWritten | kiwi/system/profile.py:64-84 | After `delete(key)`, `create` never writes `key`. Every other key is written exactly as before. |
| KiwiProfile.ImageNames | kiwi/system/profile.py:331-345 | `kiwi_displayname` falls back to `kiwi_iname` when the display name is falsy. `kiwi_cpio_name` is present exactly for `cpio` builds, and then equals `kiwi_iname`. |
| KiwiProfile.FirstWins | kiwi/system/profile.py:225-249 | The keys filled by one preferences pass are exactly the eight preference keys. |
| KiwiProfile.FirstWinsTakesFirst | kiwi/system/profile.py:226-249 | Each key filled by a run of presence checks holds the value of the first pair with that key; no earlier pair has it. |
| KiwiProfile.SetDefaultsFillAbsent | kiwi/system/profile.py:226-249 | A run of presence checks only fills absent keys, each from its first value. |
| KiwiProfile.PreferenceKeysAlike | kiwi/system/profile.py:225-249 | Every preferences section provides the same eight keys. |
| KiwiProfile.LaterSectionChangesNothing | kiwi/system/profile.py:225-249 | Once a section has been applied, a later section leaves the dictionary unchanged. |
| KiwiProfile.PreferencesFirstWins | kiwi/system/profile.py:225-249 | Each preference key gets its value from the first section, even when that value is `None`. Keys already present keep their value, and no other key changes. |
| KiwiProfile.VolumeFields | kiwi/system/profile.py:207-213 | A volume value splits back into name, size (`size:all` when fullsize) and mountpoint (`''` when unset). |
| KiwiProfile.VolumeKeyInjective | kiwi/system/profile.py:207 | Different volume numbers give different `kiwi_Volume_N` keys. |
| KiwiProfile.VolumeNumbering | kiwi/system/profile.py:205-214 | The volume keys are exactly `kiwi_Volume_1 … kiwi_Volume_n`, with no gaps. The i-th key describes the i-th volume. |
| KiwiProfile.VolumeEntriesStep | kiwi/system/profile.py:206-214 | Each loop pass adds the entry for the next volume number. |
| KiwiProfile.VolumeKeysPrefix | kiwi/system/profile.py:207 | Every volume key starts `kiwi_V`, so no volume key overwrites `kiwi_lvm` or `kiwi_lvmgroup`. |
| KiwiProfile.SystemDiskKeys | kiwi/system/profile.py:196-214 | Without a system disk nothing changes. With one: `kiwi_lvmgroup` falls back to the default group name when it is empty; `kiwi_lvm` is added, as `true`, only under volume management; and every numbered volume entry is present. |
| Strings.SplitJoin | kiwi/system/profile.py:178-190 | A non-empty space- or comma-joined list splits back into the list when no item holds the separator. The empty list joins to `''`, which splits to `['']`, as in Python. |
| KiwiProfile.Profile.constructor | kiwi/system/profile.py:40-53 | The constructor runs the ten steps in source order on an empty dictionary. |
| KiwiProfile.Profile.Add | kiwi/system/profile.py:55-62 | Sets `key`, overwriting any earlier value; no other key changes. |
| KiwiProfile.Profile.Delete | kiwi/system/profile.py:64-66 | Removes `key` when it is present and silently does nothing when it is absent; no other key changes. |
| KiwiProfile.Profile.Create | kiwi/system/profile.py:68-85 | Returns exactly `Dump(dotProfile)`: truthy entries only, in ascending key order. |
| KiwiProfile.Profile.ImageNamesToProfile | kiwi/system/profile.py:331-345 | Adds the image name entries (`ImageNameEntries`). |
| KiwiProfile.Profile.ProfileNamesToProfile | kiwi/system/profile.py:319-323 | Sets `kiwi_profiles` to the comma-joined profile names. |
| KiwiProfile.Profile.PackagesMarkedForDeletionToProfile | kiwi/system/profile.py:325-329 | Sets `kiwi_delete` to the space-joined package names. |
| KiwiProfile.Profile.TypeToProfile | kiwi/system/profile.py:251-317 | Sets the 22 type attribute keys to what the getters return. |
| KiwiProfile.Profile.SetIfAbsent | kiwi/system/profile.py:226-227 | Sets a key only when it is absent. |
| KiwiProfile.Profile.SectionToProfile | kiwi/system/profile.py:226-249 | One pass of the eight presence checks, in source order. |
| KiwiProfile.Profile.PreferencesToProfile | kiwi/system/profile.py:216-249 | The result is the first section's preference entries, with every key already present keeping its value. |
| KiwiProfile.Profile.SystemDiskToProfile | kiwi/system/profile.py:192-214 | Produces the dictionary `WithSystemDisk` describes: the volume group and LVM entries, then the volumes counted from 1. |
| KiwiProfile.Profile.StripToProfile | kiwi/system/profile.py:178-190 | Sets the three strip keys to the space-joined lists. |
| KiwiProfile.Profile.MachineToProfile | kiwi/system/profile.py:172-176 | Sets `kiwi_xendomain` only when a machine section exists. |
| KiwiProfile.Profile.OemConfigToProfile | kiwi/system/profile.py:87-164 | Sets the 25 OEM keys to `_text` of their settings, only when an oemconfig section exists. |
| KiwiProfile.Profile.DriversToProfile | kiwi/system/profile.py:166-170 | Sets `kiwi_drivers` to the comma-joined driver list. |
| Strings.Join | kiwi/system/profile.py:168-170 | `sep.join(parts)`: no parts give `''`, one part gives that part. `Strings.SplitJoin` is its inverse. |
| Strings.SortedSpec | kiwi/system/profile.py:75-77 | `sorted()` of the keys lists each key once, in strictly ascending code-point order. |
| Strings.SortedFirst | kiwi/system/profile.py:75-77 | Sorting a non-empty set puts its smallest element first. |
| Strings.Least | kiwi/system/profile.py:75-77 | Selects the smallest of a non-empty set of keys. |
| Strings.ParseNatToString | kiwi/system/profile.py:207 | `format(n)` of a volume number reads back as `n`. |
| Strings.IntToString | kiwi/system/profile.py:368 | `format` of an int starts with `-` exactly when the int is negative. |
| Strings.Basename | kiwi/boot/image/dracut.py:69 | `os.path.basename` contains no `/`. |
| Strings.BasenameSuffix | kiwi/boot/image/dracut.py:69 | The basename is the suffix after the last `/`, or the whole path when it has none. |
| Strings.BasenameOfJoin | kiwi/boot/image/dracut.py:76-79 | `basename(dir + '/' + name)` is `name` when `name` holds no `/`. |
| KiwiFilesystemBuilder.Configure | kiwi/builder/filesystem.py:56-92 | Construction succeeds exactly when the requested filesystem is non-empty; otherwise it fails with "No filesystem configured in <type> type". The requested filesystem is the type's filesystem for `pxe`, otherwise the image type. The filename is `target/name.arch-version.fs`. The label is `None`, and the no-device-node list is `['squashfs']`. |
| KiwiFilesystemBuilder.NonPxeSelectsImageType | kiwi/builder/filesystem.py:60-69 | A non-`pxe` image type is its own filesystem, and only an empty type name is rejected. |
| KiwiFilesystemBuilder.FilenameInTargetDir | kiwi/builder/filesystem.py:77-85 | The image file lies directly in the target directory, named `name.arch-version.fs`, with the filesystem as its extension. |
| KiwiFilesystemBuilder.CreateSteps | kiwi/builder/filesystem.py:113-117 | `create` fails exactly for a filesystem outside the supported list, with "Unknown filesystem: <fs>", and then does no work. |
| KiwiFilesystemBuilder.ExactlyOnePath | kiwi/builder/filesystem.py:118-121 | A supported filesystem is built exactly one way: on a file when it is in the no-device-node list, otherwise on a loop device. |
| KiwiFilesystemBuilder.VerifyPrecedesResults | kiwi/builder/filesystem.py:122-152 | The image size check runs on `filename` against the size constraint, before every result entry. |
| KiwiFilesystemBuilder.AddedExactly | kiwi/builder/filesystem.py:126-152 | The result entries read off a trace are exactly the entries of its `Result.add` calls. |
| KiwiFilesystemBuilder.ThreeResultEntries | kiwi/builder/filesystem.py:126-152 | Exactly three entries are added, in the order `filesystem_image`, `image_packages`, `image_verified`. |
| KiwiFilesystemBuilder.ImageEntryIsFirst | kiwi/builder/filesystem.py:126-152 | `filesystem_image` carries the image filename, a checksum and the runtime's bundle compression. All three entries are bundled, and the two package entries are neither compressed nor checksummed. |
| KiwiFilesystemBuilder.FileSystemBuilder.constructor | kiwi/builder/filesystem.py:56-92 | A builder starts with the given fields, an empty trace and an empty result. |
| KiwiFilesystemBuilder.FileSystemBuilder.New | kiwi/builder/filesystem.py:56-92 | Either a fresh builder with `Configure`'s fields, or the error `Configure` gives. |
| KiwiFilesystemBuilder.FileSystemBuilder.Add | kiwi/builder/filesystem.py:126-134 | `Result.add` appends one entry and records the call. |
| KiwiFilesystemBuilder.FileSystemBuilder.OperateOnLoop | kiwi/builder/filesystem.py:155-173 | Creates a loop device for the image file, then builds the filesystem on it from `root_dir + '/'` and syncs the data. |
| KiwiFilesystemBuilder.FileSystemBuilder.OperateOnFile | kiwi/builder/filesystem.py:175-184 | Builds the filesystem from `root_dir` straight into the image file. |
| KiwiFilesystemBuilder.FileSystemBuilder.Create | kiwi/builder/filesystem.py:94-153 | On an unsupported filesystem, returns the error and changes nothing. Otherwise it appends exactly `CreateSteps` to the trace and the three entries to the result. |
| KiwiDracut.PrepareOrder | kiwi/boot/image/dracut.py:36-55 | The six calls run in a fixed order. `SystemPrepare` is built on the boot root with `allow_existing=True`. `setup_repositories` runs exactly once; `install_bootstrap` comes before `install_system`, both after it and both with its manager. |
| KiwiDracut.DracutCommand | kiwi/boot/image/dracut.py:62-72 | `chroot <root> dracut …` asks for an uncompressed initrd (`--no-compress`, no `--xz`), named by the basename of the target file, for the given kernel version. |
| KiwiDracut.MoveCommand | kiwi/boot/image/dracut.py:73-81 | Three tokens: `mv`, then `<root>/` followed by the target's basename, then the target path itself. |
| KiwiDracut.MoveTakesDracutOutput | kiwi/boot/image/dracut.py:73-81 | `mv` takes the file dracut wrote in the boot root to the target path, keeping its basename. |
| KiwiDracut.TargetInDirectory | kiwi/boot/image/dracut.py:62-81 | For a target `dir/name`, dracut writes `name`, and the move is `mv <root>/name dir/name`. |
| KiwiDracut.InitrdOrder | kiwi/boot/image/dracut.py:57-87 | When prepared, the steps are: the dracut run, then the move to `initrd_file_name`, then xz compression of that file. Only the first runs under `chroot`. |
| KiwiDracut.BootImageDracut.Prepare | kiwi/boot/image/dracut.py:36-55 | Appends the preparation calls in source order, and leaves `initrd_filename` alone. |
| KiwiDracut.BootImageDracut.CreateInitrd | kiwi/boot/image/dracut.py:57-87 | Unprepared: issues nothing, and `initrd_filename` is unchanged. Prepared: issues dracut, mv and xz, and sets `initrd_filename` to the compressor's output name. `mbrid` has no effect. |

## Left out

- `Shell.quote_key_value_file` and the temporary file in `create`: their source is not part of this model. `Profile.Create` returns the unquoted `key=value` lines, without newlines.
- `sorted(self.dot_profile.items())` compares `(key, value)` pairs. Keys are distinct, so only the key order (Python's code-point order of `str`) is modelled.
- `KiwiProfile.Value` covers `None`, `bool`, `int` and `str`, the values the accessors deliver. `format` of any other Python type is not modelled.
- `KiwiProfile.Text`: `_text(None)` is modelled as `_text([])`. Both return `None`.
- Volume sizes are taken as strings, as `'|'.join` requires.
- `Defaults.get_default_volume_group_name()`, `Defaults.get_filesystem_image_types()` and `Defaults.get_exclude_list_for_root_data_sync()` are inputs, because `Defaults` is not part of this model. So are `RuntimeConfig` and `platform.machine()`.
- `SystemSetup`, `FileSystem`, `LoopDevice`, `DeviceProvider`, `Result`, `SystemPrepare` and `Compress` are not part of this model. Their calls are recorded in a trace, and what they return is an input. Errors they raise are not modelled.
- `Kernel(...).get_kernel()` and `FileSystemSetup.get_size_mbytes()` are not traced: only their answers enter the model, as the kernel version parameter of `CreateInitrd` and as `Environment.sizeMbytes`.
- `KiwiFilesystemBuilder.FileSystemBuilder.Add`: `Result.add` is not part of this model. Entries are kept as a list in call order, not as a dictionary keyed by name.
- Building `SystemSetup`, `FileSystemSetup`, `Result` and `RuntimeConfig` in `FileSystemBuilder.__init__` is not traced, because those constructors are not part of this model.
- `Command.run`, `chroot` and `mv` are not executed. The commands are recorded as `Run` steps.
- `KiwiDracut.BootImageDracut.CreateInitrd`: `Command.run` failures are not modelled; every command is assumed to succeed. In the code a failing dracut or `mv` run raises, so no xz step follows and `initrd_filename` is not set.
- `is_prepared()`, the kernel version found by `Kernel(...).get_kernel()` and the compressor's output name are parameters of `CreateInitrd`. The case where `get_kernel()` finds no kernel (an attribute error on `None`) is not modelled.
- `KiwiDracut.BootImageDracut.constructor`: the base class `BootImageBase` is not part of this model. The object is built from the boot root and the initrd file name, with no compressed initrd yet.
- `load_boot_xml_description` and `import_system_description_elements` are recorded as steps; their effects belong to `BootImageBase`.
- Logging (`log.info`) is not modelled, because it has no effect on the behaviour.
