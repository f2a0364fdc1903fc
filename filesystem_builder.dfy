/**
 * The filesystem image builder of kiwi (`FileSystemBuilder`): picks the
 * filesystem to build from the image type, names the image file, and on
 * `create` checks the filesystem is supported, builds it through a loop
 * device or directly on a file, checks the image size and records three
 * result entries.
 *
 * The collaborators (`FileSystem`, `LoopDevice`, `DeviceProvider`,
 * `SystemSetup`, `Result`, `RuntimeConfig`, `Defaults`) are not modelled:
 * what they return is an input, and each call on them is an `Action`
 * appended to the builder's trace.
 */
module KiwiFilesystemBuilder {
  import opened Wrappers
  import opened Strings

  // ---------------------------------------------------------------------------
  // Construction: the requested filesystem and the image file name
  // ---------------------------------------------------------------------------

  /** What the XML state delivers to the builder. */
  datatype BuildSettings = BuildSettings(
    buildTypeName: string,          // xml_state.get_build_type_name()
    typeFilesystem: Option<string>, // xml_state.build_type.get_filesystem()
    imageName: string,              // xml_state.xml_data.get_name()
    imageVersion: string,           // xml_state.get_image_version()
    targetBlocksize: Option<int>,   // xml_state.build_type.get_target_blocksize()
    mountOptions: seq<string>,      // xml_state.get_fs_mount_option_list()
    createOptions: seq<string>      // xml_state.get_fs_create_option_list()
  )

  /** `KiwiFileSystemSetupError` and its message. */
  datatype Error = FileSystemSetupError(message: string)

  /** `filesystem_custom_parameters`: the configured mount and creation arguments. */
  datatype CustomParameters = CustomParameters(mountOptions: seq<string>, createOptions: seq<string>)

  /** The fields `__init__` sets, once, on a builder it does not reject. */
  datatype Config = Config(
    fsLabel: Option<string>,
    rootDir: string,
    targetDir: string,
    requestedImageType: string,
    requestedFilesystem: string,
    customParameters: CustomParameters,
    filename: string,
    blocksize: Option<int>,
    filesystemsNoDeviceNode: seq<string>
  )

  /** The filesystem asked for: a `pxe` image names it in its type, any other image type is one. */
  function RequestedFilesystem(settings: BuildSettings): Option<string>
  {
    if settings.buildTypeName == "pxe" then settings.typeFilesystem
    else Some(settings.buildTypeName)
  }

  /** Python's `not x` on an optional string: `None` and `''` are both false. */
  predicate Configured(fs: Option<string>)
  {
    fs.Some? && fs.value != ""
  }

  /** The image file: `<target>/<name>.<arch>-<version>.<filesystem>`. */
  function ImageFilename(targetDir: string, name: string, arch: string, version: string, filesystem: string): string
  {
    targetDir + "/" + name + "." + arch + "-" + version + "." + filesystem
  }

  /**
   * `FileSystemBuilder(xml_state, target_dir, root_dir)` on a machine whose
   * `platform.machine()` is `arch`: the builder's fields, or the error it raises.
   */
  function Configure(settings: BuildSettings, targetDir: string, rootDir: string, arch: string): (r: Result<Config, Error>)
    ensures r.Success? <==> Configured(RequestedFilesystem(settings))
    ensures r.Failure? ==> r.error == FileSystemSetupError("No filesystem configured in " + settings.buildTypeName + " type")
    ensures r.Success? ==>
      && r.value.requestedFilesystem == (if settings.buildTypeName == "pxe" then settings.typeFilesystem.value else settings.buildTypeName)
      && r.value.requestedImageType == settings.buildTypeName
      && r.value.filename == ImageFilename(targetDir, settings.imageName, arch, settings.imageVersion, r.value.requestedFilesystem)
      && r.value.fsLabel == None
      && r.value.filesystemsNoDeviceNode == ["squashfs"]
  {
    var fs := RequestedFilesystem(settings);
    if !Configured(fs) then
      Failure(FileSystemSetupError("No filesystem configured in " + settings.buildTypeName + " type"))
    else
      Success(Config(
        None, rootDir, targetDir, settings.buildTypeName, fs.value,
        CustomParameters(settings.mountOptions, settings.createOptions),
        ImageFilename(targetDir, settings.imageName, arch, settings.imageVersion, fs.value),
        settings.targetBlocksize, ["squashfs"]))
  }

  /** A non-`pxe` image type is its own filesystem, so only an empty type name is rejected. */
  lemma NonPxeSelectsImageType(settings: BuildSettings, targetDir: string, rootDir: string, arch: string)
    requires settings.buildTypeName != "pxe"
    ensures Configure(settings, targetDir, rootDir, arch).Success? <==> settings.buildTypeName != ""
    ensures settings.buildTypeName != "" ==>
      Configure(settings, targetDir, rootDir, arch).value.requestedFilesystem == settings.buildTypeName
  {
  }

  /**
   * The image file lies directly in the target directory, and its name
   * carries the filesystem as its extension, whenever the name parts hold no '/'.
   */
  lemma FilenameInTargetDir(targetDir: string, name: string, arch: string, version: string, filesystem: string)
    requires '/' !in name && '/' !in arch && '/' !in version && '/' !in filesystem
    ensures Basename(ImageFilename(targetDir, name, arch, version, filesystem))
         == name + "." + arch + "-" + version + "." + filesystem
    ensures var f := ImageFilename(targetDir, name, arch, version, filesystem);
      f[|f| - |filesystem| - 1..] == "." + filesystem
  {
    var file := name + "." + arch + "-" + version + "." + filesystem;
    assert ImageFilename(targetDir, name, arch, version, filesystem) == targetDir + "/" + file;
    forall i | 0 <= i < |file|
      ensures file[i] != '/'
    {
      if i < |name| {
        assert file[i] == name[i];
      } else if i == |name| {
      } else if i < |name| + 1 + |arch| {
        assert file[i] == arch[i - |name| - 1];
      } else if i == |name| + 1 + |arch| {
      } else if i < |name| + 2 + |arch| + |version| {
        assert file[i] == version[i - |name| - 2 - |arch|];
      } else if i == |name| + 2 + |arch| + |version| {
      } else {
        assert file[i] == filesystem[i - |name| - 3 - |arch| - |version|];
      }
    }
    BasenameOfJoin(targetDir, file);
  }

  // ---------------------------------------------------------------------------
  // create: the work done, as a trace of collaborator calls
  // ---------------------------------------------------------------------------

  /** A `Result.add` entry. */
  datatype ResultEntry = ResultEntry(key: string, filename: string, useForBundle: bool, compress: bool, shasum: bool)

  /** The device provider handed to `FileSystem`. */
  datatype Provider = LoopProvider(filename: string, sizeMbytes: int, blocksize: Option<int>) | DefaultProvider

  /** One call on a collaborator. */
  datatype Action =
    | CreateLoopDevice(provider: Provider)
    | NewFileSystem(name: string, provider: Provider, rootDir: string, parameters: CustomParameters)
    | CreateOnDevice(fsLabel: Option<string>)
    | SyncData(exclude: seq<string>)
    | CreateOnFile(filename: string, fsLabel: Option<string>, exclude: seq<string>)
    | VerifyImageSize(maxSize: Option<int>, filename: string)
    | ExportPackageList(targetDir: string)
    | ExportPackageVerification(targetDir: string)
    | AddResult(entry: ResultEntry)

  /** What the collaborators answer during `create`. */
  datatype Environment = Environment(
    supportedFilesystems: seq<string>, // Defaults.get_filesystem_image_types()
    sizeMbytes: int,                   // filesystem_setup.get_size_mbytes()
    excludeList: seq<string>,          // Defaults.get_exclude_list_for_root_data_sync()
    maxSizeConstraint: Option<int>,    // runtime_config.get_max_size_constraint()
    bundleCompression: bool,           // runtime_config.get_bundle_compression(default=True)
    packageListFile: string,           // system_setup.export_package_list(target_dir)
    packageVerificationFile: string    // system_setup.export_package_verification(target_dir)
  )

  /** `_operate_on_loop`: a loop device of the image's size, a filesystem on it, then the data. */
  function LoopSteps(c: Config, env: Environment): seq<Action>
  {
    var provider := LoopProvider(c.filename, env.sizeMbytes, c.blocksize);
    [ CreateLoopDevice(provider),
      NewFileSystem(c.requestedFilesystem, provider, c.rootDir + "/", c.customParameters),
      CreateOnDevice(c.fsLabel),
      SyncData(env.excludeList) ]
  }

  /** `_operate_on_file`: the filesystem is built straight into the image file. */
  function FileSteps(c: Config, env: Environment): seq<Action>
  {
    [ NewFileSystem(c.requestedFilesystem, DefaultProvider, c.rootDir, c.customParameters),
      CreateOnFile(c.filename, c.fsLabel, env.excludeList) ]
  }

  /** The three entries `create` adds to the result, in order. */
  function ResultEntries(c: Config, env: Environment): seq<ResultEntry>
  {
    [ ResultEntry("filesystem_image", c.filename, true, env.bundleCompression, true),
      ResultEntry("image_packages", env.packageListFile, true, false, false),
      ResultEntry("image_verified", env.packageVerificationFile, true, false, false) ]
  }

  /** The size check, then the three entries with the package exports that name two of them. */
  function ResultSteps(c: Config, env: Environment): seq<Action>
  {
    var e := ResultEntries(c, env);
    [ VerifyImageSize(env.maxSizeConstraint, c.filename),
      AddResult(e[0]),
      ExportPackageList(c.targetDir),
      AddResult(e[1]),
      ExportPackageVerification(c.targetDir),
      AddResult(e[2]) ]
  }

  /** Filesystems outside the no-device-node list need a block device. */
  predicate NeedsDevice(c: Config)
  {
    c.requestedFilesystem !in c.filesystemsNoDeviceNode
  }

  /** Everything `create` does, or the error it raises. */
  function CreateSteps(c: Config, env: Environment): (r: Result<seq<Action>, Error>)
    ensures r.Failure? <==> c.requestedFilesystem !in env.supportedFilesystems
    ensures r.Failure? ==> r.error == FileSystemSetupError("Unknown filesystem: " + c.requestedFilesystem)
  {
    if c.requestedFilesystem !in env.supportedFilesystems then
      Failure(FileSystemSetupError("Unknown filesystem: " + c.requestedFilesystem))
    else
      Success((if NeedsDevice(c) then LoopSteps(c, env) else FileSteps(c, env)) + ResultSteps(c, env))
  }

  /** The entries added to the result by a trace, in trace order. */
  function Added(trace: seq<Action>): seq<ResultEntry>
    decreases |trace|
  {
    if |trace| == 0 then []
    else
      var last := trace[|trace| - 1];
      Added(trace[..|trace| - 1]) + (if last.AddResult? then [last.entry] else [])
  }

  /** `Added` keeps exactly the entries of the trace's `Result.add` calls. */
  lemma {:induction false} AddedExactly(trace: seq<Action>)
    ensures forall e :: e in Added(trace) <==> AddResult(e) in trace
    decreases |trace|
  {
    if |trace| > 0 {
      var init := trace[..|trace| - 1];
      AddedExactly(init);
      assert trace == init + [trace[|trace| - 1]];
    }
  }

  lemma {:induction false} AddedAppend(a: seq<Action>, b: seq<Action>)
    ensures Added(a + b) == Added(a) + Added(b)
    decreases |b|
  {
    if |b| == 0 {
      assert a + b == a;
    } else {
      AddedAppend(a, b[..|b| - 1]);
      assert (a + b)[..|a + b| - 1] == a + b[..|b| - 1];
    }
  }

  /** A trace without `Result.add` calls adds no entry. */
  lemma {:induction false} NothingAdded(trace: seq<Action>)
    requires forall i :: 0 <= i < |trace| ==> !trace[i].AddResult?
    ensures Added(trace) == []
    decreases |trace|
  {
    if |trace| > 0 {
      NothingAdded(trace[..|trace| - 1]);
    }
  }

  /** A builder's trace built a filesystem through a loop device. */
  predicate UsesLoopDevice(trace: seq<Action>)
  {
    exists i :: 0 <= i < |trace| && trace[i].CreateLoopDevice?
  }

  /** A builder's trace built a filesystem straight into a file. */
  predicate UsesFile(trace: seq<Action>)
  {
    exists i :: 0 <= i < |trace| && trace[i].CreateOnFile?
  }

  /** A supported filesystem is built exactly one way: on a file when it needs no device, else on a loop device. */
  lemma ExactlyOnePath(c: Config, env: Environment)
    requires c.requestedFilesystem in env.supportedFilesystems
    ensures UsesLoopDevice(CreateSteps(c, env).value) <==> NeedsDevice(c)
    ensures UsesFile(CreateSteps(c, env).value) <==> !NeedsDevice(c)
  {
    var t := CreateSteps(c, env).value;
    var n := if NeedsDevice(c) then 4 else 2;
    assert forall i :: n <= i < |t| ==> !t[i].CreateLoopDevice? && !t[i].CreateOnFile?;
    if NeedsDevice(c) {
      assert t[0].CreateLoopDevice?;
    } else {
      assert t[1].CreateOnFile?;
    }
  }

  /** The image size is checked before any entry is added. */
  lemma VerifyPrecedesResults(c: Config, env: Environment)
    requires c.requestedFilesystem in env.supportedFilesystems
    ensures var t := CreateSteps(c, env).value;
      exists i :: 0 <= i < |t| && t[i] == VerifyImageSize(env.maxSizeConstraint, c.filename) &&
        forall j :: 0 <= j < |t| && t[j].AddResult? ==> i < j
    ensures var t := CreateSteps(c, env).value;
      forall i, j :: 0 <= i < |t| && 0 <= j < |t| && t[i].VerifyImageSize? && t[j].AddResult? ==> i < j
  {
    var t := CreateSteps(c, env).value;
    assert t[if NeedsDevice(c) then 4 else 2] == VerifyImageSize(env.maxSizeConstraint, c.filename);
  }

  /** A successful `create` adds exactly the three entries, in order, and nothing else. */
  lemma ThreeResultEntries(c: Config, env: Environment)
    requires c.requestedFilesystem in env.supportedFilesystems
    ensures Added(CreateSteps(c, env).value) == ResultEntries(c, env)
  {
    var work := if NeedsDevice(c) then LoopSteps(c, env) else FileSteps(c, env);
    AddedAppend(work, ResultSteps(c, env));
    NothingAdded(work);
    var rs := ResultSteps(c, env);
    var e := ResultEntries(c, env);
    assert rs[..1][..0] == [];
    assert Added(rs[..1]) == [];
    assert rs[..2][..1] == rs[..1];
    assert Added(rs[..2]) == [e[0]];
    assert rs[..3][..2] == rs[..2];
    assert Added(rs[..3]) == [e[0]];
    assert rs[..4][..3] == rs[..3];
    assert Added(rs[..4]) == [e[0], e[1]];
    assert rs[..5][..4] == rs[..4];
    assert Added(rs[..5]) == [e[0], e[1]];
    assert rs[..5] == rs[..|rs| - 1];
  }

  /** The filesystem image entry is the one bundled with a checksum, under the runtime's compression. */
  lemma ImageEntryIsFirst(c: Config, env: Environment)
    requires c.requestedFilesystem in env.supportedFilesystems
    ensures var e := Added(CreateSteps(c, env).value);
      |e| == 3 && e[0].key == "filesystem_image" && e[0].filename == c.filename
      && e[0].shasum && e[0].compress == env.bundleCompression
      && (forall i :: 0 <= i < 3 ==> e[i].useForBundle)
      && (forall i :: 1 <= i < 3 ==> !e[i].compress && !e[i].shasum)
  {
    ThreeResultEntries(c, env);
  }

  // ---------------------------------------------------------------------------
  // The builder object
  // ---------------------------------------------------------------------------

  class FileSystemBuilder {
    const config: Config
    /** The collaborator calls made so far. */
    var trace: seq<Action>
    /** The entries of `self.result`, in the order they were added. */
    var result: seq<ResultEntry>

    constructor (config: Config)
      ensures this.config == config && trace == [] && result == []
    {
      this.config := config;
      trace := [];
      result := [];
    }

    /** `FileSystemBuilder(...)`: a new builder, or the error `__init__` raises. */
    static method New(settings: BuildSettings, targetDir: string, rootDir: string, arch: string)
      returns (r: Result<FileSystemBuilder, Error>)
      ensures Configure(settings, targetDir, rootDir, arch).Failure? ==>
        r == Failure(Configure(settings, targetDir, rootDir, arch).error)
      ensures Configure(settings, targetDir, rootDir, arch).Success? ==>
        r.Success? && fresh(r.value) && r.value.config == Configure(settings, targetDir, rootDir, arch).value
        && r.value.trace == [] && r.value.result == []
    {
      var c := Configure(settings, targetDir, rootDir, arch);
      if c.Failure? {
        return Failure(c.error);
      }
      var b := new FileSystemBuilder(c.value);
      return Success(b);
    }

    method Call(a: Action)
      modifies this
      ensures trace == old(trace) + [a] && result == old(result)
    {
      trace := trace + [a];
    }

    /** `Result.add`. */
    method Add(e: ResultEntry)
      modifies this
      ensures trace == old(trace) + [AddResult(e)] && result == old(result) + [e]
    {
      trace := trace + [AddResult(e)];
      result := result + [e];
    }

    /** `_operate_on_loop`. */
    method OperateOnLoop(env: Environment)
      modifies this
      ensures trace == old(trace) + LoopSteps(config, env) && result == old(result)
    {
      var provider := LoopProvider(config.filename, env.sizeMbytes, config.blocksize);
      Call(CreateLoopDevice(provider));
      Call(NewFileSystem(config.requestedFilesystem, provider, config.rootDir + "/", config.customParameters));
      Call(CreateOnDevice(config.fsLabel));
      Call(SyncData(env.excludeList));
    }

    /** `_operate_on_file`. */
    method OperateOnFile(env: Environment)
      modifies this
      ensures trace == old(trace) + FileSteps(config, env) && result == old(result)
    {
      Call(NewFileSystem(config.requestedFilesystem, DefaultProvider, config.rootDir, config.customParameters));
      Call(CreateOnFile(config.filename, config.fsLabel, env.excludeList));
    }

    /**
     * `create`: rejects an unsupported filesystem before doing anything;
     * otherwise does the work of `CreateSteps` and returns the result's entries.
     */
    method Create(env: Environment) returns (r: Result<seq<ResultEntry>, Error>)
      modifies this
      ensures CreateSteps(config, env).Failure? ==>
        r == Failure(CreateSteps(config, env).error) && trace == old(trace) && result == old(result)
      ensures CreateSteps(config, env).Success? ==>
        trace == old(trace) + CreateSteps(config, env).value
        && result == old(result) + Added(CreateSteps(config, env).value)
        && r == Success(result)
    {
      if config.requestedFilesystem !in env.supportedFilesystems {
        return Failure(FileSystemSetupError("Unknown filesystem: " + config.requestedFilesystem));
      }
      ghost var before := trace;
      if config.requestedFilesystem !in config.filesystemsNoDeviceNode {
        OperateOnLoop(env);
      } else {
        OperateOnFile(env);
      }
      Call(VerifyImageSize(env.maxSizeConstraint, config.filename));
      Add(ResultEntry("filesystem_image", config.filename, true, env.bundleCompression, true));
      Call(ExportPackageList(config.targetDir));
      Add(ResultEntry("image_packages", env.packageListFile, true, false, false));
      Call(ExportPackageVerification(config.targetDir));
      Add(ResultEntry("image_verified", env.packageVerificationFile, true, false, false));
      ThreeResultEntries(config, env);
      return Success(result);
    }
  }
}
