/**
 * The dracut boot image of kiwi (`BootImageDracut`): `prepare` installs a
 * boot root system, `create_initrd` has dracut build an uncompressed initrd
 * inside it, moves that file to its target path and compresses it with xz.
 *
 * External commands, the package installation (`SystemPrepare`) and the
 * compressor (`Compress`) are not modelled: each call is a `Step` appended to
 * the object's trace, and what they answer is an input. The kernel lookup
 * (`Kernel`) is not traced; only the version it finds is an input. Every
 * command is taken to succeed.
 */
module KiwiDracut {
  import opened Wrappers
  import opened Strings

  /** The package manager object `setup_repositories` returns. */
  datatype Manager = Manager(id: nat)

  /** One call made by the boot image object. */
  datatype Step =
    | LoadBootXmlDescription
    | ImportSystemDescriptionElements
    | NewSystemPrepare(rootDir: string, allowExisting: bool)
    | SetupRepositories
    | InstallBootstrap(manager: Manager)
    | InstallSystem(manager: Manager)
    | Run(command: seq<string>)
    | CompressXz(file: string)

  /** The calls of `prepare`, where `manager` is what `setup_repositories` returned. */
  function PrepareSteps(rootDir: string, manager: Manager): seq<Step>
  {
    [ LoadBootXmlDescription,
      ImportSystemDescriptionElements,
      NewSystemPrepare(rootDir, true),
      SetupRepositories,
      InstallBootstrap(manager),
      InstallSystem(manager) ]
  }

  /** `prepare` installs into the boot root once repositories are set up, bootstrap before system, with one manager. */
  lemma PrepareOrder(rootDir: string, manager: Manager)
    ensures var s := PrepareSteps(rootDir, manager);
      && |s| == 6 && s[2] == NewSystemPrepare(rootDir, true) && s[3] == SetupRepositories
      && s[4] == InstallBootstrap(manager) && s[5] == InstallSystem(manager)
      && (forall i :: 0 <= i < |s| && s[i] == SetupRepositories ==> i == 3)
      && (forall i :: 0 <= i < |s| && s[i].NewSystemPrepare? ==> s[i].rootDir == rootDir && s[i].allowExisting)
      && (forall i, j :: 0 <= i < |s| && 0 <= j < |s| && s[i].InstallBootstrap? && s[j].InstallSystem? ==>
            3 < i < j && s[i].manager == s[j].manager)
  {
  }

  /** The dracut call: an uncompressed initrd named like the target file, for the installed kernel. */
  function DracutCommand(rootDir: string, initrdFileName: string, kernelVersion: string): (r: seq<string>)
    ensures |r| == 9 && r[0] == "chroot" && r[1] == rootDir && r[2] == "dracut"
    ensures r[6] == "--no-compress" && "--xz" !in r[2..7]
    ensures r[7] == Basename(initrdFileName) && r[8] == kernelVersion
  {
    [ "chroot", rootDir,
      "dracut", "--force",
      "--no-hostonly",
      "--no-hostonly-cmdline",
      "--no-compress",
      Basename(initrdFileName),
      kernelVersion ]
  }

  /** The move of dracut's output from the boot root to the target path. */
  function MoveCommand(rootDir: string, initrdFileName: string): (r: seq<string>)
    ensures |r| == 3 && r[0] == "mv"
    ensures r[1] == rootDir + "/" + Basename(initrdFileName) && r[2] == initrdFileName
  {
    [ "mv", rootDir + "/" + Basename(initrdFileName), initrdFileName ]
  }

  /**
   * The file moved is the one dracut wrote in the boot root, and it keeps
   * its name: source and destination have the same basename.
   */
  lemma MoveTakesDracutOutput(rootDir: string, initrdFileName: string, kernelVersion: string)
    ensures MoveCommand(rootDir, initrdFileName)[1] == rootDir + "/" + DracutCommand(rootDir, initrdFileName, kernelVersion)[7]
    ensures MoveCommand(rootDir, initrdFileName)[2] == initrdFileName
    ensures Basename(MoveCommand(rootDir, initrdFileName)[1]) == Basename(initrdFileName)
  {
    BasenameOfJoin(rootDir, Basename(initrdFileName));
  }

  /** For a target `dir/name`, dracut writes `name` and the move brings `<root>/name` to `dir/name`. */
  lemma TargetInDirectory(rootDir: string, dir: string, name: string, kernelVersion: string)
    requires '/' !in name
    ensures DracutCommand(rootDir, dir + "/" + name, kernelVersion)[7] == name
    ensures MoveCommand(rootDir, dir + "/" + name) == ["mv", rootDir + "/" + name, dir + "/" + name]
  {
    BasenameOfJoin(dir, name);
  }

  /** The calls of `create_initrd`: nothing unless prepared; else dracut, the move, then xz. */
  function InitrdSteps(prepared: bool, rootDir: string, initrdFileName: string, kernelVersion: string): seq<Step>
  {
    if !prepared then []
    else
      [ Run(DracutCommand(rootDir, initrdFileName, kernelVersion)),
        Run(MoveCommand(rootDir, initrdFileName)),
        CompressXz(initrdFileName) ]
  }

  /** The commands run, in order, and the file compressed, when the boot root is prepared. */
  lemma InitrdOrder(rootDir: string, initrdFileName: string, kernelVersion: string)
    ensures var s := InitrdSteps(true, rootDir, initrdFileName, kernelVersion);
      && |s| == 3
      && s[0].Run? && s[0].command[2] == "dracut"
      && s[1].Run? && s[1].command[0] == "mv" && s[1].command[2] == initrdFileName
      && s[2] == CompressXz(initrdFileName)
      && (forall i :: 0 <= i < |s| && s[i].Run? ==> (s[i].command[0] == "chroot" <==> i == 0))
  {
  }

  class BootImageDracut {
    /** `boot_root_directory`: the root the initrd is built from. */
    const bootRootDirectory: string
    /** `initrd_file_name`: where the uncompressed initrd is placed. */
    const initrdFileName: string
    /** `initrd_filename`: the finished, compressed initrd, once there is one. */
    var initrdFilename: Option<string>
    /** The calls made so far. */
    var steps: seq<Step>

    constructor (bootRootDirectory: string, initrdFileName: string)
      ensures this.bootRootDirectory == bootRootDirectory && this.initrdFileName == initrdFileName
      ensures initrdFilename == None && steps == []
    {
      this.bootRootDirectory := bootRootDirectory;
      this.initrdFileName := initrdFileName;
      initrdFilename := None;
      steps := [];
    }

    method Call(s: Step)
      modifies this
      ensures steps == old(steps) + [s] && initrdFilename == old(initrdFilename)
    {
      steps := steps + [s];
    }

    /** `prepare`, where `manager` is what `setup_repositories` returns. */
    method Prepare(manager: Manager)
      modifies this
      ensures steps == old(steps) + PrepareSteps(bootRootDirectory, manager)
      ensures initrdFilename == old(initrdFilename)
    {
      Call(LoadBootXmlDescription);
      Call(ImportSystemDescriptionElements);
      Call(NewSystemPrepare(bootRootDirectory, true));
      Call(SetupRepositories);
      Call(InstallBootstrap(manager));
      Call(InstallSystem(manager));
    }

    /**
     * `create_initrd(mbrid)`, where `prepared` is what `is_prepared()` answers,
     * `kernelVersion` the version of the kernel found in the boot root, and
     * `compressedFilename` the name `Compress(f).xz()` gives its output.
     * `mbrid` plays no part.
     */
    method CreateInitrd(prepared: bool, kernelVersion: string, compressedFilename: string -> string, mbrid: Option<string>)
      modifies this
      ensures steps == old(steps) + InitrdSteps(prepared, bootRootDirectory, initrdFileName, kernelVersion)
      ensures initrdFilename == if prepared then Some(compressedFilename(initrdFileName)) else old(initrdFilename)
    {
      if prepared {
        Call(Run(["chroot", bootRootDirectory, "dracut", "--force", "--no-hostonly",
                  "--no-hostonly-cmdline", "--no-compress", Basename(initrdFileName), kernelVersion]));
        Call(Run(["mv", bootRootDirectory + "/" + Basename(initrdFileName), initrdFileName]));
        Call(CompressXz(initrdFileName));
        initrdFilename := Some(compressedFilename(initrdFileName));
      }
    }
  }
}
