/** The ecryptfs backend, driven through the `ecryptfs-simple` executable:
    its description, the polkit decision, the configuration-path default,
    the `su` wrapper, the unmount retry loop, the mount/create command
    and the classification of the tool's error output. */
module Ecryptfs {
  import Text
  import opened StatusCodes
  import opened Engines

  /** `_setOptions`: the backend's fixed description. */
  function BaseOptions(): (e: Engine)
    ensures Name(e) == "ecryptfs" && e.fuseNames == ["ecryptfs"]
    ensures ConfigFileName(e) == ".ecryptfs.config"
    ensures e.configFileArgument == "--config" && e.executableName == "ecryptfs-simple"
    ensures e.incorrectPasswordText == "error: mount failed"
    ensures e.notFoundCode == EcryptfsSimpleNotFound
  {
    Engine(
      names := ["ecryptfs"],
      fuseNames := ["ecryptfs"],
      configFileNames := [".ecryptfs.config", "ecryptfs.config"],
      configFileArgument := "--config",
      executableName := "ecryptfs-simple",
      incorrectPasswordText := "error: mount failed",
      passwordFormat := "%{password}",
      releaseURL := "https://api.github.com/repos/mhogomchungu/ecryptfs-simple/releases",
      notFoundCode := EcryptfsSimpleNotFound,
      backendTimeout := 0,
      takesTooLongToUnlock := false,
      supportsMountPathsOnWindows := false,
      autorefreshOnMountUnMount := true,
      backendRequireMountPath := true,
      requiresPolkit := true,
      customBackend := false,
      requiresAPassword := true,
      hasConfigFile := true,
      autoMountsOnCreate := true,
      hasGUICreateOptions := true,
      setsCipherPath := true)
  }

  /** The backend is known, and the display name "Ecryptfs" offered on
      Linux resolves to it by name once lower-cased, provided no backend
      registered before it claims the same name. */
  lemma RegisteredEcryptfsResolves(securefs: Engine, gocryptfs: Engine, cryfs: Engine,
                                   encfs: Engine, sshfs: Engine)
    requires "ecryptfs" !in securefs.names && "ecryptfs" !in gocryptfs.names
    requires "ecryptfs" !in cryfs.names && "ecryptfs" !in encfs.names
    ensures IsKnown(BaseOptions()) && "Ecryptfs" in Supported(Linux)
    ensures var bs := [Sentinel, securefs, gocryptfs, cryfs, encfs, BaseOptions(), sshfs];
      bs[FirstListing(bs, ByName, Text.Lower("Ecryptfs"), 1)] == BaseOptions()
  {
    var bs := [Sentinel, securefs, gocryptfs, cryfs, encfs, BaseOptions(), sshfs];
    assert Text.Lower("Ecryptfs") == "ecryptfs";
    var r := FirstListing(bs, ByName, "ecryptfs", 1);
    assert "ecryptfs" in Aliases(bs[5], ByName);
    assert r != 0 && r <= 5;
    assert r == 5;
  }

  /** Building the registry with this backend in its slot and asking for
      "Ecryptfs" by name returns this backend. */
  method ResolveEcryptfs(securefs: Engine, gocryptfs: Engine, cryfs: Engine,
                         encfs: Engine, sshfs: Engine) returns (e: Engine)
    requires "ecryptfs" !in securefs.names && "ecryptfs" !in gocryptfs.names
    requires "ecryptfs" !in cryfs.names && "ecryptfs" !in encfs.names
    ensures e == BaseOptions() && IsKnown(e)
  {
    var reg := new Registry(securefs, gocryptfs, cryfs, encfs, BaseOptions(), sshfs);
    RegisteredEcryptfsResolves(securefs, gocryptfs, cryfs, encfs, sshfs);
    e := reg.GetByName("Ecryptfs");
  }

  /** The set-user-ID bit of a file mode. */
  const SetUid: bv32 := 0x800

  /** `_requiresPolkit`: on Linux, polkit is needed unless the executable is
      owned by root and set-user-ID; elsewhere it is never needed. */
  function RequiresPolkit(p: Platform, ownerUid: nat, mode: bv32): (r: bool)
    ensures p != Linux ==> !r
    ensures p == Linux ==> (r <==> ownerUid != 0 || mode & SetUid == 0)
  {
    if p == Linux then !(ownerUid == 0 && mode & SetUid != 0) else false
  }

  /** Only a root-owned set-user-ID executable on Linux avoids polkit, and
      no mode bit other than set-user-ID matters. */
  lemma RequiresPolkitProperties(p: Platform, ownerUid: nat, mode: bv32)
    ensures !RequiresPolkit(p, ownerUid, mode) <==> p != Linux || (ownerUid == 0 && mode & SetUid == SetUid)
    ensures RequiresPolkit(p, ownerUid, mode) == RequiresPolkit(p, ownerUid, mode & SetUid)
    ensures p == Linux && ownerUid != 0 ==> RequiresPolkit(p, ownerUid, mode)
  {
  }

  /** The configuration path a volume uses: the given one, or the default
      file inside the cipher folder when none is given. */
  function ConfigPathFor(cipherFolder: string, configFilePath: string): (r: string)
    ensures r != ""
    ensures configFilePath != "" ==> r == configFilePath
    ensures configFilePath == "" ==> r == cipherFolder + "/.ecryptfs.config"
  {
    if configFilePath == "" then cipherFolder + "/" + ConfigFileName(BaseOptions())
    else configFilePath
  }

  /** The chosen path is never empty, keeps a given path, and resolving an
      already resolved path changes nothing. */
  lemma ConfigPathProperties(cipherFolder: string, configFilePath: string)
    ensures var r := ConfigPathFor(cipherFolder, configFilePath);
      r != ""
      && (configFilePath != "" ==> r == configFilePath)
      && (configFilePath == "" ==> r == cipherFolder + "/.ecryptfs.config")
      && ConfigPathFor(cipherFolder, r) == r
  {
  }

  /** The volume options `updateOptions` edits. */
  class VolumeOptions {
    var cipherFolder: string
    var plainFolder: string
    var configFilePath: string
    var createOptions: string
    var mountOptions: string
    var unlockInReadOnly: bool

    constructor (cipherFolder: string, plainFolder: string, configFilePath: string,
                 createOptions: string, mountOptions: string, unlockInReadOnly: bool)
      ensures this.cipherFolder == cipherFolder && this.plainFolder == plainFolder
      ensures this.configFilePath == configFilePath && this.createOptions == createOptions
      ensures this.mountOptions == mountOptions && this.unlockInReadOnly == unlockInReadOnly
    {
      this.cipherFolder := cipherFolder;
      this.plainFolder := plainFolder;
      this.configFilePath := configFilePath;
      this.createOptions := createOptions;
      this.mountOptions := mountOptions;
      this.unlockInReadOnly := unlockInReadOnly;
    }
  }

  /** `updateOptions`: fills in the default configuration path; nothing
      else changes. */
  method UpdateOptions(opt: VolumeOptions)
    modifies opt`configFilePath
    ensures opt.configFilePath == ConfigPathFor(opt.cipherFolder, old(opt.configFilePath))
  {
    if opt.configFilePath == "" {
      opt.configFilePath := opt.cipherFolder + "/" + ConfigFileName(BaseOptions());
    }
  }

  /** `wrapSU`: runs `s` through `su - -c "..."`, its double quotes turned
      into single quotes; unchanged when no `su` was found. */
  function WrapSU(su: string, s: string): (r: string)
    ensures su == "" ==> r == s
  {
    if su == "" then s else su + " - -c \"" + Text.ReplaceQuotes(s) + "\""
  }

  /** With `su` present the command sits between the only two double quotes
      after the `su` path: it cannot close the quoting early, and a command
      without double quotes is carried verbatim. */
  lemma WrapSUQuoting(su: string, s: string)
    requires su != ""
    ensures var r := WrapSU(su, s); var p := |su| + 7;
      |r| == p + |s| + 1
      && r[..|su|] == su && r[|su|..p] == " - -c \""
      && r[|r| - 1] == '"'
      && r[p..|r| - 1] == Text.ReplaceQuotes(s)
      && (forall i :: p <= i < |r| - 1 ==> r[i] != '"')
      && ('"' !in s ==> r[p..|r| - 1] == s)
  {
  }

  /** The command each unmount attempt runs. */
  function UnmountCommand(exe: string, cipherFolder: string, usePolkit: bool, su: string): (r: string)
    ensures !usePolkit || su == "" ==> r == exe + " -k " + cipherFolder
    ensures usePolkit ==> r == WrapSU(su, exe + " -k " + cipherFolder)
    ensures usePolkit && su != "" ==> |r| > |su| && r[..|su|] == su && r[|r| - 1] == '"'
  {
    var s := exe + " -k " + cipherFolder;
    if usePolkit then WrapSU(su, s) else s
  }

  /** The number of attempts `unmount` may make. */
  function Budget(maxCount: int): (n: nat)
    ensures n >= 1 && n >= maxCount
    ensures n == 1 || n == maxCount
  {
    if maxCount < 1 then 1 else maxCount
  }

  /** `unmount`: one attempt, then up to `maxCount - 1` more, each after a
      one-second wait, until one succeeds. `outcomes[i]` is whether attempt
      `i` succeeds; `issued` lists the commands run and `waits` counts the
      waits. */
  method Unmount(exe: string, cipherFolder: string, usePolkit: bool, su: string,
                 maxCount: int, outcomes: seq<bool>)
    returns (st: Status, issued: seq<string>, waits: nat)
    requires |outcomes| >= Budget(maxCount)
    ensures 1 <= |issued| <= Budget(maxCount) && waits == |issued| - 1
    ensures forall i :: 0 <= i < |issued| ==> issued[i] == UnmountCommand(exe, cipherFolder, usePolkit, su)
    ensures st == Success || st == FailedToUnMount
    ensures st == Success <==> exists i :: 0 <= i < Budget(maxCount) && outcomes[i]
    ensures st == Success ==> outcomes[|issued| - 1]
    ensures forall i :: 0 <= i < |issued| - 1 ==> !outcomes[i]
    ensures st == FailedToUnMount ==> |issued| == Budget(maxCount)
  {
    var cmd := UnmountCommand(exe, cipherFolder, usePolkit, su);
    issued := [cmd];
    waits := 0;
    if outcomes[0] {
      return Success, issued, waits;
    }
    var i := 1;
    while i < maxCount
      invariant 1 <= i <= Budget(maxCount)
      invariant |issued| == i && waits == i - 1
      invariant forall j :: 0 <= j < i ==> !outcomes[j]
      invariant forall j :: 0 <= j < |issued| ==> issued[j] == cmd
    {
      waits := waits + 1;
      issued := issued + [cmd];
      if outcomes[i] {
        return Success, issued, waits;
      }
      i := i + 1;
    }
    st := FailedToUnMount;
  }

  /** What `command` reads of its arguments. */
  datatype CmdArgs = CmdArgs(
    exe: string,
    configFilePath: string,
    cipherFolder: string,
    mountPoint: string,
    create: bool,
    unlockInReadOnly: bool,
    createOptions: string,
    mountOptions: string)

  /** The option tokens `command` adds, in order. */
  function AddedTokens(args: CmdArgs, defaultCreateOptions: string): (r: seq<string>)
    ensures 1 <= |r| <= 5
    ensures args.create && !args.unlockInReadOnly && args.mountOptions == "" ==> |r| == 1
    ensures !args.create && args.unlockInReadOnly && args.mountOptions != "" ==> |r| == 5
  {
    (if args.unlockInReadOnly then ["--readonly"] else [])
    + (if args.create then [if args.createOptions == "" then defaultCreateOptions else args.createOptions]
       else ["-o", "key=passphrase"])
    + (if args.mountOptions == "" then [] else ["-o", args.mountOptions])
  }

  /** Where each added token sits: `--readonly` first exactly when reading
      only, then the create options (the user's, else the default) when
      creating or `-o key=passphrase` when not, then `-o` and the mount
      options exactly when there are mount options. */
  lemma AddedTokensLayout(args: CmdArgs, d: string)
    ensures var r := AddedTokens(args, d); var k := if args.unlockInReadOnly then 1 else 0;
      |r| == k + (if args.create then 1 else 2) + (if args.mountOptions == "" then 0 else 2)
      && (args.unlockInReadOnly ==> r[0] == "--readonly")
      && (args.create ==> r[k] == (if args.createOptions == "" then d else args.createOptions))
      && (!args.create ==> r[k] == "-o" && r[k + 1] == "key=passphrase")
      && (args.mountOptions != "" ==> r[|r| - 2] == "-o" && r[|r| - 1] == args.mountOptions)
  {
  }

  /** Creating never passes `key=passphrase` unless the user's create
      options are that very text, and mounting always passes it; read-only
      is requested exactly when asked for, barring option texts that are
      themselves `--readonly`. */
  lemma AddedTokensFlags(args: CmdArgs, d: string)
    requires d != "key=passphrase" && d != "--readonly"
    requires args.createOptions != "key=passphrase" && args.createOptions != "--readonly"
    requires args.mountOptions != "key=passphrase" && args.mountOptions != "--readonly"
    ensures "key=passphrase" in AddedTokens(args, d) <==> !args.create
    ensures "--readonly" in AddedTokens(args, d) <==> args.unlockInReadOnly
  {
  }

  /** The `%1 %2 -a %3 %4 %5` template filled in. */
  function Layout(exe: string, options: string, configFilePath: string,
                  cipherFolder: string, mountPoint: string): (r: string)
    ensures |r| == |exe| + |options| + |configFilePath| + |cipherFolder| + |mountPoint| + 7
    ensures r[..|exe|] == exe && r[|exe|] == ' '
    ensures r[|r| - |mountPoint|..] == mountPoint
    ensures r[|exe| + 1..|exe| + 1 + |options|] == options
  {
    exe + " " + options + " -a " + configFilePath + " " + cipherFolder + " " + mountPoint
  }

  /** `command`: the mount or create command. `initial` stands for the
      tokens the generic option builder starts with; the password is not
      part of the command. */
  method Command(password: seq<bv8>, args: CmdArgs, initial: seq<string>,
                 defaultCreateOptions: string, usePolkit: bool, su: string)
    returns (cmd: string)
    ensures var s := Layout(args.exe, Text.Join(initial + AddedTokens(args, defaultCreateOptions)),
                            args.configFilePath, args.cipherFolder, args.mountPoint);
      cmd == if usePolkit then WrapSU(su, s) else s
  {
    var m := new ExeOptions(initial);
    if args.unlockInReadOnly {
      m.Add("--readonly");
    }
    if args.create {
      if args.createOptions == "" {
        m.Add(defaultCreateOptions);
      } else {
        m.Add(args.createOptions);
      }
    } else {
      m.AddPair("-o", "key=passphrase");
    }
    if args.mountOptions != "" {
      m.AddPair("-o", args.mountOptions);
    }
    assert m.tokens == initial + AddedTokens(args, defaultCreateOptions);
    var options := m.Get();
    assert options == Text.Join(initial + AddedTokens(args, defaultCreateOptions));
    var s := Layout(args.exe, options, args.configFilePath, args.cipherFolder, args.mountPoint);
    if usePolkit {
      cmd := WrapSU(su, s);
    } else {
      cmd := s;
    }
  }

  const PolkitMarker := "Operation not permitted"

  /** `errorCode`: the privilege marker first, then the bad-password
      marker, else a generic backend failure. */
  function ErrorCode(e: string, exitCode: int): (r: Status)
    ensures r == FailedToStartPolkit || r == EcryptfsBadPassword || r == BackendFail
  {
    if Text.Contains(e, PolkitMarker) then FailedToStartPolkit
    else if Text.Contains(e, BaseOptions().incorrectPasswordText) then EcryptfsBadPassword
    else BackendFail
  }

  /** The classification by marker occurrence, the privilege marker winning
      over the bad-password one; the exit code never matters. */
  lemma ErrorCodeClassifies(e: string, exitCode: int, other: int)
    ensures (exists i :: Text.OccursAt(e, PolkitMarker, i)) ==> ErrorCode(e, exitCode) == FailedToStartPolkit
    ensures ((forall i :: !Text.OccursAt(e, PolkitMarker, i))
             && (exists i :: Text.OccursAt(e, "error: mount failed", i)))
            ==> ErrorCode(e, exitCode) == EcryptfsBadPassword
    ensures ((forall i :: !Text.OccursAt(e, PolkitMarker, i))
             && (forall i :: !Text.OccursAt(e, "error: mount failed", i)))
            ==> ErrorCode(e, exitCode) == BackendFail
    ensures ErrorCode(e, exitCode) == ErrorCode(e, other)
  {
  }

  /** Empty output is an unclassified failure. */
  lemma ErrorCodeOfEmptyOutput(exitCode: int)
    ensures ErrorCode("", exitCode) == BackendFail
  {
  }

  /** More surrounding log output never turns a recognised failure into
      an unclassified one, and never demotes a privilege failure. */
  lemma ErrorCodeInContext(x: string, e: string, y: string, exitCode: int)
    ensures ErrorCode(e, exitCode) == FailedToStartPolkit ==> ErrorCode(x + e + y, exitCode) == FailedToStartPolkit
    ensures ErrorCode(e, exitCode) != BackendFail ==> ErrorCode(x + e + y, exitCode) != BackendFail
  {
    if Text.Contains(e, PolkitMarker) {
      Text.ContainsInContext(x, e, y, PolkitMarker);
    }
    if Text.Contains(e, "error: mount failed") {
      Text.ContainsInContext(x, e, y, "error: mount failed");
    }
  }
}
