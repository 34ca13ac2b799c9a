/** The backend description shared by every engine, its identity
    accessors, the per-platform list of supported backends, the registry
    with its name lookups, and the option-token list commands are built in. */
module Engines {
  import Text
  import opened StatusCodes

  /** The capabilities one backend fixes at construction (`BaseOptions`). */
  datatype Engine = Engine(
    names: seq<string>,
    fuseNames: seq<string>,
    configFileNames: seq<string>,
    configFileArgument: string,
    executableName: string,
    incorrectPasswordText: string,
    passwordFormat: string,
    releaseURL: string,
    notFoundCode: Status,
    backendTimeout: int,
    takesTooLongToUnlock: bool,
    supportsMountPathsOnWindows: bool,
    autorefreshOnMountUnMount: bool,
    backendRequireMountPath: bool,
    requiresPolkit: bool,
    customBackend: bool,
    requiresAPassword: bool,
    hasConfigFile: bool,
    autoMountsOnCreate: bool,
    hasGUICreateOptions: bool,
    setsCipherPath: bool)

  /** The canonical name: the first alias, or "" when there is none. */
  function Name(e: Engine): (r: string)
    ensures |e.names| == 0 ==> r == ""
    ensures |e.names| > 0 ==> r == e.names[0]
  {
    if |e.names| == 0 then "" else e.names[0]
  }

  /** The canonical configuration file name, chosen like Name. */
  function ConfigFileName(e: Engine): (r: string)
    ensures |e.configFileNames| == 0 ==> r == ""
    ensures |e.configFileNames| > 0 ==> r == e.configFileNames[0]
  {
    if |e.configFileNames| == 0 then "" else e.configFileNames[0]
  }

  /** An engine is unknown exactly when it has no alias or an empty first
      alias. */
  predicate IsUnknown(e: Engine): (r: bool)
    ensures r <==> |e.names| == 0 || e.names[0] == ""
  {
    Name(e) == ""
  }

  /** ... and known exactly when its first alias is a non-empty name. */
  predicate IsKnown(e: Engine): (r: bool)
    ensures r <==> |e.names| > 0 && e.names[0] != ""
  {
    !IsUnknown(e)
  }

  /** The configuration-file flag joined to `path` by one space; nothing
      when the backend has no such flag. */
  function SetConfigFilePath(e: Engine, path: string): (r: string)
    ensures r == "" <==> e.configFileArgument == ""
    ensures e.configFileArgument != "" ==>
      var n := |e.configFileArgument|;
      |r| == n + 1 + |path| && r[..n] == e.configFileArgument && r[n] == ' ' && r[n + 1..] == path
  {
    if e.configFileArgument == "" then "" else e.configFileArgument + " " + path
  }

  /** The registry's first entry: the backend no volume type resolves to
      and every failed lookup falls back on. */
  const Sentinel := Engine([], [], [], "", "", "", "", "", Unknown, 0,
    false, false, false, false, false, false, false, false, false, false, false)

  lemma SentinelIsUnknown()
    ensures IsUnknown(Sentinel) && Name(Sentinel) == "" && ConfigFileName(Sentinel) == ""
  {
  }

  datatype Platform = Windows | MacOS | Linux | OtherUnix

  /** Every backend this program knows, by display name. */
  const AllBackends := ["Cryfs", "Gocryptfs", "Securefs", "Encfs", "Ecryptfs", "Sshfs"]

  /** A backend's position in AllBackends. */
  function Rank(b: string): nat
  {
    if b == "Cryfs" then 0
    else if b == "Gocryptfs" then 1
    else if b == "Securefs" then 2
    else if b == "Encfs" then 3
    else if b == "Ecryptfs" then 4
    else 5
  }

  /** The backends offered on each platform, by display name: a selection
      of AllBackends kept in its order, without repetition. */
  function Supported(p: Platform): (r: seq<string>)
    ensures p == Windows ==> |r| == 3
    ensures p == MacOS ==> |r| == 4
    ensures p != Windows && p != MacOS ==> |r| == 6
    ensures forall i :: 0 <= i < |r| ==> r[i] in AllBackends
    ensures forall i, j :: 0 <= i < j < |r| ==> Rank(r[i]) < Rank(r[j])
    ensures "Cryfs" in r <==> p != Windows
    ensures "Gocryptfs" in r <==> p != Windows
    ensures "Securefs" in r && "Encfs" in r
    ensures "Ecryptfs" in r <==> p == Linux || p == OtherUnix
    ensures "Sshfs" in r <==> p != MacOS
  {
    match p
    case Windows => ["Securefs", "Encfs", "Sshfs"]
    case MacOS => ["Cryfs", "Gocryptfs", "Securefs", "Encfs"]
    case _ => ["Cryfs", "Gocryptfs", "Securefs", "Encfs", "Ecryptfs", "Sshfs"]
  }

  /** Which list of an engine a lookup searches. */
  datatype NameKind = ByName | ByFuseName

  function Aliases(e: Engine, k: NameKind): seq<string>
  {
    match k
    case ByName => e.names
    case ByFuseName => e.fuseNames
  }

  /** The index of the first engine at or after `from` whose `k` list holds
      `q`, or 0 (the sentinel's index) when none does. */
  function FirstListing(bs: seq<Engine>, k: NameKind, q: string, from: nat): (r: nat)
    requires from >= 1
    ensures r == 0 <==> forall j :: from <= j < |bs| ==> q !in Aliases(bs[j], k)
    ensures r != 0 ==> from <= r < |bs| && q in Aliases(bs[r], k)
    ensures r != 0 ==> forall j :: from <= j < r ==> q !in Aliases(bs[j], k)
    decreases |bs| - from
  {
    if from >= |bs| then 0
    else if q in Aliases(bs[from], k) then from
    else FirstListing(bs, k, q, from + 1)
  }

  /** `_get_engine`: scans the registry from index 1, alias by alias, and
      stops at the first engine listing `q`; index 0 when none does. */
  method GetEngine(bs: seq<Engine>, q: string, k: NameKind) returns (idx: nat)
    requires |bs| > 0
    ensures idx < |bs|
    ensures idx == FirstListing(bs, k, q, 1)
  {
    var i := 1;
    while i < |bs|
      invariant 1 <= i
      invariant forall j :: 1 <= j < i && j < |bs| ==> q !in Aliases(bs[j], k)
    {
      var m := Aliases(bs[i], k);
      var z := 0;
      while z < |m|
        invariant z <= |m|
        invariant forall y :: 0 <= y < z ==> m[y] != q
      {
        if q == m[z] {
          return i;
        }
        z := z + 1;
      }
      i := i + 1;
    }
    return 0;
  }

  /** An alias that no earlier backend lists resolves to its own backend,
      whatever later backends list. */
  lemma EarliestAliasResolves(bs: seq<Engine>, k: NameKind, j: nat, a: string)
    requires 1 <= j < |bs| && a in Aliases(bs[j], k)
    requires forall i :: 1 <= i < j ==> a !in Aliases(bs[i], k)
    ensures FirstListing(bs, k, a, 1) == j
  {
  }

  /** A stored alias holding an upper-case letter is never found by name,
      since the query is lower-cased first. */
  lemma UppercaseAliasUnreachable(a: string, q: string)
    requires exists i :: 0 <= i < |a| && Text.IsUpper(a[i])
    ensures Text.Lower(q) != a
  {
    Text.LowerHasNoUpper(q);
  }

  /** The engine list kept in registration order: the sentinel first. */
  class Registry {
    const backends: seq<Engine>

    /** Six backends after the sentinel. */
    predicate Valid()
    {
      |backends| == 7 && backends[0] == Sentinel
    }

    constructor (securefs: Engine, gocryptfs: Engine, cryfs: Engine,
                 encfs: Engine, ecryptfs: Engine, sshfs: Engine)
      ensures Valid()
      ensures backends == [Sentinel, securefs, gocryptfs, cryfs, encfs, ecryptfs, sshfs]
    {
      var bs: seq<Engine> := [];
      bs := bs + [Sentinel];
      bs := bs + [securefs];
      bs := bs + [gocryptfs];
      bs := bs + [cryfs];
      bs := bs + [encfs];
      bs := bs + [ecryptfs];
      bs := bs + [sshfs];
      backends := bs;
    }

    /** `getByName`: the lower-cased query against each engine's names. */
    method GetByName(q: string) returns (e: Engine)
      requires Valid()
      ensures FirstListing(backends, ByName, Text.Lower(q), 1) == 0 ==> e == backends[0]
      ensures FirstListing(backends, ByName, Text.Lower(q), 1) != 0 ==> Text.Lower(q) in e.names
      ensures e == backends[FirstListing(backends, ByName, Text.Lower(q), 1)]
    {
      var i := GetEngine(backends, Text.Lower(q), ByName);
      e := backends[i];
    }

    /** `getByFuseName`: the query verbatim against each engine's fuse names. */
    method GetByFuseName(q: string) returns (e: Engine)
      requires Valid()
      ensures FirstListing(backends, ByFuseName, q, 1) == 0 ==> e == backends[0]
      ensures FirstListing(backends, ByFuseName, q, 1) != 0 ==> q in e.fuseNames
      ensures e == backends[FirstListing(backends, ByFuseName, q, 1)]
    {
      var i := GetEngine(backends, q, ByFuseName);
      e := backends[i];
    }
  }

  /** The `exeOptions` token list a command is assembled in. */
  class ExeOptions {
    var tokens: seq<string>

    constructor (initial: seq<string>)
      ensures tokens == initial
    {
      tokens := initial;
    }

    /** Appends one token; the joined text grows by a space and the token. */
    method Add(t: string)
      modifies this
      ensures tokens == old(tokens) + [t]
      ensures old(tokens) != [] ==> Get() == old(Get()) + " " + t
      ensures old(tokens) == [] ==> Get() == t
    {
      if tokens != [] {
        Text.JoinAppend(tokens, t);
      }
      tokens := tokens + [t];
    }

    /** Appends a flag and its value as two tokens. */
    method AddPair(flag: string, value: string)
      modifies this
      ensures tokens == old(tokens) + [flag, value]
      ensures old(tokens) != [] ==> Get() == old(Get()) + " " + flag + " " + value
    {
      if tokens != [] {
        Text.JoinAppend(tokens, flag);
        Text.JoinAppend(tokens + [flag], value);
        assert tokens + [flag] + [value] == tokens + [flag, value];
      }
      tokens := tokens + [flag, value];
    }

    /** The tokens joined by single spaces. */
    function Get(): (r: string)
      reads this
      ensures tokens == [] ==> r == ""
      ensures |tokens| == 1 ==> r == tokens[0]
    {
      Text.Join(tokens)
    }
  }
}
