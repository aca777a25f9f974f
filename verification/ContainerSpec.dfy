// The container a server runs in (agent/containers.py): the body built for Docker,
// the checker every body must pass, the add-on ports in it, and the loop that
// starts it without a port somebody else holds.
//
// A published port is a number and a protocol here; in the body it is their text.

module ContainerSpec {
  import opened Prelude
  import FolderPaths

  const MAX_ADDON_PORTS: nat := 8
  const MAX_PUBLISHED: nat := 10
  const MEGABYTE: nat := 1048576
  const MOUNT: string := "/server"
  const FORBIDDEN: seq<string> := [
    "/var/run/docker.sock", "/run/docker.sock", "/proc", "/sys", "/dev", "/etc", "/root", "/home", "/var/lib/docker"]

  datatype Config = Config(
    root: string, uid: nat, gid: nat, pidsLimit: int, bindIp: string, network: string, soft: bool)

  datatype Key = Key(port: nat, proto: string)

  // The limits a server record may name; None where it does not (or zero).
  datatype Limits = Limits(memoryMb: Option<int>, cpuPct: Option<int>, cpuShares: Option<int>, ioWeight: Option<int>)

  datatype Server = Server(uuid: string, port: nat, limits: Limits, addons: seq<Key>)

  datatype Binding = Binding(hostIp: string, hostPort: nat)

  datatype Body = Body(
    user: string, privileged: bool, capAdd: seq<string>, capDrop: seq<string>, securityOpt: seq<string>,
    modes: seq<Option<string>>, memory: Option<nat>, memorySwap: Option<nat>, reservation: Option<nat>,
    nanoCpus: nat, cpuShares: nat, ioWeight: nat, pidsLimit: int, readonlyRoot: bool,
    devices: bool, kernel: bool, mounts: bool, binds: seq<string>,
    bindings: map<Key, seq<Binding>>, tmpfs: set<string>, restart: Option<string>, stdin: bool)

  // --- text ----------------------------------------------------------------------------

  predicate StartsWith(s: string, p: string) { p <= s }

  predicate EndsWith(s: string, p: string) { |p| <= |s| && s[|s| - |p|..] == p }

  function Decimal(n: nat): (s: string)
    ensures s != [] && (forall c :: c in s ==> '0' <= c <= '9')
    ensures s == "0" <==> n == 0
  {
    if n < 10 then [('0' as int + n) as char]
    else Decimal(n / 10) + [('0' as int + n % 10) as char]
  }

  function Before(s: string, c: char): (r: string)
    ensures c !in r && r <= s
  {
    if s == [] || s[0] == c then [] else [s[0]] + Before(s[1..], c)
  }

  lemma {:induction false} BeforeFirst(a: string, c: char, b: string)
    requires c !in a
    ensures Before(a + [c] + b, c) == a
  {
    if a != [] {
      assert (a + [c] + b)[1..] == a[1..] + [c] + b;
      BeforeFirst(a[1..], c, b);
    } else {
      assert (a + [c] + b)[0] == c;
    }
  }

  // rstrip("/") + "/".
  function WithSlash(root: string): string {
    if root != [] && root[|root| - 1] == '/' then WithSlash(root[..|root| - 1]) else root + "/"
  }

  // --- building ------------------------------------------------------------------------

  function AtLeast(low: int, x: int): int { if x < low then low else x }

  function AtMost(high: int, x: int): int { if x > high then high else x }

  function Given(x: Option<int>, otherwise: int): int { if x.Some? && x.value != 0 then x.value else otherwise }

  // limits_of; `cores` is the node's own.
  function MemoryMb(l: Limits): nat { AtLeast(256, Given(l.memoryMb, 2048)) }
  function CpuPct(l: Limits, cores: nat): nat { AtLeast(10, Given(l.cpuPct, AtLeast(1, cores) * 100)) }
  function CpuShares(l: Limits): nat { AtMost(262144, AtLeast(2, Given(l.cpuShares, 1024))) }
  function IoWeight(l: Limits): nat { AtMost(1000, AtLeast(10, Given(l.ioWeight, 500))) }

  function GameKeys(port: nat): seq<Key> { [Key(port, "tcp"), Key(port, "udp")] }

  // Each add-on key once, after the game port's.
  function Published(port: nat, addons: seq<Key>): seq<Key> {
    if addons == [] then GameKeys(port)
    else
      var rest := Published(port, addons[..|addons| - 1]);
      if addons[|addons| - 1] in rest then rest else rest + [addons[|addons| - 1]]
  }

  function Bindings(keys: seq<Key>, cfg: Config): map<Key, seq<Binding>> {
    map k | k in keys :: [Binding(cfg.bindIp, k.port)]
  }

  function Bind(folder: string): string { folder + ":" + MOUNT + ":rw" }

  // Network, PID, IPC, UTS, user and cgroup namespaces, and the cgroup.
  function ModesOf(network: string): seq<Option<string>> {
    [Some(network), Some(""), Some("private"), None, None, None, None]
  }

  function Built(server: Server, cfg: Config, folder: string, cores: nat): Body {
    var mem := MemoryMb(server.limits) * MEGABYTE;
    Body(
      Decimal(cfg.uid) + ":" + Decimal(cfg.gid), false, [], ["ALL"], ["no-new-privileges:true"],
      ModesOf(cfg.network),
      if cfg.soft then None else Some(mem), if cfg.soft then None else Some(mem), if cfg.soft then Some(mem) else None,
      CpuPct(server.limits, cores) * 10000000, CpuShares(server.limits), IoWeight(server.limits), cfg.pidsLimit, true,
      false, false, false, [Bind(folder)],
      Bindings(Published(server.port, server.addons), cfg), {"/tmp"}, Some("no"), true)
  }

  // installer_spec: the same, with no port published and no way in.
  function Installer(server: Server, cfg: Config, folder: string, cores: nat): Body {
    Built(server, cfg, folder, cores).(bindings := map[], stdin := false)
  }

  // --- checking ------------------------------------------------------------------------

  datatype Unsafe =
    | Privileged | Capabilities | Privileges | HostNamespace | NoMemoryLimit | NoCpuLimit | NoPidLimit
    | WritableRoot | Devices | Kernel | Mounts | BindMounts | NotUnderRoot | SystemPath | AsRoot
    | TooManyPorts | BadPort | BadTmpfs | Restarts

  predicate KeepsPrivilegesOff(opts: seq<string>) {
    && (exists o :: o in opts && StartsWith(o, "no-new-privileges") && !EndsWith(o, "false"))
    && (forall o :: o in opts ==> !EndsWith(o, "unconfined") && o != "label=disable" && o != "label:disable")
  }

  predicate IsForeign(mode: Option<string>) {
    mode.Some? && (mode.value == "host" || StartsWith(mode.value, "container:"))
  }

  predicate MemoryIsLimited(b: Body, cfg: Config) {
    || (b.memory.Some? && b.memory.value > 0 && b.memorySwap == b.memory)
    || (cfg.soft && b.memory in {None, Some(0)} && b.memorySwap in {None, Some(0)}
        && b.reservation.Some? && b.reservation.value > 0)
  }

  predicate IsUnderRoot(folder: string, root: string) {
    StartsWith(folder, WithSlash(root)) && ".." !in FolderPaths.Split(folder)
  }

  predicate IsSystemPath(folder: string) {
    exists i :: 0 <= i < |FORBIDDEN| && StartsWith(folder, FORBIDDEN[i])
  }

  predicate PortIsOwn(k: Key, bs: seq<Binding>, cfg: Config) {
    && k.proto in {"tcp", "udp"}
    && forall b :: b in bs ==> b.hostIp == cfg.bindIp && b.hostPort == k.port && k.port >= 1024
  }

  predicate PublishesAnother(b: Body, cfg: Config) {
    exists k :: k in b.bindings && !PortIsOwn(k, b.bindings[k], cfg)
  }

  // What may be inside: no privileges, no capabilities, no host namespaces, limits
  // on everything.
  function CheckIsolation(b: Body, cfg: Config): Option<Unsafe> {
    if b.privileged then Some(Privileged)
    else if b.capAdd != [] || b.capDrop != ["ALL"] then Some(Capabilities)
    else if !KeepsPrivilegesOff(b.securityOpt) then Some(Privileges)
    else if exists m :: m in b.modes && IsForeign(m) then Some(HostNamespace)
    else if !MemoryIsLimited(b, cfg) then Some(NoMemoryLimit)
    else if b.nanoCpus == 0 then Some(NoCpuLimit)
    else if b.pidsLimit <= 0 then Some(NoPidLimit)
    else if !b.readonlyRoot then Some(WritableRoot)
    else if b.devices then Some(Devices)
    else if b.kernel then Some(Kernel)
    else if b.mounts then Some(Mounts)
    else None
  }

  function CheckFolder(b: Body, cfg: Config, folder: string): Option<Unsafe> {
    if b.binds != [Bind(folder)] then Some(BindMounts)
    else if !IsUnderRoot(folder, cfg.root) then Some(NotUnderRoot)
    else if IsSystemPath(folder) then Some(SystemPath)
    else if b.user == "" || Before(b.user, ':') in {"0", "root"} then Some(AsRoot)
    else None
  }

  function CheckPorts(b: Body, cfg: Config): Option<Unsafe> {
    if |b.bindings| > MAX_PUBLISHED then Some(TooManyPorts)
    else if PublishesAnother(b, cfg) then Some(BadPort)
    else if b.tmpfs - {"/tmp"} != {} then Some(BadTmpfs)
    else if b.restart.Some? && b.restart.value !in {"", "no"} then Some(Restarts)
    else None
  }

  // assert_safe: the first rule a body breaks.
  function Check(b: Body, cfg: Config, folder: string): Option<Unsafe> {
    var isolation, mount := CheckIsolation(b, cfg), CheckFolder(b, cfg, folder);
    if isolation.Some? then isolation else if mount.Some? then mount else CheckPorts(b, cfg)
  }

  // --- builder meets checker ---------------------------------------------------------------

  // A node's settings that the checker has no quarrel with.
  predicate IsSane(cfg: Config, folder: string) {
    && cfg.uid != 0 && cfg.pidsLimit > 0 && !IsForeign(Some(cfg.network))
    && IsUnderRoot(folder, cfg.root) && !IsSystemPath(folder)
  }

  predicate IsGamePort(p: nat) { 1024 <= p <= 65535 }

  predicate IsAddon(k: Key) { IsGamePort(k.port) && k.proto in {"tcp", "udp"} }

  lemma {:induction false} PublishedAre(port: nat, addons: seq<Key>)
    ensures var keys := Published(port, addons);
      && Distinct(keys) && |keys| <= 2 + |addons|
      && forall k :: k in keys <==> k in GameKeys(port) || k in addons
  {
    if addons != [] {
      PublishedAre(port, addons[..|addons| - 1]);
      assert addons == addons[..|addons| - 1] + [addons[|addons| - 1]];
    }
  }

  lemma {:induction false} AsManyKeys(keys: seq<Key>, cfg: Config)
    ensures |Bindings(keys, cfg)| <= |keys|
  {
    if keys == [] {
      assert Bindings(keys, cfg) == map[];
    } else {
      var init, k := keys[..|keys| - 1], keys[|keys| - 1];
      AsManyKeys(init, cfg);
      assert keys == init + [k];
      assert Bindings(keys, cfg) == Bindings(init, cfg)[k := [Binding(cfg.bindIp, k.port)]];
    }
  }

  lemma UserIsNotRoot(cfg: Config)
    ensures var user := Decimal(cfg.uid) + ":" + Decimal(cfg.gid);
      user != "" && (Before(user, ':') in {"0", "root"} <==> cfg.uid == 0)
  {
    var uid := Decimal(cfg.uid);
    BeforeFirst(uid, ':', Decimal(cfg.gid));
    assert uid + ":" + Decimal(cfg.gid) == uid + [':'] + Decimal(cfg.gid);
    assert uid[0] in uid && "root"[0] == 'r';
  }

  lemma PrivilegesAreOff()
    ensures KeepsPrivilegesOff(["no-new-privileges:true"])
  {
    var o := "no-new-privileges:true";
    OneOption(o, [o]);
    EndsOtherwise(o, "false", 2);
    EndsOtherwise(o, "unconfined", 1);
    OptionsOfOne(o, [o]);
  }

  lemma OneOption(o: string, opts: seq<string>)
    requires opts == [o]
    ensures o in opts && forall p :: p in opts ==> p == o
  {}

  lemma OptionsOfOne(o: string, opts: seq<string>)
    requires o in opts && (forall p :: p in opts ==> p == o)
    requires StartsWith(o, "no-new-privileges") && !EndsWith(o, "false") && !EndsWith(o, "unconfined")
    requires o != "label=disable" && o != "label:disable"
    ensures KeepsPrivilegesOff(opts)
  {}

  lemma EndsOtherwise(s: string, end: string, k: nat)
    requires 0 < k <= |s| && k <= |end| && s[|s| - k] != end[|end| - k]
    ensures !EndsWith(s, end)
  {}

  lemma OnlyTheNetworkCanBeForeign(network: string)
    ensures (exists m :: m in ModesOf(network) && IsForeign(m)) <==> IsForeign(Some(network))
  {
    assert ModesOf(network)[0] == Some(network) && ModesOf(network)[0] in ModesOf(network);
    assert "private"[0] == 'p' && "container:"[0] == 'c';
    assert !IsForeign(Some("")) && !IsForeign(Some("private"));
  }

  lemma MemoryIsBuilt(server: Server, cfg: Config, folder: string, cores: nat)
    ensures MemoryIsLimited(Built(server, cfg, folder, cores), cfg) && Built(server, cfg, folder, cores).nanoCpus > 0
  {
    assert MemoryMb(server.limits) >= 256 && CpuPct(server.limits, cores) >= 10;
  }

  lemma IsolationOf(b: Body, cfg: Config)
    requires !b.privileged && b.capAdd == [] && b.capDrop == ["ALL"] && b.securityOpt == ["no-new-privileges:true"]
    requires b.modes == ModesOf(cfg.network) && MemoryIsLimited(b, cfg)
    requires b.nanoCpus > 0 && b.pidsLimit == cfg.pidsLimit
    requires b.readonlyRoot && !b.devices && !b.kernel && !b.mounts
    ensures CheckIsolation(b, cfg).None? <==> cfg.pidsLimit > 0 && !IsForeign(Some(cfg.network))
  {
    PrivilegesAreOff();
    OnlyTheNetworkCanBeForeign(cfg.network);
  }

  lemma IsolationIsBuilt(server: Server, cfg: Config, folder: string, cores: nat)
    ensures CheckIsolation(Built(server, cfg, folder, cores), cfg).None?
      <==> cfg.pidsLimit > 0 && !IsForeign(Some(cfg.network))
    ensures CheckIsolation(Installer(server, cfg, folder, cores), cfg).None?
      <==> cfg.pidsLimit > 0 && !IsForeign(Some(cfg.network))
  {
    MemoryIsBuilt(server, cfg, folder, cores);
    IsolationOf(Built(server, cfg, folder, cores), cfg);
    IsolationOf(Installer(server, cfg, folder, cores), cfg);
  }

  lemma FolderIsBuilt(server: Server, cfg: Config, folder: string, cores: nat)
    ensures CheckFolder(Built(server, cfg, folder, cores), cfg, folder)
         == CheckFolder(Installer(server, cfg, folder, cores), cfg, folder)
    ensures CheckFolder(Built(server, cfg, folder, cores), cfg, folder).None?
       <==> cfg.uid != 0 && IsUnderRoot(folder, cfg.root) && !IsSystemPath(folder)
  {
    UserIsNotRoot(cfg);
  }

  predicate AreAddons(addons: seq<Key>) { |addons| <= MAX_ADDON_PORTS && forall k :: k in addons ==> IsAddon(k) }

  predicate IsAccepted(server: Server) {
    IsGamePort(server.port) && AreAddons(server.addons)
  }

  lemma PortsAreBuilt(server: Server, cfg: Config, folder: string, cores: nat)
    requires IsAccepted(server)
    ensures CheckPorts(Built(server, cfg, folder, cores), cfg).None?
    ensures CheckPorts(Installer(server, cfg, folder, cores), cfg).None?
  {
    PublishedAre(server.port, server.addons);
    AsManyKeys(Published(server.port, server.addons), cfg);
  }

  // For every server record the agent accepts and every add-on list it can find,
  // the body built passes the checker exactly on a sane node.
  lemma BuilderMeetsChecker(server: Server, cfg: Config, folder: string, cores: nat)
    requires IsAccepted(server)
    ensures Check(Built(server, cfg, folder, cores), cfg, folder).None? <==> IsSane(cfg, folder)
    ensures Check(Installer(server, cfg, folder, cores), cfg, folder).None? <==> IsSane(cfg, folder)
  {
    IsolationIsBuilt(server, cfg, folder, cores);
    FolderIsBuilt(server, cfg, folder, cores);
    PortsAreBuilt(server, cfg, folder, cores);
  }

  // --- what is built -----------------------------------------------------------------------

  function ValueOf(digits: string): int {
    if digits == [] then 0
    else ValueOf(digits[..|digits| - 1]) * 10 + (digits[|digits| - 1] as int - '0' as int)
  }

  lemma {:induction false} DecimalReadsBack(n: nat)
    ensures ValueOf(Decimal(n)) == n
  {
    if n < 10 {
      assert Decimal(n)[..0] == [];
    } else {
      DecimalReadsBack(n / 10);
      assert Decimal(n)[..|Decimal(n)| - 1] == Decimal(n / 10);
    }
  }

  // The game port on both protocols, and every add-on key but for the ports refused:
  // these and no others, each on the node's address under its own number.
  ghost predicate IsPublished(b: Body, server: Server, refused: seq<nat>, cfg: Config) {
    && (forall k :: k in b.bindings <==>
          (k.port == server.port && k.proto in {"tcp", "udp"}) || (k in server.addons && k.port !in refused))
    && (forall k :: k in b.bindings ==> b.bindings[k] == [Binding(cfg.bindIp, k.port)])
  }

  // What was asked for, or the default where nothing or zero was, kept within bounds.
  predicate IsLimit(asked: Option<int>, otherwise: int, low: int, high: Option<int>, got: int) {
    var wanted := if asked.None? || asked == Some(0) then otherwise else asked.value;
    && low <= got && (high.Some? ==> got <= high.value)
    && (got == wanted || (got == low && wanted < low) || (high == Some(got) && got < wanted))
  }

  predicate IsMemoryLimit(asked: Option<int>, bytes: nat) {
    bytes % 1048576 == 0 && IsLimit(asked, 2048, 256, None, bytes / 1048576)
  }

  predicate IsCpuLimit(asked: Option<int>, cores: nat, nanos: nat) {
    nanos % 10000000 == 0 && IsLimit(asked, if cores == 0 then 100 else 100 * cores, 10, None, nanos / 10000000)
  }

  // A hard memory limit with no swap beside it, or on a soft node a reservation only;
  // and CPU, shares and weight.
  ghost predicate IsLimited(b: Body, l: Limits, cfg: Config, cores: nat) {
    && b.memorySwap == b.memory && b.memory.None? == cfg.soft && b.reservation.Some? == cfg.soft
    && (b.memory.Some? ==> IsMemoryLimit(l.memoryMb, b.memory.value))
    && (b.reservation.Some? ==> IsMemoryLimit(l.memoryMb, b.reservation.value))
    && IsCpuLimit(l.cpuPct, cores, b.nanoCpus)
    && IsLimit(l.cpuShares, 1024, 2, Some(262144), b.cpuShares)
    && IsLimit(l.ioWeight, 500, 10, Some(1000), b.ioWeight)
    && b.pidsLimit == cfg.pidsLimit
  }

  // As its own user, with its own folder and `/tmp` to write to and nothing else, on
  // the node's game network, and never restarted by Docker.
  ghost predicate IsConfined(b: Body, cfg: Config, folder: string) {
    && b.user == Decimal(cfg.uid) + ":" + Decimal(cfg.gid)
    && b.binds == [folder + ":/server:rw"] && b.tmpfs == {"/tmp"} && b.readonlyRoot
    && b.modes == [Some(cfg.network), Some(""), Some("private"), None, None, None, None] && b.restart == Some("no")
    && !b.privileged && b.capAdd == [] && b.capDrop == ["ALL"] && b.securityOpt == ["no-new-privileges:true"]
  }

  lemma Times(n: nat, m: nat)
    requires m > 0
    ensures n * m % m == 0 && n * m / m == n
  {
    var x := n * m;
    var d := x / m - n;
    assert m * d == -(x % m);
    NoMultiple(m, d);
  }

  lemma NoMultiple(m: nat, d: int)
    ensures d >= 1 ==> m * d >= m
    ensures d <= -1 ==> m * d + m <= 0
  {}

  lemma LimitsAreKept(l: Limits, cores: nat)
    ensures IsMemoryLimit(l.memoryMb, MemoryMb(l) * MEGABYTE)
    ensures IsCpuLimit(l.cpuPct, cores, CpuPct(l, cores) * 10000000)
    ensures IsLimit(l.cpuShares, 1024, 2, Some(262144), CpuShares(l))
    ensures IsLimit(l.ioWeight, 500, 10, Some(1000), IoWeight(l))
  {
    Times(MemoryMb(l), MEGABYTE);
    Times(CpuPct(l, cores), 10000000);
  }

  // For every server record and node: what the body publishes, how it is limited and
  // what it may touch. An installer is as limited, publishes nothing and takes no input.
  lemma WhatIsBuilt(server: Server, cfg: Config, folder: string, cores: nat)
    ensures var b := Built(server, cfg, folder, cores);
      && IsPublished(b, server, [], cfg) && b.stdin
      && IsLimited(b, server.limits, cfg, cores) && IsConfined(b, cfg, folder)
    ensures var b := Installer(server, cfg, folder, cores);
      && b.bindings == map[] && !b.stdin
      && IsLimited(b, server.limits, cfg, cores) && IsConfined(b, cfg, folder)
  {
    KeysAreBuilt(server, cfg, folder, cores);
    LimitsAreKept(server.limits, cores);
    BindIs(folder);
  }

  lemma KeysAreBuilt(server: Server, cfg: Config, folder: string, cores: nat)
    ensures IsPublished(Built(server, cfg, folder, cores), server, [], cfg)
  {
    PublishedAre(server.port, server.addons);
  }

  lemma BindIs(folder: string)
    ensures Bind(folder) == folder + ":/server:rw"
  {
    assert Bind(folder) == folder + (":" + MOUNT + ":rw");
  }

  // --- the folder ------------------------------------------------------------------------

  predicate IsIdChar(c: char) { 'a' <= c <= 'z' || 'A' <= c <= 'Z' || '0' <= c <= '9' || c == '_' || c == '-' }

  // What check_uuid lets through.
  predicate IsServerId(uuid: string) {
    3 <= |uuid| <= 64 && (forall c :: c in uuid ==> IsIdChar(c)) && uuid[0] != '_' && uuid[0] != '-'
  }

  // A servers_root that no forbidden path begins with, and that begins with none.
  predicate IsApart(root: string) {
    forall i :: 0 <= i < |FORBIDDEN| ==> !StartsWith(root + "/", FORBIDDEN[i]) && !StartsWith(FORBIDDEN[i], root + "/")
  }

  lemma PrefixesCompare(folder: string, a: string, b: string)
    requires a <= folder && b <= folder
    ensures a <= b || b <= a
  {}

  // On such a root, every server's own folder is one the checker accepts.
  lemma OwnFoldersFit(root: string, uuid: string)
    requires IsServerId(uuid) && IsApart(root) && ".." !in FolderPaths.Split(root)
    requires root != "" && root[|root| - 1] != '/'
    ensures IsUnderRoot(root + "/" + uuid, root) && !IsSystemPath(root + "/" + uuid)
  {
    var folder := root + "/" + uuid;
    assert '/' !in uuid;
    FolderPaths.SplitOfMore(root, uuid);
    assert folder[..|root| + 1] == root + "/";
    forall i | 0 <= i < |FORBIDDEN|
      ensures !StartsWith(folder, FORBIDDEN[i])
    {
      if FORBIDDEN[i] <= folder { PrefixesCompare(folder, FORBIDDEN[i], root + "/"); }
    }
  }

  // --- the add-ons' ports ------------------------------------------------------------------

  // One add-on as its config, or its default, gives it.
  datatype Candidate = Candidate(port: Option<int>, proto: string)

  predicate IsOpenable(c: Candidate, gamePort: nat) {
    c.port.Some? && 1024 <= c.port.value <= 65535 && Key(c.port.value, c.proto) !in GameKeys(gamePort)
  }

  // The ports there are to open, in the order the add-ons give them, each once.
  function Openable(candidates: seq<Candidate>, gamePort: nat): seq<Key> {
    if candidates == [] then []
    else
      var rest, c := Openable(candidates[..|candidates| - 1], gamePort), candidates[|candidates| - 1];
      if IsOpenable(c, gamePort) && Key(c.port.value, c.proto) !in rest then rest + [Key(c.port.value, c.proto)]
      else rest
  }

  // A port an add-on may have opened: none that is low, and none of the game's own.
  predicate MayOpen(candidates: seq<Candidate>, k: Key, gamePort: nat) {
    Candidate(Some(k.port), k.proto) in candidates && 1024 <= k.port <= 65535 && k !in GameKeys(gamePort)
  }

  // `k` is one of the ports, and `later` is not, as far as the candidates go up to some point.
  ghost predicate ComesFirst(candidates: seq<Candidate>, k: Key, later: Key) {
    exists n :: 0 <= n <= |candidates|
      && Candidate(Some(k.port), k.proto) in candidates[..n]
      && Candidate(Some(later.port), later.proto) !in candidates[..n]
  }

  ghost predicate InOrderOfCandidates(keys: seq<Key>, candidates: seq<Candidate>) {
    forall i, j :: 0 <= i < j < |keys| ==> ComesFirst(candidates, keys[i], keys[j])
  }

  lemma ComesFirstStill(candidates: seq<Candidate>, c: Candidate, k: Key, later: Key)
    requires ComesFirst(candidates, k, later)
    ensures ComesFirst(candidates + [c], k, later)
  {
    var n :| 0 <= n <= |candidates| && Candidate(Some(k.port), k.proto) in candidates[..n]
      && Candidate(Some(later.port), later.proto) !in candidates[..n];
    assert (candidates + [c])[..n] == candidates[..n];
  }

  lemma ComesLast(candidates: seq<Candidate>, c: Candidate, k: Key, later: Key)
    requires Candidate(Some(k.port), k.proto) in candidates && Candidate(Some(later.port), later.proto) !in candidates
    ensures ComesFirst(candidates + [c], k, later)
  {
    assert (candidates + [c])[..|candidates|] == candidates;
  }

  // All ports that may be opened, each once, in the order they first come up.
  lemma {:induction false} OpenableAre(candidates: seq<Candidate>, gamePort: nat)
    ensures var keys := Openable(candidates, gamePort);
      && Distinct(keys) && InOrderOfCandidates(keys, candidates)
      && forall k :: k in keys <==> MayOpen(candidates, k, gamePort)
  {
    if candidates != [] {
      var init, c := candidates[..|candidates| - 1], candidates[|candidates| - 1];
      assert candidates == init + [c];
      OpenableAre(init, gamePort);
      OneMoreCandidate(init, c, gamePort);
    }
  }

  lemma {:induction false} OneMoreCandidate(init: seq<Candidate>, c: Candidate, gamePort: nat)
    requires var keys := Openable(init, gamePort);
      && Distinct(keys) && InOrderOfCandidates(keys, init) && forall k :: k in keys <==> MayOpen(init, k, gamePort)
    ensures var keys := Openable(init + [c], gamePort);
      && Distinct(keys) && InOrderOfCandidates(keys, init + [c])
      && forall k :: k in keys <==> MayOpen(init + [c], k, gamePort)
  {
    var rest, all := Openable(init, gamePort), init + [c];
    assert all[..|all| - 1] == init;
    var keys := Openable(all, gamePort);
    forall i, j | 0 <= i < j < |keys|
      ensures ComesFirst(all, keys[i], keys[j])
    {
      assert rest[i] in rest;
      if j < |rest| { ComesFirstStill(init, c, rest[i], rest[j]); } else { ComesLast(init, c, rest[i], keys[j]); }
    }
  }

  // What is found of them: no more than eight, and the first ones.
  ghost predicate IsFound(found: seq<Key>, candidates: seq<Candidate>, gamePort: nat) {
    && |found| <= MAX_ADDON_PORTS && Distinct(found) && InOrderOfCandidates(found, candidates)
    && (forall k :: k in found ==> MayOpen(candidates, k, gamePort))
    && (|found| < MAX_ADDON_PORTS ==> forall k :: MayOpen(candidates, k, gamePort) ==> k in found)
    && found <= Openable(candidates, gamePort)
    && (|found| == MAX_ADDON_PORTS || found == Openable(candidates, gamePort))
  }

  lemma FirstEightAreFound(candidates: seq<Candidate>, gamePort: nat)
    ensures var out := Openable(candidates, gamePort);
      IsFound(if |out| <= MAX_ADDON_PORTS then out else out[..MAX_ADDON_PORTS], candidates, gamePort)
  {
    OpenableAre(candidates, gamePort);
  }

  // The first eight of them, and so all of them when there are fewer.
  method Detect(candidates: seq<Candidate>, gamePort: nat) returns (found: seq<Key>)
    requires forall c :: c in candidates ==> c.proto in {"tcp", "udp"}
    ensures IsFound(found, candidates, gamePort) && AreAddons(found)
  {
    var out: seq<Key> := [];
    var seen := {Key(gamePort, "tcp"), Key(gamePort, "udp")};
    for n := 0 to |candidates|
      invariant out == Openable(candidates[..n], gamePort)
      invariant forall k :: k in seen <==> k in out || k in GameKeys(gamePort)
    {
      var c := candidates[n];
      assert candidates[..n + 1][..n] == candidates[..n];
      if c.port.Some? && 1024 <= c.port.value <= 65535 {
        var key := Key(c.port.value, c.proto);
        if key !in seen {
          seen := seen + {key};
          out := out + [key];
        }
      }
    }
    assert candidates[..|candidates|] == candidates;
    found := if |out| <= MAX_ADDON_PORTS then out else out[..MAX_ADDON_PORTS];
    FirstEightAreFound(candidates, gamePort);
  }

  // --- starting --------------------------------------------------------------------------------

  // Docker's answer to a start: up, a host port it could not publish, or something else.
  datatype Answer = Started | PortInUse(port: nat) | Trouble

  datatype StartResult = Up(addons: seq<Key>) | GamePortTaken | Failed(left: seq<Key>) | UnsafeBody(why: Unsafe)

  function WithoutPort(addons: seq<Key>, port: nat): seq<Key> {
    if addons == [] then []
    else
      var rest := WithoutPort(addons[..|addons| - 1], port);
      if addons[|addons| - 1].port == port then rest else rest + [addons[|addons| - 1]]
  }

  lemma {:induction false} WithoutPortIs(addons: seq<Key>, port: nat)
    ensures var r := WithoutPort(addons, port);
      && |r| <= |addons| && (forall k :: k in r <==> k in addons && k.port != port)
      && ((exists k :: k in addons && k.port == port) ==> |r| < |addons|)
  {
    if addons != [] {
      WithoutPortIs(addons[..|addons| - 1], port);
      assert addons == addons[..|addons| - 1] + [addons[|addons| - 1]];
    }
  }

  // The add-ons left once Docker has refused these ports, one after another.
  function WithoutPorts(addons: seq<Key>, refused: seq<nat>): seq<Key> {
    if refused == [] then addons
    else WithoutPort(WithoutPorts(addons, refused[..|refused| - 1]), refused[|refused| - 1])
  }

  lemma {:induction false} WithoutPortsAre(addons: seq<Key>, refused: seq<nat>)
    ensures var r := WithoutPorts(addons, refused);
      |r| <= |addons| && forall k :: k in r <==> k in addons && k.port !in refused
  {
    if refused != [] {
      var init := refused[..|refused| - 1];
      WithoutPortsAre(addons, init);
      WithoutPortIs(WithoutPorts(addons, init), refused[|refused| - 1]);
      assert refused == init + [refused[|refused| - 1]];
    }
  }

  method Publishes(addons: seq<Key>, port: nat) returns (yes: bool)
    ensures yes <==> exists k :: k in addons && k.port == port
  {
    for n := 0 to |addons|
      invariant forall i :: 0 <= i < n ==> addons[i].port != port
    {
      if addons[n].port == port { return true; }
    }
    yes := false;
  }

  // The ports refused so far: each by one start, of a body that had passed, and none
  // of them the game port.
  ghost predicate Dropped(port: nat, addons: seq<Key>, check: seq<Key> -> Option<Unsafe>,
                          answer: nat -> Answer, refused: seq<nat>) {
    && |refused| + |WithoutPorts(addons, refused)| <= |addons|
    && port !in refused
    && forall i :: 0 <= i < |refused| ==>
         answer(i) == PortInUse(refused[i]) && check(WithoutPorts(addons, refused[..i])).None?
  }

  lemma OneMoreDropped(port: nat, addons: seq<Key>, check: seq<Key> -> Option<Unsafe>, answer: nat -> Answer,
                       refused: seq<nat>, p: nat)
    requires Dropped(port, addons, check, answer, refused) && check(WithoutPorts(addons, refused)).None?
    requires answer(|refused|) == PortInUse(p) && p != port
    requires exists k :: k in WithoutPorts(addons, refused) && k.port == p
    ensures Dropped(port, addons, check, answer, refused + [p])
    ensures WithoutPorts(addons, refused + [p]) == WithoutPort(WithoutPorts(addons, refused), p)
  {
    var more := refused + [p];
    assert more[..|more| - 1] == refused;
    WithoutPortIs(WithoutPorts(addons, refused), p);
    forall i | 0 <= i < |more|
      ensures answer(i) == PortInUse(more[i]) && check(WithoutPorts(addons, more[..i])).None?
    {
      if i < |refused| { assert more[..i] == refused[..i]; }
    }
  }

  // `start`: without each add-on port that turns out to be taken, rather than not
  // at all; never without the game port. `check` is what the checker says of the
  // body with these add-ons, `answer(i)` how its i-th start ends. It ends: each
  // start after the first has an add-on port less.
  method Retry(port: nat, addons: seq<Key>, check: seq<Key> -> Option<Unsafe>, answer: nat -> Answer)
    returns (r: StartResult, refused: seq<nat>)
    ensures |refused| <= |addons| && Dropped(port, addons, check, answer, refused)
    ensures r.UnsafeBody? <==> check(WithoutPorts(addons, refused)).Some?
    ensures r.Up? <==> !r.UnsafeBody? && answer(|refused|).Started?
    ensures r.Up? ==> r.addons == WithoutPorts(addons, refused)
    ensures r.GamePortTaken? <==> !r.UnsafeBody? && answer(|refused|) == PortInUse(port)
    ensures r.Failed? ==>
      || answer(|refused|).Trouble?
      || (answer(|refused|).PortInUse? && forall k :: k in r.left ==> k.port != answer(|refused|).port)
    ensures r.Failed? ==> r.left == WithoutPorts(addons, refused)
  {
    refused := [];
    var wanted := addons;
    while true
      invariant wanted == WithoutPorts(addons, refused) && Dropped(port, addons, check, answer, refused)
      decreases |wanted|
    {
      var unsafe := check(wanted);
      if unsafe.Some? { return UnsafeBody(unsafe.value), refused; }
      var said := answer(|refused|);
      if said.Started? { return Up(wanted), refused; }
      if said.Trouble? { return Failed(wanted), refused; }
      if said.port == port { return GamePortTaken, refused; }
      var publishes := Publishes(wanted, said.port);
      if !publishes { return Failed(wanted), refused; }
      OneMoreDropped(port, addons, check, answer, refused, said.port);
      WithoutPortIs(wanted, said.port);
      refused := refused + [said.port];
      wanted := WithoutPort(wanted, said.port);
    }
  }

  lemma AnyAddonsPass(server: Server, refused: seq<nat>, cfg: Config, folder: string, cores: nat)
    requires IsAccepted(server)
    ensures var left := server.(addons := WithoutPorts(server.addons, refused));
      Check(Built(left, cfg, folder, cores), cfg, folder).None? <==> IsSane(cfg, folder)
  {
    WithoutPortsAre(server.addons, refused);
    BuilderMeetsChecker(server.(addons := WithoutPorts(server.addons, refused)), cfg, folder, cores);
  }

  // The body with the add-ons left publishes the game port and these.
  lemma WhatIsLeftIsBuilt(server: Server, refused: seq<nat>, cfg: Config, folder: string, cores: nat)
    ensures var b := Built(server.(addons := WithoutPorts(server.addons, refused)), cfg, folder, cores);
      && IsPublished(b, server, refused, cfg) && b.stdin
      && IsLimited(b, server.limits, cfg, cores) && IsConfined(b, cfg, folder)
  {
    WhatIsBuilt(server.(addons := WithoutPorts(server.addons, refused)), cfg, folder, cores);
    WithoutPortsAre(server.addons, refused);
  }

  // So on a sane node the checker never stands in the way of a start, however many
  // add-on ports are dropped on the way; on any other, nothing is ever started. `body`
  // is the last one made: if the server is up, the one that was started.
  method Begin(server: Server, cfg: Config, folder: string, cores: nat, answer: nat -> Answer)
    returns (r: StartResult, refused: seq<nat>, body: Body)
    requires IsAccepted(server)
    ensures IsPublished(body, server, refused, cfg) && IsLimited(body, server.limits, cfg, cores)
    ensures IsConfined(body, cfg, folder) && body.stdin
    ensures r.UnsafeBody? <==> !IsSane(cfg, folder)
    ensures r.UnsafeBody? ==> refused == []
    ensures |refused| <= |server.addons| && server.port !in refused
    ensures r.Up? ==>
      answer(|refused|).Started? && forall k :: k in r.addons <==> k in server.addons && k.port !in refused
    ensures r.Up? <==> IsSane(cfg, folder) && answer(|refused|).Started?
    ensures r.GamePortTaken? <==> IsSane(cfg, folder) && answer(|refused|) == PortInUse(server.port)
  {
    var check := addons => Check(Built(server.(addons := addons), cfg, folder, cores), cfg, folder);
    r, refused := Retry(server.port, server.addons, check, answer);
    body := Built(server.(addons := WithoutPorts(server.addons, refused)), cfg, folder, cores);
    WhatIsLeftIsBuilt(server, refused, cfg, folder, cores);
    AnyAddonsPass(server, refused, cfg, folder, cores);
    WithoutPortsAre(server.addons, refused);
    if refused != [] {
      assert check(WithoutPorts(server.addons, refused[..0])).None?;
      AnyAddonsPass(server, refused[..0], cfg, folder, cores);
    }
  }
}
