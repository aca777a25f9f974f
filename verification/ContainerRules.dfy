// The rules a container body must keep, one by one, each by what it says of the body;
// and that the checker lets a body through exactly when it keeps all of them, and
// otherwise names the first one broken.

module ContainerRules {
  import opened Prelude
  import opened ContainerSpec
  import FolderPaths

  predicate Ends(s: string, end: string) { |end| <= |s| && s[|s| - |end|..] == end }

  predicate IsAbsent(x: Option<nat>) { x.None? || x.value == 0 }

  // Under the root, whatever slashes the root ends with, and with no ".." on the way.
  predicate IsCut(root: string, n: nat) {
    && n <= |root| && (n > 0 ==> root[n - 1] != '/')
    && forall i :: n <= i < |root| ==> root[i] == '/'
  }

  ghost predicate IsWithin(folder: string, root: string) {
    && (exists n: nat :: IsCut(root, n) && root[..n] + "/" <= folder)
    && ".." !in FolderPaths.Split(folder)
  }

  predicate IsNobodyElse(o: string) { !Ends(o, "unconfined") && o != "label=disable" && o != "label:disable" }

  predicate TurnsOff(o: string) { "no-new-privileges" <= o && !Ends(o, "false") }

  predicate IsShared(mode: Option<string>) { mode == Some("host") || (mode.Some? && "container:" <= mode.value) }

  predicate IsElsewhere(k: Key, bs: seq<Binding>, cfg: Config) {
    || (k.proto != "tcp" && k.proto != "udp")
    || exists i :: 0 <= i < |bs| && (bs[i] != Binding(cfg.bindIp, k.port) || k.port < 1024)
  }

  ghost predicate Breaks(rule: Unsafe, b: Body, cfg: Config, folder: string) {
    match rule
    case Privileged => b.privileged
    case Capabilities => |b.capAdd| > 0 || b.capDrop != ["ALL"]
    case Privileges =>
      (forall o :: o in b.securityOpt ==> !TurnsOff(o)) || exists o :: o in b.securityOpt && !IsNobodyElse(o)
    case HostNamespace => exists m :: m in b.modes && IsShared(m)
    case NoMemoryLimit =>
      && (IsAbsent(b.memory) || b.memorySwap != b.memory)
      && (!cfg.soft || !IsAbsent(b.memory) || !IsAbsent(b.memorySwap) || IsAbsent(b.reservation))
    case NoCpuLimit => b.nanoCpus == 0
    case NoPidLimit => b.pidsLimit <= 0
    case WritableRoot => !b.readonlyRoot
    case Devices => b.devices
    case Kernel => b.kernel
    case Mounts => b.mounts
    case BindMounts => b.binds != [folder + ":/server:rw"]
    case NotUnderRoot => !IsWithin(folder, cfg.root)
    case SystemPath => exists i :: 0 <= i < 9 && FORBIDDEN[i] <= folder
    case AsRoot => b.user in {"", "0", "root"} || "0:" <= b.user || "root:" <= b.user
    case TooManyPorts => |b.bindings| > 10
    case BadPort => exists k :: k in b.bindings && IsElsewhere(k, b.bindings[k], cfg)
    case BadTmpfs => exists p :: p in b.tmpfs && p != "/tmp"
    case Restarts => b.restart.Some? && b.restart.value != "" && b.restart.value != "no"
  }

  // The order they are looked at in.
  function Place(rule: Unsafe): nat {
    match rule
    case Privileged => 0 case Capabilities => 1 case Privileges => 2 case HostNamespace => 3
    case NoMemoryLimit => 4 case NoCpuLimit => 5 case NoPidLimit => 6 case WritableRoot => 7
    case Devices => 8 case Kernel => 9 case Mounts => 10 case BindMounts => 11 case NotUnderRoot => 12
    case SystemPath => 13 case AsRoot => 14 case TooManyPorts => 15 case BadPort => 16
    case BadTmpfs => 17 case Restarts => 18
  }

  lemma PrivilegesRule(b: Body, cfg: Config, folder: string)
    ensures KeepsPrivilegesOff(b.securityOpt) <==> !Breaks(Privileges, b, cfg, folder)
  {
    forall o | o in b.securityOpt
      ensures TurnsOff(o) <==> StartsWith(o, "no-new-privileges") && !EndsWith(o, "false")
      ensures IsNobodyElse(o) <==> !EndsWith(o, "unconfined") && o != "label=disable" && o != "label:disable"
    {}
  }

  lemma NamespaceRule(b: Body, cfg: Config, folder: string)
    ensures (exists m :: m in b.modes && IsForeign(m)) <==> Breaks(HostNamespace, b, cfg, folder)
  {
    forall m | m in b.modes
      ensures IsForeign(m) <==> IsShared(m)
    {}
  }

  lemma MemoryRule(b: Body, cfg: Config, folder: string)
    ensures MemoryIsLimited(b, cfg) <==> !Breaks(NoMemoryLimit, b, cfg, folder)
  {
    AbsentIs(b.memory);
    AbsentIs(b.memorySwap);
    AbsentIs(b.reservation);
  }

  lemma AbsentIs(x: Option<nat>)
    ensures x in {None, Some(0)} <==> IsAbsent(x)
    ensures x.Some? && x.value > 0 <==> !IsAbsent(x)
  {}

  lemma {:induction false} WithSlashIs(root: string) returns (n: nat)
    ensures IsCut(root, n) && WithSlash(root) == root[..n] + "/"
  {
    if root != [] && root[|root| - 1] == '/' {
      n := WithSlashIs(root[..|root| - 1]);
      assert root[..|root| - 1][..n] == root[..n];
    } else {
      n := |root|;
      assert root[..n] == root;
    }
  }

  lemma OneCut(root: string, n: nat, m: nat)
    requires IsCut(root, n) && IsCut(root, m)
    ensures n == m
  {}

  lemma RootRule(b: Body, cfg: Config, folder: string)
    ensures IsUnderRoot(folder, cfg.root) <==> !Breaks(NotUnderRoot, b, cfg, folder)
  {
    var n := WithSlashIs(cfg.root);
    forall m: nat | IsCut(cfg.root, m)
      ensures m == n
    {
      OneCut(cfg.root, n, m);
    }
  }

  lemma {:induction false} BeforeIs(s: string, c: char, a: string)
    requires c !in a
    ensures Before(s, c) == a <==> s == a || a + [c] <= s
  {
    if s == [] {
    } else if s[0] == c || a == [] {
      assert a + [c] <= s ==> s[0] == (a + [c])[0];
    } else {
      BeforeIs(s[1..], c, a[1..]);
      FirstThenRest(s, a);
      FirstThenRest(s, a + [c]);
      assert (a + [c])[1..] == a[1..] + [c];
    }
  }

  lemma FirstThenRest(s: string, a: string)
    requires s != [] && a != []
    ensures a <= s <==> a[0] == s[0] && a[1..] <= s[1..]
    ensures a == s <==> a[0] == s[0] && a[1..] == s[1..]
  {
    if a[0] == s[0] && a[1..] <= s[1..] {
      assert a == [a[0]] + a[1..];
      assert s == [s[0]] + s[1..];
    }
  }

  lemma UserRule(b: Body, cfg: Config, folder: string)
    ensures b.user == "" || Before(b.user, ':') in {"0", "root"} <==> Breaks(AsRoot, b, cfg, folder)
  {
    BeforeIs(b.user, ':', "0");
    BeforeIs(b.user, ':', "root");
    assert "0" + [':'] == "0:" && "root" + [':'] == "root:";
  }

  lemma PortRule(b: Body, cfg: Config, folder: string)
    ensures PublishesAnother(b, cfg) <==> Breaks(BadPort, b, cfg, folder)
  {
    forall k | k in b.bindings
      ensures PortIsOwn(k, b.bindings[k], cfg) <==> !IsElsewhere(k, b.bindings[k], cfg)
    {
      OwnPort(k, b.bindings[k], cfg);
    }
  }

  lemma OwnPort(k: Key, bs: seq<Binding>, cfg: Config)
    ensures PortIsOwn(k, bs, cfg) <==> !IsElsewhere(k, bs, cfg)
  {
    if !IsElsewhere(k, bs, cfg) {
      forall x | x in bs
        ensures x.hostIp == cfg.bindIp && x.hostPort == k.port && k.port >= 1024
      {
        var i :| 0 <= i < |bs| && bs[i] == x;
      }
    } else if k.proto == "tcp" || k.proto == "udp" {
      var i :| 0 <= i < |bs| && (bs[i] != Binding(cfg.bindIp, k.port) || k.port < 1024);
      assert bs[i] in bs;
    }
  }

  lemma PathRules(b: Body, cfg: Config, folder: string)
    ensures b.binds != [Bind(folder)] <==> Breaks(BindMounts, b, cfg, folder)
    ensures IsSystemPath(folder) <==> Breaks(SystemPath, b, cfg, folder)
    ensures b.tmpfs - {"/tmp"} != {} <==> Breaks(BadTmpfs, b, cfg, folder)
  {
    BindIs(folder);
    if Breaks(BadTmpfs, b, cfg, folder) {
      var p :| p in b.tmpfs && p != "/tmp";
      assert p in b.tmpfs - {"/tmp"};
    }
  }

  // What is said of one rule by what a check comes to: it is kept if nothing is
  // named, or something later, and broken if it is named itself.
  ghost predicate IsSaid(r: Option<Unsafe>, rule: Unsafe, broken: bool) {
    && (r.None? || Place(rule) < Place(r.value) ==> !broken)
    && (r == Some(rule) ==> broken)
  }

  lemma IsolationSays(b: Body, cfg: Config, folder: string, rule: Unsafe)
    requires Place(rule) <= 10
    ensures IsSaid(CheckIsolation(b, cfg), rule, Breaks(rule, b, cfg, folder))
  {
    match rule {
      case Privileges => PrivilegesRule(b, cfg, folder);
      case HostNamespace => NamespaceRule(b, cfg, folder);
      case NoMemoryLimit => MemoryRule(b, cfg, folder);
      case _ =>
    }
  }

  lemma FolderSays(b: Body, cfg: Config, folder: string, rule: Unsafe)
    requires 11 <= Place(rule) <= 14
    ensures IsSaid(CheckFolder(b, cfg, folder), rule, Breaks(rule, b, cfg, folder))
  {
    match rule {
      case NotUnderRoot => RootRule(b, cfg, folder);
      case AsRoot => UserRule(b, cfg, folder);
      case _ => PathRules(b, cfg, folder);
    }
  }

  lemma PortsSay(b: Body, cfg: Config, folder: string, rule: Unsafe)
    requires 15 <= Place(rule)
    ensures IsSaid(CheckPorts(b, cfg), rule, Breaks(rule, b, cfg, folder))
  {
    match rule {
      case BadPort => PortRule(b, cfg, folder);
      case BadTmpfs => PathRules(b, cfg, folder);
      case _ =>
    }
  }

  lemma IsolationIsFirst(b: Body, cfg: Config)
    ensures CheckIsolation(b, cfg).Some? ==> Place(CheckIsolation(b, cfg).value) <= 10
  {}

  lemma FolderIsNext(b: Body, cfg: Config, folder: string)
    ensures CheckFolder(b, cfg, folder).Some? ==> 11 <= Place(CheckFolder(b, cfg, folder).value) <= 14
  {}

  lemma PortsAreLast(b: Body, cfg: Config)
    ensures CheckPorts(b, cfg).Some? ==> 15 <= Place(CheckPorts(b, cfg).value)
  {}

  lemma CheckerSays(b: Body, cfg: Config, folder: string, rule: Unsafe)
    ensures IsSaid(Check(b, cfg, folder), rule, Breaks(rule, b, cfg, folder))
  {
    IsolationIsFirst(b, cfg);
    FolderIsNext(b, cfg, folder);
    PortsAreLast(b, cfg);
    if Place(rule) <= 10 {
      IsolationSays(b, cfg, folder, rule);
    } else if Place(rule) <= 14 {
      FolderSays(b, cfg, folder, rule);
    } else {
      PortsSay(b, cfg, folder, rule);
    }
  }

  // For every body, node and folder: the checker names the first rule the body breaks,
  // and lets it through exactly when it breaks none.
  lemma CheckerNamesTheFirst(b: Body, cfg: Config, folder: string)
    ensures var r := Check(b, cfg, folder);
      && (r.Some? ==> Breaks(r.value, b, cfg, folder))
      && (forall rule :: r.Some? && Place(rule) < Place(r.value) ==> !Breaks(rule, b, cfg, folder))
      && (r.None? <==> forall rule :: !Breaks(rule, b, cfg, folder))
  {
    forall rule
      ensures IsSaid(Check(b, cfg, folder), rule, Breaks(rule, b, cfg, folder))
    {
      CheckerSays(b, cfg, folder, rule);
    }
    var r := Check(b, cfg, folder);
    assert r.Some? ==> Breaks(r.value, b, cfg, folder);
  }
}
