/** The configured tunnels as the gateway starts them and as the tunnel-ports command lists them:
    cmd/serial-gateway/main.go:43-72, 94-134, cmd/tunnel-ports/main.go:57-89, 97-125. */
module TunnelTargets {
  import opened Options
  import opened Strconv
  import opened TunnelFanIn
  import opened TunnelPorts

  /** An enabled tunnel under the name it is started or listed by. */
  datatype Entry = Entry(name: string, tunnel: TunnelConfig)

  /** What startReverseTunnel builds. */
  datatype Tunnel =
    | LocalForward(name: string, host: string, localPort: int)
    | ReverseTunnel(name: string, host: string, forwards: seq<ForwardSpec>)

  /** What buildTarget prints. */
  datatype Target = Target(name: string, host: string, remotePorts: seq<int>, localPort: int)

  /** A port some tunnel listens on: on its server, or on this machine. */
  datatype Listener = Remote(name: string, host: string, port: int) | Local(name: string, host: string, port: int)

  const LOCAL_KIND := "local_forward"
  const SERIAL_KIND := "serial_ssh"

  const REVERSE_NAME := "reverse_tunnel"
  const ADB_NAME := "adb_reverse_tunnel"
  const SERIAL_NAME := "serial_ssh_tunnel"

  /** The three named tunnels, of which the last is of kind serial_ssh whatever its section says. */
  function NamedTunnels(cfg: Config): seq<Entry> {
    [Entry(REVERSE_NAME, cfg.reverseTunnel),
     Entry(ADB_NAME, cfg.adbReverseTunnel),
     Entry(SERIAL_NAME, cfg.serialSshTunnel.(kind := SERIAL_KIND))]
  }

  function PositionName(i: nat): string { "reverse_tunnels[" + Decimal(i) + "]" }

  /** The position reads back from the name, so no two unnamed tunnels of the list share one. */
  lemma {:induction false} PositionNameReads(i: nat, j: nat)
    ensures var n := PositionName(i);
            && |n| > 17 && n[..16] == "reverse_tunnels[" && n[|n| - 1] == ']'
            && AllDigits(n[16..|n| - 1]) && Value(n[16..|n| - 1]) == i
    ensures PositionName(i) == PositionName(j) ==> i == j
  {
    PositionDigits(i);
    PositionDigits(j);
    DecimalRoundTrip(i);
    DecimalRoundTrip(j);
  }

  lemma {:induction false} PositionDigits(i: nat)
    ensures var n := PositionName(i);
            |n| == |Decimal(i)| + 17 && n[..16] == "reverse_tunnels[" && n[16..|n| - 1] == Decimal(i) && n[|n| - 1] == ']'
  {
    var n := PositionName(i);
    assert n == "reverse_tunnels[" + Decimal(i) + "]";
  }

  function ListName(rt: TunnelConfig, i: nat): string { if rt.name == "" then PositionName(i) else rt.name }

  function ListedTunnels(rts: seq<TunnelConfig>): (es: seq<Entry>)
    ensures |es| == |rts|
  {
    if rts == [] then []
    else
      var i := |rts| - 1;
      ListedTunnels(rts[..i]) + [Entry(ListName(rts[i], i), rts[i])]
  }

  /** An empty host disables a tunnel. */
  function EnabledOf(es: seq<Entry>): seq<Entry> {
    if es == [] then []
    else
      var e := es[|es| - 1];
      if e.tunnel.host == "" then EnabledOf(es[..|es| - 1]) else EnabledOf(es[..|es| - 1]) + [e]
  }

  function Enabled(cfg: Config): seq<Entry> {
    EnabledOf(NamedTunnels(cfg) + ListedTunnels(cfg.reverseTunnels))
  }

  /** The tunnel started for an entry, none for serial_ssh without a single port. */
  function StartedFor(e: Entry, cfg: Config): Option<Tunnel> {
    if e.tunnel.kind == LOCAL_KIND then Some(LocalForward(e.name, e.tunnel.host, e.tunnel.localPort))
    else if e.tunnel.kind == SERIAL_KIND then
      if SerialForwards(cfg) == [] then None else Some(ReverseTunnel(e.name, e.tunnel.host, SerialForwards(cfg)))
    else Some(ReverseTunnel(e.name, e.tunnel.host,
                            [ForwardSpec("", e.tunnel.remotePort, e.tunnel.targetHost, e.tunnel.localPort)]))
  }

  function TargetFor(e: Entry, cfg: Config): Target {
    if e.tunnel.kind == LOCAL_KIND then Target(e.name, e.tunnel.host, [], e.tunnel.localPort)
    else if e.tunnel.kind == SERIAL_KIND then
      Target(e.name, e.tunnel.host, Derive(Images(cfg.ports, cfg.basePort)), 0)
    else Target(e.name, e.tunnel.host, [e.tunnel.remotePort], 0)
  }

  function Started(es: seq<Entry>, cfg: Config): seq<Tunnel> {
    if es == [] then []
    else
      var t := StartedFor(es[|es| - 1], cfg);
      if t.Some? then Started(es[..|es| - 1], cfg) + [t.value] else Started(es[..|es| - 1], cfg)
  }

  function Targets(es: seq<Entry>, cfg: Config): (ts: seq<Target>)
    ensures |ts| == |es|
  {
    if es == [] then [] else Targets(es[..|es| - 1], cfg) + [TargetFor(es[|es| - 1], cfg)]
  }

  function Bound(name: string, host: string, ports: seq<int>): seq<Listener> {
    if ports == [] then [] else Bound(name, host, ports[..|ports| - 1]) + [Remote(name, host, ports[|ports| - 1])]
  }

  function RemoteListeners(t: Tunnel): seq<Listener> {
    match t
    case LocalForward(_, _, _) => []
    case ReverseTunnel(name, host, forwards) => Bound(name, host, RemotePorts(forwards))
  }

  /** Every remote listener the started tunnels ask their servers for, in order. */
  function Requested(ts: seq<Tunnel>): seq<Listener> {
    if ts == [] then [] else Requested(ts[..|ts| - 1]) + RemoteListeners(ts[|ts| - 1])
  }

  /** Every remote port printed, with the tunnel it is printed for. */
  function Printed(ts: seq<Target>): seq<Listener> {
    if ts == [] then []
    else
      var t := ts[|ts| - 1];
      Printed(ts[..|ts| - 1]) + Bound(t.name, t.host, t.remotePorts)
  }

  /** A local forward listens on this machine whatever its port: 0 is any free port. */
  function LocalListeners(t: Tunnel): seq<Listener> {
    match t
    case LocalForward(name, host, localPort) => [Local(name, host, localPort)]
    case ReverseTunnel(_, _, _) => []
  }

  function OpenedLocally(ts: seq<Tunnel>): seq<Listener> {
    if ts == [] then [] else OpenedLocally(ts[..|ts| - 1]) + LocalListeners(ts[|ts| - 1])
  }

  /** A local port of 0 is left out of the printed output. */
  function LocalPorts(t: Target): seq<Listener> {
    if t.localPort == 0 then [] else [Local(t.name, t.host, t.localPort)]
  }

  function PrintedLocally(ts: seq<Target>): seq<Listener> {
    if ts == [] then [] else PrintedLocally(ts[..|ts| - 1]) + LocalPorts(ts[|ts| - 1])
  }

  lemma {:induction false} RequestedSnoc(ts: seq<Tunnel>, t: Tunnel)
    ensures Requested(ts + [t]) == Requested(ts) + RemoteListeners(t)
  {
    assert (ts + [t])[..|ts|] == ts;
  }

  lemma {:induction false} EntryAgrees(e: Entry, cfg: Config)
    ensures var t, p := StartedFor(e, cfg), TargetFor(e, cfg);
            Bound(p.name, p.host, p.remotePorts) == if t.Some? then RemoteListeners(t.value) else []
  {
    ForwardsPorts(Derive(Images(cfg.ports, cfg.basePort)), cfg.ports, cfg.basePort);
  }

  lemma {:induction false} RequestedArePrinted(es: seq<Entry>, cfg: Config)
    ensures Requested(Started(es, cfg)) == Printed(Targets(es, cfg))
  {
    if es != [] {
      var before, e := es[..|es| - 1], es[|es| - 1];
      RequestedArePrinted(before, cfg);
      EntryAgrees(e, cfg);
      var t := StartedFor(e, cfg);
      if t.Some? {
        RequestedSnoc(Started(before, cfg), t.value);
      } else {
        assert Started(es, cfg) == Started(before, cfg);
      }
    }
  }

  /** For every configuration, the gateway asks for exactly the remote listeners that tunnel-ports prints: the same
      ports, on the same hosts, for the tunnels of the same names, in the same order. */
  lemma {:induction false} SameListeners(cfg: Config)
    ensures Requested(Started(Enabled(cfg), cfg)) == Printed(Targets(Enabled(cfg), cfg))
  {
    RequestedArePrinted(Enabled(cfg), cfg);
  }

  predicate AnyLocalPort(e: Entry) { e.tunnel.kind == LOCAL_KIND && e.tunnel.localPort == 0 }

  lemma {:induction false} OpenedSnoc(ts: seq<Tunnel>, t: Tunnel)
    ensures OpenedLocally(ts + [t]) == OpenedLocally(ts) + LocalListeners(t)
  {
    assert (ts + [t])[..|ts|] == ts;
  }

  predicate SomeAnyPort(es: seq<Entry>) {
    es != [] && (AnyLocalPort(es[|es| - 1]) || SomeAnyPort(es[..|es| - 1]))
  }

  lemma {:induction false} SomeAnyPortIs(es: seq<Entry>)
    ensures SomeAnyPort(es) <==> exists i :: 0 <= i < |es| && AnyLocalPort(es[i])
  {
    if es != [] {
      var before := es[..|es| - 1];
      SomeAnyPortIs(before);
      assert forall i :: 0 <= i < |before| ==> es[i] == before[i];
    }
  }

  lemma {:induction false} LocalEntry(e: Entry, cfg: Config)
    ensures var t, p := StartedFor(e, cfg), TargetFor(e, cfg);
            var listening, printed := if t.Some? then LocalListeners(t.value) else [], LocalPorts(p);
            if AnyLocalPort(e) then printed == [] && |listening| == 1 else printed == listening
  {
  }

  /** Tunnels and targets one entry longer. */
  lemma {:induction false} LocalsStep(es: seq<Entry>, e: Entry, cfg: Config)
    ensures PrintedLocally(Targets(es + [e], cfg)) == PrintedLocally(Targets(es, cfg)) + LocalPorts(TargetFor(e, cfg))
    ensures var t := StartedFor(e, cfg);
            OpenedLocally(Started(es + [e], cfg))
            == OpenedLocally(Started(es, cfg)) + if t.Some? then LocalListeners(t.value) else []
  {
    assert (es + [e])[..|es|] == es;
    var t := StartedFor(e, cfg);
    if t.Some? { OpenedSnoc(Started(es, cfg), t.value); }
  }

  lemma {:induction false} LocalsAgree(es: seq<Entry>, cfg: Config)
    ensures var listening, printed := OpenedLocally(Started(es, cfg)), PrintedLocally(Targets(es, cfg));
            if SomeAnyPort(es) then |printed| < |listening| else printed == listening
  {
    if es != [] {
      var before, e := es[..|es| - 1], es[|es| - 1];
      assert es == before + [e];
      LocalsAgree(before, cfg);
      LocalEntry(e, cfg);
      LocalsStep(before, e, cfg);
    }
  }

  /** The local listeners agree with the printed local ports exactly when no enabled local_forward asks for any port. */
  lemma {:induction false} SameLocalListeners(cfg: Config)
    ensures OpenedLocally(Started(Enabled(cfg), cfg)) == PrintedLocally(Targets(Enabled(cfg), cfg))
            <==> forall i :: 0 <= i < |Enabled(cfg)| ==> !AnyLocalPort(Enabled(cfg)[i])
  {
    LocalsAgree(Enabled(cfg), cfg);
    SomeAnyPortIs(Enabled(cfg));
  }

  function StartedNames(ts: seq<Tunnel>): (ns: seq<string>)
    ensures |ns| == |ts|
  {
    if ts == [] then [] else StartedNames(ts[..|ts| - 1]) + [ts[|ts| - 1].name]
  }

  function PrintedNames(ts: seq<Target>): (ns: seq<string>)
    ensures |ns| == |ts|
  {
    if ts == [] then [] else PrintedNames(ts[..|ts| - 1]) + [ts[|ts| - 1].name]
  }

  lemma {:induction false} StartedAtMost(es: seq<Entry>, cfg: Config)
    ensures |Started(es, cfg)| <= |es|
    ensures |Started(es, cfg)| == |es| <==> forall i :: 0 <= i < |es| ==> StartedFor(es[i], cfg).Some?
  {
    if es != [] {
      var before := es[..|es| - 1];
      StartedAtMost(before, cfg);
      assert forall i :: 0 <= i < |before| ==> es[i] == before[i];
    }
  }

  lemma {:induction false} NamesAgree(es: seq<Entry>, cfg: Config)
    requires forall i :: 0 <= i < |es| ==> StartedFor(es[i], cfg).Some?
    ensures StartedNames(Started(es, cfg)) == PrintedNames(Targets(es, cfg))
  {
    if es != [] { NamesAgree(es[..|es| - 1], cfg); }
  }

  lemma {:induction false} SomePort(cfg: Config)
    ensures SerialForwards(cfg) != [] <==>
            exists i :: 0 <= i < |cfg.ports| && PortMapping(cfg.ports[i], cfg.basePort) != 0
  {
    var ms := Images(cfg.ports, cfg.basePort);
    DeriveIsFirstOccurrences(ms);
    forall i: nat | i < |cfg.ports| ensures ms[i] == PortMapping(cfg.ports[i], cfg.basePort) {
      ImageAt(cfg.ports, cfg.basePort, i);
    }
    if SerialForwards(cfg) != [] {
      HeadIn(Derive(ms));
      var i :| 0 <= i < |ms| && ms[i] == Derive(ms)[0];
      assert PortMapping(cfg.ports[i], cfg.basePort) != 0;
    }
    if i :| 0 <= i < |cfg.ports| && PortMapping(cfg.ports[i], cfg.basePort) != 0 {
      assert ms[i] in ms;
    }
  }

  /** tunnel-ports is documented to print the tunnel set the gateway starts. It does exactly when some device has a port
      or no enabled tunnel is of kind serial_ssh: otherwise it lists a tunnel, without ports, that is never started. */
  lemma {:induction false} SameTunnels(cfg: Config)
    ensures StartedNames(Started(Enabled(cfg), cfg)) == PrintedNames(Targets(Enabled(cfg), cfg))
            <==> (exists i :: 0 <= i < |cfg.ports| && PortMapping(cfg.ports[i], cfg.basePort) != 0)
                 || (forall i :: 0 <= i < |Enabled(cfg)| ==> Enabled(cfg)[i].tunnel.kind != SERIAL_KIND)
  {
    var es := Enabled(cfg);
    SomePort(cfg);
    StartedAtMost(es, cfg);
    if forall i :: 0 <= i < |es| ==> StartedFor(es[i], cfg).Some? { NamesAgree(es, cfg); }
  }

  lemma {:induction false} StartedFrom(es: seq<Entry>, cfg: Config, i: nat) returns (e: Entry)
    requires i < |Started(es, cfg)|
    ensures e in es && StartedFor(e, cfg) == Some(Started(es, cfg)[i])
  {
    e := es[|es| - 1];
    if i < |Started(es[..|es| - 1], cfg)| { e := StartedFrom(es[..|es| - 1], cfg, i); }
  }

  /** Whoever connects to remote port p of a started tunnel is led to targetHost:localPort of its configuration, for
      serial_ssh to 127.0.0.1:p, where some device is served. */
  lemma {:induction false} ForwardLeads(cfg: Config, i: nat, k: nat) returns (e: Entry, d: nat)
    requires i < |Started(Enabled(cfg), cfg)| && Started(Enabled(cfg), cfg)[i].ReverseTunnel?
    requires k < |Started(Enabled(cfg), cfg)[i].forwards|
    ensures var t := Started(Enabled(cfg), cfg)[i];
            var f := t.forwards[k];
            && e in Enabled(cfg) && e.name == t.name && e.tunnel.host == t.host && e.tunnel.kind != "local_forward"
            && if e.tunnel.kind == "serial_ssh" then
                 && f.targetHost == "127.0.0.1" && f.targetPort == f.remotePort != 0
                 && FirstAt(cfg.ports, cfg.basePort, f.remotePort, d) && f.deviceLabel == cfg.ports[d]
               else
                 && f.remotePort == e.tunnel.remotePort
                 && f.targetHost == e.tunnel.targetHost && f.targetPort == e.tunnel.localPort
  {
    e := StartedFrom(Enabled(cfg), cfg, i);
    if e.tunnel.kind == SERIAL_KIND { d := SerialForwardLeads(cfg, k); } else { d := 0; }
  }

  /** startReverseTunnel. */
  method StartReverseTunnel(name: string, rt: TunnelConfig, cfg: Config) returns (t: Option<Tunnel>)
    ensures t == StartedFor(Entry(name, rt), cfg)
  {
    if rt.kind == LOCAL_KIND {
      return Some(LocalForward(name, rt.host, rt.localPort));
    }
    if rt.kind == SERIAL_KIND {
      var forwards := BuildSerialSshForwards(cfg);
      if |forwards| == 0 {
        return None;
      }
      return Some(ReverseTunnel(name, rt.host, forwards));
    }
    return Some(ReverseTunnel(name, rt.host, [ForwardSpec("", rt.remotePort, rt.targetHost, rt.localPort)]));
  }

  /** buildTarget: the second derivation of the ports. */
  method BuildTarget(name: string, rt: TunnelConfig, cfg: Config) returns (t: Target)
    ensures t == TargetFor(Entry(name, rt), cfg)
  {
    t := Target(name, rt.host, [], 0);
    if rt.kind == LOCAL_KIND {
      t := t.(localPort := rt.localPort);
    } else if rt.kind == SERIAL_KIND {
      var seen: set<int> := {};
      for i := 0 to |cfg.ports|
        invariant t == Target(name, rt.host, PortsTo(cfg, i), 0)
        invariant forall p :: p in seen <==> p in PortsTo(cfg, i)
      {
        var port := PortMapping(cfg.ports[i], cfg.basePort);
        PortsStep(cfg, i);
        if port == 0 { continue; }
        if port in seen { continue; }
        seen := seen + {port};
        t := t.(remotePorts := t.remotePorts + [port]);
      }
      assert cfg.ports[..|cfg.ports|] == cfg.ports;
    } else {
      t := t.(remotePorts := [rt.remotePort]);
    }
  }

  /** The enabled entries among the named tunnels and the first `i` of the list. */
  function EnabledTo(cfg: Config, i: nat): seq<Entry>
    requires i <= |cfg.reverseTunnels|
  {
    EnabledOf(NamedTunnels(cfg) + ListedTunnels(cfg.reverseTunnels[..i]))
  }

  lemma {:induction false} EnabledStep(cfg: Config, i: nat)
    requires i < |cfg.reverseTunnels|
    ensures var rt := cfg.reverseTunnels[i];
            EnabledTo(cfg, i + 1) == if rt.host == "" then EnabledTo(cfg, i)
                                     else EnabledTo(cfg, i) + [Entry(ListName(rt, i), rt)]
  {
    var rts, e := cfg.reverseTunnels, Entry(ListName(cfg.reverseTunnels[i], i), cfg.reverseTunnels[i]);
    assert rts[..i + 1][..i] == rts[..i];
    assert NamedTunnels(cfg) + ListedTunnels(rts[..i + 1]) == NamedTunnels(cfg) + ListedTunnels(rts[..i]) + [e];
  }

  /** The enabled ones among the first `k` named tunnels. */
  function NamedTo(cfg: Config, k: nat): seq<Entry>
    requires k <= 3
  {
    EnabledOf(NamedTunnels(cfg)[..k])
  }

  lemma {:induction false} NamedStep(cfg: Config, k: nat)
    requires k < 3
    ensures var e := NamedTunnels(cfg)[k];
            NamedTo(cfg, k + 1) == if e.tunnel.host == "" then NamedTo(cfg, k) else NamedTo(cfg, k) + [e]
  {
    var named := NamedTunnels(cfg);
    assert named[..k + 1] == named[..k] + [named[k]];
  }

  lemma {:induction false} NamedAre(cfg: Config)
    ensures NamedTo(cfg, 0) == [] && NamedTo(cfg, 3) == EnabledTo(cfg, 0)
  {
    assert NamedTunnels(cfg)[..3] == NamedTunnels(cfg) + ListedTunnels([]);
  }

  /** The closure `start` of the gateway's main, called for an enabled entry: append unless it could not be started. */
  method StartEntry(tunnels: seq<Tunnel>, e: Entry, cfg: Config, ghost es: seq<Entry>) returns (more: seq<Tunnel>)
    requires tunnels == Started(es, cfg)
    ensures more == Started(es + [e], cfg)
  {
    more := tunnels;
    var t := StartReverseTunnel(e.name, e.tunnel, cfg);
    if t.Some? { more := more + [t.value]; }
  }

  /** What the named tunnels come to after the first `k`. */
  ghost predicate StartedTo(tunnels: seq<Tunnel>, cfg: Config, k: nat)
    requires k <= 3
  {
    tunnels == Started(NamedTo(cfg, k), cfg)
  }

  method StartNext(tunnels: seq<Tunnel>, e: Entry, cfg: Config, ghost k: nat) returns (more: seq<Tunnel>)
    requires k < 3 && e == NamedTunnels(cfg)[k] && StartedTo(tunnels, cfg, k)
    ensures StartedTo(more, cfg, k + 1)
  {
    NamedStep(cfg, k);
    more := tunnels;
    if e.tunnel.host != "" { more := StartEntry(tunnels, e, cfg, NamedTo(cfg, k)); }
  }

  method StartNamed(cfg: Config) returns (tunnels: seq<Tunnel>)
    ensures StartedTo(tunnels, cfg, 3)
  {
    NamedAre(cfg);
    tunnels := [];
    tunnels := StartNext(tunnels, Entry(REVERSE_NAME, cfg.reverseTunnel), cfg, 0);
    tunnels := StartNext(tunnels, Entry(ADB_NAME, cfg.adbReverseTunnel), cfg, 1);
    tunnels := StartNext(tunnels, Entry(SERIAL_NAME, cfg.serialSshTunnel.(kind := SERIAL_KIND)), cfg, 2);
  }

  /** The gateway: the three named tunnels, then the list. */
  method StartTunnels(cfg: Config) returns (tunnels: seq<Tunnel>)
    ensures tunnels == Started(Enabled(cfg), cfg)
  {
    tunnels := StartNamed(cfg);
    NamedAre(cfg);
    for i := 0 to |cfg.reverseTunnels|
      invariant tunnels == Started(EnabledTo(cfg, i), cfg)
    {
      var rt := cfg.reverseTunnels[i];
      EnabledStep(cfg, i);
      if rt.host == "" { continue; }
      var name := rt.name;
      if name == "" { name := PositionName(i); }
      tunnels := StartEntry(tunnels, Entry(name, rt), cfg, EnabledTo(cfg, i));
    }
    assert cfg.reverseTunnels[..|cfg.reverseTunnels|] == cfg.reverseTunnels;
  }

  /** The rows of tunnel-ports before a kind is overwritten. */
  function Table(cfg: Config): (rows: seq<Entry>)
    ensures |rows| == 3
  {
    [Entry(REVERSE_NAME, cfg.reverseTunnel),
     Entry(ADB_NAME, cfg.adbReverseTunnel),
     Entry(SERIAL_NAME, cfg.serialSshTunnel)]
  }

  lemma {:induction false} OnlyLastRowChanges(cfg: Config, k: nat)
    requires k < 3
    ensures var n := Table(cfg)[k];
            NamedTunnels(cfg)[k] == if n.name == SERIAL_NAME then n.(tunnel := n.tunnel.(kind := SERIAL_KIND)) else n
  {
    assert |REVERSE_NAME| == 14 && |ADB_NAME| == 18 && |SERIAL_NAME| == 17;
  }

  method ListNamed(cfg: Config) returns (targets: seq<Target>)
    ensures targets == Targets(NamedTo(cfg, 3), cfg)
  {
    var named := Table(cfg);
    targets := [];
    NamedAre(cfg);
    for k := 0 to 3
      invariant targets == Targets(NamedTo(cfg, k), cfg)
    {
      var n := named[k];
      NamedStep(cfg, k);
      OnlyLastRowChanges(cfg, k);
      if n.tunnel.host == "" { continue; }
      if n.name == SERIAL_NAME { n := n.(tunnel := n.tunnel.(kind := SERIAL_KIND)); }
      var target := BuildTarget(n.name, n.tunnel, cfg);
      targets := targets + [target];
    }
  }

  /** tunnel-ports: a table of the named tunnels, whose last row has its kind overwritten, then the list. */
  method ListTargets(cfg: Config) returns (targets: seq<Target>)
    ensures targets == Targets(Enabled(cfg), cfg)
  {
    targets := ListNamed(cfg);
    NamedAre(cfg);
    for i := 0 to |cfg.reverseTunnels|
      invariant targets == Targets(EnabledTo(cfg, i), cfg)
    {
      var rt := cfg.reverseTunnels[i];
      EnabledStep(cfg, i);
      if rt.host == "" { continue; }
      var name := rt.name;
      if name == "" { name := PositionName(i); }
      var target := BuildTarget(name, rt, cfg);
      targets := targets + [target];
    }
    assert cfg.reverseTunnels[..|cfg.reverseTunnels|] == cfg.reverseTunnels;
  }

  /** A configuration whose one tunnel is listed and never started: a serial_ssh tunnel and no ports. */
  lemma {:induction false} PortlessIsListed() returns (cfg: Config)
    ensures StartedNames(Started(Enabled(cfg), cfg)) == []
    ensures PrintedNames(Targets(Enabled(cfg), cfg)) == ["serial_ssh_tunnel"]
  {
    var off := TunnelConfig("", "", "", 0, "", 0);
    var serial := TunnelConfig("", "", "h", 0, "", 0);
    cfg := Config(2200, [], off, off, serial, []);
    NamedStep(cfg, 0);
    NamedStep(cfg, 1);
    NamedStep(cfg, 2);
    NamedAre(cfg);
    var e := Entry(SERIAL_NAME, serial.(kind := SERIAL_KIND));
    assert cfg.reverseTunnels[..0] == cfg.reverseTunnels;
    assert Enabled(cfg) == [] + [e];
  }

  /** A configuration whose one tunnel opens a local listener that is not printed. */
  lemma {:induction false} AnyPortIsUnlisted() returns (cfg: Config)
    ensures OpenedLocally(Started(Enabled(cfg), cfg)) == [Local("t", "h", 0)]
    ensures PrintedLocally(Targets(Enabled(cfg), cfg)) == []
  {
    var off := TunnelConfig("", "", "", 0, "", 0);
    var rt := TunnelConfig("t", LOCAL_KIND, "h", 22, "127.0.0.1", 0);
    cfg := Config(2200, [], off, off, off, [rt]);
    NamedStep(cfg, 0);
    NamedStep(cfg, 1);
    NamedStep(cfg, 2);
    NamedAre(cfg);
    EnabledStep(cfg, 0);
    var e := Entry("t", rt);
    assert cfg.reverseTunnels[..1] == cfg.reverseTunnels;
    assert Enabled(cfg) == [] + [e];
    OpenedSnoc([], LocalForward("t", "h", 0));
  }
}
