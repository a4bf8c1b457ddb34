/** The SSH ports of the configured devices, and the forwards a serial_ssh tunnel derives from them:
    internal/ssh/server.go:20-30, cmd/serial-gateway/serial_ssh_tunnel.go:17-39. */
module TunnelPorts {
  import opened Options
  import opened Strconv
  import opened TunnelFanIn

  datatype TunnelConfig = TunnelConfig(
    name: string, kind: string, host: string, remotePort: int, targetHost: string, localPort: int)

  datatype Config = Config(
    basePort: int,
    ports: seq<string>,               // the devices of the ports list
    reverseTunnel: TunnelConfig,
    adbReverseTunnel: TunnelConfig,
    serialSshTunnel: TunnelConfig,
    reverseTunnels: seq<TunnelConfig>
  )

  /** The SSH port of a device, or 0. */
  function PortMapping(device: string, basePort: int): int {
    var num := if |device| > 3 && device[..3] == "COM" then device[3..] else device;
    match Atoi(num)
    case None => 0
    case Some(n) => Wrap64(basePort + n)
  }

  /** COM3 is served at base port + 3, with or without the prefix. */
  lemma {:induction false} ComPort(n: nat, basePort: int)
    ensures PortMapping("COM" + Decimal(n), basePort) == if n <= MAX_INT then Wrap64(basePort + n) else 0
    ensures PortMapping(Decimal(n), basePort) == PortMapping("COM" + Decimal(n), basePort)
  {
    AtoiDecimal(n);
    DecimalRoundTrip(n);
    var s := Decimal(n);
    assert ("COM" + s)[..3] == "COM" && ("COM" + s)[3..] == s;
    if |s| > 3 && s[..3] == "COM" {
      assert s[0] == 'C' && s[0] in s;
      DigitsOnly(s, s[0]);
    }
  }

  function Images(devices: seq<string>, basePort: int): (ms: seq<int>)
    ensures |ms| == |devices|
  {
    if devices == [] then []
    else Images(devices[..|devices| - 1], basePort) + [PortMapping(devices[|devices| - 1], basePort)]
  }

  /** The first position of `p`, or the length. */
  function IndexOf(ms: seq<int>, p: int): nat {
    if ms == [] then 0 else if ms[0] == p then 0 else 1 + IndexOf(ms[1..], p)
  }

  /** The requirement: `ports` are exactly the non-zero images, each once, in the order of first occurrence. */
  ghost predicate FirstOccurrences(ports: seq<int>, ms: seq<int>) {
    && (forall p :: p in ports <==> p in ms && p != 0)
    && (forall i, j :: 0 <= i < j < |ports| ==> IndexOf(ms, ports[i]) < IndexOf(ms, ports[j]))
  }

  /** Skip zero, skip what was seen. */
  function Derive(ms: seq<int>): seq<int> {
    if ms == [] then []
    else
      var before, p := Derive(ms[..|ms| - 1]), ms[|ms| - 1];
      if p == 0 || p in before then before else before + [p]
  }

  lemma {:induction false} IndexOfIn(ms: seq<int>, p: int)
    ensures IndexOf(ms, p) <= |ms|
    ensures p in ms <==> IndexOf(ms, p) < |ms|
  {
    if ms != [] && ms[0] != p {
      IndexOfIn(ms[1..], p);
      assert ms == [ms[0]] + ms[1..];
    }
  }

  lemma {:induction false} IndexOfSnoc(ms: seq<int>, q: int, p: int)
    requires p in ms || p == q
    ensures IndexOf(ms + [q], p) == if p in ms then IndexOf(ms, p) else |ms|
  {
    if ms != [] {
      assert (ms + [q])[0] == ms[0] && (ms + [q])[1..] == ms[1..] + [q];
      assert ms == [ms[0]] + ms[1..];
      if ms[0] != p { IndexOfSnoc(ms[1..], q, p); }
    }
  }

  lemma {:induction false} DeriveIsFirstOccurrences(ms: seq<int>)
    ensures FirstOccurrences(Derive(ms), ms)
  {
    if ms != [] {
      var m, q := ms[..|ms| - 1], ms[|ms| - 1];
      assert ms == m + [q];
      DeriveIsFirstOccurrences(m);
      ExtendOccurrences(Derive(m), m, q);
    }
  }

  lemma {:induction false} ExtendOccurrences(ports: seq<int>, m: seq<int>, q: int)
    requires FirstOccurrences(ports, m)
    ensures FirstOccurrences(if q == 0 || q in ports then ports else ports + [q], m + [q])
  {
    var more := if q == 0 || q in ports then ports else ports + [q];
    forall i, j | 0 <= i < j < |more| ensures IndexOf(m + [q], more[i]) < IndexOf(m + [q], more[j]) {
      assert more[i] in more && more[j] in more;
      assert ports[i] in ports;
      IndexOfSnoc(m, q, more[i]);
      IndexOfSnoc(m, q, more[j]);
      IndexOfIn(m, more[i]);
      if j < |ports| { assert ports[j] in ports; }
    }
  }

  lemma {:induction false} ShortenSkipped(ports: seq<int>, m: seq<int>, q: int)
    requires FirstOccurrences(ports, m + [q]) && (q == 0 || q in m)
    ensures FirstOccurrences(ports, m)
  {
    forall p | p in ports ensures IndexOf(m + [q], p) == IndexOf(m, p) {
      IndexOfSnoc(m, q, p);
    }
  }

  lemma {:induction false} LastIsNew(ports: seq<int>, m: seq<int>, q: int)
    requires FirstOccurrences(ports, m + [q]) && q != 0 && q !in m
    ensures ports != [] && ports[|ports| - 1] == q && q !in ports[..|ports| - 1]
  {
    assert q in ports;
    var k :| 0 <= k < |ports| && ports[k] == q;
    IndexOfSnoc(m, q, q);
    forall i | 0 <= i < |ports| && ports[i] != q ensures IndexOf(m + [q], ports[i]) < |m| {
      assert ports[i] in ports;
      IndexOfSnoc(m, q, ports[i]);
      IndexOfIn(m, ports[i]);
    }
  }

  lemma {:induction false} ShortenKept(ports: seq<int>, m: seq<int>, q: int)
    requires FirstOccurrences(ports + [q], m + [q]) && q != 0 && q !in m && q !in ports
    ensures FirstOccurrences(ports, m)
  {
    forall p | p in ports ensures IndexOf(m + [q], p) == IndexOf(m, p) {
      assert p in ports + [q];
      IndexOfSnoc(m, q, p);
    }
    forall i, j | 0 <= i < j < |ports| ensures IndexOf(m, ports[i]) < IndexOf(m, ports[j]) {
      assert (ports + [q])[i] == ports[i] && (ports + [q])[j] == ports[j];
    }
    forall p ensures p in ports <==> p in m && p != 0 {
      assert p in ports + [q] <==> p in m + [q] && p != 0;
    }
  }

  lemma {:induction false} HeadIn(ports: seq<int>)
    ensures ports != [] ==> ports[0] in ports
  {
  }

  /** The requirement has exactly one solution. */
  lemma {:induction false} FirstOccurrencesUnique(ports: seq<int>, ms: seq<int>)
    requires FirstOccurrences(ports, ms)
    ensures ports == Derive(ms)
  {
    if ms == [] {
      HeadIn(ports);
    } else {
      var m, q := ms[..|ms| - 1], ms[|ms| - 1];
      assert ms == m + [q];
      DeriveIsFirstOccurrences(m);
      if q == 0 || q in m {
        ShortenSkipped(ports, m, q);
        FirstOccurrencesUnique(ports, m);
      } else {
        LastIsNew(ports, m, q);
        var shorter := ports[..|ports| - 1];
        assert ports == shorter + [q];
        ShortenKept(shorter, m, q);
        FirstOccurrencesUnique(shorter, m);
      }
    }
  }

  function RemotePorts(forwards: seq<ForwardSpec>): (ports: seq<int>)
    ensures |ports| == |forwards|
  {
    if forwards == [] then []
    else RemotePorts(forwards[..|forwards| - 1]) + [forwards[|forwards| - 1].remotePort]
  }

  /** The device a port is labelled with: the first one that maps to it. */
  function FirstDevice(devices: seq<string>, basePort: int, port: int): string {
    if devices == [] then ""
    else if PortMapping(devices[0], basePort) == port then devices[0]
    else FirstDevice(devices[1..], basePort, port)
  }

  function Forwards(ports: seq<int>, devices: seq<string>, basePort: int): seq<ForwardSpec> {
    if ports == [] then []
    else
      var p := ports[|ports| - 1];
      Forwards(ports[..|ports| - 1], devices, basePort)
      + [ForwardSpec(FirstDevice(devices, basePort, p), p, "127.0.0.1", p)]
  }

  function SerialForwards(cfg: Config): seq<ForwardSpec> {
    Forwards(Derive(Images(cfg.ports, cfg.basePort)), cfg.ports, cfg.basePort)
  }

  lemma {:induction false} ForwardsPorts(ports: seq<int>, devices: seq<string>, basePort: int)
    ensures RemotePorts(Forwards(ports, devices, basePort)) == ports
  {
    if ports != [] {
      ForwardsPorts(ports[..|ports| - 1], devices, basePort);
      var fs := Forwards(ports, devices, basePort);
      assert fs[..|fs| - 1] == Forwards(ports[..|ports| - 1], devices, basePort);
      assert ports == ports[..|ports| - 1] + [ports[|ports| - 1]];
    }
  }

  /** The first configured device served at `p`, if `d` is it. */
  ghost predicate FirstAt(devices: seq<string>, basePort: int, p: int, d: nat) {
    && d < |devices| && PortMapping(devices[d], basePort) == p
    && forall c: nat :: c < d ==> PortMapping(devices[c], basePort) != p
  }

  lemma {:induction false} FirstDeviceIs(devices: seq<string>, basePort: int, p: int, i: nat) returns (d: nat)
    requires i < |devices| && PortMapping(devices[i], basePort) == p
    ensures FirstAt(devices, basePort, p, d) && FirstDevice(devices, basePort, p) == devices[d]
  {
    if PortMapping(devices[0], basePort) == p {
      d := 0;
    } else {
      var e := FirstDeviceIs(devices[1..], basePort, p, i - 1);
      d := e + 1;
      forall c: nat | c < d ensures PortMapping(devices[c], basePort) != p {
        if c > 0 { assert devices[c] == devices[1..][c - 1]; }
      }
    }
  }

  lemma {:induction false} ForwardAt(ports: seq<int>, devices: seq<string>, basePort: int, k: nat)
    requires k < |Forwards(ports, devices, basePort)|
    ensures |Forwards(ports, devices, basePort)| == |ports|
    ensures Forwards(ports, devices, basePort)[k]
            == ForwardSpec(FirstDevice(devices, basePort, ports[k]), ports[k], "127.0.0.1", ports[k])
  {
    ForwardsPorts(ports, devices, basePort);
    if k < |ports| - 1 { ForwardAt(ports[..|ports| - 1], devices, basePort, k); }
  }

  /** Every forward of a serial_ssh tunnel leads to its own port on this machine, and is labelled with the first device
      served there. */
  lemma {:induction false} SerialForwardLeads(cfg: Config, k: nat) returns (d: nat)
    requires k < |SerialForwards(cfg)|
    ensures var f := SerialForwards(cfg)[k];
            && f.targetHost == "127.0.0.1" && f.targetPort == f.remotePort != 0
            && FirstAt(cfg.ports, cfg.basePort, f.remotePort, d) && f.deviceLabel == cfg.ports[d]
  {
    var ms := Images(cfg.ports, cfg.basePort);
    var ports := Derive(ms);
    ForwardAt(ports, cfg.ports, cfg.basePort, k);
    DeriveIsFirstOccurrences(ms);
    assert ports[k] in ports;
    var i :| 0 <= i < |ms| && ms[i] == ports[k];
    ImageAt(cfg.ports, cfg.basePort, i);
    d := FirstDeviceIs(cfg.ports, cfg.basePort, ports[k], i);
  }

  lemma {:induction false} FirstDeviceAt(devices: seq<string>, basePort: int, i: nat)
    requires i < |devices| && PortMapping(devices[i], basePort) !in Images(devices[..i], basePort)
    ensures FirstDevice(devices, basePort, PortMapping(devices[i], basePort)) == devices[i]
  {
    if i > 0 {
      ImagesHead(devices[..i], basePort);
      assert devices[..i][1..] == devices[1..][..i - 1];
      FirstDeviceAt(devices[1..], basePort, i - 1);
    }
  }

  lemma {:induction false} ImagesHead(devices: seq<string>, basePort: int)
    requires devices != []
    ensures Images(devices, basePort) == [PortMapping(devices[0], basePort)] + Images(devices[1..], basePort)
  {
    if |devices| > 1 {
      var n := |devices| - 1;
      ImagesHead(devices[..n], basePort);
      assert devices[..n][1..] == devices[1..][..n - 1];
    }
  }

  lemma {:induction false} ImageAt(devices: seq<string>, basePort: int, i: nat)
    requires i < |devices|
    ensures Images(devices, basePort)[i] == PortMapping(devices[i], basePort)
  {
    if i < |devices| - 1 { ImageAt(devices[..|devices| - 1], basePort, i); }
  }

  lemma {:induction false} ImagesTo(devices: seq<string>, basePort: int, i: nat)
    requires i < |devices|
    ensures Images(devices[..i + 1], basePort) == Images(devices[..i], basePort) + [PortMapping(devices[i], basePort)]
  {
    assert devices[..i + 1][..i] == devices[..i];
  }

  lemma {:induction false} DeriveSnoc(ms: seq<int>, p: int)
    ensures Derive(ms + [p]) == if p == 0 || p in ms then Derive(ms) else Derive(ms) + [p]
  {
    DeriveIsFirstOccurrences(ms);
    assert (ms + [p])[..|ms|] == ms;
  }

  /** What the first `i` devices contribute: ports, forwards, and the seen set of either derivation. */
  function PortsTo(cfg: Config, i: nat): seq<int>
    requires i <= |cfg.ports|
  {
    Derive(Images(cfg.ports[..i], cfg.basePort))
  }

  function ForwardsTo(cfg: Config, i: nat): seq<ForwardSpec>
    requires i <= |cfg.ports|
  {
    Forwards(PortsTo(cfg, i), cfg.ports, cfg.basePort)
  }

  lemma {:induction false} PortsStep(cfg: Config, i: nat)
    requires i < |cfg.ports|
    ensures var p := PortMapping(cfg.ports[i], cfg.basePort);
            PortsTo(cfg, i + 1) == if p == 0 || p in PortsTo(cfg, i) then PortsTo(cfg, i) else PortsTo(cfg, i) + [p]
  {
    ImagesTo(cfg.ports, cfg.basePort, i);
    DeriveIsFirstOccurrences(Images(cfg.ports[..i], cfg.basePort));
    DeriveSnoc(Images(cfg.ports[..i], cfg.basePort), PortMapping(cfg.ports[i], cfg.basePort));
  }

  lemma {:induction false} ForwardsStep(cfg: Config, i: nat)
    requires i < |cfg.ports|
    ensures var p := PortMapping(cfg.ports[i], cfg.basePort);
            ForwardsTo(cfg, i + 1) == if p == 0 || p in PortsTo(cfg, i) then ForwardsTo(cfg, i)
                                      else ForwardsTo(cfg, i) + [ForwardSpec(cfg.ports[i], p, "127.0.0.1", p)]
  {
    var p := PortMapping(cfg.ports[i], cfg.basePort);
    PortsStep(cfg, i);
    if p != 0 && p !in PortsTo(cfg, i) {
      DeriveIsFirstOccurrences(Images(cfg.ports[..i], cfg.basePort));
      FirstDeviceAt(cfg.ports, cfg.basePort, i);
    }
  }

  /** The gateway's derivation: one forward per port, on the same port number at both ends. */
  method BuildSerialSshForwards(cfg: Config) returns (forwards: seq<ForwardSpec>)
    ensures forwards == SerialForwards(cfg)
  {
    var seen: set<int> := {};
    forwards := [];
    for i := 0 to |cfg.ports|
      invariant forwards == ForwardsTo(cfg, i)
      invariant forall p :: p in seen <==> p in PortsTo(cfg, i)
    {
      var port := PortMapping(cfg.ports[i], cfg.basePort);
      PortsStep(cfg, i);
      ForwardsStep(cfg, i);
      if port == 0 { continue; }
      if port in seen { continue; }
      seen := seen + {port};
      forwards := forwards + [ForwardSpec(cfg.ports[i], port, "127.0.0.1", port)];
    }
    assert cfg.ports[..|cfg.ports|] == cfg.ports;
  }
}
