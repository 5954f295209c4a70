/** The bridge policy compiler: a port table becomes a chain program, and the
    program is given a meaning by a small interpreter. */
module BridgeGuard {
  import opened Texts

  datatype Port = Port(port: string, mac: string, ip: string, group: string, proxy: bool)

  // ----- the target language -----

  datatype Match =
    | BridgeIsNot(bridge: string)
    | OutBridgeIsNot(bridge: string)
    | InIs(port: string)
    | InIn(ports: set<string>)
    | OutIn(ports: set<string>)
    | SourceMacIsNot(mac: string)
    | IpSourceIsNot(ip: string)
    | ArpMacIsNot(mac: string)
    | ArpIpIsNot(ip: string)
    | NeitherIpNorArp

  datatype Action = Accept | Drop | Return | Jump(chain: nat)

  /** A rule applies when all its matches do. */
  datatype Rule = Rule(matches: seq<Match>, action: Action)

  /** Two base chains with policy accept, and one chain per port. */
  datatype Program = Program(ingress: seq<Rule>, portChains: seq<seq<Rule>>, forward: seq<Rule>)

  datatype EtherType = Ip | Arp | Other

  datatype Packet = Packet(
    bridge: string, outBridge: string, iif: string, oif: string,
    mac: string, kind: EtherType, ip: string, arpMac: string, arpIp: string)

  datatype Verdict = Accepted | Dropped

  /** How a chain ends: with a verdict, by returning, or by running out. */
  datatype Ending = Final(verdict: Verdict) | Returned

  predicate Matches(m: Match, p: Packet) {
    match m
    case BridgeIsNot(b) => p.bridge != b
    case OutBridgeIsNot(b) => p.outBridge != b
    case InIs(port) => p.iif == port
    case InIn(ports) => p.iif in ports
    case OutIn(ports) => p.oif in ports
    case SourceMacIsNot(mac) => p.mac != mac
    case IpSourceIsNot(ip) => p.kind == Ip && p.ip != ip
    case ArpMacIsNot(mac) => p.kind == Arp && p.arpMac != mac
    case ArpIpIsNot(ip) => p.kind == Arp && p.arpIp != ip
    case NeitherIpNorArp => p.kind == Other
  }

  predicate Applies(r: Rule, p: Packet) {
    forall m :: m in r.matches ==> Matches(m, p)
  }

  /** A chain that jumps nowhere, from rule i on. */
  function WalkLeaf(rules: seq<Rule>, p: Packet, i: nat := 0): Ending
    requires i <= |rules|
    decreases |rules| - i
  {
    if i == |rules| then Returned
    else if !Applies(rules[i], p) then WalkLeaf(rules, p, i + 1)
    else match rules[i].action
         case Accept => Final(Accepted)
         case Drop => Final(Dropped)
         case Return => Returned
         case Jump(_) => Returned
  }

  /** A base chain: a jump that returns goes on with the next rule. */
  function Walk(rules: seq<Rule>, chains: seq<seq<Rule>>, p: Packet, i: nat := 0): Ending
    requires i <= |rules|
    decreases |rules| - i
  {
    if i == |rules| then Returned
    else if !Applies(rules[i], p) then Walk(rules, chains, p, i + 1)
    else match rules[i].action
         case Accept => Final(Accepted)
         case Drop => Final(Dropped)
         case Return => Returned
         case Jump(c) =>
           if c >= |chains| then Returned
           else
             var inner := WalkLeaf(chains[c], p);
             if inner.Final? then inner else Walk(rules, chains, p, i + 1)
  }

  /** Running out of a base chain, or returning from it, is its policy: accept. */
  function Decide(rules: seq<Rule>, chains: seq<seq<Rule>>, p: Packet): Verdict {
    var e := Walk(rules, chains, p);
    if e.Final? then e.verdict else Accepted
  }

  // ----- the intended policy -----

  /** The frame carries exactly the addresses reviewed for its port. */
  predicate Genuine(port: Port, p: Packet) {
    && p.mac == port.mac
    && ((p.kind == Ip && p.ip == port.ip) || (p.kind == Arp && p.arpMac == port.mac && p.arpIp == port.ip))
  }

  predicate MayEnter(bridge: string, ports: seq<Port>, p: Packet) {
    p.bridge != bridge || exists i :: 0 <= i < |ports| && ports[i].port == p.iif && Genuine(ports[i], p)
  }

  predicate MayTalk(a: Port, b: Port) { a.proxy || b.proxy || a.group == b.group }

  predicate MayForward(bridge: string, ports: seq<Port>, p: Packet) {
    || p.bridge != bridge
    || p.outBridge != bridge
    || exists i, j :: 0 <= i < |ports| && 0 <= j < |ports|
         && ports[i].port == p.iif && ports[j].port == p.oif && MayTalk(ports[i], ports[j])
  }

  // ----- valid tables -----

  predicate Name(s: string, limit: nat) {
    1 <= |s| <= limit && forall i :: 0 <= i < |s| ==> AlphaNum(s[i]) || Separator(s[i])
  }

  predicate TableName(s: string) {
    1 <= |s| <= 40 && forall i :: 0 <= i < |s| ==> AlphaNum(s[i]) || s[i] == '_'
  }

  predicate Mac(s: string) {
    |s| == 17 && forall i :: 0 <= i < 17 ==>
      if i % 3 == 2 then s[i] == ':' else Hex(s[i])
  }

  predicate Octet(s: string) {
    && 1 <= |s| <= 3
    && (forall i :: 0 <= i < |s| ==> Digit(s[i]))
    && (|s| > 1 ==> s[0] != '0')
    && (|s| == 3 ==> s[0] == '1' || (s[0] == '2' && (s[1] < '5' || (s[1] == '5' && s[2] <= '5'))))
  }

  function SplitDots(s: string): seq<string> {
    if s == [] then [[]]
    else
      var rest := SplitDots(s[1..]);
      if s[0] == '.' then [[]] + rest
      else if rest == [] then [[s[0]]]
      else [[s[0]] + rest[0]] + rest[1..]
  }

  function JoinDots(parts: seq<string>): string
    requires parts != []
    decreases |parts|, 0
  {
    parts[0] + DotsBefore(parts[1..])
  }

  function DotsBefore(parts: seq<string>): string
    decreases |parts|, 1
  {
    if parts == [] then "" else "." + JoinDots(parts)
  }

  lemma JoinLonger(c: char, parts: seq<string>)
    requires parts != []
    ensures JoinDots([[c] + parts[0]] + parts[1..]) == [c] + JoinDots(parts)
  {
    var longer := [[c] + parts[0]] + parts[1..];
    assert longer[0] == [c] + parts[0] && longer[1..] == parts[1..];
  }

  lemma JoinMore(parts: seq<string>)
    requires parts != []
    ensures JoinDots([""] + parts) == "." + JoinDots(parts)
  {
    var more := [""] + parts;
    assert more[0] == "" && more[1..] == parts;
  }

  /** The parts hold no dot, and joined by dots they are the text. */
  lemma {:induction false} SplitDotsSplits(s: string)
    ensures SplitDots(s) != [] && JoinDots(SplitDots(s)) == s
    ensures forall k :: 0 <= k < |SplitDots(s)| ==> '.' !in SplitDots(s)[k]
  {
    if s != "" {
      SplitDotsSplits(s[1..]);
      if s[0] == '.' { JoinMore(SplitDots(s[1..])); } else { JoinLonger(s[0], SplitDots(s[1..])); }
      assert s == [s[0]] + s[1..];
    }
  }

  predicate IPv4(s: string) {
    var octets := SplitDots(s);
    |octets| == 4 && forall o :: o in octets ==> Octet(o)
  }

  predicate ValidPort(p: Port) {
    Name(p.port, 15) && Mac(p.mac) && Name(p.group, 63) && IPv4(p.ip)
  }

  predicate UniqueNames(ports: seq<Port>) {
    forall i, j :: 0 <= i < j < |ports| ==> ports[i].port != ports[j].port
  }

  function Proxies(ports: seq<Port>): seq<string> {
    if ports == [] then []
    else Proxies(ports[..|ports| - 1]) + if ports[|ports| - 1].proxy then [ports[|ports| - 1].port] else []
  }

  predicate ValidTable(bridge: string, table: string, ports: seq<Port>) {
    && Name(bridge, 15) && TableName(table)
    && 1 <= |ports| <= 256
    && (forall i :: 0 <= i < |ports| ==> ValidPort(ports[i]))
    && UniqueNames(ports)
    && 1 <= |Proxies(ports)| <= 4
  }

  // ----- the shape of a rendered program -----

  function PortChain(p: Port): seq<Rule> {
    [Rule([SourceMacIsNot(p.mac)], Drop), Rule([IpSourceIsNot(p.ip)], Drop),
     Rule([ArpMacIsNot(p.mac)], Drop), Rule([ArpIpIsNot(p.ip)], Drop),
     Rule([NeitherIpNorArp], Drop), Rule([], Accept)]
  }

  ghost predicate IngressShape(bridge: string, ports: seq<Port>, rules: seq<Rule>) {
    && |rules| == |ports| + 2
    && rules[0] == Rule([BridgeIsNot(bridge)], Return)
    && (forall i :: 0 <= i < |ports| ==> rules[i + 1] == Rule([InIs(ports[i].port)], Jump(i)))
    && rules[|ports| + 1] == Rule([], Drop)
  }

  ghost predicate ChainsShape(ports: seq<Port>, chains: seq<seq<Rule>>) {
    |chains| == |ports| && forall i :: 0 <= i < |ports| ==> chains[i] == PortChain(ports[i])
  }

  ghost function NamesOf(ports: seq<Port>): set<string> { set i | 0 <= i < |ports| :: ports[i].port }

  ghost function GroupOf(ports: seq<Port>, group: string): set<string> {
    set i | 0 <= i < |ports| && ports[i].group == group :: ports[i].port
  }

  ghost function ProxyNames(ports: seq<Port>): set<string> {
    set i | 0 <= i < |ports| && ports[i].proxy :: ports[i].port
  }

  function GroupRule(members: set<string>): Rule { Rule([InIn(members), OutIn(members)], Accept) }

  /** order lists every group of the table. */
  ghost predicate ForwardShape(bridge: string, ports: seq<Port>, order: seq<string>, rules: seq<Rule>) {
    && |rules| == |order| + 5
    && rules[0] == Rule([BridgeIsNot(bridge)], Return)
    && rules[1] == Rule([OutBridgeIsNot(bridge)], Return)
    && rules[2] == Rule([InIn(ProxyNames(ports)), OutIn(NamesOf(ports))], Accept)
    && rules[3] == Rule([OutIn(ProxyNames(ports)), InIn(NamesOf(ports))], Accept)
    && (forall g :: 0 <= g < |order| ==> rules[g + 4] == GroupRule(GroupOf(ports, order[g])))
    && rules[|order| + 4] == Rule([], Drop)
    && (forall i :: 0 <= i < |ports| ==> ports[i].group in order)
  }

  // ----- meaning of the program -----

  lemma OneMatch(m: Match, action: Action, p: Packet)
    ensures Applies(Rule([m], action), p) <==> Matches(m, p)
  {
    assert m in [m];
  }

  lemma PortChainMeans(port: Port, p: Packet)
    ensures WalkLeaf(PortChain(port), p) == Final(if Genuine(port, p) then Accepted else Dropped)
  {
    var c := PortChain(port);
    OneMatch(SourceMacIsNot(port.mac), Drop, p);
    OneMatch(IpSourceIsNot(port.ip), Drop, p);
    OneMatch(ArpMacIsNot(port.mac), Drop, p);
    OneMatch(ArpIpIsNot(port.ip), Drop, p);
    OneMatch(NeitherIpNorArp, Drop, p);
    assert WalkLeaf(c, p, 5) == Final(Accepted);
    assert WalkLeaf(c, p, 4) == if p.kind == Other then Final(Dropped) else Final(Accepted);
    assert WalkLeaf(c, p, 3) == if Matches(ArpIpIsNot(port.ip), p) then Final(Dropped) else WalkLeaf(c, p, 4);
    assert WalkLeaf(c, p, 2) == if Matches(ArpMacIsNot(port.mac), p) then Final(Dropped) else WalkLeaf(c, p, 3);
    assert WalkLeaf(c, p, 1) == if Matches(IpSourceIsNot(port.ip), p) then Final(Dropped) else WalkLeaf(c, p, 2);
  }

  lemma {:induction false} JumpsMean(bridge: string, ports: seq<Port>, rules: seq<Rule>, chains: seq<seq<Rule>>, p: Packet, i: nat)
    requires IngressShape(bridge, ports, rules) && ChainsShape(ports, chains)
    requires i <= |ports|
    ensures Walk(rules, chains, p, i + 1) ==
            Final(if exists k :: i <= k < |ports| && ports[k].port == p.iif && Genuine(ports[k], p)
                       && forall l :: i <= l < k ==> ports[l].port != p.iif
                  then Accepted else Dropped)
    decreases |ports| - i
  {
    var r := rules[i + 1];
    if i == |ports| {
      assert Applies(r, p);
    } else {
      JumpsMean(bridge, ports, rules, chains, p, i + 1);
      OneMatch(InIs(ports[i].port), Jump(i), p);
      PortChainMeans(ports[i], p);
    }
  }

  /** On the bridge a frame enters exactly when it is genuine for its port, and
      off the bridge every frame enters. */
  lemma IngressMeans(bridge: string, ports: seq<Port>, rules: seq<Rule>, chains: seq<seq<Rule>>, p: Packet)
    requires IngressShape(bridge, ports, rules) && ChainsShape(ports, chains) && UniqueNames(ports)
    ensures Decide(rules, chains, p) == if MayEnter(bridge, ports, p) then Accepted else Dropped
  {
    OneMatch(BridgeIsNot(bridge), Return, p);
    JumpsMean(bridge, ports, rules, chains, p, 0);
  }

  lemma {:induction false} GroupsMean(bridge: string, ports: seq<Port>, order: seq<string>, rules: seq<Rule>, p: Packet, g: nat)
    requires ForwardShape(bridge, ports, order, rules) && g <= |order|
    ensures Walk(rules, [], p, g + 4) ==
            Final(if exists k :: g <= k < |order| && p.iif in GroupOf(ports, order[k]) && p.oif in GroupOf(ports, order[k])
                  then Accepted else Dropped)
    decreases |order| - g
  {
    var r := rules[g + 4];
    if g == |order| {
      assert Applies(r, p);
    } else {
      GroupsMean(bridge, ports, order, rules, p, g + 1);
      var members := GroupOf(ports, order[g]);
      TwoMatches(InIn(members), OutIn(members), Accept, p);
    }
  }

  lemma TwoMatches(m: Match, n: Match, action: Action, p: Packet)
    ensures Applies(Rule([m, n], action), p) <==> Matches(m, p) && Matches(n, p)
  {
    assert m in [m, n] && n in [m, n];
  }

  /** Between two ports of the bridge a frame is forwarded exactly when both are
      known and one is a proxy or they share a group; other traffic passes. */
  lemma ForwardMeans(bridge: string, ports: seq<Port>, order: seq<string>, rules: seq<Rule>, p: Packet)
    requires ForwardShape(bridge, ports, order, rules)
    ensures Decide(rules, [], p) == if MayForward(bridge, ports, p) then Accepted else Dropped
  {
    OneMatch(BridgeIsNot(bridge), Return, p);
    OneMatch(OutBridgeIsNot(bridge), Return, p);
    TwoMatches(InIn(ProxyNames(ports)), OutIn(NamesOf(ports)), Accept, p);
    TwoMatches(OutIn(ProxyNames(ports)), InIn(NamesOf(ports)), Accept, p);
    GroupsMean(bridge, ports, order, rules, p, 0);
    assert Walk(rules, [], p, 3) == if Applies(rules[3], p) then Final(Accepted) else Walk(rules, [], p, 4);
    assert Walk(rules, [], p, 2) == if Applies(rules[2], p) then Final(Accepted) else Walk(rules, [], p, 3);
    assert Walk(rules, [], p, 1) == if p.outBridge != bridge then Returned else Walk(rules, [], p, 2);
    PolicyBySets(ports, order, p);
  }

  lemma PolicyBySets(ports: seq<Port>, order: seq<string>, p: Packet)
    requires forall i :: 0 <= i < |ports| ==> ports[i].group in order
    ensures (exists i, j :: 0 <= i < |ports| && 0 <= j < |ports|
               && ports[i].port == p.iif && ports[j].port == p.oif && MayTalk(ports[i], ports[j]))
            <==>
            || (p.iif in ProxyNames(ports) && p.oif in NamesOf(ports))
            || (p.oif in ProxyNames(ports) && p.iif in NamesOf(ports))
            || (exists k :: 0 <= k < |order| && p.iif in GroupOf(ports, order[k]) && p.oif in GroupOf(ports, order[k]))
  {
    if i, j :| 0 <= i < |ports| && 0 <= j < |ports|
               && ports[i].port == p.iif && ports[j].port == p.oif && MayTalk(ports[i], ports[j]) {
      if !ports[i].proxy && !ports[j].proxy {
        var k :| 0 <= k < |order| && order[k] == ports[i].group;
        assert p.iif in GroupOf(ports, order[k]) && p.oif in GroupOf(ports, order[k]);
      }
    }
  }

  // ----- the renderer -----

  lemma {:induction false} ProxiesOneMore(ports: seq<Port>, i: nat)
    requires i < |ports|
    ensures Proxies(ports[..i + 1]) == Proxies(ports[..i]) + if ports[i].proxy then [ports[i].port] else []
  {
    assert ports[..i + 1][..i] == ports[..i];
  }

  lemma {:induction false} ProxiesAreNames(ports: seq<Port>)
    ensures (set x | x in Proxies(ports)) == ProxyNames(ports)
  {
    if ports != [] {
      var most, last := ports[..|ports| - 1], ports[|ports| - 1];
      ProxiesAreNames(most);
      assert ProxyNames(ports) == ProxyNames(most) + if last.proxy then {last.port} else {} by {
        forall x | x in ProxyNames(ports) ensures x in ProxyNames(most) + if last.proxy then {last.port} else {} {
          var i :| 0 <= i < |ports| && ports[i].proxy && ports[i].port == x;
          if i < |most| { assert most[i] == ports[i]; }
        }
        forall x | x in ProxyNames(most) ensures x in ProxyNames(ports) {
          var i :| 0 <= i < |most| && most[i].proxy && most[i].port == x;
          assert ports[i] == most[i];
        }
      }
    }
  }

  function SetOf(xs: seq<string>): set<string> { set x | x in xs }

  /** groups holds the ports of each group, order its keys as first met. */
  ghost predicate GroupsOk(ports: seq<Port>, order: seq<string>, groups: map<string, seq<string>>) {
    && (forall g :: g in order <==> g in groups)
    && (forall i :: 0 <= i < |ports| ==> ports[i].group in order)
    && (forall g :: g in groups ==> SetOf(groups[g]) == GroupOf(ports, g))
  }

  lemma GroupsStep(ports: seq<Port>, i: nat, order: seq<string>, groups: map<string, seq<string>>)
    requires i < |ports| && GroupsOk(ports[..i], order, groups)
    ensures var g := ports[i].group;
            var seen := if g in groups then groups[g] else [];
            GroupsOk(ports[..i + 1], if g in groups then order else order + [g], groups[g := seen + [ports[i].port]])
  {
    var h := ports[i].group;
    var seen := if h in groups then groups[h] else [];
    var after := groups[h := seen + [ports[i].port]];
    var order' := if h in groups then order else order + [h];
    assert SetOf(seen + [ports[i].port]) == SetOf(seen) + {ports[i].port};
    forall g | g in after ensures SetOf(after[g]) == GroupOf(ports[..i + 1], g) {
      GroupGrows(ports, i, g);
      if h !in groups { assert GroupOf(ports[..i], h) == {}; }
    }
    var more := ports[..i + 1];
    forall k | 0 <= k < |more| ensures more[k].group in order' {
      if k < i { assert ports[..i][k] == more[k]; }
    }
  }

  /** The validating loop: names seen so far, and the ports of each group in the
      order in which groups first appear. */
  method Inventory(ports: seq<Port>)
    returns (ok: bool, names: set<string>, order: seq<string>, groups: map<string, seq<string>>)
    ensures ok <==> (forall i :: 0 <= i < |ports| ==> ValidPort(ports[i])) && UniqueNames(ports)
    ensures ok ==> names == NamesOf(ports) && GroupsOk(ports, order, groups)
  {
    names, order, groups := {}, [], map[];
    for i := 0 to |ports|
      invariant forall k :: 0 <= k < i ==> ValidPort(ports[k])
      invariant UniqueNames(ports[..i])
      invariant names == NamesOf(ports[..i])
      invariant GroupsOk(ports[..i], order, groups)
    {
      var p := ports[i];
      if !Name(p.port, 15) || !Mac(p.mac) || !Name(p.group, 63) || !IPv4(p.ip) { return false, names, order, groups; }
      NamesGrow(ports, i);
      if p.port in names {
        var k :| 0 <= k < i && ports[..i][k].port == p.port;
        return false, names, order, groups;
      }
      UniqueGrows(ports, i);
      names := names + {p.port};
      GroupsStep(ports, i, order, groups);
      if p.group !in groups {
        order, groups := order + [p.group], groups[p.group := []];
      }
      groups := groups[p.group := groups[p.group] + [p.port]];
    }
    assert ports[..|ports|] == ports;
    ok := true;
  }

  lemma UniqueGrows(ports: seq<Port>, i: nat)
    requires i < |ports| && UniqueNames(ports[..i]) && ports[i].port !in NamesOf(ports[..i])
    ensures UniqueNames(ports[..i + 1])
  {
    forall k | 0 <= k < i ensures ports[k].port != ports[i].port {
      assert ports[..i][k].port in NamesOf(ports[..i]);
    }
  }

  lemma NamesGrow(ports: seq<Port>, i: nat)
    requires i < |ports|
    ensures NamesOf(ports[..i + 1]) == NamesOf(ports[..i]) + {ports[i].port}
  {
    var a, b := ports[..i], ports[..i + 1];
    forall x | x in NamesOf(a) ensures x in NamesOf(b) {
      var k :| 0 <= k < i && a[k].port == x;
      assert b[k] == a[k];
    }
    assert b[i].port in NamesOf(b);
  }

  lemma GroupGrows(ports: seq<Port>, i: nat, g: string)
    requires i < |ports|
    ensures GroupOf(ports[..i + 1], g) == GroupOf(ports[..i], g) + if ports[i].group == g then {ports[i].port} else {}
  {
    var a, b := ports[..i], ports[..i + 1];
    forall x | x in GroupOf(a, g) ensures x in GroupOf(b, g) {
      var k :| 0 <= k < i && a[k].group == g && a[k].port == x;
      assert b[k] == a[k];
    }
    if ports[i].group == g { assert b[i].port in GroupOf(b, g); }
  }

  /** Return off the bridge, jump to the chain of each port, drop the rest. */
  method IngressRules(bridge: string, ports: seq<Port>) returns (rules: seq<Rule>)
    ensures IngressShape(bridge, ports, rules)
  {
    rules := [Rule([BridgeIsNot(bridge)], Return)];
    for i := 0 to |ports|
      invariant |rules| == i + 1 && rules[0] == Rule([BridgeIsNot(bridge)], Return)
      invariant forall k :: 0 <= k < i ==> rules[k + 1] == Rule([InIs(ports[k].port)], Jump(k))
    {
      rules := rules + [Rule([InIs(ports[i].port)], Jump(i))];
    }
    rules := rules + [Rule([], Drop)];
  }

  method PortChains(ports: seq<Port>) returns (chains: seq<seq<Rule>>)
    ensures ChainsShape(ports, chains)
  {
    chains := [];
    for i := 0 to |ports|
      invariant |chains| == i && forall k :: 0 <= k < i ==> chains[k] == PortChain(ports[k])
    {
      chains := chains + [[Rule([SourceMacIsNot(ports[i].mac)], Drop), Rule([IpSourceIsNot(ports[i].ip)], Drop),
                           Rule([ArpMacIsNot(ports[i].mac)], Drop), Rule([ArpIpIsNot(ports[i].ip)], Drop),
                           Rule([NeitherIpNorArp], Drop), Rule([], Accept)]];
    }
  }

  /** Return off the bridge, accept what a proxy takes part in and what stays in one group. */
  method ForwardRules(bridge: string, ports: seq<Port>, proxies: set<string>, names: set<string>,
                      order: seq<string>, groups: map<string, seq<string>>) returns (rules: seq<Rule>)
    requires proxies == ProxyNames(ports) && names == NamesOf(ports) && GroupsOk(ports, order, groups)
    ensures ForwardShape(bridge, ports, order, rules)
  {
    rules := [Rule([BridgeIsNot(bridge)], Return), Rule([OutBridgeIsNot(bridge)], Return),
              Rule([InIn(proxies), OutIn(names)], Accept), Rule([OutIn(proxies), InIn(names)], Accept)];
    ghost var first := rules;
    for g := 0 to |order|
      invariant |rules| == g + 4 && rules[..4] == first
      invariant forall k :: 0 <= k < g ==> rules[k + 4] == GroupRule(GroupOf(ports, order[k]))
    {
      assert order[g] in order;
      var members := SetOf(groups[order[g]]);
      rules := rules + [Rule([InIn(members), OutIn(members)], Accept)];
    }
    rules := rules + [Rule([], Drop)];
    assert forall k :: 0 <= k < 4 ==> rules[k] == rules[..4][k];
    assert rules[..4] == first;
  }

  /** render: refused exactly for an invalid table, and otherwise a program that
      gives every packet the verdict of the intended policy. */
  method Render(bridge: string, ports: seq<Port>, table: string) returns (ok: bool, program: Program)
    ensures ok <==> ValidTable(bridge, table, ports)
    ensures ok ==> forall p :: Decide(program.ingress, program.portChains, p)
                               == if MayEnter(bridge, ports, p) then Accepted else Dropped
    ensures ok ==> forall p :: Decide(program.forward, [], p)
                               == if MayForward(bridge, ports, p) then Accepted else Dropped
  {
    program := Program([], [], []);
    if !Name(bridge, 15) || !TableName(table) { return false, program; }
    if ports == [] || |ports| > 256 { return false, program; }
    var names, order, groups;
    ok, names, order, groups := Inventory(ports);
    if !ok { return; }
    var proxies := [];
    for i := 0 to |ports|
      invariant proxies == Proxies(ports[..i])
    {
      ProxiesOneMore(ports, i);
      if ports[i].proxy { proxies := proxies + [ports[i].port]; }
    }
    assert ports[..|ports|] == ports;
    if proxies == [] || |proxies| > 4 { return false, program; }
    ProxiesAreNames(ports);
    var ingress := IngressRules(bridge, ports);
    var chains := PortChains(ports);
    var forwarding := ForwardRules(bridge, ports, SetOf(proxies), names, order, groups);
    program := Program(ingress, chains, forwarding);
    forall p { IngressMeans(bridge, ports, ingress, chains, p); }
    forall p { ForwardMeans(bridge, ports, order, forwarding, p); }
  }

  /** Tenants are isolated: no packet passes between two ports of different
      groups in either direction unless one of them is a proxy. */
  lemma TenantsAreIsolated(bridge: string, ports: seq<Port>, a: nat, b: nat, p: Packet)
    requires a < |ports| && b < |ports| && UniqueNames(ports)
    requires p.bridge == bridge && p.outBridge == bridge
    requires p.iif == ports[a].port && p.oif == ports[b].port
    ensures MayForward(bridge, ports, p) <==> ports[a].proxy || ports[b].proxy || ports[a].group == ports[b].group
    ensures MayForward(bridge, ports, p) <==> MayForward(bridge, ports, p.(iif := p.oif, oif := p.iif))
  {
    forall i | 0 <= i < |ports| && ports[i].port == p.iif ensures i == a {}
    forall j | 0 <= j < |ports| && ports[j].port == p.oif ensures j == b {}
  }
}
