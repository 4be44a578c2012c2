/** LXC property strings: network devices, allocated mount points with their live-form rewrite, and
    host-path bind mounts. */
module LxcWire {
  import opened Text
  import opened Drive
  import opened Devices

  /** PVE storage ids as the schema accepts them. */
  predicate StorageId(s: string) {
    s != "" && forall i | 0 <= i < |s| ::
      IsDigit(s[i]) || 'a' <= s[i] <= 'z' || 'A' <= s[i] <= 'Z' || s[i] == '_' || s[i] == '-' || s[i] == '.'
  }

  /** A value beginning with a storage id and a colon is a live allocation. */
  lemma StorageIsLive(pool: string, rest: string)
    requires StorageId(pool) && Trimmed(pool + ":" + rest)
    ensures !IsNewSlot(pool + ":" + rest)
    ensures CleanPool(pool) && ',' !in pool && '=' !in pool
  {
    var s := pool + ":" + rest;
    assert s[|pool|] == ':';
    assert forall i | 0 <= i < |pool| :: s[i] == pool[i];
    assert ':' !in "none";
    NotPrefix(pool, rest, "none,");
    NotPrefix(pool, rest, "none;");
  }

  lemma NotPrefix(pool: string, rest: string, p: string)
    requires StorageId(pool) && (p == "none," || p == "none;")
    ensures !HasPrefix(pool + ":" + rest, p)
  {
    var s, i := pool + ":" + rest, if |pool| < 5 then |pool| else 4;
    assert i < |s| && s[i] == if i < |pool| then pool[i] else ':';
  }

  // ----- network devices -----

  datatype Net = Net(iface: string, typ: string, bridge: string, tag: int, hwaddr: string, rate: int,
                     firewall: bool, ip: string, gw: string, slot: string)

  datatype NetKey = NameKey | TypeKey | BridgeKey | TagKey | HwKey | RateKey | FirewallKey | IpKey | GwKey | OtherKey

  function NetKeyOf(k: string): NetKey {
    if k == "name" then NameKey
    else if k == "type" then TypeKey
    else if k == "bridge" then BridgeKey
    else if k == "tag" then TagKey
    else if k == "hwaddr" then HwKey
    else if k == "rate" then RateKey
    else if k == "firewall" then FirewallKey
    else if k == "ip" then IpKey
    else if k == "gw" then GwKey
    else OtherKey
  }

  function NetOption(k: NetKey, v: string, out: Net): Net {
    match k
    case NameKey => out.(iface := v)
    case TypeKey => out.(typ := v)
    case BridgeKey => out.(bridge := v)
    case TagKey => out.(tag := Atoi(v))
    case HwKey => out.(hwaddr := Lower(v))
    case RateKey => out.(rate := Atoi(v))
    case FirewallKey => out.(firewall := v == "1" || v == "true")
    case IpKey => out.(ip := v)
    case GwKey => out.(gw := v)
    case OtherKey => out
  }

  function NetToken(token: string, out: Net): Net {
    var t := TrimSpace(token);
    if CutKey(t).None? then out else NetOption(NetKeyOf(CutKey(t).value), CutValue(t), out)
  }

  function NetTokens(tokens: seq<string>, out: Net): Net {
    if tokens == [] then out else NetTokens(tokens[1..], NetToken(tokens[0], out))
  }

  const NO_NET := Net("", "", "", 0, "", 0, false, "", "", "")

  function ParseNet(s: string): Net { NetTokens(Split(s, ','), NO_NET) }

  function Interface(n: Net): string {
    var iface := TrimSpace(n.iface);
    if iface != "" then iface else if n.slot != "" then n.slot else "net0"
  }

  function NetWireTokens(n: Net): seq<string> {
    ["name" + "=" + Interface(n)]
    + TextToken("type", TrimSpace(n.typ))
    + TextToken("bridge", n.bridge)
    + NumberToken("tag", n.tag)
    + TextToken("hwaddr", Lower(TrimSpace(n.hwaddr)))
    + NumberToken("rate", n.rate)
    + (if n.firewall then ["firewall" + "=" + "1"] else [])
    + TextToken("ip", TrimSpace(n.ip))
    + TextToken("gw", TrimSpace(n.gw))
  }

  function NetString(n: Net): string { Join(NetWireTokens(n), ",") }

  predicate NetSatisfies(got: Net, n: Net) {
    && (TrimSpace(n.iface) != "" ==> got.iface == TrimSpace(n.iface))
    && (n.bridge != "" ==> got.bridge == n.bridge)
    && (n.tag > 0 ==> got.tag == n.tag)
    && (Lower(TrimSpace(n.hwaddr)) != "" ==> got.hwaddr == Lower(TrimSpace(n.hwaddr)))
    && (n.rate > 0 ==> got.rate == n.rate)
    && (n.firewall ==> got.firewall)
    && (TrimSpace(n.ip) != "" ==> got.ip == TrimSpace(n.ip))
    && (TrimSpace(n.gw) != "" ==> got.gw == TrimSpace(n.gw))
  }

  predicate NetMatches(cur: string, n: Net) { NetSatisfies(ParseNet(cur), n) }

  predicate CleanNet(n: Net) {
    && CleanValue(Interface(n)) && CleanValue(TrimSpace(n.typ)) && CleanValue(n.bridge)
    && CleanValue(TrimSpace(n.hwaddr)) && CleanValue(TrimSpace(n.ip)) && CleanValue(TrimSpace(n.gw))
  }

  lemma {:induction false} NetTokensConcat(a: seq<string>, b: seq<string>, out: Net)
    ensures NetTokens(a + b, out) == NetTokens(b, NetTokens(a, out))
  {
    if a == [] {
      assert a + b == b;
    } else {
      assert (a + b)[1..] == a[1..] + b;
      NetTokensConcat(a[1..], b, NetToken(a[0], out));
    }
  }

  lemma NetPair(k: string, v: string, out: Net)
    requires CleanKey(k) && CleanValue(v)
    ensures NetTokens([k + "=" + v], out) == NetOption(NetKeyOf(k), v, out)
    ensures CleanToken(k + "=" + v)
  {
    hide NetKeyOf, NetOption;
    ParsePair(k, v);
    var t := k + "=" + v;
    assert NetTokens([t][1..], NetToken(t, out)) == NetToken(t, out);
  }

  lemma NetText(k: string, v: string, out: Net)
    requires CleanKey(k) && CleanValue(v)
    ensures NetTokens(TextToken(k, v), out) == if v == "" then out else NetOption(NetKeyOf(k), v, out)
    ensures forall t | t in TextToken(k, v) :: CleanToken(t)
  {
    hide NetKeyOf, NetOption, CleanToken;
    if v != "" {
      NetPair(k, v, out);
    }
  }

  lemma ItoaClean(n: int)
    ensures CleanValue(Itoa(n))
  {
    var s := Itoa(n);
    assert forall i | 0 <= i < |s| :: i > 0 ==> s[i] == s[1..][i - 1];
  }

  lemma NetNumber(k: string, n: int, out: Net)
    requires CleanKey(k)
    ensures NetTokens(NumberToken(k, n), out) == if n > 0 then NetOption(NetKeyOf(k), Itoa(n), out) else out
    ensures forall t | t in NumberToken(k, n) :: CleanToken(t)
  {
    hide NetKeyOf, NetOption, CleanToken;
    if n > 0 {
      ItoaClean(n);
      NetPair(k, Itoa(n), out);
    }
  }

  lemma NetKeys()
    ensures NetKeyOf("name") == NameKey && NetKeyOf("type") == TypeKey && NetKeyOf("bridge") == BridgeKey
    ensures NetKeyOf("tag") == TagKey && NetKeyOf("hwaddr") == HwKey && NetKeyOf("rate") == RateKey
    ensures NetKeyOf("firewall") == FirewallKey && NetKeyOf("ip") == IpKey && NetKeyOf("gw") == GwKey
  {
  }

  lemma NetTokensClean(n: Net)
    requires CleanNet(n)
    ensures forall t | t in NetWireTokens(n) :: CleanToken(t)
  {
    hide CleanToken, NetTokens, NetOption, NetKeyOf, Interface;
    LowerClean(TrimSpace(n.hwaddr));
    NetPair("name", Interface(n), NO_NET);
    NetText("type", TrimSpace(n.typ), NO_NET);
    NetText("bridge", n.bridge, NO_NET);
    NetNumber("tag", n.tag, NO_NET);
    NetText("hwaddr", Lower(TrimSpace(n.hwaddr)), NO_NET);
    NetNumber("rate", n.rate, NO_NET);
    NetPair("firewall", "1", NO_NET);
    NetText("ip", TrimSpace(n.ip), NO_NET);
    NetText("gw", TrimSpace(n.gw), NO_NET);
  }

  /** One more field: what has been read so far, followed by one optional token. */
  lemma ThenText(before: seq<string>, o: Net, k: string, v: string)
    requires NetTokens(before, NO_NET) == o && CleanKey(k) && CleanValue(v)
    requires NetOption(NetKeyOf(k), "", o) == o
    ensures NetTokens(before + TextToken(k, v), NO_NET) == NetOption(NetKeyOf(k), v, o)
  {
    NetTokensConcat(before, TextToken(k, v), NO_NET);
    NetText(k, v, o);
  }

  function Positive(n: int): int { if n > 0 then n else 0 }

  lemma ThenNumber(before: seq<string>, o: Net, k: string, n: int)
    requires NetTokens(before, NO_NET) == o && (k == "tag" || k == "rate")
    requires if k == "tag" then o.tag == 0 else o.rate == 0
    ensures NetTokens(before + NumberToken(k, n), NO_NET)
            == if k == "tag" then o.(tag := Positive(n)) else o.(rate := Positive(n))
  {
    hide Itoa, Atoi, NetTokens, NumberToken, NetKeyOf, CleanToken;
    NetKeys();
    assert CleanKey("tag") && CleanKey("rate");
    NetTokensConcat(before, NumberToken(k, n), NO_NET);
    NetNumber(k, n, o);
    AtoiItoa(n);
  }

  lemma NetParses(n: Net)
    requires CleanNet(n)
    ensures NetTokens(NetWireTokens(n), NO_NET)
            == Net(Interface(n), TrimSpace(n.typ), n.bridge, Positive(n.tag), Lower(TrimSpace(n.hwaddr)),
                   Positive(n.rate), n.firewall, TrimSpace(n.ip), TrimSpace(n.gw), "")
  {
    hide CutKey, CutValue, Lower, TrimSpace, NetTokens, NetToken, Interface, NetKeyOf, Itoa, Atoi, CleanValue, TextToken, NumberToken, Positive;
    NetKeys();
    LowerClean(TrimSpace(n.hwaddr));
    LowerIdempotent(TrimSpace(n.hwaddr));
    LowerEmpty();
    var hw := Lower(TrimSpace(n.hwaddr));
    var o1 := NO_NET.(iface := Interface(n));
    var o2 := o1.(typ := TrimSpace(n.typ));
    var o3 := o2.(bridge := n.bridge);
    var o4 := o3.(tag := Positive(n.tag));
    var o5 := o4.(hwaddr := hw);
    var o6 := o5.(rate := Positive(n.rate));
    var o7 := o6.(firewall := n.firewall);
    var o8 := o7.(ip := TrimSpace(n.ip));
    var t1 := ["name" + "=" + Interface(n)];
    NetPair("name", Interface(n), NO_NET);
    var t2 := t1 + TextToken("type", TrimSpace(n.typ));
    ThenText(t1, o1, "type", TrimSpace(n.typ));
    var t3 := t2 + TextToken("bridge", n.bridge);
    ThenText(t2, o2, "bridge", n.bridge);
    var t4 := t3 + NumberToken("tag", n.tag);
    ThenNumber(t3, o3, "tag", n.tag);
    var t5 := t4 + TextToken("hwaddr", hw);
    ThenText(t4, o4, "hwaddr", hw);
    var t6 := t5 + NumberToken("rate", n.rate);
    ThenNumber(t5, o5, "rate", n.rate);
    var t7 := t6 + (if n.firewall then ["firewall" + "=" + "1"] else []);
    NetTokensConcat(t6, if n.firewall then ["firewall" + "=" + "1"] else [], NO_NET);
    NetFirewall(n.firewall, o6);
    var t8 := t7 + TextToken("ip", TrimSpace(n.ip));
    ThenText(t7, o7, "ip", TrimSpace(n.ip));
    ThenText(t8, o8, "gw", TrimSpace(n.gw));
  }

  lemma LowerEmpty()
    ensures Lower("") == ""
  {
  }

  lemma InterfaceOwned(n: Net)
    ensures TrimSpace(n.iface) != "" ==> Interface(n) == TrimSpace(n.iface)
  {
  }

  lemma NetFirewall(on: bool, out: Net)
    ensures NetTokens(if on then ["firewall" + "=" + "1"] else [], out) == if on then out.(firewall := true) else out
    ensures CleanToken("firewall" + "=" + "1")
  {
    NetPair("firewall", "1", out);
  }

  /** The written network value satisfies every owned field. */
  lemma WrittenNet(n: Net)
    requires CleanNet(n)
    ensures NetMatches(NetString(n), n)
  {
    NetParses(n);
    NetTokensClean(n);
    InterfaceOwned(n);
    var tokens := NetWireTokens(n);
    assert tokens[0] == "name" + "=" + Interface(n);
    SplitJoin(tokens, ',') by {
      forall t | t in tokens ensures ',' !in t {
        assert CleanToken(t);
      }
    }
  }
}
