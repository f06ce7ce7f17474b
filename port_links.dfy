/**
 * The port column of the containers page (getPortsHtml in
 * web/src/app/containers/containers.tsx): for every port binding of a
 * container, a label "ip:publicPort->privatePort/type" and, when the port is
 * published, a link to it. The browser's `location` and the node's
 * `containerBaseUrl` are parameters.
 */
module PortLinks {
  import opened Wrappers
  import opened JsText

  /** A port binding (IPort); every field may be missing. */
  datatype Port = Port(ip: Option<string>, publicPort: Option<nat>, privatePort: Option<nat>, portType: Option<string>)

  /**
   * The parts of the browser's `location` that matter: `host` is
   * `hostname` followed by the page's own port, if any.
   */
  datatype BrowserLocation = BrowserLocation(protocol: string, hostname: string, host: string)

  /** What is shown for one binding: a link when the port is published, text otherwise. */
  datatype PortEntry = Link(caption: string, href: string) | Text(caption: string)

  // The four segments of a label; each is empty when its field is falsy.

  function IpSegment(p: Port): string
  {
    if TruthyString(p.ip) then p.ip.value + ":" else ""
  }

  function PublicSegment(p: Port): string
  {
    if TruthyNumber(p.publicPort) then NumberToString(p.publicPort.value) + "->" else ""
  }

  function PrivateSegment(p: Port): string
  {
    if TruthyNumber(p.privatePort) then NumberToString(p.privatePort.value) else ""
  }

  function TypeSegment(p: Port): string
  {
    if TruthyString(p.portType) then "/" + p.portType.value else ""
  }

  /**
   * The label: the segments of the present fields, in this order. It opens
   * with "ip:" when the address is truthy, closes with "/type" when the type
   * is, and is empty only when no field is truthy.
   */
  function PortLabel(p: Port): (s: string)
    ensures TruthyString(p.ip) ==> p.ip.value + ":" <= s
    ensures TruthyString(p.portType) ==> |s| > |p.portType.value| && s[|s| - |p.portType.value| - 1..] == "/" + p.portType.value
    ensures s == "" <==> !TruthyString(p.ip) && !TruthyNumber(p.publicPort) && !TruthyNumber(p.privatePort) && !TruthyString(p.portType)
  {
    IpSegment(p) + PublicSegment(p) + PrivateSegment(p) + TypeSegment(p)
  }

  /**
   * Each segment of a label is present exactly when its field is truthy,
   * for every binding.
   */
  lemma SegmentsPresentIffTruthy(p: Port)
    ensures IpSegment(p) != "" <==> TruthyString(p.ip)
    ensures PublicSegment(p) != "" <==> TruthyNumber(p.publicPort)
    ensures PrivateSegment(p) != "" <==> TruthyNumber(p.privatePort)
    ensures TypeSegment(p) != "" <==> TruthyString(p.portType)
    ensures PortLabel(p) == IpSegment(p) + PublicSegment(p) + PrivateSegment(p) + TypeSegment(p)
  {
  }

  /** The two wildcard bind addresses, `0.0.0.0` and `::`. */
  predicate IsWildcard(ip: Option<string>)
  {
    ip == Some("0.0.0.0") || ip == Some("::")
  }

  /**
   * The scheme and host a link starts with: for a wildcard address the
   * node's `containerBaseUrl` when it is set, else the page's own protocol
   * and host name; for any other address, absent included, that address.
   */
  function BaseUrl(p: Port, containerBaseUrl: Option<string>, location: BrowserLocation): (r: string)
    ensures IsWildcard(p.ip) && TruthyString(containerBaseUrl) ==> r == containerBaseUrl.value
    ensures !(IsWildcard(p.ip) && TruthyString(containerBaseUrl)) ==>
              location.protocol + "//" <= r &&
              r[|location.protocol| + 2..] == (if IsWildcard(p.ip) then location.hostname else RenderString(p.ip))
  {
    if IsWildcard(p.ip) then
      if !TruthyString(containerBaseUrl) then location.protocol + "//" + location.hostname
      else containerBaseUrl.value
    else location.protocol + "//" + RenderString(p.ip)
  }

  /**
   * The entry for one binding. Its label is the binding's label; it is a
   * link exactly when the public port is truthy, and the link's target is
   * chosen three ways by the bind address and the node override.
   */
  function PortEntryOf(p: Port, containerBaseUrl: Option<string>, location: BrowserLocation): (e: PortEntry)
    ensures e.caption == PortLabel(p)
    ensures e.Link? <==> TruthyNumber(p.publicPort)
    ensures e.Link? && IsWildcard(p.ip) && TruthyString(containerBaseUrl) ==>
              e.href == containerBaseUrl.value + ":" + NumberToString(p.publicPort.value)
    ensures e.Link? && IsWildcard(p.ip) && !TruthyString(containerBaseUrl) ==>
              e.href == location.protocol + "//" + location.hostname + ":" + NumberToString(p.publicPort.value)
    ensures e.Link? && !IsWildcard(p.ip) ==>
              e.href == location.protocol + "//" + RenderString(p.ip) + ":" + NumberToString(p.publicPort.value)
  {
    var url := BaseUrl(p, containerBaseUrl, location) + ":" + RenderNumber(p.publicPort);
    if TruthyNumber(p.publicPort) then Link(PortLabel(p), url) else Text(PortLabel(p))
  }

  /** getPortsHtml: one entry per binding, in the order of the bindings. */
  function PortsHtml(ports: seq<Port>, containerBaseUrl: Option<string>, location: BrowserLocation): (entries: seq<PortEntry>)
    ensures |entries| == |ports|
    ensures forall i :: 0 <= i < |ports| ==> entries[i] == PortEntryOf(ports[i], containerBaseUrl, location)
  {
    if ports == [] then []
    else [PortEntryOf(ports[0], containerBaseUrl, location)] + PortsHtml(ports[1..], containerBaseUrl, location)
  }

  /** With a wildcard address and a node override, the page's location plays no part. */
  lemma OverrideIgnoresLocation(p: Port, containerBaseUrl: Option<string>, l1: BrowserLocation, l2: BrowserLocation)
    requires IsWildcard(p.ip) && TruthyString(containerBaseUrl)
    ensures PortEntryOf(p, containerBaseUrl, l1) == PortEntryOf(p, containerBaseUrl, l2)
  {
  }

  /**
   * The port the page itself is served on never reaches a link. This rests
   * on the browser giving `location.hostname` without the port, which only
   * `location.host` carries.
   */
  lemma PagePortIgnored(p: Port, containerBaseUrl: Option<string>, location: BrowserLocation, host: string)
    ensures PortEntryOf(p, containerBaseUrl, location) == PortEntryOf(p, containerBaseUrl, location.(host := host))
  {
  }

  /** With any address other than a wildcard, the node override plays no part. */
  lemma ConcreteAddressIgnoresOverride(p: Port, b1: Option<string>, b2: Option<string>, location: BrowserLocation)
    requires !IsWildcard(p.ip)
    ensures PortEntryOf(p, b1, location) == PortEntryOf(p, b2, location)
  {
  }

  /** A published port with no address takes the concrete-address branch: its host is "undefined". */
  lemma MissingAddressLink(p: Port, containerBaseUrl: Option<string>, location: BrowserLocation)
    requires p.ip == None && TruthyNumber(p.publicPort)
    ensures PortEntryOf(p, containerBaseUrl, location).href ==
              location.protocol + "//undefined:" + NumberToString(p.publicPort.value)
  {
  }

  lemma {:induction false} Render8080()
    ensures NumberToString(8080) == "8080"
  {
    assert DigitChar(0) == '0' && DigitChar(8) == '8';
    assert NumberToString(8) == "8";
    assert NumberToString(80) == "80";
    assert NumberToString(808) == "808";
  }

  lemma {:induction false} Render80()
    ensures NumberToString(80) == "80"
  {
    assert DigitChar(0) == '0' && DigitChar(8) == '8';
    assert NumberToString(8) == "8";
  }

  /** The binding {0.0.0.0, 8080, 80, tcp}. */
  const ExamplePort: Port := Port(Some("0.0.0.0"), Some(8080), Some(80), Some("tcp"))

  /** A page served from https://host.example:9000. */
  const ExampleLocation: BrowserLocation := BrowserLocation("https:", "host.example", "host.example:9000")

  lemma ExampleLabel()
    ensures PortLabel(ExamplePort) == "0.0.0.0:8080->80/tcp"
  {
    Render8080();
    Render80();
    assert IpSegment(ExamplePort) == "0.0.0.0:" && PublicSegment(ExamplePort) == "8080->";
    assert PrivateSegment(ExamplePort) == "80" && TypeSegment(ExamplePort) == "/tcp";
  }

  lemma ExampleUrls()
    ensures BaseUrl(ExamplePort, None, ExampleLocation) + ":" + RenderNumber(ExamplePort.publicPort) == "https://host.example:8080"
    ensures BaseUrl(ExamplePort, Some("https://mybox.local"), ExampleLocation) + ":" + RenderNumber(ExamplePort.publicPort) == "https://mybox.local:8080"
  {
    Render8080();
    assert BaseUrl(ExamplePort, None, ExampleLocation) == "https://host.example";
    assert BaseUrl(ExamplePort, Some("https://mybox.local"), ExampleLocation) == "https://mybox.local";
  }

  /**
   * The example binding on that page is labelled "0.0.0.0:8080->80/tcp"
   * and links to the page's host, or to the node override when one is set.
   */
  lemma ExampleLinks()
    ensures PortEntryOf(ExamplePort, None, ExampleLocation) == Link("0.0.0.0:8080->80/tcp", "https://host.example:8080")
    ensures PortEntryOf(ExamplePort, Some("https://mybox.local"), ExampleLocation) == Link("0.0.0.0:8080->80/tcp", "https://mybox.local:8080")
  {
    ExampleLabel();
    ExampleUrls();
  }


  // Reading a label back. Each field of a label is recovered from the right:
  // the type after the last '/', then the private port as the trailing digits,
  // then the public port as the digits before "->", then the address before ':'.

  /** The last position of `c` in `s`, if any. */
  function LastIndex(s: string, c: char): (r: Option<nat>)
    ensures r.Some? ==> r.value < |s| && s[r.value] == c && c !in s[r.value + 1..]
    ensures r.None? ==> c !in s
  {
    if s == [] then None
    else if s[|s| - 1] == c then Some(|s| - 1)
    else
      var r := LastIndex(s[..|s| - 1], c);
      assert r.Some? ==> s[r.value + 1..] == s[..|s| - 1][r.value + 1..] + [s[|s| - 1]];
      assert r.None? ==> s == s[..|s| - 1] + [s[|s| - 1]];
      r
  }

  /** The length of the longest all-digit suffix of `s`. */
  function TrailingDigits(s: string): (k: nat)
    ensures k <= |s| && AllDigits(s[|s| - k..])
    ensures k < |s| ==> !IsDigit(s[|s| - k - 1])
  {
    if s == [] || !IsDigit(s[|s| - 1]) then 0
    else
      var k := TrailingDigits(s[..|s| - 1]);
      assert s[|s| - (k + 1)..] == s[..|s| - 1][|s| - 1 - k..] + [s[|s| - 1]];
      k + 1
  }

  /** Splits off the type: the text after the last '/'. */
  function StripType(s: string): (string, Option<string>)
  {
    match LastIndex(s, '/')
    case None => (s, None)
    case Some(i) => (s[..i], Some(s[i + 1..]))
  }

  /** Splits off the private port: the trailing digits. */
  function StripPrivate(s: string): (string, Option<nat>)
  {
    var k := TrailingDigits(s);
    (s[..|s| - k], if k > 0 then Some(ParseDigits(s[|s| - k..])) else None)
  }

  /** Splits off the public port: the digits before a final "->". */
  function StripPublic(s: string): (string, Option<nat>)
  {
    if |s| >= 2 && s[|s| - 2..] == "->" then
      var r := s[..|s| - 2];
      var k := TrailingDigits(r);
      (r[..|r| - k], Some(ParseDigits(r[|r| - k..])))
    else (s, None)
  }

  /** The address: what comes before a final ':'. */
  function StripIp(s: string): Option<string>
  {
    if |s| >= 1 && s[|s| - 1] == ':' then Some(s[..|s| - 1]) else None
  }

  /** Reads the four fields back from a label. */
  function DecodeLabel(caption: string): Port
  {
    var (rest1, portType) := StripType(caption);
    var (rest2, privatePort) := StripPrivate(rest1);
    var (rest3, publicPort) := StripPublic(rest2);
    Port(StripIp(rest3), publicPort, privatePort, portType)
  }

  /** A binding with every falsy field made absent: what a label can tell. */
  function Normalize(p: Port): Port
  {
    Port(if TruthyString(p.ip) then p.ip else None,
         if TruthyNumber(p.publicPort) then p.publicPort else None,
         if TruthyNumber(p.privatePort) then p.privatePort else None,
         if TruthyString(p.portType) then p.portType else None)
  }

  /** Labels can be read back when neither the address nor the type holds a '/'. */
  predicate Readable(p: Port)
  {
    (p.ip.Some? ==> '/' !in p.ip.value) && (p.portType.Some? ==> '/' !in p.portType.value)
  }

  lemma {:induction false} StripTypeOf(x: string, p: Port)
    requires '/' !in x && Readable(p)
    ensures StripType(x + TypeSegment(p)) == (x, Normalize(p).portType)
  {
    if TruthyString(p.portType) {
      var s := x + TypeSegment(p);
      var t := p.portType.value;
      assert s == x + ['/'] + t;
      assert s[|x|] == '/';
      assert forall j :: 0 <= j < |x| ==> s[j] == x[j];
      assert forall j :: |x| < j < |s| ==> s[j] == t[j - |x| - 1];
      assert LastIndex(s, '/') == Some(|x|);
      assert s[..|x|] == x && s[|x| + 1..] == t;
    } else {
      assert x + TypeSegment(p) == x;
    }
  }

  lemma {:induction false} TrailingDigitsOf(a: string, d: string)
    requires AllDigits(d)
    requires a == [] || !IsDigit(a[|a| - 1])
    ensures TrailingDigits(a + d) == |d|
  {
    var s := a + d;
    assert forall j :: |a| <= j < |s| ==> s[j] == d[j - |a|];
    assert a != [] ==> s[|a| - 1] == a[|a| - 1];
  }

  /** The segments before the private port end with ':' or '>', never with a digit. */
  lemma {:induction false} PrefixEndsWithoutDigit(p: Port)
    ensures var x := IpSegment(p) + PublicSegment(p);
            x == [] || x[|x| - 1] == ':' || x[|x| - 1] == '>'
  {
    var x := IpSegment(p) + PublicSegment(p);
    if PublicSegment(p) != [] {
      assert x[|x| - 1] == PublicSegment(p)[|PublicSegment(p)| - 1];
    } else if IpSegment(p) != [] {
      assert x == IpSegment(p);
    }
  }

  lemma {:induction false} StripPrivateOf(p: Port)
    ensures StripPrivate(IpSegment(p) + PublicSegment(p) + PrivateSegment(p)) ==
              (IpSegment(p) + PublicSegment(p), Normalize(p).privatePort)
  {
    var x := IpSegment(p) + PublicSegment(p);
    var c := PrivateSegment(p);
    PrefixEndsWithoutDigit(p);
    TrailingDigitsOf(x, c);
    var s := x + c;
    assert s[..|s| - |c|] == x && s[|s| - |c|..] == c;
    if TruthyNumber(p.privatePort) {
      ParseNumberToString(p.privatePort.value);
    }
  }

  lemma StripPublicArrow(a: string, d: string)
    requires AllDigits(d)
    requires a == [] || a[|a| - 1] == ':'
    ensures StripPublic(a + d + "->") == (a, Some(ParseDigits(d)))
  {
    var s := a + d + "->";
    assert s[..|s| - 2] == a + d && s[|s| - 2..] == "->";
    TrailingDigitsOf(a, d);
    var r := a + d;
    assert r[..|r| - |d|] == a && r[|r| - |d|..] == d;
  }

  lemma StripPublicNoArrow(a: string)
    requires a == [] || a[|a| - 1] == ':'
    ensures StripPublic(a) == (a, None)
  {
    if |a| >= 2 {
      assert a[|a| - 2..][1] == ':';
    }
  }

  lemma {:induction false} StripPublicOf(p: Port)
    ensures StripPublic(IpSegment(p) + PublicSegment(p)) == (IpSegment(p), Normalize(p).publicPort)
  {
    var a := IpSegment(p);
    assert a == [] || a[|a| - 1] == ':';
    if TruthyNumber(p.publicPort) {
      var d := NumberToString(p.publicPort.value);
      assert a + PublicSegment(p) == a + d + "->";
      StripPublicArrow(a, d);
      ParseNumberToString(p.publicPort.value);
    } else {
      assert a + PublicSegment(p) == a;
      StripPublicNoArrow(a);
    }
  }

  /** The address is what comes before the ':' of the ip segment. */
  lemma StripIpOf(p: Port)
    ensures StripIp(IpSegment(p)) == Normalize(p).ip
  {
    var a := IpSegment(p);
    if TruthyString(p.ip) {
      assert a[..|a| - 1] == p.ip.value;
    }
  }

  /** No '/' appears before the type segment of a readable binding. */
  lemma NoSlashBeforeType(p: Port)
    requires Readable(p)
    ensures '/' !in IpSegment(p) + PublicSegment(p) + PrivateSegment(p)
  {
    assert '/' !in NumberToString(if p.publicPort.Some? then p.publicPort.value else 0);
    assert '/' !in NumberToString(if p.privatePort.Some? then p.privatePort.value else 0);
  }

  /**
   * Each segment of a label can be told apart from the others: for a
   * binding whose address and type hold no '/', reading its label back
   * gives every truthy field and nothing for the others.
   */
  lemma LabelRoundTrip(p: Port)
    requires Readable(p)
    ensures DecodeLabel(PortLabel(p)) == Normalize(p)
  {
    var x := IpSegment(p) + PublicSegment(p) + PrivateSegment(p);
    assert PortLabel(p) == x + TypeSegment(p);
    NoSlashBeforeType(p);
    StripTypeOf(x, p);
    StripPrivateOf(p);
    StripPublicOf(p);
    StripIpOf(p);
  }

}
