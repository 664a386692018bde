/** Subdomain labels, the hosts they are advertised under, and the two lookups that turn a Host header back
    into a label. */
module Names {
  import opened Protocol
  import opened Text

  // ---- sanitizing ----

  /** Unicode White_Space, as `str::trim` uses it. */
  predicate IsWhitespace(c: char) {
    var n := c as int;
    || 0x09 <= n <= 0x0D || n == 0x20 || n == 0x85 || n == 0xA0 || n == 0x1680 || 0x2000 <= n <= 0x200A
    || n == 0x2028 || n == 0x2029 || n == 0x202F || n == 0x205F || n == 0x3000
  }

  function TrimStart(s: string): string {
    if s != [] && IsWhitespace(s[0]) then TrimStart(s[1..]) else s
  }

  function TrimEnd(s: string): string {
    if s != [] && IsWhitespace(s[|s| - 1]) then TrimEnd(s[..|s| - 1]) else s
  }

  function Trim(s: string): string {
    TrimEnd(TrimStart(s))
  }

  predicate IsAlphanumeric(c: char) {
    'a' <= c <= 'z' || 'A' <= c <= 'Z' || '0' <= c <= '9'
  }

  predicate Kept(c: char) {
    IsAlphanumeric(c) || c == '-'
  }

  function Filter(s: string): string {
    if s == [] then [] else (if Kept(s[0]) then [s[0]] else []) + Filter(s[1..])
  }

  function SanitizeSubdomain(raw: string): Option<string> {
    var normalized := Filter(Lower(Trim(raw)));
    if normalized == [] || |normalized| > 63 then None
    else if normalized[0] == '-' || normalized[|normalized| - 1] == '-' then None
    else Some(normalized)
  }

  predicate LabelChar(c: char) {
    'a' <= c <= 'z' || '0' <= c <= '9' || c == '-'
  }

  /** A lower-case label of section 2.3.1 of RFC 1035 as relaxed by section 2.1 of RFC 1123. */
  ghost predicate ValidLabel(s: string) {
    1 <= |s| <= 63 && (forall c :: c in s ==> LabelChar(c)) && s[0] != '-' && s[|s| - 1] != '-'
  }

  lemma {:induction false} FilterAppend(a: string, b: string)
    ensures Filter(a + b) == Filter(a) + Filter(b)
  {
    if a == [] {
      assert a + b == b;
    } else {
      var first: string := if Kept(a[0]) then [a[0]] else [];
      FilterAppend(a[1..], b);
      assert (a + b)[0] == a[0] && (a + b)[1..] == a[1..] + b;
      assert first + (Filter(a[1..]) + Filter(b)) == first + Filter(a[1..]) + Filter(b);
    }
  }

  /** The filter keeps ASCII letters, digits and hyphens, in order, and drops every other character. */
  lemma FilterExact(a: string, c: char, b: string)
    ensures Filter(a + [c] + b) ==
      Filter(a)
      + (if 'a' <= c <= 'z' || 'A' <= c <= 'Z' || '0' <= c <= '9' || c == '-' then [c] else [])
      + Filter(b)
    ensures Filter([]) == []
  {
    FilterAppend(a + [c], b);
    FilterAppend(a, [c]);
  }

  lemma {:induction false} FilterKeeps(s: string)
    ensures forall c :: c in Filter(s) ==> Kept(c) && c in s
    ensures (forall c :: c in s ==> Kept(c)) ==> Filter(s) == s
  {
    if s != [] {
      FilterKeeps(s[1..]);
      assert s == [s[0]] + s[1..];
    }
  }

  lemma {:induction false} TrimStartFiltered(s: string)
    ensures Filter(Lower(TrimStart(s))) == Filter(Lower(s))
  {
    if s != [] && IsWhitespace(s[0]) {
      TrimStartFiltered(s[1..]);
      assert Lower(s)[1..] == Lower(s[1..]);
    }
  }

  lemma {:induction false} TrimEndFiltered(s: string)
    ensures Filter(Lower(TrimEnd(s))) == Filter(Lower(s))
  {
    if s != [] && IsWhitespace(s[|s| - 1]) {
      TrimEndFiltered(s[..|s| - 1]);
      assert Lower(s) == Lower(s[..|s| - 1]) + [LowerChar(s[|s| - 1])];
      FilterAppend(Lower(s[..|s| - 1]), [LowerChar(s[|s| - 1])]);
    }
  }

  lemma LoweredKeptIsLabelChar(raw: string)
    ensures forall c :: c in Filter(Lower(raw)) ==> LabelChar(c)
  {
    FilterKeeps(Lower(raw));
    forall c | c in Filter(Lower(raw)) ensures LabelChar(c) {
      var i :| 0 <= i < |raw| && Lower(raw)[i] == c;
    }
  }

  /** Exactly which labels sanitizing can produce, and from which texts: trimming never matters. */
  lemma SanitizeExact(raw: string, name: string)
    ensures SanitizeSubdomain(raw) == Some(name) <==> ValidLabel(name) && name == Filter(Lower(raw))
  {
    TrimEndFiltered(TrimStart(raw));
    TrimStartFiltered(raw);
    assert Filter(Lower(Trim(raw))) == Filter(Lower(raw));
    LoweredKeptIsLabelChar(raw);
  }

  /** The labels sanitizing leaves alone are exactly the valid ones, so sanitizing twice is sanitizing once. */
  lemma SanitizeFixesLabels(s: string)
    ensures SanitizeSubdomain(s) == Some(s) <==> ValidLabel(s)
    ensures SanitizeSubdomain(s).Some? ==>
              SanitizeSubdomain(SanitizeSubdomain(s).value) == SanitizeSubdomain(s)
  {
    if ValidLabel(s) {
      LabelFixed(s);
    }
    SanitizeExact(s, s);
    if SanitizeSubdomain(s).Some? {
      var name := SanitizeSubdomain(s).value;
      SanitizeExact(s, name);
      LabelFixed(name);
      SanitizeExact(name, name);
    }
  }

  lemma LabelFixed(s: string)
    requires forall c :: c in s ==> LabelChar(c)
    ensures Filter(Lower(s)) == s
  {
    assert forall i :: 0 <= i < |s| ==> s[i] in s;
    assert Lower(s) == s;
    FilterKeeps(s);
  }

  // ---- from a Host header to a label, on the relay ----

  datatype Resolution = Resolved(subdomain: string) | MissingHost | ForeignHost | EmptySubdomain

  function Resolve(header: Option<string>, domain: string): Resolution {
    if header.None? then MissingHost else
      var host := UpTo(header.value, ':');
      var suffix := "." + domain;
      if !EndsWith(host, suffix) then ForeignHost else
        var subdomain := host[..|host| - |suffix|];
        if subdomain == [] then EmptySubdomain else Resolved(subdomain)
  }

  /** What the resolver accepts: the host before its port is a non-empty name followed by `.domain`. */
  lemma ResolveExact(h: string, domain: string, x: string)
    ensures Resolve(Some(h), domain) == Resolved(x) <==> x != [] && UpTo(h, ':') == x + "." + domain
  {
    var host, suffix := UpTo(h, ':'), "." + domain;
    if host == x + "." + domain {
      assert host == x + suffix;
      assert EndsWith(host, suffix);
    }
    if EndsWith(host, suffix) {
      assert host == host[..|host| - |suffix|] + suffix;
    }
  }

  /** Every other answer of the resolver: no header, a host outside the domain, and the bare domain with a dot. */
  lemma ResolveRefuses(header: Option<string>, domain: string)
    ensures Resolve(header, domain) == MissingHost <==> header == None
    ensures Resolve(header, domain) == ForeignHost <==>
              header.Some? && forall x :: UpTo(header.value, ':') != x + "." + domain
    ensures Resolve(header, domain) == EmptySubdomain <==> header.Some? && UpTo(header.value, ':') == "." + domain
  {
    if header.Some? {
      var host, suffix := UpTo(header.value, ':'), "." + domain;
      forall x | host == x + "." + domain ensures EndsWith(host, suffix) {
        assert host == x + suffix;
      }
      if EndsWith(host, suffix) {
        var x := host[..|host| - |suffix|];
        assert host == x + suffix && host == x + "." + domain;
      }
      if host == "." + domain {
        assert host == [] + suffix;
      }
    }
  }

  // ---- the advertised address ----

  datatype Ack = Ack(subdomain: string, domain: string, protocol: TunnelProtocol,
                     publicScheme: string, publicPort: Option<nat>, publicUrl: string)

  function PortSuffix(port: nat): string {
    ":" + Digits(port)
  }

  function BuildAck(subdomain: string, domain: string, protocol: TunnelProtocol, tls: bool, port: Option<nat>): Ack {
    var scheme := match protocol { case Http => (if tls then "https" else "http") case Tcp => "tcp" };
    var defaultPort := if tls then 443 else 80;
    var suffix := match protocol {
        case Http => if port.Some? && port.value != defaultPort then PortSuffix(port.value) else ""
        case Tcp => if port.Some? then PortSuffix(port.value) else ""
      };
    var advertised := match protocol { case Http => (if suffix == "" then None else port) case Tcp => port };
    Ack(subdomain, domain, protocol, scheme, advertised, scheme + "://" + subdomain + "." + domain + suffix)
  }

  function DisplayUrl(ack: Ack): string {
    if ack.publicUrl != "" then ack.publicUrl else
      var scheme := if ack.publicScheme != "" then ack.publicScheme
                    else match ack.protocol { case Http => "http" case Tcp => "tcp" };
      var suffix :=
        if ack.publicPort.None? then ""
        else if scheme == "https" && ack.publicPort.value != 443 then PortSuffix(ack.publicPort.value)
        else if scheme == "http" && ack.publicPort.value != 80 then PortSuffix(ack.publicPort.value)
        else if scheme == "tcp" then PortSuffix(ack.publicPort.value)
        else "";
      scheme + "://" + ack.subdomain + "." + ack.domain + suffix
  }

  /** A client that received no URL recomputes the advertised one; one that received no scheme either does so
      exactly when the tunnel is not served over TLS. */
  lemma DisplayUrlRecovers(subdomain: string, domain: string, protocol: TunnelProtocol, tls: bool, port: Option<nat>)
    ensures var ack := BuildAck(subdomain, domain, protocol, tls, port);
      && DisplayUrl(ack) == ack.publicUrl
      && DisplayUrl(ack.(publicUrl := "")) == ack.publicUrl
      && (DisplayUrl(ack.(publicUrl := "", publicScheme := "")) == ack.publicUrl <==> !(protocol == Http && tls))
  {
    var ack := BuildAck(subdomain, domain, protocol, tls, port);
    if protocol == Http && tls {
      assert ack.publicUrl[4] == 's';
      assert DisplayUrl(ack.(publicUrl := "", publicScheme := ""))[4] == ':';
    }
  }

  /** A client shows whatever URL it was given, and makes one up only without: then a port shows exactly when it is not
      the scheme's own, and never behind a scheme it does not know. */
  lemma DisplayUrlShows(ack: Ack)
    ensures ack.publicUrl != "" ==> DisplayUrl(ack) == ack.publicUrl
    ensures ack.publicUrl == "" && ack.publicScheme != "" ==>
              var plain := ack.publicScheme + "://" + ack.subdomain + "." + ack.domain;
              DisplayUrl(ack) ==
                if ack.publicPort.None? || ack.publicScheme !in {"http", "https", "tcp"}
                   || (ack.publicPort.value, ack.publicScheme) in {(80, "http"), (443, "https")}
                then plain else plain + ":" + Digits(ack.publicPort.value)
  {
    if ack.publicUrl == "" && ack.publicScheme != "" && ack.publicPort.Some? {
      var host := ack.publicScheme + "://" + ack.subdomain + "." + ack.domain;
      assert host + "" == host;
      assert host + (":" + Digits(ack.publicPort.value)) == host + ":" + Digits(ack.publicPort.value);
    }
  }

  /** The port a client of this URL uses: the one behind the host, else the scheme's own. */
  function EffectivePort(scheme: string, tail: string): Option<nat> {
    if tail != "" && tail[0] == ':' && (forall c :: c in tail[1..] ==> IsDigit(c)) then Some(Value(tail[1..]))
    else if tail == "" && scheme == "https" then Some(443)
    else if tail == "" && scheme == "http" then Some(80)
    else None
  }

  /** Whoever follows the advertised URL reaches the port the relay announced, with TLS exactly when it is on; without
      an announced port, the scheme's own. The port is also advertised by itself unless the scheme implies it. */
  lemma AdvertisedPort(name: string, domain: string, protocol: TunnelProtocol, tls: bool, port: Option<nat>)
    returns (tail: string)
    ensures var ack := BuildAck(name, domain, protocol, tls, port);
      && ack.publicUrl == ack.publicScheme + "://" + name + "." + domain + tail
      && ack.publicScheme == (if protocol == Tcp then "tcp" else if tls then "https" else "http")
      && EffectivePort(ack.publicScheme, tail) ==
           (if port.Some? then port else if protocol == Tcp then None else if tls then Some(443) else Some(80))
      && (ack.publicPort.Some? ==> ack.publicPort == port && tail != "")
      && (ack.publicPort.None? ==> tail == "")
      && ack.subdomain == name && ack.domain == domain && ack.protocol == protocol
  {
    var ack := BuildAck(name, domain, protocol, tls, port);
    var start := ack.publicScheme + "://" + name + "." + domain;
    tail := ack.publicUrl[|start|..];
    assert ack.publicUrl == start + tail;
    assert tail == "" || (port.Some? && tail == PortSuffix(port.value));
    if tail != "" {
      DigitsRoundTrip(port.value);
      assert tail[1..] == Digits(port.value);
    }
  }

  lemma HostResolves(name: string, domain: string, tail: string)
    requires ValidLabel(name) && ':' !in domain
    requires tail == "" || tail[0] == ':'
    ensures Resolve(Some(name + "." + domain + tail), domain) == Resolved(name)
  {
    var bare := name + "." + domain;
    assert ':' !in bare by {
      assert ':' !in name && ':' !in ".";
    }
    if tail == "" {
      assert bare + tail == bare;
      UpToSplit(bare, ':', "");
    } else {
      assert bare + tail == bare + [':'] + tail[1..];
      UpToSplit(bare, ':', tail[1..]);
    }
    ResolveExact(bare + tail, domain, name);
  }

  /** The host a browser sends for an advertised URL resolves to the label it was advertised for, whatever the
      port or scheme, as long as the domain has no port of its own. */
  lemma AdvertisedResolves(name: string, domain: string, protocol: TunnelProtocol, tls: bool, port: Option<nat>)
    returns (host: string)
    requires ValidLabel(name) && ':' !in domain
    ensures var ack := BuildAck(name, domain, protocol, tls, port);
      && ack.publicUrl == ack.publicScheme + "://" + host
      && Resolve(Some(host), domain) == Resolved(name)
  {
    var ack := BuildAck(name, domain, protocol, tls, port);
    var start := ack.publicScheme + "://";
    var tail := ack.publicUrl[|start + name + "." + domain|..];
    assert tail == "" || (port.Some? && tail == PortSuffix(port.value));
    host := name + "." + domain + tail;
    assert ack.publicUrl == start + name + "." + domain + tail;
    assert start + name + "." + domain + tail == start + host;
    HostResolves(name, domain, tail);
  }

  // ---- from a Host header to a label, in the client ----

  /** The first label of the lower-cased host, ignoring its port. */
  function FirstLabel(host: string): string {
    UpTo(UpTo(Lower(host), ':'), '.')
  }

  /** Text `x` ends in `s` at a dot, a colon or the end, and holds neither. */
  predicate Leads(x: string, s: string) {
    x <= s && '.' !in x && ':' !in x && (|x| < |s| ==> s[|x|] == '.' || s[|x|] == ':')
  }

  /** The first label is the lower-cased text before the first dot or colon, or all of it without one. */
  lemma FirstLabelExact(host: string, x: string)
    ensures FirstLabel(host) == x <==> Leads(x, Lower(host))
  {
    FirstLabelLeads(Lower(host));
    if Leads(x, Lower(host)) {
      LeadsIsFirst(x, Lower(host));
    }
  }

  lemma FirstLabelLeads(s: string)
    ensures Leads(UpTo(UpTo(s, ':'), '.'), s)
  {
    UpToPrefix(s, ':');
    UpToPrefix(UpTo(s, ':'), '.');
  }

  lemma LeadsIsFirst(x: string, s: string)
    requires Leads(x, s)
    ensures UpTo(UpTo(s, ':'), '.') == x
  {
    FirstLabelLeads(s);
    var y := UpTo(UpTo(s, ':'), '.');
    assert forall k :: 0 <= k < |x| ==> s[k] == x[k] && x[k] in x;
    assert forall k :: 0 <= k < |y| ==> s[k] == y[k] && y[k] in y;
    assert x == s[..|x|] && y == s[..|y|];
  }

  lemma {:induction false} LowerUpTo(s: string, c: char)
    requires LowerChar(c) == c && !('a' <= c <= 'z')
    ensures UpTo(Lower(s), c) == Lower(UpTo(s, c))
  {
    if s != [] && s[0] != c {
      LowerUpTo(s[1..], c);
      assert Lower(s)[1..] == Lower(s[1..]);
      assert Lower(s)[0] != c;
    }
  }

  /** Whatever Host header the relay resolves to a registrable label, the client's lookup reads the same label. */
  lemma LookupsAgree(h: string, domain: string, name: string)
    requires Resolve(Some(h), domain) == Resolved(name) && ValidLabel(name)
    ensures FirstLabel(h) == name
  {
    ResolveExact(h, domain, name);
    LowerUpTo(h, ':');
    var low := Lower(name + "." + domain);
    assert Lower(name) == name by {
      assert forall i :: 0 <= i < |name| ==> name[i] in name;
    }
    assert low == name + ['.'] + Lower(domain);
    UpToSplit(name, '.', Lower(domain));
  }

  /** Eight random alphanumerics, lower-cased, are always a registrable label. */
  lemma RandomLabelValid(sample: string)
    requires |sample| == 8 && forall c :: c in sample ==> IsAlphanumeric(c)
    ensures ValidLabel(Lower(sample))
  {
    assert forall i :: 0 <= i < 8 ==> sample[i] in sample;
  }
}
