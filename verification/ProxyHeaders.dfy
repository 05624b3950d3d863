/** Resolving the client behind trusted proxies from X-Forwarded-For (proxy_headers.py). What the `ipaddress` module
    makes of a text is a parameter: addresses and networks are numbers that only it gives meaning to. */
module ProxyHeaders {
  import opened Text

  datatype Library = Library(address: Bytes -> Option<nat>, network: Bytes -> Option<nat>, within: (nat, nat) -> bool)

  // ---------- parsing ----------

  /** The white space that `str.strip` removes from text decoded as ISO 8859-1. */
  predicate IsLatinSpace(c: char) {
    IsTextSpace(c) || c == '\U{85}' || c == '\U{a0}'
  }

  function StripAll(parts: seq<Bytes>): seq<Bytes> {
    seq(|parts|, i requires 0 <= i < |parts| => Strip(parts[i], IsLatinSpace))
  }

  function ParseRawHosts(value: Bytes): (hosts: seq<Bytes>)
    ensures |hosts| > 0
  {
    StripAll(Split(value, ','))
  }

  /** `s.find(c)` */
  function Find(s: Bytes, c: char): (i: Option<nat>)
    ensures i.Some? ==> i.value < |s| && s[i.value] == c && c !in s[..i.value]
    ensures i.None? ==> c !in s
  {
    if s == "" then None
    else if s[0] == c then Some(0)
    else
      match Find(s[1..], c)
      case None => None
      case Some(i) => assert s[..i + 1] == [s[0]] + s[1..][..i]; Some(i + 1)
  }

  /** `int(text)` on ISO 8859-1 text. */
  function TextInt(s: Bytes): Option<int> { PyInt(Strip(s, IsLatinSpace)) }

  function Bracketed(value: Bytes): (Bytes, int)
    requires value != "" && value[0] == '['
  {
    match Find(value, ']')
    case None => (value, 0)
    case Some(end) =>
      var host, remainder := value[1..end], value[end + 1..];
      if remainder == "" then (host, 0)
      else if remainder[0] != ':' then (value, 0)
      else
        match TextInt(remainder[1..])
        case None => (host, 0)
        case Some(port) => (host, port)
  }

  /** Host and port of a forwarded value. */
  function ParseHostPort(value: Bytes): (Bytes, int) {
    if value != "" && value[0] == '[' then Bracketed(value)
    else
      match Find(value, ':')
      case None => (value, 0)
      case Some(i) =>
        if ':' in value[i + 1..] then (value, 0)
        else
          match TextInt(value[i + 1..])
          case None => (value, 0)
          case Some(port) => (value[..i], port)
  }

  function Host(value: Bytes): Bytes { ParseHostPort(value).0 }

  // ---------- trust ----------

  datatype Trust = Trust(always: bool, literals: set<Bytes>, hosts: set<nat>, networks: set<nat>)

  predicate ComputeTrust(lib: Library, t: Trust, host: Bytes) {
    match lib.address(host)
    case Some(ip) => ip in t.hosts || exists net :: net in t.networks && lib.within(ip, net)
    case None => host in t.literals
  }

  /** `host in trusted_hosts` */
  predicate Trusts(lib: Library, t: Trust, host: Option<Bytes>) {
    t.always || (host.Some? && host.value != "" && ComputeTrust(lib, t, host.value))
  }

  predicate TrustsEntry(lib: Library, t: Trust, entry: Bytes) { Trusts(lib, t, Some(Host(entry))) }

  /** The rightmost entry that is not trusted, or the leftmost if all are. */
  function Resolve(lib: Library, t: Trust, entries: seq<Bytes>): (Bytes, int)
    requires entries != []
  {
    if t.always then ParseHostPort(entries[0])
    else
      var last := |entries| - 1;
      if !TrustsEntry(lib, t, entries[last]) || last == 0 then ParseHostPort(entries[last])
      else Resolve(lib, t, entries[..last])
  }

  function ResolveHeader(lib: Library, t: Trust, forwardedFor: Bytes): (Bytes, int) {
    Resolve(lib, t, ParseRawHosts(forwardedFor))
  }

  lemma {:induction false} ResolvesRightmostUntrusted(lib: Library, t: Trust, entries: seq<Bytes>, k: nat)
    requires !t.always && k < |entries|
    requires !TrustsEntry(lib, t, entries[k]) || k == 0
    requires forall j :: k < j < |entries| ==> TrustsEntry(lib, t, entries[j])
    ensures Resolve(lib, t, entries) == ParseHostPort(entries[k])
  {
    hide TrustsEntry, ParseHostPort;
    var last := |entries| - 1;
    if k < last {
      ResolvesRightmostUntrusted(lib, t, entries[..last], k);
    }
  }

  /** Entries to the left cannot change the result once an entry further right is not trusted. */
  lemma {:induction false} PrependingChangesNothing(lib: Library, t: Trust, left: seq<Bytes>, entries: seq<Bytes>)
    requires !t.always && exists k :: 0 <= k < |entries| && !TrustsEntry(lib, t, entries[k])
    ensures Resolve(lib, t, left + entries) == Resolve(lib, t, entries)
    decreases |entries|
  {
    hide TrustsEntry, ParseHostPort;
    var last := |entries| - 1;
    var all := left + entries;
    assert all[|all| - 1] == entries[last] && all[..|all| - 1] == left + entries[..last];
    if TrustsEntry(lib, t, entries[last]) {
      var k :| 0 <= k < |entries| && !TrustsEntry(lib, t, entries[k]);
      assert entries[..last][k] == entries[k];
      PrependingChangesNothing(lib, t, left, entries[..last]);
    }
  }

  // ---------- headers ----------

  /** `b", ".join(values)` */
  function Join(values: seq<Bytes>): Bytes {
    if values == [] then ""
    else if |values| == 1 then values[0]
    else values[0] + ", " + Join(values[1..])
  }

  /** The entries of several header values, each split on its own. */
  function AllEntries(values: seq<Bytes>): seq<Bytes> {
    if values == [] then [] else ParseRawHosts(values[0]) + AllEntries(values[1..])
  }

  lemma SplitNothing(sep: char)
    ensures Split("", sep) == [""]
  {
  }

  lemma SplitFirst(c: char, s: Bytes, sep: char)
    ensures Split([c] + s, sep) ==
              if c == sep then [""] + Split(s, sep) else [[c] + Split(s, sep)[0]] + Split(s, sep)[1..]
  {
    assert ([c] + s)[1..] == s;
  }

  lemma FirstOfBoth(c: char, x: seq<Bytes>, y: seq<Bytes>)
    requires x != []
    ensures (x + y)[0] == x[0] && [""] + (x + y) == [""] + x + y
    ensures [[c] + x[0]] + (x + y)[1..] == [[c] + x[0]] + x[1..] + y
  {
    assert (x + y)[1..] == x[1..] + y;
  }

  lemma {:induction false} SplitConcat(a: Bytes, b: Bytes, sep: char)
    ensures Split(a + [sep] + b, sep) == Split(a, sep) + Split(b, sep)
  {
    hide Split;
    if a == "" {
      assert a + [sep] + b == [sep] + b;
      SplitFirst(sep, b, sep);
      SplitNothing(sep);
    } else {
      var tail := a[1..];
      SplitConcat(tail, b, sep);
      assert a == [a[0]] + tail && a + [sep] + b == [a[0]] + (tail + [sep] + b);
      SplitFirst(a[0], tail, sep);
      SplitFirst(a[0], tail + [sep] + b, sep);
      FirstOfBoth(a[0], Split(tail, sep), Split(b, sep));
    }
  }

  /** A blank in front of a value disappears when its entries are stripped. */
  lemma BlankIsStripped(b: Bytes)
    ensures StripAll(Split(" " + b, ',')) == StripAll(Split(b, ','))
  {
    var s := " " + b;
    assert s[1..] == b;
    var parts := Split(b, ',');
    assert Split(s, ',') == [" " + parts[0]] + parts[1..];
    assert (" " + parts[0])[1..] == parts[0];
    assert Strip(" " + parts[0], IsLatinSpace) == Strip(parts[0], IsLatinSpace);
    forall i | 0 <= i < |parts| ensures StripAll(Split(s, ','))[i] == StripAll(parts)[i] { }
  }

  /** Splitting headers joined by ", " gives the entries of each header in turn. */
  lemma {:induction false} JoiningKeepsEntries(values: seq<Bytes>)
    requires values != []
    ensures ParseRawHosts(Join(values)) == AllEntries(values)
  {
    if |values| == 1 {
      assert AllEntries(values[1..]) == [];
    } else {
      var rest := Join(values[1..]);
      JoiningKeepsEntries(values[1..]);
      assert Join(values) == values[0] + [','] + (" " + rest);
      SplitConcat(values[0], " " + rest, ',');
      BlankIsStripped(rest);
      StripBoth(Split(values[0], ','), Split(" " + rest, ','));
    }
  }

  lemma StripBoth(a: seq<Bytes>, b: seq<Bytes>)
    ensures StripAll(a + b) == StripAll(a) + StripAll(b)
  {
    hide Strip;
  }

  lemma {:induction false} AllOfBoth(a: seq<Bytes>, b: seq<Bytes>)
    ensures AllEntries(a + b) == AllEntries(a) + AllEntries(b)
  {
    hide ParseRawHosts;
    if a == [] {
      assert a + b == b;
    } else {
      assert (a + b)[1..] == a[1..] + b;
      AllOfBoth(a[1..], b);
    }
  }

  /** Headers that arrived before the ones added by the proxies cannot change the client: it is resolved from the
      later headers alone as soon as one of their entries is not trusted. */
  lemma EarlierHeadersChangeNothing(lib: Library, t: Trust, earlier: seq<Bytes>, later: seq<Bytes>)
    requires !t.always && exists k :: 0 <= k < |AllEntries(later)| && !TrustsEntry(lib, t, AllEntries(later)[k])
    ensures ResolveHeader(lib, t, Join(earlier + later)) == ResolveHeader(lib, t, Join(later))
  {
    hide TrustsEntry, Resolve, ParseRawHosts, Join;
    assert later != [] by { assert AllEntries([]) == []; }
    JoiningKeepsEntries(earlier + later);
    JoiningKeepsEntries(later);
    AllOfBoth(earlier, later);
    PrependingChangesNothing(lib, t, AllEntries(earlier), AllEntries(later));
  }

  // ---------- host and port ----------

  lemma {:induction false} FindsFirst(s: Bytes, c: char, k: nat)
    requires k < |s| && s[k] == c && c !in s[..k]
    ensures Find(s, c) == Some(k)
  {
    if k > 0 {
      assert s[0] in s[..k];
      assert s[1..][..k - 1] == s[..k][1..];
      FindsFirst(s[1..], c, k - 1);
    }
  }

  lemma FindAfter(a: Bytes, c: char, b: Bytes)
    requires c !in a
    ensures Find(a + [c] + b, c) == Some(|a|)
  {
    assert (a + [c] + b)[..|a|] == a;
    FindsFirst(a + [c] + b, c, |a|);
  }

  lemma TextIntOfDecimal(n: nat)
    ensures TextInt(Decimal(n)) == Some(n)
  {
    var s := Decimal(n);
    assert IsDigit(s[0]) && IsDigit(s[|s| - 1]);
    StripsNothing(s, IsLatinSpace);
    PyIntOfDigits(s);
  }

  /** A host without colons, an IPv6 address in brackets, and each of them with a port, are read back as written. */
  lemma HostPortReadsBack(host: Bytes, port: nat)
    requires ':' !in host && (host == "" || host[0] != '[')
    ensures ParseHostPort(host) == (host, 0)
    ensures host != "" ==> ParseHostPort(host + ":" + Decimal(port)) == (host, port)
  {
    hide TextInt;
    var s := host + [':'] + Decimal(port);
    assert s == host + ":" + Decimal(port);
    FindAfter(host, ':', Decimal(port));
    assert s[|host| + 1..] == Decimal(port) && s[..|host|] == host;
    TextIntOfDecimal(port);
    assert Find(host, ':').None?;
    NoColon(port);
  }

  lemma NoColon(n: nat)
    ensures ':' !in Decimal(n) && ']' !in Decimal(n)
  {
    assert AllDigits(Decimal(n));
  }

  lemma BracketsReadBack(host: Bytes, port: nat)
    requires ']' !in host
    ensures ParseHostPort("[" + host + "]") == (host, 0)
    ensures ParseHostPort("[" + host + "]:" + Decimal(port)) == (host, port)
  {
    hide TextInt;
    FindAfter("[" + host, ']', "");
    FindAfter("[" + host, ']', ":" + Decimal(port));
    var s := "[" + host + "]:" + Decimal(port);
    assert s == "[" + host + [']'] + (":" + Decimal(port));
    assert "[" + host + "]" == "[" + host + [']'] + "";
    var end := |host| + 1;
    assert s[1..end] == host && s[end + 1..] == ":" + Decimal(port) && (":" + Decimal(port))[1..] == Decimal(port);
    assert ("[" + host + "]")[1..end] == host && ("[" + host + "]")[end + 1..] == "";
    TextIntOfDecimal(port);
  }

  /** Text that is no port leaves a bare value as it is and a bracketed host without a port; a value with more than one
      colon outside brackets, such as an IPv6 address, is all host. */
  lemma NoPortReadsBack(host: Bytes, port: Bytes)
    requires host != "" && host[0] != '[' && ':' !in host
    ensures ':' in port || TextInt(port).None? ==> ParseHostPort(host + ":" + port) == (host + ":" + port, 0)
    ensures ':' !in port && TextInt(port).Some? ==> ParseHostPort(host + ":" + port) == (host, TextInt(port).value)
  {
    hide TextInt;
    var s := host + [':'] + port;
    assert s == host + ":" + port;
    FindAfter(host, ':', port);
    assert s[|host| + 1..] == port && s[..|host|] == host;
  }

  lemma BadBracketsReadBack(host: Bytes, rest: Bytes)
    requires ']' !in host
    ensures ParseHostPort("[" + host) == ("[" + host, 0)
    ensures var value := "[" + host + "]" + rest;
            rest != "" ==>
              ParseHostPort(value) == if rest[0] != ':' then (value, 0)
                                      else (host, if TextInt(rest[1..]).Some? then TextInt(rest[1..]).value else 0)
  {
    hide TextInt;
    assert ']' !in "[" + host;
    FindAfter("[" + host, ']', rest);
    var value := "[" + host + "]" + rest;
    assert value == "[" + host + [']'] + rest;
    assert value[1..|host| + 1] == host && value[|host| + 2..] == rest;
  }

  // ---------- configuration ----------

  /** One configured host: an address, a network, or else a literal. */
  function AddHost(lib: Library, t: Trust, host: Bytes): Trust {
    if '/' in host then
      match lib.network(host)
      case Some(net) => t.(networks := t.networks + {net})
      case None => t.(literals := t.literals + {host})
    else
      match lib.address(host)
      case Some(ip) => t.(hosts := t.hosts + {ip})
      case None => t.(literals := t.literals + {host})
  }

  function Configure(lib: Library, hosts: seq<Bytes>): Trust {
    if hosts == [] then Trust(false, {}, {}, {})
    else AddHost(lib, Configure(lib, hosts[..|hosts| - 1]), hosts[|hosts| - 1])
  }

  /** The `trusted_hosts` setting. */
  datatype Setting = Text(text: Bytes) | List(hosts: seq<Bytes>)

  predicate Everyone(setting: Setting) { setting == Text("*") || setting == List(["*"]) }

  function Hosts(setting: Setting): seq<Bytes> {
    match setting case Text(text) => ParseRawHosts(text) case List(hosts) => hosts
  }

  /** What `__init__` makes of the setting. */
  function TrustOf(lib: Library, setting: Setting): Trust {
    if Everyone(setting) then Trust(true, {}, {}, {}) else Configure(lib, Hosts(setting))
  }

  /** A configured text covers an address if it names it, in whatever notation, or a network that holds it; it covers
      a text that is no address, such as the path of a socket, if it is the same text and names no network. */
  predicate Matches(lib: Library, host: Bytes, written: Bytes) {
    match lib.address(written)
    case Some(ip) =>
      if '/' in host then lib.network(host).Some? && lib.within(ip, lib.network(host).value)
      else lib.address(host) == Some(ip)
    case None => written == host && ('/' in host ==> lib.network(host).None?)
  }

  predicate MatchesAny(lib: Library, hosts: seq<Bytes>, written: Bytes) {
    exists i :: 0 <= i < |hosts| && Matches(lib, hosts[i], written)
  }

  lemma OneMoreHost(lib: Library, t: Trust, host: Bytes, written: Bytes)
    ensures ComputeTrust(lib, AddHost(lib, t, host), written) <==>
            ComputeTrust(lib, t, written) || Matches(lib, host, written)
  {
    var u := AddHost(lib, t, host);
    match lib.address(written)
    case Some(ip) =>
      if exists net :: net in t.networks && lib.within(ip, net) {
        var net :| net in t.networks && lib.within(ip, net);
        assert net in u.networks;
      }
      if '/' in host && lib.network(host).Some? { assert lib.network(host).value in u.networks; }
    case None =>
  }

  lemma {:induction false} ConfiguredExactly(lib: Library, hosts: seq<Bytes>, written: Bytes)
    ensures ComputeTrust(lib, Configure(lib, hosts), written) <==> MatchesAny(lib, hosts, written)
    ensures !Configure(lib, hosts).always
  {
    hide Matches, AddHost;
    if hosts != [] {
      var n := |hosts| - 1;
      ConfiguredExactly(lib, hosts[..n], written);
      OneMoreHost(lib, Configure(lib, hosts[..n]), hosts[n], written);
      AddedKeeps(lib, Configure(lib, hosts[..n]), hosts[n]);
      MatchesOneMore(lib, hosts[..n], hosts[n], written);
      assert hosts[..n] + [hosts[n]] == hosts;
    }
  }

  lemma AddedKeeps(lib: Library, t: Trust, host: Bytes)
    ensures AddHost(lib, t, host).always == t.always
  {
  }

  lemma MatchesOneMore(lib: Library, hosts: seq<Bytes>, host: Bytes, written: Bytes)
    ensures MatchesAny(lib, hosts + [host], written) <==>
            MatchesAny(lib, hosts, written) || Matches(lib, host, written)
  {
    hide Matches;
    var all := hosts + [host];
    if MatchesAny(lib, hosts, written) {
      var i :| 0 <= i < |hosts| && Matches(lib, hosts[i], written);
      assert all[i] == hosts[i];
    }
    assert all[|hosts|] == host;
  }

  /** A peer is trusted if and only if everyone is, or it is named and some configured text covers its name. */
  lemma TrustedIffConfigured(lib: Library, setting: Setting, host: Option<Bytes>)
    ensures Trusts(lib, TrustOf(lib, setting), host) <==>
            Everyone(setting) || (host.Some? && host.value != "" && MatchesAny(lib, Hosts(setting), host.value))
  {
    hide ComputeTrust, Configure, MatchesAny, Everyone, Hosts;
    if !Everyone(setting) {
      ConfiguredExactly(lib, Hosts(setting), if host.Some? then host.value else "");
    }
  }

  // ---------- the middleware ----------

  datatype Scope = Scope(websocket: bool, client: Option<(Bytes, int)>, scheme: Bytes, headers: seq<(Bytes, Bytes)>)

  function ForwardedFor(headers: seq<(Bytes, Bytes)>): seq<Bytes> {
    if headers == [] then []
    else
      var h := headers[|headers| - 1];
      ForwardedFor(headers[..|headers| - 1]) + (if h.0 == "x-forwarded-for" then [h.1] else [])
  }

  function LastProto(headers: seq<(Bytes, Bytes)>): Option<Bytes> {
    if headers == [] then None
    else
      var h := headers[|headers| - 1];
      if h.0 == "x-forwarded-proto" then Some(h.1) else LastProto(headers[..|headers| - 1])
  }

  function ForwardedScheme(websocket: bool, proto: Bytes): Option<Bytes> {
    var p := Strip(proto, IsLatinSpace);
    if p !in {"http", "https", "ws", "wss"} then None
    else if websocket then Some(if p == "http" then "ws" else if p == "https" then "wss" else p)
    else Some(p)
  }

  function Rewrite(lib: Library, t: Trust, s: Scope): Scope {
    if !Trusts(lib, t, if s.client.Some? then Some(s.client.value.0) else None) then s
    else
      var proto := LastProto(s.headers);
      var scheme := if proto.Some? then ForwardedScheme(s.websocket, proto.value) else None;
      var values := ForwardedFor(s.headers);
      var client := if values == [] then ("", 0) else ResolveHeader(lib, t, Join(values));
      s.(scheme := if scheme.Some? then scheme.value else s.scheme,
         client := if client.0 != "" then Some(client) else s.client)
  }

  lemma {:induction false} ForwardedForBoth(a: seq<(Bytes, Bytes)>, b: seq<(Bytes, Bytes)>)
    ensures ForwardedFor(a + b) == ForwardedFor(a) + ForwardedFor(b)
  {
    if b == [] {
      assert a + b == a;
    } else {
      assert (a + b)[..|a + b| - 1] == a + b[..|b| - 1];
      ForwardedForBoth(a, b[..|b| - 1]);
    }
  }

  /** Whatever a client writes into X-Forwarded-For itself, in headers that come before those of the proxies, the
      application sees the same client address, as soon as the proxies' own headers name one that is not trusted. */
  lemma ClientCannotBeForged(lib: Library, t: Trust, s: Scope, forged: seq<(Bytes, Bytes)>)
    requires !t.always
    requires var later := AllEntries(ForwardedFor(s.headers));
             exists k :: 0 <= k < |later| && !TrustsEntry(lib, t, later[k])
    ensures Rewrite(lib, t, s.(headers := forged + s.headers)).client == Rewrite(lib, t, s).client
  {
    hide TrustsEntry, ResolveHeader, Join, LastProto, ForwardedScheme, Trusts;
    ForwardedForBoth(forged, s.headers);
    assert ForwardedFor(s.headers) != [] by { assert AllEntries([]) == []; }
    EarlierHeadersChangeNothing(lib, t, ForwardedFor(forged), ForwardedFor(s.headers));
  }

  /** The values of every header with the given name, in order. */
  function Named(headers: seq<(Bytes, Bytes)>, name: Bytes): seq<Bytes> {
    if headers == [] then []
    else (if headers[0].0 == name then [headers[0].1] else []) + Named(headers[1..], name)
  }

  lemma {:induction false} NamedBoth(a: seq<(Bytes, Bytes)>, b: seq<(Bytes, Bytes)>, name: Bytes)
    ensures Named(a + b, name) == Named(a, name) + Named(b, name)
  {
    if a == [] {
      assert a + b == b;
    } else {
      NamedBoth(a[1..], b, name);
      assert (a + b)[0] == a[0] && (a + b)[1..] == a[1..] + b;
      var first := if a[0].0 == name then [a[0].1] else [];
      assert first + (Named(a[1..], name) + Named(b, name)) == first + Named(a[1..], name) + Named(b, name);
    }
  }

  lemma {:induction false} HeadersRead(headers: seq<(Bytes, Bytes)>)
    ensures ForwardedFor(headers) == Named(headers, "x-forwarded-for")
    ensures var protos := Named(headers, "x-forwarded-proto");
            LastProto(headers) == if protos == [] then None else Some(protos[|protos| - 1])
  {
    if headers != [] {
      var front, h := headers[..|headers| - 1], headers[|headers| - 1];
      HeadersRead(front);
      NamedBoth(front, [h], "x-forwarded-for");
      NamedBoth(front, [h], "x-forwarded-proto");
      OneNamed(h, "x-forwarded-for");
      OneNamed(h, "x-forwarded-proto");
      assert front + [h] == headers;
    }
  }

  lemma OneNamed(h: (Bytes, Bytes), name: Bytes)
    ensures Named([h], name) == if h.0 == name then [h.1] else []
  {
    assert [h][1..] == [];
  }

  /** Everyone is trusted, or the peer is named and some configured text covers its name. */
  predicate Covered(lib: Library, setting: Setting, host: Option<Bytes>) {
    || setting == Text("*") || setting == List(["*"])
    || (host.Some? && host.value != "" && MatchesAny(lib, Hosts(setting), host.value))
  }

  function Peer(s: Scope): Option<Bytes> { if s.client.Some? then Some(s.client.value.0) else None }

  /** The headers of a peer that is not covered are ignored, whatever they say. */
  lemma UncoveredIsIgnored(lib: Library, setting: Setting, s: Scope)
    requires !Covered(lib, setting, Peer(s))
    ensures Rewrite(lib, TrustOf(lib, setting), s) == s
  {
    hide Trusts, TrustOf, MatchesAny, Hosts, LastProto, ForwardedFor, ResolveHeader;
    TrustedIffConfigured(lib, setting, Peer(s));
  }

  /** Entry `k` names the client: the leftmost if everyone is trusted, else the rightmost that is not covered, or the
      leftmost if all are. */
  predicate NamesClient(lib: Library, setting: Setting, entries: seq<Bytes>, k: nat)
    requires k < |entries|
  {
    if setting == Text("*") || setting == List(["*"]) then k == 0
    else
      && (k == 0 || !Covered(lib, setting, Some(Host(entries[k]))))
      && forall j :: k < j < |entries| ==> Covered(lib, setting, Some(Host(entries[j])))
  }

  /** A peer that is covered: the client is the host and port of the entry that names it, if that host is not empty. */
  lemma CoveredSetsClient(lib: Library, setting: Setting, s: Scope, k: nat)
    requires Covered(lib, setting, Peer(s))
    ensures var r := Rewrite(lib, TrustOf(lib, setting), s);
            var entries := AllEntries(Named(s.headers, "x-forwarded-for"));
            && (entries == [] ==> r.client == s.client)
            && (k < |entries| && NamesClient(lib, setting, entries, k) ==>
                  r.client == if Host(entries[k]) != "" then Some(ParseHostPort(entries[k])) else s.client)
            && r.websocket == s.websocket && r.headers == s.headers
  {
    hide Trusts, MatchesAny, Hosts, LastProto, ForwardedScheme, ParseRawHosts, ParseHostPort, Join, Configure, Covered;
    var t := TrustOf(lib, setting);
    TrustedIffCovered(lib, setting, Peer(s));
    HeadersRead(s.headers);
    var values := Named(s.headers, "x-forwarded-for");
    if values != [] {
      JoiningKeepsEntries(values);
      var entries := AllEntries(values);
      if k < |entries| && NamesClient(lib, setting, entries, k) { ResolvesNamed(lib, setting, entries, k); }
    }
  }

  /** Some entry does. */
  lemma {:induction false} SomeEntryNamesClient(lib: Library, setting: Setting, entries: seq<Bytes>)
    requires entries != []
    ensures exists k :: 0 <= k < |entries| && NamesClient(lib, setting, entries, k)
  {
    hide Covered, Host;
    var last := |entries| - 1;
    if last == 0 || setting == Text("*") || setting == List(["*"]) {
      assert NamesClient(lib, setting, entries, 0);
    } else if !Covered(lib, setting, Some(Host(entries[last]))) {
      assert NamesClient(lib, setting, entries, last);
    } else {
      SomeEntryNamesClient(lib, setting, entries[..last]);
      var k :| 0 <= k < last && NamesClient(lib, setting, entries[..last], k);
      forall j | k < j < |entries| ensures Covered(lib, setting, Some(Host(entries[j]))) {
        if j < last { assert entries[..last][j] == entries[j]; }
      }
      assert NamesClient(lib, setting, entries, k);
    }
  }

  lemma TrustedIffCovered(lib: Library, setting: Setting, host: Option<Bytes>)
    ensures Trusts(lib, TrustOf(lib, setting), host) <==> Covered(lib, setting, host)
  {
    hide Trusts, TrustOf, MatchesAny, Hosts;
    TrustedIffConfigured(lib, setting, host);
  }

  lemma ResolvesNamed(lib: Library, setting: Setting, entries: seq<Bytes>, k: nat)
    requires k < |entries| && NamesClient(lib, setting, entries, k)
    ensures Resolve(lib, TrustOf(lib, setting), entries) == ParseHostPort(entries[k])
  {
    hide Trusts, MatchesAny, Hosts, ParseHostPort, Covered, Host, Configure;
    var t := TrustOf(lib, setting);
    if !Everyone(setting) {
      ConfiguredExactly(lib, Hosts(setting), "");
      forall j | 0 <= j < |entries|
        ensures TrustsEntry(lib, t, entries[j]) <==> Covered(lib, setting, Some(Host(entries[j])))
      {
        TrustedIffCovered(lib, setting, Some(Host(entries[j])));
      }
      ResolvesRightmostUntrusted(lib, t, entries, k);
    }
  }

  /** The scheme is the one that the last x-forwarded-proto names, in its WebSocket form on a WebSocket; a value other
      than the four counts for nothing. */
  lemma CoveredSetsScheme(lib: Library, setting: Setting, s: Scope)
    requires Covered(lib, setting, Peer(s))
    ensures var r := Rewrite(lib, TrustOf(lib, setting), s); var protos := Named(s.headers, "x-forwarded-proto");
            if protos == [] then r.scheme == s.scheme
            else
              var p := Strip(protos[|protos| - 1], IsLatinSpace);
              r.scheme == if p == "http" || p == "ws" then (if s.websocket then "ws" else p)
                          else if p == "https" || p == "wss" then (if s.websocket then "wss" else p)
                          else s.scheme
  {
    hide Trusts, TrustOf, MatchesAny, Hosts, LastProto, ForwardedFor, ResolveHeader, Covered, Strip;
    TrustedIffCovered(lib, setting, Peer(s));
    HeadersRead(s.headers);
  }

  const CACHE_SIZE: nat := 4096
  const LONGEST_NAME: nat := 253

  /** Moving one entry to the end keeps the entries, and keeps them distinct. */
  lemma MovedToEnd(s: seq<Bytes>, i: nat)
    requires i < |s| && forall j, k :: 0 <= j < k < |s| ==> s[j] != s[k]
    ensures var r := s[..i] + s[i + 1..] + [s[i]];
            && (forall h :: h in r <==> h in s) && (forall j, k :: 0 <= j < k < |r| ==> r[j] != r[k])
  {
    var r := s[..i] + s[i + 1..] + [s[i]];
    forall h ensures h in r <==> h in s {
      if h in s && h != s[i] {
        var k :| 0 <= k < |s| && s[k] == h;
        assert r[if k < i then k else k - 1] == h;
      }
    }
  }

  /** `_TrustedHosts`, with the entries of its `lru_cache` in order of use. */
  class TrustedHosts {
    const lib: Library
    const alwaysTrust: bool
    var trustedLiterals: set<Bytes>
    var trustedHosts: set<nat>
    var trustedNetworks: set<nat>
    var cache: map<Bytes, bool>
    var recent: seq<Bytes>  // the cached hosts, the one used longest ago first

    function State(): Trust
      reads this
    {
      Trust(alwaysTrust, trustedLiterals, trustedHosts, trustedNetworks)
    }

    /** The cache is bounded, and agrees with what would be computed. */
    ghost predicate Valid()
      reads this
    {
      && (forall h :: h in recent <==> h in cache)
      && (forall i, j :: 0 <= i < j < |recent| ==> recent[i] != recent[j])
      && |recent| <= CACHE_SIZE
      && (forall h :: h in cache ==> cache[h] == ComputeTrust(lib, State(), h))
    }

    constructor (lib: Library, setting: Setting)
      ensures Valid() && this.lib == lib && cache == map[]
      ensures State() == TrustOf(lib, setting)
    {
      this.lib := lib;
      alwaysTrust := Everyone(setting);
      trustedLiterals, trustedHosts, trustedNetworks, cache, recent := {}, {}, {}, map[], [];
      new;
      if !alwaysTrust {
        var hosts := Hosts(setting);
        assert hosts[..0] == [];
        for i := 0 to |hosts|
          invariant Configure(lib, hosts[..i]) == State() && cache == map[] && recent == []
        {
          assert hosts[..i + 1][..i] == hosts[..i];
          var host := hosts[i];
          if '/' in host {
            var net := lib.network(host);
            if net.Some? { trustedNetworks := trustedNetworks + {net.value}; }
            else { trustedLiterals := trustedLiterals + {host}; }
          } else {
            var ip := lib.address(host);
            if ip.Some? { trustedHosts := trustedHosts + {ip.value}; }
            else { trustedLiterals := trustedLiterals + {host}; }
          }
        }
        assert hosts[..|hosts|] == hosts;
      }
    }

    method Compute(host: Bytes) returns (trusted: bool)
      ensures trusted == ComputeTrust(lib, State(), host)
    {
      var ip := lib.address(host);
      if ip.None? { return host in trustedLiterals; }
      if ip.value in trustedHosts { return true; }
      var todo := trustedNetworks;
      while todo != {}
        invariant todo <= trustedNetworks
        invariant forall net :: net in trustedNetworks - todo ==> !lib.within(ip.value, net)
      {
        var net :| net in todo;
        if lib.within(ip.value, net) { return true; }
        todo := todo - {net};
      }
      trusted := false;
    }

    /** `self._trusts(host)` */
    method Cached(host: Bytes) returns (trusted: bool)
      requires Valid()
      modifies this`cache, this`recent
      ensures Valid() && trusted == ComputeTrust(lib, State(), host)
    {
      hide ComputeTrust;
      if host in cache {
        trusted := cache[host];
        Touch(host);
      } else {
        trusted := Compute(host);
        if |recent| == CACHE_SIZE { Evict(); }
        Remember(host, trusted);
      }
    }

    method Remember(host: Bytes, trusted: bool)
      requires Valid() && host !in cache && |recent| < CACHE_SIZE && trusted == ComputeTrust(lib, State(), host)
      modifies this`cache, this`recent
      ensures Valid()
    {
      hide ComputeTrust;
      cache := cache[host := trusted];
      recent := recent + [host];
    }

    /** A cached host becomes the most recent. */
    method Touch(host: Bytes)
      requires Valid() && host in cache
      modifies this`recent
      ensures Valid() && cache == old(cache)
    {
      hide ComputeTrust;
      var i :| 0 <= i < |recent| && recent[i] == host;
      MovedToEnd(recent, i);
      recent := recent[..i] + recent[i + 1..] + [host];
    }

    /** The host used longest ago leaves the cache. */
    method Evict()
      requires Valid() && recent != []
      modifies this`cache, this`recent
      ensures Valid() && |recent| == |old(recent)| - 1 && cache.Keys <= old(cache).Keys
    {
      ghost var was := recent;
      cache := cache - {recent[0]};
      recent := recent[1..];
      forall h ensures h in recent <==> h in cache {
        if h in was && h != was[0] {
          var k :| 0 <= k < |was| && was[k] == h;
          assert recent[k - 1] == h;
        }
      }
    }

    /** `host in self` */
    method Contains(host: Option<Bytes>) returns (trusted: bool)
      requires Valid()
      modifies this`cache, this`recent
      ensures Valid() && trusted == Trusts(lib, State(), host)
    {
      if alwaysTrust { return true; }
      if host.None? || host.value == "" { return false; }
      if |host.value| > LONGEST_NAME {
        trusted := Compute(host.value);
      } else {
        trusted := Cached(host.value);
      }
    }

    method GetTrustedClientAddress(forwardedFor: Bytes) returns (client: (Bytes, int))
      requires Valid()
      modifies this`cache, this`recent
      ensures Valid() && client == ResolveHeader(lib, State(), forwardedFor)
    {
      hide ParseHostPort, Trusts;
      var entries := ParseRawHosts(forwardedFor);
      if alwaysTrust { return ParseHostPort(entries[0]); }
      var k := |entries|;
      assert entries[..k] == entries;
      while k > 0
        invariant 0 <= k <= |entries| && Valid()
        invariant k > 0 ==> Resolve(lib, State(), entries) == Resolve(lib, State(), entries[..k])
        invariant k == 0 ==> Resolve(lib, State(), entries) == ParseHostPort(entries[0])
      {
        k := k - 1;
        assert entries[..k + 1][..k] == entries[..k];
        client := ParseHostPort(entries[k]);
        var trusted := Contains(Some(client.0));
        if !trusted { return; }
      }
      client := ParseHostPort(entries[0]);
    }
  }

  class ProxyHeadersMiddleware {
    const trustedHosts: TrustedHosts

    constructor (trustedHosts: TrustedHosts)
      ensures this.trustedHosts == trustedHosts
    {
      this.trustedHosts := trustedHosts;
    }

    /** The header loop of `__call__`. */
    method Collect(headers: seq<(Bytes, Bytes)>) returns (proto: Option<Bytes>, values: seq<Bytes>)
      ensures proto == LastProto(headers) && values == ForwardedFor(headers)
    {
      proto, values := None, [];
      assert headers[..0] == [];
      for i := 0 to |headers|
        invariant proto == LastProto(headers[..i]) && values == ForwardedFor(headers[..i])
      {
        assert headers[..i + 1][..i] == headers[..i];
        if headers[i].0 == "x-forwarded-proto" {
          proto := Some(headers[i].1);
        } else if headers[i].0 == "x-forwarded-for" {
          values := values + [headers[i].1];
        }
      }
      assert headers[..|headers|] == headers;
    }

    /** `__call__`, up to the call of the application, for a scope that is not a lifespan. */
    method Call(scope: Scope) returns (rewritten: Scope)
      requires trustedHosts.Valid()
      modifies trustedHosts`cache, trustedHosts`recent
      ensures trustedHosts.Valid() && rewritten == Rewrite(trustedHosts.lib, trustedHosts.State(), scope)
    {
      hide Trusts, ResolveHeader, Join, ForwardedScheme, LastProto, ForwardedFor;
      rewritten := scope;
      var trusted := trustedHosts.Contains(if scope.client.Some? then Some(scope.client.value.0) else None);
      if !trusted { return; }
      var proto, values := Collect(scope.headers);
      if proto.Some? {
        var scheme := ForwardedScheme(scope.websocket, proto.value);
        if scheme.Some? { rewritten := rewritten.(scheme := scheme.value); }
      }
      if values != [] {
        var client := trustedHosts.GetTrustedClientAddress(Join(values));
        if client.0 != "" { rewritten := rewritten.(client := Some(client)); }
      }
    }
  }
}
