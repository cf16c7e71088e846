/** Server addresses as strings (src/helpers/server_sender.rs:45-99,
    src/helpers/get_outer_websocket.rs:35-47). */
module Addresses {

  predicate IsDigits(s: string) {
    forall c :: c in s ==> '0' <= c <= '9'
  }

  function ValidPort(port: string): string {
    if port != "" && IsDigits(port) then port else ""
  }

  function TrimEndSlashes(s: string): string {
    if s != "" && s[|s| - 1] == '/' then TrimEndSlashes(s[..|s| - 1]) else s
  }

  /** The position of the last ':' in `s`, or -1. */
  function LastColon(s: string): (i: int)
    ensures -1 <= i < |s|
    ensures i >= 0 ==> s[i] == ':'
    ensures forall j :: i < j < |s| ==> s[j] != ':'
  {
    if s == "" then -1 else if s[|s| - 1] == ':' then |s| - 1 else LastColon(s[..|s| - 1])
  }

  /** What stands behind the last ':' of `s`, if it is a port. */
  function PortBehindColon(s: string): string {
    var i := LastColon(s);
    if i < 0 then "" else ValidPort(s[i + 1..])
  }

  function ParsePort(address: string): string {
    PortBehindColon(TrimEndSlashes(address))
  }

  predicate SchemeAt(s: string, i: nat) {
    i + 3 <= |s| && s[i] == ':' && s[i + 1] == '/' && s[i + 2] == '/'
  }

  predicate HasScheme(s: string) {
    exists i: nat :: i < |s| && SchemeAt(s, i)
  }

  function ToWsUrl(address: string, port: string): string {
    if HasScheme(address) then address
    else if ParsePort(address) != "" then "ws://" + address
    else if ValidPort(port) == "" then "ws://" + address
    else "ws://" + address + ":" + ValidPort(port)
  }

  function OuterWsUrl(url: string, rustls: bool): string {
    if "ws://" <= url || "wss://" <= url then url else if rustls then "wss://" + url else "ws://" + url
  }

  // -------------------------------------------------------------- trimming

  function Slashes(n: nat): (s: string)
    ensures |s| == n && forall i :: 0 <= i < n ==> s[i] == '/'
  {
    if n == 0 then "" else Slashes(n - 1) + "/"
  }

  /** A string that does not end in '/' is what trimming finds under any number
      of slashes. */
  lemma {:induction false} TrimStops(s: string, n: nat)
    requires s != "" ==> s[|s| - 1] != '/'
    ensures TrimEndSlashes(s + Slashes(n)) == s
  {
    if n == 0 {
      assert s + Slashes(0) == s;
    } else {
      assert (s + Slashes(n))[..|s + Slashes(n)| - 1] == s + Slashes(n - 1);
      TrimStops(s, n - 1);
    }
  }

  lemma {:induction false} TrimSplits(s: string) returns (n: nat)
    ensures s == TrimEndSlashes(s) + Slashes(n)
    ensures TrimEndSlashes(s) != "" ==> TrimEndSlashes(s)[|TrimEndSlashes(s)| - 1] != '/'
    decreases |s|
  {
    if s != "" && s[|s| - 1] == '/' {
      var m := TrimSplits(s[..|s| - 1]);
      n := m + 1;
      assert s == s[..|s| - 1] + "/";
      assert s == TrimEndSlashes(s) + Slashes(m) + "/";
    } else {
      n := 0;
    }
  }

  /** The last colon of `a + ":" + b` when `b` has none. */
  lemma LastColonAt(a: string, b: string)
    requires forall c :: c in b ==> c != ':'
    ensures LastColon(a + ":" + b) == |a|
    ensures (a + ":" + b)[|a| + 1..] == b
  {
    var s := a + ":" + b;
    assert s[|a|] == ':';
    assert forall j :: |a| < j < |s| ==> s[j] == b[j - |a| - 1] && s[j] in b;
    LastColonIs(s, |a|);
  }

  lemma LastColonIs(s: string, i: int)
    requires -1 <= i < |s| && (i >= 0 ==> s[i] == ':') && forall j :: i < j < |s| ==> s[j] != ':'
    ensures LastColon(s) == i
  {
    var k := LastColon(s);
    assert k >= 0 ==> s[k] == ':';
    assert i >= 0 ==> s[i] == ':';
  }

  // ------------------------------------------------------------------- laws

  /** The scheme's own colon never wins, and trailing slashes do not matter. */
  lemma PortOfUrl(host: string, port: string, n: nat)
    requires port != "" && IsDigits(port)
    ensures ParsePort("ws://" + host + ":" + port + Slashes(n)) == port
  {
    var a := "ws://" + host;
    var s := a + ":" + port;
    assert s[|s| - 1] == port[|port| - 1] && port[|port| - 1] in port;
    TrimStops(s, n);
    LastColonAt(a, port);
  }

  lemma SchemeAdded(address: string)
    ensures HasScheme("ws://" + address)
  {
    assert SchemeAt("ws://" + address, 2);
  }

  lemma ToWsUrlIdempotent(address: string, port: string, port2: string)
    ensures HasScheme(ToWsUrl(address, port))
    ensures ToWsUrl(ToWsUrl(address, port), port2) == ToWsUrl(address, port)
  {
    hide ParsePort, ValidPort, HasScheme;
    SchemeAdded(address);
    SchemeAdded(address + ":" + ValidPort(port));
    assert "ws://" + address + ":" + ValidPort(port) == "ws://" + (address + ":" + ValidPort(port));
  }

  predicate EndsInScheme(scheme: string) {
    |scheme| >= 3 && SchemeAt(scheme, |scheme| - 3)
  }

  /** Putting a scheme in front changes no address's port. */
  lemma PortBehindScheme(scheme: string, address: string)
    requires EndsInScheme(scheme)
    ensures ParsePort(scheme + address) == ParsePort(address)
  {
    hide TrimEndSlashes, Slashes, PortBehindColon, EndsInScheme;
    var n := TrimSplits(address);
    var t := TrimEndSlashes(address);
    if t == "" {
      NoPortInSlashes(scheme, n);
      assert t + Slashes(n) == Slashes(n);
    } else {
      TrimBehindScheme(scheme, t, n);
      PortBehindTrimmed(scheme, t);
      assert scheme + address == scheme + t + Slashes(n);
    }
  }

  lemma TrimBehindScheme(scheme: string, t: string, n: nat)
    requires t != "" && t[|t| - 1] != '/'
    ensures TrimEndSlashes(scheme + t + Slashes(n)) == scheme + t
  {
    var s := scheme + t;
    assert s[|s| - 1] == t[|t| - 1];
    TrimStops(s, n);
  }

  lemma NoPortInSlashes(scheme: string, n: nat)
    requires EndsInScheme(scheme)
    ensures ParsePort(scheme + Slashes(n)) == "" == ParsePort(Slashes(n))
  {
    hide TrimEndSlashes, Slashes, LastColon;
    SlashesInFront(n);
    var colon := |scheme| - 3;
    assert scheme + Slashes(n) == scheme[..colon + 1] + Slashes(n + 2);
    TrimStops(scheme[..colon + 1], n + 2);
    LastColonIs(scheme[..colon + 1], colon);
    assert "" + Slashes(n) == Slashes(n);
    TrimStops("", n);
  }

  lemma PortBehindTrimmed(scheme: string, t: string)
    requires EndsInScheme(scheme) && t != ""
    ensures PortBehindColon(scheme + t) == PortBehindColon(t)
  {
    LastColonIs(scheme, |scheme| - 3);
    LastColonBehind(scheme, t);
    var i := LastColon(t);
    assert scheme[|scheme| - 2] == '/';
    hide LastColon, ValidPort, SchemeAt, EndsInScheme;
    if i >= 0 {
      assert (scheme + t)[|scheme| + i + 1..] == t[i + 1..];
    } else {
      NotAPort(scheme + t, |scheme| - 2);
    }
  }

  lemma NotAPort(s: string, i: nat)
    requires i < |s| && s[i] == '/'
    ensures ValidPort(s[i..]) == ""
  {
    assert s[i] == s[i..][0] && s[i..][0] in s[i..];
  }

  lemma {:induction false} SlashesInFront(n: nat)
    ensures "//" + Slashes(n) == Slashes(n + 2)
  {
    if n > 0 {
      SlashesInFront(n - 1);
    }
  }

  lemma LastColonBehind(a: string, t: string)
    ensures LastColon(a + t) == if LastColon(t) >= 0 then |a| + LastColon(t) else LastColon(a)
  {
    var s := a + t;
    assert forall j :: 0 <= j < |a| ==> s[j] == a[j];
    assert forall j :: |a| <= j < |s| ==> s[j] == t[j - |a|];
    LastColonIs(s, if LastColon(t) >= 0 then |a| + LastColon(t) else LastColon(a));
  }

  /** A scheme-less address keeps the port it carries and otherwise gets the
      port held beside it, if that is one. */
  lemma PortOfWsUrl(address: string, port: string)
    requires !HasScheme(address)
    ensures ParsePort(ToWsUrl(address, port)) == if ParsePort(address) != "" then ParsePort(address) else ValidPort(port)
  {
    if ParsePort(address) != "" || ValidPort(port) == "" {
      PortBehindScheme("ws://", address);
    } else {
      PortOfUrl(address, ValidPort(port), 0);
      assert "ws://" + address + ":" + port + Slashes(0) == "ws://" + address + ":" + port;
    }
  }

  /** Exactly when a stored address and port lead to a URL with that port. */
  lemma UrlKeepsPortExactlyWhen(address: string, port: string)
    requires port != "" && IsDigits(port)
    ensures ParsePort(ToWsUrl(address, port)) == port
       <==> ParsePort(address) == port || (ParsePort(address) == "" && !HasScheme(address))
  {
    if !HasScheme(address) {
      PortOfWsUrl(address, port);
    }
  }

  /** The URL dialed for an external server keeps the configured port under
      either default scheme, and a URL that names its scheme is left alone. */
  lemma OuterUrlKeepsPort(url: string, rustls: bool, rustls2: bool)
    ensures ParsePort(OuterWsUrl(url, rustls)) == ParsePort(url)
    ensures OuterWsUrl(OuterWsUrl(url, rustls), rustls2) == OuterWsUrl(url, rustls)
  {
    PortBehindScheme("ws://", url);
    PortBehindScheme("wss://", url);
  }

  /** A scheme is present exactly when "://" occurs somewhere. */
  lemma HasSchemeExactlyWhen(s: string)
    ensures HasScheme(s) <==> exists a, b :: s == a + "://" + b
  {
    if i: nat :| i < |s| && SchemeAt(s, i) {
      assert s == s[..i] + "://" + s[i + 3..];
    }
    if a: string, b: string :| s == a + "://" + b {
      assert SchemeAt(s, |a|);
    }
  }

  /** Normalizing keeps the address: it adds "ws://" in front of one without a
      scheme and, at most, a colon and digits behind it. */
  lemma ToWsUrlKeepsAddress(address: string, port: string)
    ensures HasScheme(address) ==> ToWsUrl(address, port) == address
    ensures !HasScheme(address) ==>
      exists tail :: ToWsUrl(address, port) == "ws://" + address + tail
                     && (tail == "" || (tail == ":" + port && port != "" && IsDigits(port) && ParsePort(address) == ""))
  {
    if !HasScheme(address) {
      hide HasScheme, ParsePort;
      var url := ToWsUrl(address, port);
      if ParsePort(address) != "" || ValidPort(port) == "" {
        assert url == "ws://" + address + "";
      } else {
        assert url == "ws://" + address + (":" + port);
      }
    }
  }

  /** The default scheme is the one the build stands for. */
  lemma OuterUrlScheme(url: string, rustls: bool)
    ensures "ws://" <= url || "wss://" <= url ==> OuterWsUrl(url, rustls) == url
    ensures !("ws://" <= url || "wss://" <= url) ==>
      var dialed := OuterWsUrl(url, rustls);
      |dialed| >= |url| && dialed[|dialed| - |url|..] == url
      && dialed[..|dialed| - |url|] == if rustls then "wss://" else "ws://"
  {
    if !("ws://" <= url || "wss://" <= url) {
      var scheme := if rustls then "wss://" else "ws://";
      assert OuterWsUrl(url, rustls) == scheme + url;
    }
  }
}
