/** The persisted server record and its life over any history of connects,
    failures, disconnects and scans (src/helpers/connection_store.rs:109-178,
    src/helpers/internal_client.rs:641-792, src/helpers/server_sender.rs:414-440,
    590-594). */
module ConnectionStores {
  import opened Results
  import opened Addresses

  /** `(server_ip, port)`; None when nothing readable is stored. */
  type Record = (string, string)

  /** What `get_internal_connect` does next. */
  datatype Action =
    | Nothing
    | ReportConnected
    | ReportDisconnected
    | Scan(port: string)
    | Dial(url: string)

  /** What it knows when it decides. */
  datatype Situation = Situation(
    isTryConnect: bool, isValidServerIp: bool, useScanDiscovery: bool, isScanning: bool, hasLocalIp: bool)

  function Decide(record: Option<Record>, input: Option<string>, now: Situation): Action {
    if now.isTryConnect then Nothing
    else if now.isValidServerIp then ReportConnected
    else if input.None? && record.None? then ReportDisconnected
    else
      var ip := if record.Some? then record.value.0 else "";
      var port := if input.Some? then input.value else record.value.1;
      if ip != "" then Dial(ToWsUrl(ip, port))
      else if !now.useScanDiscovery then ReportDisconnected
      else if now.isScanning then Nothing
      else if !now.hasLocalIp then ReportDisconnected
      else Scan(port)
  }

  /** The port reserved ahead of the first connection. */
  function Reserve(record: Option<Record>, input: Option<string>, now: Situation): Option<Record> {
    if !now.isTryConnect && !now.isValidServerIp && input.Some? && record.None? then Some(("", input.value)) else None
  }

  /** The address and the port to go by; a supplied port wins. */
  predicate HasAddress(record: Option<Record>) {
    record.Some? && record.value.0 != ""
  }

  predicate PortIs(record: Option<Record>, input: Option<string>, port: string) {
    if input.Some? then port == input.value else record.Some? && port == record.value.1
  }

  /** Each action, exactly when it is taken: a scan only with discovery on, no
      address, no scan running and a local IP; a dial only to a stored address;
      and never either while an attempt is running or the connection is good. */
  lemma ActsExactlyWhen(record: Option<Record>, input: Option<string>, now: Situation, port: string, url: string)
    ensures var action, free := Decide(record, input, now), !now.isTryConnect && !now.isValidServerIp;
      && (action == Scan(port) <==>
            free && !HasAddress(record) && PortIs(record, input, port)
            && now.useScanDiscovery && !now.isScanning && now.hasLocalIp)
      && (action == Dial(url) <==>
            free && HasAddress(record) && exists p :: PortIs(record, input, p) && url == ToWsUrl(record.value.0, p))
      && (action == ReportConnected <==> !now.isTryConnect && now.isValidServerIp)
      && (action == ReportDisconnected <==>
            free && !HasAddress(record)
            && ((input.None? && record.None?) || !now.useScanDiscovery || (!now.isScanning && !now.hasLocalIp)))
      && (action == Nothing <==>
            now.isTryConnect
            || (free && !HasAddress(record) && (input.Some? || record.Some?) && now.useScanDiscovery && now.isScanning))
  {
    hide ToWsUrl;
    if record.Some? {
      assert PortIs(record, input, if input.Some? then input.value else record.value.1);
    }
  }

  /** A port is reserved exactly when one is supplied, none is stored, and the
      call gets that far; it is reserved without an address. */
  lemma ReservesExactlyWhen(record: Option<Record>, input: Option<string>, now: Situation, r: Record)
    ensures Reserve(record, input, now) == Some(r) <==>
      !now.isTryConnect && !now.isValidServerIp && record == None && r.0 == "" && input == Some(r.1)
  {
  }

  class ConnectionStore {
    var record: Option<Record>

    method SetServerConnectInfo(serverIp: string, port: string)
      modifies this
      ensures record == Some((serverIp, port))
    {
      record := Some((serverIp, port));
    }

    /** Forgets the address and keeps the port, unless it is not one. */
    method ClearServerIp()
      modifies this
      ensures record == if old(record).None? then None else Some(("", ValidPort(old(record).value.1)))
      ensures record.Some? ==> record.value.0 == "" && IsDigits(record.value.1)
      ensures record.Some? && IsDigits(old(record).value.1) ==> record.value.1 == old(record).value.1
    {
      if record.None? {
        return;
      }
      SetServerConnectInfo("", ValidPort(record.value.1));
    }

    /** What `add` persists for the address it connected with. */
    method PersistConnected(serverIp: string)
      modifies this
      ensures record == Some((serverIp, ParsePort(serverIp)))
    {
      var port := ParsePort(serverIp);
      SetServerConnectInfo(serverIp, port);
    }

    method GetInternalConnect(input: Option<string>, now: Situation) returns (action: Action)
      modifies this
      ensures action == Decide(old(record), input, now)
      ensures record == var reserved := Reserve(old(record), input, now); if reserved.Some? then reserved else old(record)
    {
      if now.isTryConnect { return Nothing; }
      if now.isValidServerIp { return ReportConnected; }
      var info := record;
      if input.Some? && info.None? {
        SetServerConnectInfo("", input.value);
      }
      if input.None? && info.None? { return ReportDisconnected; }
      var connectIp, connectPort := "", "";
      if input.Some? {
        connectIp := if info.Some? then info.value.0 else "";
        connectPort := input.value;
      } else {
        connectIp, connectPort := info.value.0, info.value.1;
      }
      if connectIp == "" {
        if !now.useScanDiscovery { return ReportDisconnected; }
        if now.isScanning { return Nothing; }
        if !now.hasLocalIp { return ReportDisconnected; }
        return Scan(connectPort);
      }
      return Dial(ToWsUrl(connectIp, connectPort));
    }
  }

  // ------------------------------------------------------------ the life of it

  /** `dials` are the URLs of attempts in flight, `scans` the ports of scans in
      flight, `writes` what some task is about to store, `connected` the URL
      beside a stored sender. */
  datatype Life = Life(
    record: Option<Record>, dials: set<string>, scans: set<string>, writes: set<Record>, connected: Option<string>)

  datatype Event =
    | Connect(input: Option<string>, now: Situation)  // the app, or a dead verdict
    | ScanFor(port: string)                           // `scan_and_connect`
    | ScanFinds(port: string, host: string)
    | DialSucceeds(url: string)                       // `add`: memory now, store later
    | RemoveIp                                        // a failed dial, a dead verdict, `disconnect`
    | ReadForClear                                    // the read of `clear_server_ip`, its write later
    | Write(w: Record)                                // one of the stores happens
    | SendExhausted                                   // a reconnection to the address in memory

  function ScanUrl(host: string, port: string): string {
    "ws://" + host + ":" + port
  }

  function Next(s: Life, e: Event): Life {
    match e
    case Connect(input, now) =>
      var reserved := Reserve(s.record, input, now);
      var reserving := if reserved.Some? then s.(writes := s.writes + {reserved.value}) else s;
      (match Decide(s.record, input, now)
       case Dial(url) => reserving.(dials := s.dials + {url})
       case Scan(port) => reserving.(scans := s.scans + {port})
       case _ => reserving)
    case ScanFor(port) => s.(scans := s.scans + {port})
    case ScanFinds(port, host) => if port in s.scans then s.(dials := s.dials + {ScanUrl(host, port)}) else s
    case DialSucceeds(url) =>
      if url in s.dials then s.(connected := Some(url), writes := s.writes + {(url, ParsePort(url))}) else s
    case RemoveIp => s.(connected := None)
    case ReadForClear =>
      if s.record.Some? then s.(writes := s.writes + {("", ValidPort(s.record.value.1))}) else s
    case Write(w) => if w in s.writes then s.(record := Some(w)) else s
    case SendExhausted => if s.connected.Some? then s.(dials := s.dials + {s.connected.value}) else s
  }

  function Run(s: Life, events: seq<Event>): Life
    decreases |events|
  {
    if events == [] then s else Run(Next(s, events[0]), events[1..])
  }

  /** The address is empty, carries port `p`, or is a bare host. */
  predicate GoodRecord(r: Record, p: string) {
    r.1 == p && (r.0 == "" || ParsePort(r.0) == p || (ParsePort(r.0) == "" && !HasScheme(r.0)))
  }

  /** Any port the application supplies is `p`. */
  predicate Supplies(e: Event, p: string) {
    match e
    case Connect(input, _) => input.Some? ==> input.value == p
    case ScanFor(port) => port == p
    case _ => true
  }

  ghost predicate KeepsPort(s: Life, p: string) {
    && (s.record.Some? ==> GoodRecord(s.record.value, p))
    && (forall url :: url in s.dials ==> ParsePort(url) == p)
    && (forall port :: port in s.scans ==> port == p)
    && (forall w :: w in s.writes ==> GoodRecord(w, p))
    && (s.connected.Some? ==> ParsePort(s.connected.value) == p)
  }

  lemma DecideKeepsPort(record: Option<Record>, input: Option<string>, now: Situation, p: string)
    requires p != "" && IsDigits(p)
    requires record.Some? ==> GoodRecord(record.value, p)
    requires input.Some? ==> input.value == p
    ensures var action := Decide(record, input, now);
      && (action.Dial? ==> ParsePort(action.url) == p)
      && (action.Scan? ==> action.port == p)
  {
    hide ParsePort, ToWsUrl, HasScheme, GoodRecord, IsDigits;
    if record.Some? {
      UrlOfGoodRecord(record.value, p);
    }
  }

  lemma UrlOfGoodRecord(r: Record, p: string)
    requires p != "" && IsDigits(p) && GoodRecord(r, p)
    ensures r.1 == p && (r.0 != "" ==> ParsePort(ToWsUrl(r.0, p)) == p)
  {
    hide ParsePort, ToWsUrl, HasScheme;
    UrlKeepsPortExactlyWhen(r.0, p);
  }

  lemma ScanUrlPort(host: string, port: string)
    requires port != "" && IsDigits(port)
    ensures ParsePort(ScanUrl(host, port)) == port
  {
    PortOfUrl(host, port, 0);
    assert ScanUrl(host, port) + Slashes(0) == ScanUrl(host, port);
  }

  lemma StepKeepsPort(s: Life, e: Event, p: string)
    requires p != "" && IsDigits(p) && Supplies(e, p) && KeepsPort(s, p)
    ensures KeepsPort(Next(s, e), p)
  {
    hide ParsePort, ToWsUrl, HasScheme, Decide, ScanUrl;
    match e
    case Connect(input, now) => DecideKeepsPort(s.record, input, now, p);
    case ScanFinds(port, host) => if port in s.scans { ScanUrlPort(host, port); }
    case _ =>
  }

  /** From a good record on, whatever connects, fails, disconnects and scans
      happen in whatever order, the stored port stays `p`. */
  lemma {:induction false} PortSurvivesHistory(s: Life, events: seq<Event>, p: string)
    requires p != "" && IsDigits(p) && KeepsPort(s, p) && s.record.Some?
    requires forall e :: e in events ==> Supplies(e, p)
    ensures KeepsPort(Run(s, events), p)
    ensures Run(s, events).record.Some? && Run(s, events).record.value.1 == p
    decreases |events|
  {
    hide ParsePort, Supplies, Next, KeepsPort;
    if events == [] {
      assert GoodRecord(s.record.value, p) by { GoodFrom(s, p); }
    } else {
      StepKeepsPort(s, events[0], p);
      StaysStored(s, events[0]);
      PortSurvivesHistory(Next(s, events[0]), events[1..], p);
    }
  }

  lemma GoodFrom(s: Life, p: string)
    requires KeepsPort(s, p) && s.record.Some?
    ensures GoodRecord(s.record.value, p)
  {
  }

  lemma StaysStored(s: Life, e: Event)
    requires s.record.Some?
    ensures Next(s, e).record.Some?
  {
  }

  /** One direct reconnect from a stored record keeps its port exactly when the
      record is good: an address with a scheme and no port loses it. */
  lemma ReconnectKeepsPortExactlyWhen(address: string, p: string, now: Situation)
    requires p != "" && IsDigits(p) && address != "" && !now.isTryConnect && !now.isValidServerIp
    ensures var start := Life(Some((address, p)), {}, {}, {}, None);
      var url := ToWsUrl(address, p);
      var end := Run(start, [Connect(None, now), DialSucceeds(url), Write((url, ParsePort(url)))]);
      end.record == Some((url, ParsePort(url))) && (ParsePort(url) == p <==> GoodRecord((address, p), p))
  {
    UrlKeepsPortExactlyWhen(address, p);
    hide ParsePort, ToWsUrl, HasScheme, Run;
    var start, url := Life(Some((address, p)), {}, {}, {}, None), ToWsUrl(address, p);
    var connect, dial, write := Connect(None, now), DialSucceeds(url), Write((url, ParsePort(url)));
    assert Next(start, connect) == start.(dials := {} + {url});
    hide Decide, Reserve;
    assert Next(Next(Next(start, connect), dial), write).record == Some((url, ParsePort(url)));
    hide Next, GoodRecord;
    RunOfThree(start, connect, dial, write);
  }

  lemma RunOfThree(s: Life, a: Event, b: Event, c: Event)
    ensures Run(s, [a, b, c]) == Next(Next(Next(s, a), b), c)
  {
    hide Next;
    assert Run(Next(Next(Next(s, a), b), c), []) == Next(Next(Next(s, a), b), c);
    assert [a, b, c][1..] == [b, c] && [b, c][1..] == [c] && [c][1..] == [];
    assert Run(Next(Next(s, a), b), [c]) == Next(Next(Next(s, a), b), c);
    assert Run(Next(s, a), [b, c]) == Next(Next(Next(s, a), b), c);
  }

  /** Such an address: its scheme keeps the stored port from being added to it,
      and the first success overwrites that port with nothing. */
  lemma SchemeWithoutPortLosesPort(now: Situation)
    requires !now.isTryConnect && !now.isValidServerIp
    ensures var start, url := Life(Some(("ws://10.0.0.5", "9000")), {}, {}, {}, None), "ws://10.0.0.5";
      Run(start, [Connect(None, now), DialSucceeds(url), Write((url, ""))]).record == Some((url, ""))
  {
    var url := "ws://10.0.0.5";
    BareHostHasNoPort();
    UrlHasScheme();
    hide ParsePort, HasScheme, Run, Next;
    assert ToWsUrl(url, "9000") == url;
    hide ToWsUrl;
    ReconnectKeepsPortExactlyWhen(url, "9000", now);
  }

  lemma UrlHasScheme()
    ensures HasScheme("ws://10.0.0.5")
  {
    SchemeAdded("10.0.0.5");
    assert "ws://" + "10.0.0.5" == "ws://10.0.0.5";
  }

  lemma BareHostHasNoPort()
    ensures ParsePort("ws://10.0.0.5") == ""
  {
    var host := "10.0.0.5";
    assert host + Slashes(0) == host;
    TrimStops(host, 0);
    LastColonIs(host, -1);
    PortBehindScheme("ws://", host);
    assert "ws://" + host == "ws://10.0.0.5";
  }

  /** Whatever was stored and whatever else is on its way, the write of one
      clear or of one successful `add` leaves a port that is empty or all
      digits. */
  lemma WritesHealThePort(s: Life, url: string)
    ensures s.record.Some? ==>
      var w := ("", ValidPort(s.record.value.1));
      Next(Next(s, ReadForClear), Write(w)).record == Some(w) && IsDigits(w.1)
    ensures url in s.dials ==>
      var w := (url, ParsePort(url));
      Next(Next(s, DialSucceeds(url)), Write(w)).record == Some(w) && IsDigits(w.1)
  {
    hide ToWsUrl, HasScheme;
  }
}
