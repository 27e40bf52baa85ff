/**
  The phase breakdown of one transfer. curl reports six cumulative instants,
  each measured in seconds from the start of the transfer; the report derives
  five phase durations and a total from them and hands them on in a map keyed
  by the phase's display name.
 */
module Timings {
  import opened Options

  /** A span of time in seconds, as `Duration::as_secs_f64` gives it: never negative. */
  type Seconds = r: real | 0.0 <= r

  /** The six instants curl can report; `None` where curl cannot supply one. */
  datatype CurlTimes = CurlTimes(
    namelookup: Option<Seconds>,
    connect: Option<Seconds>,
    appconnect: Option<Seconds>,
    pretransfer: Option<Seconds>,
    starttransfer: Option<Seconds>,
    total: Option<Seconds>)

  /** The phase durations, one field per key of the timings map. */
  datatype Phases = Phases(
    dnsLookup: real,
    tcpConnection: real,
    tlsHandshake: real,
    serverProcessing: real,
    contentTransfer: real,
    total: real)

  const DnsLookupKey: string := "DNS Lookup"
  const TcpConnectionKey: string := "TCP Connection"
  const TlsHandshakeKey: string := "TLS Handshake"
  const ServerProcessingKey: string := "Server Processing"
  const ContentTransferKey: string := "Content Transfer"
  const TotalKey: string := "Total"

  const PhaseKeys: set<string> :=
    {DnsLookupKey, TcpConnectionKey, TlsHandshakeKey, ServerProcessingKey, ContentTransferKey, TotalKey}

  /** An instant as the report reads it: an instant curl does not report counts as 0. */
  function Instant(reported: Option<Seconds>): (r: Seconds)
    ensures reported.Some? ==> r == reported.value
    ensures reported.None? ==> r == 0.0
  {
    match reported
    case Some(d) => d
    case None => 0.0
  }

  /** The time from `earlier` to `later`, or zero when `later` is not after
      `earlier`: the least non-negative value not below `later - earlier`. */
  function ClampedDiff(later: real, earlier: real): (r: real)
    ensures r >= 0.0 && r >= later - earlier
    ensures r == 0.0 || r == later - earlier
  {
    if later > earlier then later - earlier else 0.0
  }

  /** The phases the report derives from curl's instants. Server processing is
      measured from `pretransfer`, not from `appconnect`. */
  function DerivePhases(t: CurlTimes): (p: Phases)
    ensures p.dnsLookup == Instant(t.namelookup) && p.total == Instant(t.total)
    ensures p.tcpConnection >= 0.0 && p.tcpConnection >= Instant(t.connect) - Instant(t.namelookup)
    ensures p.tlsHandshake >= 0.0 && p.tlsHandshake >= Instant(t.appconnect) - Instant(t.connect)
    ensures p.serverProcessing >= 0.0 && p.serverProcessing >= Instant(t.starttransfer) - Instant(t.pretransfer)
    ensures p.contentTransfer >= 0.0 && p.contentTransfer >= Instant(t.total) - Instant(t.starttransfer)
  {
    var namelookup := Instant(t.namelookup);
    var connect := Instant(t.connect);
    var appconnect := Instant(t.appconnect);
    var pretransfer := Instant(t.pretransfer);
    var starttransfer := Instant(t.starttransfer);
    var total := Instant(t.total);
    Phases(
      namelookup,
      ClampedDiff(connect, namelookup),
      ClampedDiff(appconnect, connect),
      ClampedDiff(starttransfer, pretransfer),
      ClampedDiff(total, starttransfer),
      total)
  }

  /** The timings map holding the phases `p`, keyed by display name. */
  function PhaseMap(p: Phases): (m: map<string, real>)
    ensures m.Keys == PhaseKeys
  {
    map[DnsLookupKey := p.dnsLookup,
        TcpConnectionKey := p.tcpConnection,
        TlsHandshakeKey := p.tlsHandshake,
        ServerProcessingKey := p.serverProcessing,
        ContentTransferKey := p.contentTransfer,
        TotalKey := p.total]
  }

  /** Builds the timings map one entry at a time, reading absent instants as 0. */
  method CollectTimings(t: CurlTimes) returns (timings: map<string, real>)
    ensures timings.Keys == PhaseKeys
    ensures timings == PhaseMap(DerivePhases(t))
  {
    var namelookup := Instant(t.namelookup);
    var connect := Instant(t.connect);
    var appconnect := Instant(t.appconnect);
    var pretransfer := Instant(t.pretransfer);
    var starttransfer := Instant(t.starttransfer);
    var total := Instant(t.total);

    timings := map[];
    timings := timings[DnsLookupKey := namelookup];
    timings := timings[TcpConnectionKey := if connect > namelookup then connect - namelookup else 0.0];
    timings := timings[TlsHandshakeKey := if appconnect > connect then appconnect - connect else 0.0];
    timings := timings[ServerProcessingKey := if starttransfer > pretransfer then starttransfer - pretransfer else 0.0];
    timings := timings[ContentTransferKey := if total > starttransfer then total - starttransfer else 0.0];
    timings := timings[TotalKey := total];
  }

  /** Each of the four middle phases is the time between its two instants when
      the later one is after the earlier one, and exactly zero otherwise. */
  lemma ClampedPhases(t: CurlTimes)
    ensures var p, i := DerivePhases(t), Instant(t.connect);
      && (p.tcpConnection == if i > Instant(t.namelookup) then i - Instant(t.namelookup) else 0.0)
      && (p.tlsHandshake == if Instant(t.appconnect) > i then Instant(t.appconnect) - i else 0.0)
      && (p.serverProcessing ==
            if Instant(t.starttransfer) > Instant(t.pretransfer)
            then Instant(t.starttransfer) - Instant(t.pretransfer) else 0.0)
      && (p.contentTransfer ==
            if Instant(t.total) > Instant(t.starttransfer)
            then Instant(t.total) - Instant(t.starttransfer) else 0.0)
  {
  }

  /** No derived value is negative: the four middle phases are clamped, and the
      two passed-through values are durations. */
  lemma PhasesNonNegative(t: CurlTimes)
    ensures var p := DerivePhases(t);
      && p.dnsLookup >= 0.0 && p.tcpConnection >= 0.0 && p.tlsHandshake >= 0.0
      && p.serverProcessing >= 0.0 && p.contentTransfer >= 0.0 && p.total >= 0.0
  {
  }

  /** DNS lookup and total are curl's `namelookup` and `total` instants,
      unclamped; an instant curl does not report is 0. */
  lemma PassThrough(t: CurlTimes)
    ensures DerivePhases(t).dnsLookup == (if t.namelookup.Some? then t.namelookup.value else 0.0)
    ensures DerivePhases(t).total == (if t.total.Some? then t.total.value else 0.0)
  {
  }

  /** With ordered connection instants, DNS lookup, TCP connection and TLS
      handshake add up to `appconnect`. */
  lemma ConnectionPhasesTelescope(t: CurlTimes)
    requires Instant(t.namelookup) <= Instant(t.connect) <= Instant(t.appconnect)
    ensures var p := DerivePhases(t);
      p.dnsLookup + p.tcpConnection + p.tlsHandshake == Instant(t.appconnect)
  {
  }

  /** With ordered transfer instants, server processing and content transfer
      add up to the time from `pretransfer` to `total`. */
  lemma TransferPhasesTelescope(t: CurlTimes)
    requires Instant(t.pretransfer) <= Instant(t.starttransfer) <= Instant(t.total)
    ensures var p := DerivePhases(t);
      p.serverProcessing + p.contentTransfer == Instant(t.total) - Instant(t.pretransfer)
  {
  }

  /** With all six instants in order, the five phases add up to the total less
      the time from `appconnect` to `pretransfer`, which belongs to no phase:
      they tile the total exactly when that interval is empty. */
  lemma PhasesLeaveGap(t: CurlTimes)
    requires Instant(t.namelookup) <= Instant(t.connect) <= Instant(t.appconnect)
    requires Instant(t.appconnect) <= Instant(t.pretransfer)
    requires Instant(t.pretransfer) <= Instant(t.starttransfer) <= Instant(t.total)
    ensures var p := DerivePhases(t);
      p.dnsLookup + p.tcpConnection + p.tlsHandshake + p.serverProcessing + p.contentTransfer
      == p.total - (Instant(t.pretransfer) - Instant(t.appconnect))
    ensures var p := DerivePhases(t);
      (p.dnsLookup + p.tcpConnection + p.tlsHandshake + p.serverProcessing + p.contentTransfer == p.total)
      <==> Instant(t.pretransfer) == Instant(t.appconnect)
  {
    ConnectionPhasesTelescope(t);
    TransferPhasesTelescope(t);
  }

  /** Without a TLS instant (a plain-HTTP transfer, or one curl does not
      report) the TLS handshake is a zero duration, never an absent one. */
  lemma MissingTlsIsZero(t: CurlTimes)
    requires t.appconnect.None? || t.appconnect == Some(0.0)
    ensures TlsHandshakeKey in PhaseMap(DerivePhases(t))
    ensures DerivePhases(t).tlsHandshake == 0.0
  {
  }

  /** The timings map always holds the six phase keys and nothing else, each
      with its phase's value. */
  lemma PhaseMapLookups(p: Phases)
    ensures PhaseMap(p).Keys == PhaseKeys
    ensures PhaseMap(p)[DnsLookupKey] == p.dnsLookup
    ensures PhaseMap(p)[TcpConnectionKey] == p.tcpConnection
    ensures PhaseMap(p)[TlsHandshakeKey] == p.tlsHandshake
    ensures PhaseMap(p)[ServerProcessingKey] == p.serverProcessing
    ensures PhaseMap(p)[ContentTransferKey] == p.contentTransfer
    ensures PhaseMap(p)[TotalKey] == p.total
  {
  }

  /** A worked transfer: instants of 10, 40, 90, 90, 150 and 200 ms give phases
      of 10, 30, 50, 60 and 50 ms and a total of 200 ms. */
  lemma ExampleTransfer()
    ensures DerivePhases(CurlTimes(Some(0.010), Some(0.040), Some(0.090), Some(0.090), Some(0.150), Some(0.200)))
      == Phases(0.010, 0.030, 0.050, 0.060, 0.050, 0.200)
  {
  }
}
