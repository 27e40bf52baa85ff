/**
  The timing table of the report: a header row naming the five phases, a row
  of the five phase durations between bars, a row of bars, and five rows
  labelled with curl's cumulative instants (`namelookup`, `connect`,
  `pretransfer`, `starttransfer`, `total`). Each of the ten duration slots is
  filled by looking a phase name up in the timings map and formatting what the
  lookup gives.
 */
module Report {
  import opened Options
  import opened Text
  import opened Timings

  /** The decimal text, rounded to a whole number, of a number of milliseconds:
      Rust's `{:.0}` on an `f64`. Floating-point printing is not part of this
      model, so every function that renders a duration takes it as a parameter. */
  type Numeral = real -> string

  /** What a slot shows when its phase is missing from the map. */
  const NotApplicable: string := "   N/A"

  /** One duration slot: `None` (a phase missing from the map) is `   N/A`;
      a duration in seconds is its millisecond numeral, right-aligned in seven
      columns, followed by `ms`. */
  function FormatDuration(duration: Option<real>, numeral: Numeral): (text: string)
    ensures text == NotApplicable <==> duration.None?
    ensures duration.Some? ==>
      var digits := numeral(duration.value * 1000.0);
      && |text| >= 9 && text[|text| - 2..] == "ms"
      && |text| - 2 >= |digits| && text[|text| - 2 - |digits|..|text| - 2] == digits
  {
    match duration
    case None => NotApplicable
    case Some(d) =>
      var text := PadLeft(numeral(d * 1000.0), 7) + "ms";
      assert text[|text| - 2] == 'm' && NotApplicable[|NotApplicable| - 2] == '/';
      text
  }

  /** Rust's `HashMap::get`. */
  function Lookup(timings: map<string, real>, key: string): (r: Option<real>)
    ensures r.Some? <==> key in timings
    ensures r.Some? ==> r.value == timings[key]
  {
    if key in timings then Some(timings[key]) else None
  }

  /** The key looked up for each of the ten slots, in print order: the five
      slots of the duration row, then the five cumulative rows. */
  const SlotKeys: seq<string> := [
    DnsLookupKey, TcpConnectionKey, TlsHandshakeKey, ServerProcessingKey, ContentTransferKey,
    DnsLookupKey, TcpConnectionKey, TlsHandshakeKey, ServerProcessingKey, TotalKey]

  /** What each slot of the table holds: the map's value for the slot's key, or
      `None` when the key is missing. */
  function TableSlots(timings: map<string, real>): (slots: seq<Option<real>>)
    ensures |slots| == |SlotKeys| == 10
    ensures forall i :: 0 <= i < 10 ==> slots[i] == Lookup(timings, SlotKeys[i])
  {
    seq(10, i requires 0 <= i < 10 => Lookup(timings, SlotKeys[i]))
  }

  const ColumnHeader: string :=
    "   DNS Lookup     TCP Connection     TLS Handshake     Server Processing     Content Transfer"
  const Separator: string :=
    "               |                  |                 |                     |                    |"
  const Bar0: string := "[   "
  const Bar1: string := "  |     "
  const Bar2: string := "    |    "
  const Bar3: string := "    |      "
  const Bar4: string := "      |      "
  const Bar5: string := "     ]"
  const NamelookupLabel: string :=
    "      namelookup:"
  const NamelookupTrail: string :=
    "        |                 |                     |                    |"
  const ConnectLabel: string :=
    "                            connect:"
  const ConnectTrail: string :=
    "       |                     |                    |"
  const PretransferLabel: string :=
    "                                          pretransfer:"
  const PretransferTrail: string :=
    "           |                    |"
  const StarttransferLabel: string :=
    "                                                              starttransfer:"
  const StarttransferTrail: string :=
    "          |"
  const TotalLabel: string :=
    "                                                                                           total:"
  const TotalTrail: string :=
    ""

  /** The text of slot `i`, before the table aligns it. */
  function Cell(timings: map<string, real>, numeral: Numeral, i: nat): (text: string)
    requires i < 10
    ensures text == NotApplicable <==> SlotKeys[i] !in timings
    ensures SlotKeys[i] in timings ==> text == FormatDuration(Some(timings[SlotKeys[i]]), numeral)
  {
    FormatDuration(TableSlots(timings)[i], numeral)
  }

  /** The duration row: the five phase slots right-aligned between bars. */
  function DurationRow(timings: map<string, real>, numeral: Numeral): string {
    Bar0 + PadLeft(Cell(timings, numeral, 0), 7) + Bar1 + PadLeft(Cell(timings, numeral, 1), 7) + Bar2
      + PadLeft(Cell(timings, numeral, 2), 7) + Bar3 + PadLeft(Cell(timings, numeral, 3), 7) + Bar4
      + PadLeft(Cell(timings, numeral, 4), 7) + Bar5
  }

  /** A cumulative row: its label, slot `i` left-aligned in seven columns, and its trailing bars. */
  function CumulativeRow(rowLabel: string, timings: map<string, real>, numeral: Numeral, i: nat, trail: string): string
    requires i < 10
  {
    rowLabel + PadRight(Cell(timings, numeral, i), 7) + trail
  }

  /** The printed table, one string per output line (the first is the empty
      line the header row's leading newline produces). */
  function TimingTable(timings: map<string, real>, numeral: Numeral): (lines: seq<string>)
    ensures |lines| == 9
    ensures lines[0] == "" && lines[1] == ColumnHeader && lines[3] == Separator
  {
    [ "",
      ColumnHeader,
      DurationRow(timings, numeral),
      Separator,
      CumulativeRow(NamelookupLabel, timings, numeral, 5, NamelookupTrail),
      CumulativeRow(ConnectLabel, timings, numeral, 6, ConnectTrail),
      CumulativeRow(PretransferLabel, timings, numeral, 7, PretransferTrail),
      CumulativeRow(StarttransferLabel, timings, numeral, 8, StarttransferTrail),
      CumulativeRow(TotalLabel, timings, numeral, 9, TotalTrail) ]
  }

  /** A formatted duration is at least nine columns wide, so neither seven-column
      alignment of the table changes it; `   N/A` is one column short of seven. */
  lemma CellWidths(duration: Option<real>, numeral: Numeral)
    ensures duration.Some? ==> PadLeft(FormatDuration(duration, numeral), 7) == FormatDuration(duration, numeral)
    ensures duration.Some? ==> PadRight(FormatDuration(duration, numeral), 7) == FormatDuration(duration, numeral)
    ensures duration.None? ==> PadLeft(FormatDuration(duration, numeral), 7) == " " + NotApplicable
    ensures duration.None? ==> PadRight(FormatDuration(duration, numeral), 7) == NotApplicable + " "
  {
    if duration.None? {
      assert Spaces(1) == " ";
    }
  }

  /** Over the map the report derives, every slot holds its phase: the duration
      row shows the five phases, and the cumulative rows show DNS lookup at
      `namelookup`, TCP connection at `connect`, TLS handshake at `pretransfer`,
      server processing at `starttransfer` and the total at `total`. */
  lemma DerivedSlots(t: CurlTimes)
    ensures var p := DerivePhases(t);
      TableSlots(PhaseMap(p)) == [
        Some(p.dnsLookup), Some(p.tcpConnection), Some(p.tlsHandshake), Some(p.serverProcessing),
        Some(p.contentTransfer),
        Some(p.dnsLookup), Some(p.tcpConnection), Some(p.tlsHandshake), Some(p.serverProcessing),
        Some(p.total)]
  {
    var p := DerivePhases(t);
    PhaseMapLookups(p);
  }

  /** So over the derived map no slot shows `N/A`: each shows a number of milliseconds. */
  lemma DerivedTableHasNoNotApplicable(t: CurlTimes, numeral: Numeral)
    ensures forall i :: 0 <= i < 10 ==>
      var text := FormatDuration(TableSlots(PhaseMap(DerivePhases(t)))[i], numeral);
      text != NotApplicable && text[|text| - 2..] == "ms"
  {
    DerivedSlots(t);
  }

  /** The duration row of the derived table prints the five phases, each as its
      formatted duration between the row's bars. */
  lemma DurationRowShowsPhases(t: CurlTimes, numeral: Numeral)
    ensures var p, lines := DerivePhases(t), TimingTable(PhaseMap(DerivePhases(t)), numeral);
      lines[2] == Bar0 + FormatDuration(Some(p.dnsLookup), numeral)
        + Bar1 + FormatDuration(Some(p.tcpConnection), numeral)
        + Bar2 + FormatDuration(Some(p.tlsHandshake), numeral)
        + Bar3 + FormatDuration(Some(p.serverProcessing), numeral)
        + Bar4 + FormatDuration(Some(p.contentTransfer), numeral) + Bar5
  {
    var p, m := DerivePhases(t), PhaseMap(DerivePhases(t));
    assert TimingTable(m, numeral)[2] == DurationRow(m, numeral);
    DurationCells(t, numeral);
  }

  /** The cells of the duration row of the derived table, aligned. */
  lemma DurationCells(t: CurlTimes, numeral: Numeral)
    ensures var p, m := DerivePhases(t), PhaseMap(DerivePhases(t));
      && PadLeft(Cell(m, numeral, 0), 7) == FormatDuration(Some(p.dnsLookup), numeral)
      && PadLeft(Cell(m, numeral, 1), 7) == FormatDuration(Some(p.tcpConnection), numeral)
      && PadLeft(Cell(m, numeral, 2), 7) == FormatDuration(Some(p.tlsHandshake), numeral)
      && PadLeft(Cell(m, numeral, 3), 7) == FormatDuration(Some(p.serverProcessing), numeral)
      && PadLeft(Cell(m, numeral, 4), 7) == FormatDuration(Some(p.contentTransfer), numeral)
  {
    var p, m := DerivePhases(t), PhaseMap(DerivePhases(t));
    PhaseMapLookups(p);
    KeyedCell(m, numeral, 0);
    KeyedCell(m, numeral, 1);
    KeyedCell(m, numeral, 2);
    KeyedCell(m, numeral, 3);
    KeyedCell(m, numeral, 4);
  }

  /** A slot whose key is in the map prints the key's duration, unpadded, in either alignment. */
  lemma KeyedCell(timings: map<string, real>, numeral: Numeral, i: nat)
    requires i < 10 && SlotKeys[i] in timings
    ensures PadLeft(Cell(timings, numeral, i), 7) == FormatDuration(Some(timings[SlotKeys[i]]), numeral)
    ensures PadRight(Cell(timings, numeral, i), 7) == FormatDuration(Some(timings[SlotKeys[i]]), numeral)
  {
    CellWidths(Some(timings[SlotKeys[i]]), numeral);
  }

  /** The five cumulative rows of the derived table print each phase's own
      duration next to the instant's label, not a running total. */
  lemma CumulativeRowsShowPhases(t: CurlTimes, numeral: Numeral)
    ensures var p, lines := DerivePhases(t), TimingTable(PhaseMap(DerivePhases(t)), numeral);
      && lines[4] == NamelookupLabel + FormatDuration(Some(p.dnsLookup), numeral) + NamelookupTrail
      && lines[5] == ConnectLabel + FormatDuration(Some(p.tcpConnection), numeral) + ConnectTrail
      && lines[6] == PretransferLabel + FormatDuration(Some(p.tlsHandshake), numeral) + PretransferTrail
      && lines[7] == StarttransferLabel + FormatDuration(Some(p.serverProcessing), numeral) + StarttransferTrail
      && lines[8] == TotalLabel + FormatDuration(Some(p.total), numeral) + TotalTrail
  {
    var m := PhaseMap(DerivePhases(t));
    CumulativeRows(m, numeral);
    DerivedCells(t, numeral);
  }

  /** The five cumulative rows of any table: each instant's label, its slot's
      text left-aligned in seven columns, and the rest of the row's bars. */
  lemma CumulativeRows(timings: map<string, real>, numeral: Numeral)
    ensures var lines := TimingTable(timings, numeral);
      && lines[4] == NamelookupLabel + PadRight(Cell(timings, numeral, 5), 7) + NamelookupTrail
      && lines[5] == ConnectLabel + PadRight(Cell(timings, numeral, 6), 7) + ConnectTrail
      && lines[6] == PretransferLabel + PadRight(Cell(timings, numeral, 7), 7) + PretransferTrail
      && lines[7] == StarttransferLabel + PadRight(Cell(timings, numeral, 8), 7) + StarttransferTrail
      && lines[8] == TotalLabel + PadRight(Cell(timings, numeral, 9), 7) + TotalTrail
  {
  }

  /** The cells of the cumulative rows of the derived table, aligned. */
  lemma DerivedCells(t: CurlTimes, numeral: Numeral)
    ensures var p, m := DerivePhases(t), PhaseMap(DerivePhases(t));
      && PadRight(Cell(m, numeral, 5), 7) == FormatDuration(Some(p.dnsLookup), numeral)
      && PadRight(Cell(m, numeral, 6), 7) == FormatDuration(Some(p.tcpConnection), numeral)
      && PadRight(Cell(m, numeral, 7), 7) == FormatDuration(Some(p.tlsHandshake), numeral)
      && PadRight(Cell(m, numeral, 8), 7) == FormatDuration(Some(p.serverProcessing), numeral)
      && PadRight(Cell(m, numeral, 9), 7) == FormatDuration(Some(p.total), numeral)
  {
    var p, m := DerivePhases(t), PhaseMap(DerivePhases(t));
    PhaseMapLookups(p);
    KeyedCell(m, numeral, 5);
    KeyedCell(m, numeral, 6);
    KeyedCell(m, numeral, 7);
    KeyedCell(m, numeral, 8);
    KeyedCell(m, numeral, 9);
  }

  /** The `namelookup` and `total` rows always show the running total to their
      instant: DNS lookup and total are those instants themselves. */
  lemma OuterRowsAreRunningTotals(t: CurlTimes)
    ensures var slots := TableSlots(PhaseMap(DerivePhases(t)));
      slots[5] == Some(Instant(t.namelookup)) && slots[9] == Some(Instant(t.total))
  {
    DerivedSlots(t);
  }

  /** The three inner rows do not: with ordered instants, the `connect` row
      shows the running total to `connect` only when the DNS lookup took no
      time, the `pretransfer` row shows the running total to `pretransfer` only
      when `connect` is 0 and nothing happens between `appconnect` and
      `pretransfer`, and the `starttransfer` row shows the running total to
      `starttransfer` only when `pretransfer` is 0. */
  lemma InnerRowsAreNotRunningTotals(t: CurlTimes)
    requires Instant(t.namelookup) <= Instant(t.connect)
    requires Instant(t.pretransfer) <= Instant(t.starttransfer)
    ensures var slots := TableSlots(PhaseMap(DerivePhases(t)));
      slots[6] == Some(Instant(t.connect)) <==> Instant(t.namelookup) == 0.0
    ensures var slots := TableSlots(PhaseMap(DerivePhases(t)));
      Instant(t.connect) <= Instant(t.appconnect) <= Instant(t.pretransfer) ==>
        (slots[7] == Some(Instant(t.pretransfer))
         <==> Instant(t.connect) == 0.0 && Instant(t.appconnect) == Instant(t.pretransfer))
    ensures var slots := TableSlots(PhaseMap(DerivePhases(t)));
      slots[8] == Some(Instant(t.starttransfer)) <==> Instant(t.pretransfer) == 0.0
  {
    DerivedSlots(t);
  }
}
