/**
 * What the report layout guarantees: the sections come in a fixed order,
 * there is one disk line per file store and one numbered line per display,
 * the fan line lists every fan speed, every graphics card has its four lines,
 * and the numbers shown read back as the values they show.
 */
module LayoutFacts {
  import opened JavaText
  import opened Uptime
  import opened Seqs
  import opened Layout

  // ---------------------------------------------------------------------------
  // The values shown under one label

  /** The value of `x` when it is labelled `k`, and nothing otherwise. */
  function Shown(x: Line, k: Label): seq<string> {
    if x.Field? && x.kind == k then [x.value] else []
  }

  /** The values of the lines labelled `k`, in the order of the lines. */
  function Values(lines: seq<Line>, k: Label): (vs: seq<string>)
    ensures |vs| <= |lines|
  {
    if lines == [] then [] else Shown(lines[0], k) + Values(lines[1..], k)
  }

  lemma {:induction false} ValuesAppend(a: seq<Line>, b: seq<Line>, k: Label)
    ensures Values(a + b, k) == Values(a, k) + Values(b, k)
  {
    if a == [] {
      AppendNil(b);
      AppendNil(Values(b, k));
    } else {
      AppendTail(a, b);
      ValuesAppend(a[1..], b, k);
      Assoc(Shown(a[0], k), Values(a[1..], k), Values(b, k));
    }
  }

  // ---------------------------------------------------------------------------
  // Sections

  /** The sections of the report, in the order updateStats appends them. */
  datatype Part = OsPart | CpuPart | MemoryPart | DiskPart | SensorPart | GpuPart | DisplayPart | UptimePart

  function Rank(p: Part): nat {
    match p
    case OsPart => 0
    case CpuPart => 1
    case MemoryPart => 2
    case DiskPart => 3
    case SensorPart => 4
    case GpuPart => 5
    case DisplayPart => 6
    case UptimePart => 7
  }

  /** The section a label belongs to. */
  function PartOf(k: Label): Part {
    match k
    case OperatingSystem => OsPart
    case CpuName => CpuPart
    case PhysicalCores => CpuPart
    case LogicalCores => CpuPart
    case CpuLoad => CpuPart
    case MemoryTotal => MemoryPart
    case MemoryAvailable => MemoryPart
    case Disk => DiskPart
    case CpuTemperature => SensorPart
    case FanSpeeds => SensorPart
    case BatteryVoltage => SensorPart
    case GpuName => GpuPart
    case GpuVendor => GpuPart
    case GpuVersion => GpuPart
    case GpuVRam => GpuPart
    case DisplayEdid => DisplayPart
    case SystemUptime => UptimePart
  }

  /** Every labelled line of `lines` belongs to section `p`. */
  predicate Within(lines: seq<Line>, p: Part) {
    forall i :: 0 <= i < |lines| && lines[i].Field? ==> PartOf(lines[i].kind) == p
  }

  /** Every labelled line of `lines` belongs to a section ranked below `n`. */
  predicate RanksBelow(lines: seq<Line>, n: nat) {
    forall i :: 0 <= i < |lines| && lines[i].Field? ==> Rank(PartOf(lines[i].kind)) < n
  }

  /** No labelled line comes after a labelled line of a later section. */
  predicate InSectionOrder(lines: seq<Line>) {
    forall i, j :: 0 <= i < j < |lines| && lines[i].Field? && lines[j].Field? ==>
      Rank(PartOf(lines[i].kind)) <= Rank(PartOf(lines[j].kind))
  }

  lemma WithinAppend(a: seq<Line>, b: seq<Line>, p: Part)
    requires Within(a, p) && Within(b, p)
    ensures Within(a + b, p)
  {
    forall i | 0 <= i < |a + b| && (a + b)[i].Field?
      ensures PartOf((a + b)[i].kind) == p
    {
      if i < |a| {
        assert (a + b)[i] == a[i];
      } else {
        assert (a + b)[i] == b[i - |a|];
      }
    }
  }

  /** Lines in section order followed by the lines of one later section are in section order. */
  lemma AppendSection(a: seq<Line>, b: seq<Line>, p: Part)
    requires InSectionOrder(a) && RanksBelow(a, Rank(p)) && Within(b, p)
    ensures InSectionOrder(a + b) && RanksBelow(a + b, Rank(p) + 1)
  {
    forall i, j | 0 <= i < j < |a + b| && (a + b)[i].Field? && (a + b)[j].Field?
      ensures Rank(PartOf((a + b)[i].kind)) <= Rank(PartOf((a + b)[j].kind))
    {
      if j < |a| {
        assert (a + b)[i] == a[i] && (a + b)[j] == a[j];
      } else if i < |a| {
        assert (a + b)[i] == a[i] && (a + b)[j] == b[j - |a|];
      } else {
        assert (a + b)[i] == b[i - |a|] && (a + b)[j] == b[j - |a|];
      }
    }
    forall i | 0 <= i < |a + b| && (a + b)[i].Field?
      ensures Rank(PartOf((a + b)[i].kind)) < Rank(p) + 1
    {
      if i < |a| {
        assert (a + b)[i] == a[i];
      } else {
        assert (a + b)[i] == b[i - |a|];
      }
    }
  }

  /** Lines none of which carries label `k` show no value under `k`. */
  lemma {:induction false} ValuesNone(lines: seq<Line>, k: Label)
    requires forall i :: 0 <= i < |lines| && lines[i].Field? ==> lines[i].kind != k
    ensures Values(lines, k) == []
  {
    if lines != [] {
      var rest := lines[1..];
      assert forall i :: 0 <= i < |rest| ==> rest[i] == lines[i + 1];
      ValuesNone(rest, k);
      AppendNil(Values(rest, k));
    }
  }

  /** Lines of which exactly the `i`-th carries label `k` show that line's value, once. */
  lemma {:induction false} ValuesOfOne(lines: seq<Line>, k: Label, i: nat)
    requires i < |lines| && lines[i].Field? && lines[i].kind == k
    requires forall j :: 0 <= j < |lines| && j != i && lines[j].Field? ==> lines[j].kind != k
    ensures Values(lines, k) == [lines[i].value]
  {
    var rest := lines[1..];
    assert forall j :: 0 <= j < |rest| ==> rest[j] == lines[j + 1];
    if i == 0 {
      ValuesNone(rest, k);
      AppendNil([lines[0].value]);
    } else {
      ValuesOfOne(rest, k, i - 1);
      AppendNil(Values(rest, k));
    }
  }

  /** The values of lines that all carry label `k` are their values, one per line. */
  lemma {:induction false} ValuesOfLabelled(lines: seq<Line>, k: Label)
    requires forall i :: 0 <= i < |lines| ==> lines[i].Field? && lines[i].kind == k
    ensures |Values(lines, k)| == |lines|
    ensures forall i :: 0 <= i < |lines| ==> Values(lines, k)[i] == lines[i].value
  {
    if lines != [] {
      var rest := lines[1..];
      assert forall i :: 0 <= i < |rest| ==> rest[i] == lines[i + 1];
      ValuesOfLabelled(rest, k);
      assert Values(lines, k) == [lines[0].value] + Values(rest, k);
    }
  }

  // ---------------------------------------------------------------------------
  // The list sections, entry by entry

  /** One disk line per file store, in list order, showing mount, usable space and total space. */
  lemma {:induction false} DiskLinesAre(f: Renderers, stores: seq<FileStore>)
    ensures |DiskLines(f, stores)| == |stores|
    ensures forall i :: 0 <= i < |stores| ==>
      DiskLines(f, stores)[i]
        == Field(Disk, stores[i].mount + " - " + FormatBytes(f, stores[i].usableSpace) + " / " + FormatBytes(f, stores[i].totalSpace))
  {
    if stores != [] {
      var rest := stores[1..];
      DiskLinesAre(f, rest);
      ConsTail(DiskLine(f, stores[0]), DiskLines(f, rest));
      assert forall i :: 1 <= i < |stores| ==> DiskLines(f, stores)[i] == DiskLines(f, rest)[i - 1] && rest[i - 1] == stores[i];
    }
  }

  /** Element `i` of `xs` gets line number `first + i`. */
  lemma {:induction false} NumberedAre<X>(xs: seq<X>, first: int, line: (int, X) -> Line)
    ensures |Numbered(xs, first, line)| == |xs|
    ensures forall i :: 0 <= i < |xs| ==> Numbered(xs, first, line)[i] == line(first + i, xs[i])
  {
    if xs != [] {
      var rest := xs[1..];
      NumberedAre(rest, first + 1, line);
      ConsTail(line(first, xs[0]), Numbered(rest, first + 1, line));
      forall i | 0 < i < |xs|
        ensures Numbered(xs, first, line)[i] == line(first + i, xs[i])
      {
        assert Numbered(xs, first, line)[i] == Numbered(rest, first + 1, line)[i - 1];
        assert rest[i - 1] == xs[i] && first + 1 + (i - 1) == first + i;
      }
    }
  }

  /** One line per display, numbered consecutively from `first`, each with its EDID length. */
  lemma DisplayLinesAre(displays: seq<Display>, first: int)
    ensures |DisplayLines(displays, first)| == |displays|
    ensures forall i :: 0 <= i < |displays| ==>
      DisplayLines(displays, first)[i] == Field(DisplayEdid, DisplayValue(first + i, EdidLength(displays[i])))
  {
    NumberedAre(displays, first, DisplayLine);
  }

  /** Five lines per graphics card, in list order: its block of four labelled lines and a blank line. */
  lemma {:induction false} GpuLinesAre(f: Renderers, gpus: seq<GraphicsCard>)
    ensures |GpuLines(f, gpus)| == 5 * |gpus|
    ensures forall i, j :: 0 <= i < |gpus| && 0 <= j < 5 ==> GpuLines(f, gpus)[5 * i + j] == GpuBlock(f, gpus[i])[j]
  {
    if gpus != [] {
      var rest := gpus[1..];
      var block, tail := GpuBlock(f, gpus[0]), GpuLines(f, rest);
      GpuLinesAre(f, rest);
      assert GpuLines(f, gpus) == block + tail;
      forall i, j | 0 <= i < |gpus| && 0 <= j < 5
        ensures GpuLines(f, gpus)[5 * i + j] == GpuBlock(f, gpus[i])[j]
      {
        if i == 0 {
          assert (block + tail)[j] == block[j];
        } else {
          assert 5 * i + j == 5 + (5 * (i - 1) + j);
          assert (block + tail)[5 * i + j] == tail[5 * (i - 1) + j];
          assert rest[i - 1] == gpus[i];
        }
      }
    }
  }

  /** The fan entries: one "<speed> RPM " per fan, in list order. */
  lemma {:induction false} FanEntriesAre(speeds: seq<int>)
    ensures ReadFanEntries(FanEntries(speeds)) == Some(speeds)
  {
    if speeds != [] {
      var rest := FanEntries(speeds[1..]);
      FanEntriesAre(speeds[1..]);
      ReadIntText(speeds[0], " RPM " + rest);
      Assoc(IntText(speeds[0]), " RPM ", rest);
      AfterPrefix(" RPM ", rest);
      assert [speeds[0]] + speeds[1..] == speeds;
    }
  }

  /** Reads the fan entries back: integers, each followed by " RPM ". */
  function ReadFanEntries(s: string): (r: Option<seq<int>>)
    ensures s == [] ==> r == Some([])
    decreases |s|
  {
    if s == [] then Some([])
    else
      match ReadInt(s)
      case None => None
      case Some((v, rest)) =>
        match After(rest, " RPM ")
        case None => None
        case Some(more) =>
          match ReadFanEntries(more)
          case None => None
          case Some(vs) => Some([v] + vs)
  }

  // ---------------------------------------------------------------------------
  // Reading the numbers back

  /** Reads a display line's value back: its number and its EDID length. */
  function ReadDisplayValue(s: string): Option<(int, int)> {
    match ReadInt(s)
    case None => None
    case Some((index, rest)) =>
      match After(rest, ": EDID Length = ")
      case None => None
      case Some(more) =>
        match ReadInt(more)
        case None => None
        case Some((n, tail)) => if tail == " bytes" then Some((index, n)) else None
  }

  lemma DisplayValueReadsBack(index: int, n: int)
    ensures ReadDisplayValue(DisplayValue(index, n)) == Some((index, n))
  {
    var a, b := IntText(index), IntText(n);
    var sep, unit := ": EDID Length = ", " bytes";
    Assoc(a, sep, b);
    Assoc(a + sep, b, unit);
    Assoc(a, sep + b, unit);
    Assoc(sep, b, unit);
    ReadIntText(index, sep + b + unit);
    AfterPrefix(sep, b + unit);
    ReadIntText(n, unit);
  }

  /** Reads the uptime text back: hours, minutes and seconds. */
  function ReadUptime(s: string): Option<HMS> {
    match ReadInt(s)
    case None => None
    case Some((h, r1)) =>
      match After(r1, " h ")
      case None => None
      case Some(r2) =>
        match ReadInt(r2)
        case None => None
        case Some((m, r3)) =>
          match After(r3, " m ")
          case None => None
          case Some(r4) =>
            match ReadInt(r4)
            case None => None
            case Some((sec, r5)) => if r5 == " s" then Some(HMS(h, m, sec)) else None
  }

  /** The text after the hours: minutes, seconds and their units. */
  lemma MinutesReadBack(t: HMS)
    ensures After(" h " + IntText(t.minutes) + " m " + IntText(t.seconds) + " s", " h ")
         == Some(IntText(t.minutes) + " m " + IntText(t.seconds) + " s")
  {
    var m, sec := IntText(t.minutes), IntText(t.seconds);
    Assoc(" h ", m, " m ");
    Assoc(" h ", m + " m ", sec);
    Assoc(" h ", m + " m " + sec, " s");
    AfterPrefix(" h ", m + " m " + sec + " s");
  }

  lemma SecondsReadBack(t: HMS)
    ensures ReadInt(IntText(t.minutes) + " m " + IntText(t.seconds) + " s") == Some((t.minutes, " m " + IntText(t.seconds) + " s"))
    ensures After(" m " + IntText(t.seconds) + " s", " m ") == Some(IntText(t.seconds) + " s")
    ensures ReadInt(IntText(t.seconds) + " s") == Some((t.seconds, " s"))
  {
    var m, sec := IntText(t.minutes), IntText(t.seconds);
    Assoc(m, " m ", sec);
    Assoc(m + " m ", sec, " s");
    Assoc(m, " m " + sec, " s");
    Assoc(" m ", sec, " s");
    ReadIntText(t.minutes, " m " + sec + " s");
    AfterPrefix(" m ", sec + " s");
    ReadIntText(t.seconds, " s");
  }

  lemma UptimeValueReadsBack(t: HMS)
    ensures ReadUptime(UptimeValue(t)) == Some(t)
  {
    var h, m, sec := IntText(t.hours), IntText(t.minutes), IntText(t.seconds);
    var rest := " h " + m + " m " + sec + " s";
    Assoc(h, " h ", m);
    Assoc(h, " h " + m, " m ");
    Assoc(h, " h " + m + " m ", sec);
    Assoc(h, " h " + m + " m " + sec, " s");
    ReadIntText(t.hours, rest);
    MinutesReadBack(t);
    SecondsReadBack(t);
  }

  // ---------------------------------------------------------------------------
  // The report, section by section

  /** The lines of section `p` of the report. */
  function Section(r: Readings, cpuLoad: real, f: Renderers, p: Part): seq<Line> {
    match p
    case OsPart => OsLines(r)
    case CpuPart => CpuLines(r, cpuLoad, f)
    case MemoryPart => MemoryLines(r, f)
    case DiskPart => DiskSection(f, r.fileStores)
    case SensorPart => SensorLines(r, f)
    case GpuPart => GpuLines(f, r.graphicsCards)
    case DisplayPart => DisplayLines(r.displays, 1)
    case UptimePart => UptimeLines(r.uptimeSeconds)
  }

  /** The section of rank `i`. */
  function PartAt(i: nat): (p: Part)
    requires i < 8
    ensures Rank(p) == i
  {
    if i == 0 then OsPart
    else if i == 1 then CpuPart
    else if i == 2 then MemoryPart
    else if i == 3 then DiskPart
    else if i == 4 then SensorPart
    else if i == 5 then GpuPart
    else if i == 6 then DisplayPart
    else UptimePart
  }

  lemma PartAtRank(p: Part)
    ensures Rank(p) < 8 && PartAt(Rank(p)) == p
  {
  }

  /** The first `n` sections of the report. */
  function Sections(r: Readings, cpuLoad: real, f: Renderers, n: nat): seq<Line>
    requires n <= 8
  {
    if n == 0 then [] else Sections(r, cpuLoad, f, n - 1) + Section(r, cpuLoad, f, PartAt(n - 1))
  }

  lemma ReportSections(r: Readings, cpuLoad: real, f: Renderers)
    ensures Sections(r, cpuLoad, f, 8) == ReportLines(r, cpuLoad, f)
  {
    AppendNil(OsLines(r));
    assert Sections(r, cpuLoad, f, 1) == OsLines(r);
    assert Sections(r, cpuLoad, f, 2) == OsLines(r) + CpuLines(r, cpuLoad, f);
    assert Sections(r, cpuLoad, f, 3) == OsLines(r) + CpuLines(r, cpuLoad, f) + MemoryLines(r, f);
    assert Sections(r, cpuLoad, f, 4) == OsLines(r) + CpuLines(r, cpuLoad, f) + MemoryLines(r, f)
      + DiskSection(f, r.fileStores);
    assert Sections(r, cpuLoad, f, 5) == OsLines(r) + CpuLines(r, cpuLoad, f) + MemoryLines(r, f)
      + DiskSection(f, r.fileStores) + SensorLines(r, f);
    assert Sections(r, cpuLoad, f, 6) == OsLines(r) + CpuLines(r, cpuLoad, f) + MemoryLines(r, f)
      + DiskSection(f, r.fileStores) + SensorLines(r, f) + GpuLines(f, r.graphicsCards);
    assert Sections(r, cpuLoad, f, 7) == OsLines(r) + CpuLines(r, cpuLoad, f) + MemoryLines(r, f)
      + DiskSection(f, r.fileStores) + SensorLines(r, f) + GpuLines(f, r.graphicsCards) + DisplayLines(r.displays, 1);
  }

  lemma {:induction false} GpuLinesWithin(f: Renderers, gpus: seq<GraphicsCard>)
    ensures Within(GpuLines(f, gpus), GpuPart)
  {
    if gpus != [] {
      GpuLinesWithin(f, gpus[1..]);
      WithinAppend(GpuBlock(f, gpus[0]), GpuLines(f, gpus[1..]), GpuPart);
    }
  }

  lemma DiskSectionWithin(f: Renderers, stores: seq<FileStore>)
    ensures Within(DiskSection(f, stores), DiskPart)
  {
    DiskLinesAre(f, stores);
    WithinAppend(DiskLines(f, stores), [Blank], DiskPart);
  }

  /** A line belongs to section `p` when it is blank or carries one of its labels. */
  predicate Belongs(x: Line, p: Part) {
    x.Field? ==> PartOf(x.kind) == p
  }

  lemma WithinTwo(a: Line, b: Line, p: Part)
    requires Belongs(a, p) && Belongs(b, p)
    ensures Within([a, b], p)
  {
  }

  lemma WithinThree(a: Line, b: Line, c: Line, p: Part)
    requires Belongs(a, p) && Belongs(b, p) && Belongs(c, p)
    ensures Within([a, b, c], p)
  {
  }

  lemma WithinFour(a: Line, b: Line, c: Line, d: Line, p: Part)
    requires Belongs(a, p) && Belongs(b, p) && Belongs(c, p) && Belongs(d, p)
    ensures Within([a, b, c, d], p)
  {
  }

  lemma WithinFive(a: Line, b: Line, c: Line, d: Line, e: Line, p: Part)
    requires Belongs(a, p) && Belongs(b, p) && Belongs(c, p) && Belongs(d, p) && Belongs(e, p)
    ensures Within([a, b, c, d, e], p)
  {
  }

  lemma {:induction false} NumberedWithin<X>(xs: seq<X>, first: int, line: (int, X) -> Line, p: Part)
    requires forall n, x :: Belongs(line(n, x), p)
    ensures Within(Numbered(xs, first, line), p)
  {
    if xs != [] {
      NumberedWithin(xs[1..], first + 1, line, p);
      WithinAppend([line(first, xs[0])], Numbered(xs[1..], first + 1, line), p);
    }
  }

  lemma DisplayLinesWithin(displays: seq<Display>, first: int)
    ensures Within(DisplayLines(displays, first), DisplayPart)
  {
    forall n, d: Display
      ensures Belongs(DisplayLine(n, d), DisplayPart)
    {
      assert DisplayLine(n, d).kind == DisplayEdid;
    }
    NumberedWithin(displays, first, DisplayLine, DisplayPart);
  }

  lemma OsWithin(r: Readings)
    ensures Within(OsLines(r), OsPart)
  {
    WithinTwo(Field(OperatingSystem, r.os), Blank, OsPart);
  }

  lemma CpuWithin(r: Readings, cpuLoad: real, f: Renderers)
    ensures Within(CpuLines(r, cpuLoad, f), CpuPart)
  {
    WithinFive(Field(CpuName, r.cpuName),
      Field(PhysicalCores, IntText(r.physicalCores)),
      Field(LogicalCores, IntText(r.logicalCores)),
      Field(CpuLoad, f.decimal(cpuLoad * 100.0) + "%"),
      Blank, CpuPart);
  }

  lemma MemoryWithin(r: Readings, f: Renderers)
    ensures Within(MemoryLines(r, f), MemoryPart)
  {
    WithinThree(Field(MemoryTotal, FormatBytes(f, r.memoryTotal)),
      Field(MemoryAvailable, FormatBytes(f, r.memoryAvailable)),
      Blank, MemoryPart);
  }

  lemma SensorWithin(r: Readings, f: Renderers)
    ensures Within(SensorLines(r, f), SensorPart)
  {
    WithinFour(Field(CpuTemperature, f.decimal(r.cpuTemperature) + " °C"),
      Field(FanSpeeds, FanEntries(r.fanSpeeds)),
      Field(BatteryVoltage, f.doubleText(r.cpuVoltage) + " V"),
      Blank, SensorPart);
  }

  lemma UptimeWithin(u: int)
    ensures Within(UptimeLines(u), UptimePart)
  {
    WithinTwo(Blank, Field(SystemUptime, UptimeValue(Split(u))), UptimePart);
  }

  /** Every labelled line of a section has a label of that section. */
  lemma SectionWithin(r: Readings, cpuLoad: real, f: Renderers, p: Part)
    ensures Within(Section(r, cpuLoad, f, p), p)
  {
    match p
    case OsPart => OsWithin(r);
    case CpuPart => CpuWithin(r, cpuLoad, f);
    case MemoryPart => MemoryWithin(r, f);
    case DiskPart => DiskSectionWithin(f, r.fileStores);
    case SensorPart => SensorWithin(r, f);
    case GpuPart => GpuLinesWithin(f, r.graphicsCards);
    case DisplayPart => DisplayLinesWithin(r.displays, 1);
    case UptimePart => UptimeWithin(r.uptimeSeconds);
  }

  lemma {:induction false} SectionsInOrder(r: Readings, cpuLoad: real, f: Renderers, n: nat)
    requires n <= 8
    ensures InSectionOrder(Sections(r, cpuLoad, f, n)) && RanksBelow(Sections(r, cpuLoad, f, n), n)
  {
    if n > 0 {
      var p := PartAt(n - 1);
      SectionsInOrder(r, cpuLoad, f, n - 1);
      SectionWithin(r, cpuLoad, f, p);
      AppendSection(Sections(r, cpuLoad, f, n - 1), Section(r, cpuLoad, f, p), p);
    }
  }

  /** The report's labelled lines come section by section, in the order updateStats appends them. */
  lemma ReportInSectionOrder(r: Readings, cpuLoad: real, f: Renderers)
    ensures InSectionOrder(ReportLines(r, cpuLoad, f))
  {
    ReportSections(r, cpuLoad, f);
    SectionsInOrder(r, cpuLoad, f, 8);
  }

  lemma {:induction false} ValuesOfSections(r: Readings, cpuLoad: real, f: Renderers, n: nat, k: Label)
    requires n <= 8
    ensures Values(Sections(r, cpuLoad, f, n), k)
         == if Rank(PartOf(k)) < n then Values(Section(r, cpuLoad, f, PartOf(k)), k) else []
  {
    if n > 0 {
      var a, p := Sections(r, cpuLoad, f, n - 1), PartAt(n - 1);
      ValuesOfSections(r, cpuLoad, f, n - 1, k);
      ValuesAppend(a, Section(r, cpuLoad, f, p), k);
      PartAtRank(PartOf(k));
      if Rank(PartOf(k)) == n - 1 {
        AppendNil(Values(Section(r, cpuLoad, f, p), k));
      } else {
        SectionWithin(r, cpuLoad, f, p);
        ValuesNone(Section(r, cpuLoad, f, p), k);
        AppendNil(Values(a, k));
      }
    }
  }

  /** Every value the report shows under a label comes from that label's own section. */
  lemma ValuesInReport(r: Readings, cpuLoad: real, f: Renderers, k: Label)
    ensures Values(ReportLines(r, cpuLoad, f), k) == Values(Section(r, cpuLoad, f, PartOf(k)), k)
  {
    ReportSections(r, cpuLoad, f);
    ValuesOfSections(r, cpuLoad, f, 8, k);
    PartAtRank(PartOf(k));
  }

  // ---------------------------------------------------------------------------
  // What the report shows

  /** The report has one line per file store, five per graphics card and one per display, plus 17 fixed lines. */
  lemma ReportLength(r: Readings, cpuLoad: real, f: Renderers)
    ensures |ReportLines(r, cpuLoad, f)| == 17 + |r.fileStores| + 5 * |r.graphicsCards| + |r.displays|
  {
    DiskLinesAre(f, r.fileStores);
    GpuLinesAre(f, r.graphicsCards);
    DisplayLinesAre(r.displays, 1);
  }

  /** The operating system is shown once. */
  lemma OsInReport(r: Readings, cpuLoad: real, f: Renderers)
    ensures Values(ReportLines(r, cpuLoad, f), OperatingSystem) == [r.os]
  {
    ValuesInReport(r, cpuLoad, f, OperatingSystem);
    ValuesOfOne(OsLines(r), OperatingSystem, 0);
  }

  lemma ValuesTwo(a: Line, b: Line, k: Label)
    ensures Values([a, b], k) == Shown(a, k) + Shown(b, k)
  {
    assert [a, b][1..] == [b];
    Singleton(b);
    AppendNil(Shown(b, k));
  }

  lemma ValuesThree(a: Line, b: Line, c: Line, k: Label)
    ensures Values([a, b, c], k) == Shown(a, k) + Shown(b, k) + Shown(c, k)
  {
    assert [a, b, c][1..] == [b, c];
    ValuesTwo(b, c, k);
    Assoc(Shown(a, k), Shown(b, k), Shown(c, k));
  }

  lemma ValuesFour(a: Line, b: Line, c: Line, d: Line, k: Label)
    ensures Values([a, b, c, d], k) == Shown(a, k) + Shown(b, k) + Shown(c, k) + Shown(d, k)
  {
    assert [a, b, c, d][1..] == [b, c, d];
    ValuesThree(b, c, d, k);
    Assoc(Shown(a, k), Shown(b, k) + Shown(c, k), Shown(d, k));
    Assoc(Shown(a, k), Shown(b, k), Shown(c, k));
  }

  lemma ValuesFive(a: Line, b: Line, c: Line, d: Line, e: Line, k: Label)
    ensures Values([a, b, c, d, e], k) == Shown(a, k) + Shown(b, k) + Shown(c, k) + Shown(d, k) + Shown(e, k)
  {
    assert [a, b, c, d, e][1..] == [b, c, d, e];
    ValuesFour(b, c, d, e, k);
    Assoc(Shown(a, k), Shown(b, k) + Shown(c, k) + Shown(d, k), Shown(e, k));
    Assoc(Shown(a, k), Shown(b, k) + Shown(c, k), Shown(d, k));
    Assoc(Shown(a, k), Shown(b, k), Shown(c, k));
  }

  /** The values of the processor section, one under each of its labels. */
  lemma CpuValues(r: Readings, cpuLoad: real, f: Renderers)
    ensures Values(CpuLines(r, cpuLoad, f), CpuName) == [r.cpuName]
    ensures Values(CpuLines(r, cpuLoad, f), PhysicalCores) == [IntText(r.physicalCores)]
    ensures Values(CpuLines(r, cpuLoad, f), LogicalCores) == [IntText(r.logicalCores)]
    ensures Values(CpuLines(r, cpuLoad, f), CpuLoad) == [f.decimal(cpuLoad * 100.0) + "%"]
  {
    var load := f.decimal(cpuLoad * 100.0) + "%";
    var a, b, c, d := Field(CpuName, r.cpuName), Field(PhysicalCores, IntText(r.physicalCores)),
      Field(LogicalCores, IntText(r.logicalCores)), Field(CpuLoad, load);
    ValuesFive(a, b, c, d, Blank, CpuName);
    ValuesFive(a, b, c, d, Blank, PhysicalCores);
    ValuesFive(a, b, c, d, Blank, LogicalCores);
    ValuesFive(a, b, c, d, Blank, CpuLoad);
    AppendNil([r.cpuName]);
    AppendNil([IntText(r.physicalCores)]);
    AppendNil([IntText(r.logicalCores)]);
    AppendNil([load]);
  }

  /** The processor's name, its core counts and its load are each shown once. */
  lemma CpuInReport(r: Readings, cpuLoad: real, f: Renderers)
    ensures Values(ReportLines(r, cpuLoad, f), CpuName) == [r.cpuName]
    ensures Values(ReportLines(r, cpuLoad, f), PhysicalCores) == [IntText(r.physicalCores)]
    ensures Values(ReportLines(r, cpuLoad, f), LogicalCores) == [IntText(r.logicalCores)]
    ensures Values(ReportLines(r, cpuLoad, f), CpuLoad) == [f.decimal(cpuLoad * 100.0) + "%"]
  {
    assert PartOf(CpuName) == CpuPart && PartOf(PhysicalCores) == CpuPart;
    assert PartOf(LogicalCores) == CpuPart && PartOf(CpuLoad) == CpuPart;
    assert Section(r, cpuLoad, f, CpuPart) == CpuLines(r, cpuLoad, f);
    CpuValues(r, cpuLoad, f);
    ValuesInReport(r, cpuLoad, f, CpuName);
    ValuesInReport(r, cpuLoad, f, PhysicalCores);
    ValuesInReport(r, cpuLoad, f, LogicalCores);
    ValuesInReport(r, cpuLoad, f, CpuLoad);
  }

  lemma MemoryValues(r: Readings, f: Renderers)
    ensures Values(MemoryLines(r, f), MemoryTotal) == [FormatBytes(f, r.memoryTotal)]
    ensures Values(MemoryLines(r, f), MemoryAvailable) == [FormatBytes(f, r.memoryAvailable)]
  {
    var total, available := FormatBytes(f, r.memoryTotal), FormatBytes(f, r.memoryAvailable);
    ValuesThree(Field(MemoryTotal, total), Field(MemoryAvailable, available), Blank, MemoryTotal);
    ValuesThree(Field(MemoryTotal, total), Field(MemoryAvailable, available), Blank, MemoryAvailable);
    AppendNil([total]);
    AppendNil([available]);
  }

  /** Total and available memory are each shown once, in gigabytes. */
  lemma MemoryInReport(r: Readings, cpuLoad: real, f: Renderers)
    ensures Values(ReportLines(r, cpuLoad, f), MemoryTotal) == [FormatBytes(f, r.memoryTotal)]
    ensures Values(ReportLines(r, cpuLoad, f), MemoryAvailable) == [FormatBytes(f, r.memoryAvailable)]
  {
    assert PartOf(MemoryTotal) == MemoryPart && PartOf(MemoryAvailable) == MemoryPart;
    assert Section(r, cpuLoad, f, MemoryPart) == MemoryLines(r, f);
    MemoryValues(r, f);
    ValuesInReport(r, cpuLoad, f, MemoryTotal);
    ValuesInReport(r, cpuLoad, f, MemoryAvailable);
  }

  lemma SensorValues(r: Readings, f: Renderers)
    ensures Values(SensorLines(r, f), CpuTemperature) == [f.decimal(r.cpuTemperature) + " °C"]
    ensures Values(SensorLines(r, f), FanSpeeds) == [FanEntries(r.fanSpeeds)]
    ensures Values(SensorLines(r, f), BatteryVoltage) == [f.doubleText(r.cpuVoltage) + " V"]
  {
    var t, v := f.decimal(r.cpuTemperature) + " °C", f.doubleText(r.cpuVoltage) + " V";
    var a, b, c := Field(CpuTemperature, t), Field(FanSpeeds, FanEntries(r.fanSpeeds)), Field(BatteryVoltage, v);
    ValuesFour(a, b, c, Blank, CpuTemperature);
    ValuesFour(a, b, c, Blank, FanSpeeds);
    ValuesFour(a, b, c, Blank, BatteryVoltage);
    AppendNil([t]);
    AppendNil([FanEntries(r.fanSpeeds)]);
    AppendNil([v]);
  }

  /**
   * The temperature and the voltage are each shown once, and so is the fan line,
   * which reads back as the fan speeds, one entry per fan in order.
   */
  lemma SensorsInReport(r: Readings, cpuLoad: real, f: Renderers)
    ensures Values(ReportLines(r, cpuLoad, f), CpuTemperature) == [f.decimal(r.cpuTemperature) + " °C"]
    ensures Values(ReportLines(r, cpuLoad, f), BatteryVoltage) == [f.doubleText(r.cpuVoltage) + " V"]
    ensures |Values(ReportLines(r, cpuLoad, f), FanSpeeds)| == 1
    ensures ReadFanEntries(Values(ReportLines(r, cpuLoad, f), FanSpeeds)[0]) == Some(r.fanSpeeds)
  {
    assert PartOf(CpuTemperature) == SensorPart && PartOf(FanSpeeds) == SensorPart && PartOf(BatteryVoltage) == SensorPart;
    assert Section(r, cpuLoad, f, SensorPart) == SensorLines(r, f);
    SensorValues(r, f);
    FanEntriesAre(r.fanSpeeds);
    ValuesInReport(r, cpuLoad, f, CpuTemperature);
    ValuesInReport(r, cpuLoad, f, FanSpeeds);
    ValuesInReport(r, cpuLoad, f, BatteryVoltage);
  }

  lemma UptimeValues(u: int)
    ensures Values(UptimeLines(u), SystemUptime) == [UptimeValue(Split(u))]
  {
    var b := Field(SystemUptime, UptimeValue(Split(u)));
    ValuesTwo(Blank, b, SystemUptime);
    assert Shown(Blank, SystemUptime) == [];
    AppendNil([b.value]);
  }

  /**
   * The uptime is shown once, on the last line, and reads back as hours,
   * minutes and seconds that add up to the uptime; for a non-negative uptime
   * the minutes and seconds are below 60.
   */
  lemma UptimeInReport(r: Readings, cpuLoad: real, f: Renderers)
    ensures |Values(ReportLines(r, cpuLoad, f), SystemUptime)| == 1
    ensures ReportLines(r, cpuLoad, f)[|ReportLines(r, cpuLoad, f)| - 1]
         == Field(SystemUptime, Values(ReportLines(r, cpuLoad, f), SystemUptime)[0])
    ensures ReadUptime(Values(ReportLines(r, cpuLoad, f), SystemUptime)[0]).Some?
    ensures var t := ReadUptime(Values(ReportLines(r, cpuLoad, f), SystemUptime)[0]).value;
      t.hours * 3600 + t.minutes * 60 + t.seconds == r.uptimeSeconds
      && (r.uptimeSeconds >= 0 ==> 0 <= t.minutes < 60 && 0 <= t.seconds < 60)
  {
    var u := r.uptimeSeconds;
    assert PartOf(SystemUptime) == UptimePart;
    assert Section(r, cpuLoad, f, UptimePart) == UptimeLines(u);
    UptimeValues(u);
    ValuesInReport(r, cpuLoad, f, SystemUptime);
    UptimeValueReadsBack(Split(u));
    SplitReconstructs(u);
    if u >= 0 {
      SplitBounds(u);
    }
  }

  lemma DiskValues(f: Renderers, stores: seq<FileStore>)
    ensures |Values(DiskSection(f, stores), Disk)| == |stores|
    ensures forall i :: 0 <= i < |stores| ==>
      Values(DiskSection(f, stores), Disk)[i]
        == stores[i].mount + " - " + FormatBytes(f, stores[i].usableSpace) + " / " + FormatBytes(f, stores[i].totalSpace)
  {
    var lines := DiskLines(f, stores);
    ValuesAppend(lines, [Blank], Disk);
    ValuesNone([Blank], Disk);
    AppendNil(Values(lines, Disk));
    DiskLinesAre(f, stores);
    ValuesOfLabelled(lines, Disk);
  }

  /** One value per file store, in list order, each showing mount point, usable space and total space. */
  lemma DisksInReport(r: Readings, cpuLoad: real, f: Renderers)
    ensures |Values(ReportLines(r, cpuLoad, f), Disk)| == |r.fileStores|
    ensures forall i :: 0 <= i < |r.fileStores| ==>
      Values(ReportLines(r, cpuLoad, f), Disk)[i]
        == r.fileStores[i].mount + " - " + FormatBytes(f, r.fileStores[i].usableSpace)
           + " / " + FormatBytes(f, r.fileStores[i].totalSpace)
  {
    assert PartOf(Disk) == DiskPart;
    assert Section(r, cpuLoad, f, DiskPart) == DiskSection(f, r.fileStores);
    DiskValues(f, r.fileStores);
    ValuesInReport(r, cpuLoad, f, Disk);
  }

  lemma DisplayValues(displays: seq<Display>)
    ensures |Values(DisplayLines(displays, 1), DisplayEdid)| == |displays|
    ensures forall i :: 0 <= i < |displays| ==>
      ReadDisplayValue(Values(DisplayLines(displays, 1), DisplayEdid)[i])
        == Some((i + 1, if displays[i].edid.None? then 0 else |displays[i].edid.value|))
  {
    var vs := Values(DisplayLines(displays, 1), DisplayEdid);
    assert |vs| == |displays| && forall i :: 0 <= i < |displays| ==> vs[i] == DisplayValue(1 + i, EdidLength(displays[i])) by {
      DisplayLinesAre(displays, 1);
      ValuesOfLabelled(DisplayLines(displays, 1), DisplayEdid);
    }
    forall i | 0 <= i < |displays|
      ensures ReadDisplayValue(vs[i]) == Some((i + 1, if displays[i].edid.None? then 0 else |displays[i].edid.value|))
    {
      DisplayValueReadsBack(1 + i, EdidLength(displays[i]));
    }
  }

  /**
   * One value per display, in list order, numbered from 1, each showing the
   * length of the display's EDID, or 0 when it has none.
   */
  lemma DisplaysInReport(r: Readings, cpuLoad: real, f: Renderers)
    ensures |Values(ReportLines(r, cpuLoad, f), DisplayEdid)| == |r.displays|
    ensures forall i :: 0 <= i < |r.displays| ==>
      ReadDisplayValue(Values(ReportLines(r, cpuLoad, f), DisplayEdid)[i])
        == Some((i + 1, if r.displays[i].edid.None? then 0 else |r.displays[i].edid.value|))
  {
    assert PartOf(DisplayEdid) == DisplayPart;
    assert Section(r, cpuLoad, f, DisplayPart) == DisplayLines(r.displays, 1);
    DisplayValues(r.displays);
    ValuesInReport(r, cpuLoad, f, DisplayEdid);
  }

  /** Prepending the first element's image to the images of the rest gives the images of all. */
  lemma ConsValues<X>(head: string, tail: seq<string>, xs: seq<X>, image: X -> string)
    requires xs != [] && head == image(xs[0])
    requires |tail| == |xs| - 1 && forall i :: 0 <= i < |tail| ==> tail[i] == image(xs[i + 1])
    ensures |[head] + tail| == |xs|
    ensures forall i :: 0 <= i < |xs| ==> ([head] + tail)[i] == image(xs[i])
  {
    forall i | 0 <= i < |xs|
      ensures ([head] + tail)[i] == image(xs[i])
    {
      if i > 0 {
        assert ([head] + tail)[i] == tail[i - 1];
      }
    }
  }

  /** The value a graphics card shows under one of the four labels of its block. */
  function GpuField(f: Renderers, g: GraphicsCard, k: Label): string {
    match k
    case GpuName => g.name
    case GpuVendor => g.vendor
    case GpuVersion => g.versionInfo
    case _ => FormatBytes(f, g.vRam)
  }

  predicate IsGpuLabel(k: Label) {
    k == GpuName || k == GpuVendor || k == GpuVersion || k == GpuVRam
  }

  lemma BlockValues(f: Renderers, g: GraphicsCard, k: Label)
    requires IsGpuLabel(k)
    ensures Values(GpuBlock(f, g), k) == [GpuField(f, g, k)]
  {
    ValuesFive(Field(GpuName, g.name), Field(GpuVendor, g.vendor), Field(GpuVersion, g.versionInfo),
      Field(GpuVRam, FormatBytes(f, g.vRam)), Blank, k);
    AppendNil([GpuField(f, g, k)]);
  }

  lemma {:induction false} GpuValues(f: Renderers, gpus: seq<GraphicsCard>, k: Label)
    requires IsGpuLabel(k)
    ensures |Values(GpuLines(f, gpus), k)| == |gpus|
    ensures forall i :: 0 <= i < |gpus| ==> Values(GpuLines(f, gpus), k)[i] == GpuField(f, gpus[i], k)
  {
    if gpus != [] {
      var rest := gpus[1..];
      var head, tail := GpuField(f, gpus[0], k), Values(GpuLines(f, rest), k);
      assert Values(GpuLines(f, gpus), k) == [head] + tail by {
        BlockValues(f, gpus[0], k);
        ValuesAppend(GpuBlock(f, gpus[0]), GpuLines(f, rest), k);
      }
      GpuValues(f, rest, k);
      ConsValues(head, tail, gpus, (g: GraphicsCard) => GpuField(f, g, k));
    }
  }

  /**
   * Under each of the four labels of a graphics card block the report shows one
   * value per card, card by card in list order: its name, its vendor, its
   * version text or its video memory in gigabytes.
   */
  lemma GpusInReport(r: Readings, cpuLoad: real, f: Renderers, k: Label)
    requires IsGpuLabel(k)
    ensures |Values(ReportLines(r, cpuLoad, f), k)| == |r.graphicsCards|
    ensures forall i :: 0 <= i < |r.graphicsCards| ==>
      Values(ReportLines(r, cpuLoad, f), k)[i] == GpuField(f, r.graphicsCards[i], k)
  {
    assert PartOf(k) == GpuPart;
    assert Section(r, cpuLoad, f, GpuPart) == GpuLines(f, r.graphicsCards);
    GpuValues(f, r.graphicsCards, k);
    ValuesInReport(r, cpuLoad, f, k);
  }
}
