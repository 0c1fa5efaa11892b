/**
 * The text that updateStats writes into the window on every refresh: a fixed
 * layout of the readings of one cycle, one line after another, each line
 * ended by a newline.
 *
 * `ReportLines` is the layout as a list of labelled lines and `Text` is the
 * string those lines make.  The lemmas state the layout's properties: the
 * fixed section order, one disk line per file store, numbered display lines,
 * the fan-speed entries, four lines per graphics card and an uptime line that
 * reads back as the uptime.
 */
module Layout {
  import opened JavaText
  import opened Uptime
  import opened Seqs

  // ---------------------------------------------------------------------------
  // The readings of one cycle, as the hardware library reports them

  /** A mounted file store: its mount point, usable and total space in bytes. */
  datatype FileStore = FileStore(mount: string, usableSpace: int, totalSpace: int)

  /** A graphics card: name, vendor, version text and video memory in bytes. */
  datatype GraphicsCard = GraphicsCard(name: string, vendor: string, versionInfo: string, vRam: int)

  /** A display and its EDID block, which the library may return as null. */
  datatype Display = Display(edid: Option<seq<byte>>)

  /** Everything one refresh reads, apart from the CPU ticks. */
  datatype Readings = Readings(
    os: string,
    cpuName: string,
    physicalCores: int,
    logicalCores: int,
    memoryTotal: int,
    memoryAvailable: int,
    fileStores: seq<FileStore>,
    cpuTemperature: real,
    fanSpeeds: seq<int>,
    cpuVoltage: real,
    graphicsCards: seq<GraphicsCard>,
    displays: seq<Display>,
    uptimeSeconds: int)

  /**
   * The renderings of non-integral numbers, which the model leaves open:
   * `decimal` is the monitor's DecimalFormat("0.00"), and `doubleText` is
   * what StringBuilder.append(double) writes.
   */
  datatype Renderers = Renderers(decimal: real -> string, doubleText: real -> string)

  // ---------------------------------------------------------------------------
  // Number formatting

  const BytesPerGB: real := 1073741824.0

  /** The byte count in gigabytes (1024^3 bytes), the value formatBytes renders. */
  function GigaBytes(bytes: int): real {
    bytes as real / BytesPerGB
  }

  /** formatBytes: always gigabytes with two decimals, for every size. */
  function FormatBytes(f: Renderers, bytes: int): string {
    f.decimal(GigaBytes(bytes)) + " GB"
  }

  /** The length shown for a display's EDID: 0 when there is none. */
  function EdidLength(d: Display): nat {
    if d.edid.Some? then |d.edid.value| else 0
  }

  // ---------------------------------------------------------------------------
  // Lines and the text they make

  /** The fixed text at the start of each non-blank line. */
  datatype Label =
    | OperatingSystem | CpuName | PhysicalCores | LogicalCores | CpuLoad
    | MemoryTotal | MemoryAvailable
    | Disk
    | CpuTemperature | FanSpeeds | BatteryVoltage
    | GpuName | GpuVendor | GpuVersion | GpuVRam
    | DisplayEdid
    | SystemUptime

  function LabelText(l: Label): string {
    match l
    case OperatingSystem => "Operating System: "
    case CpuName => "CPU: "
    case PhysicalCores => "Physical Cores: "
    case LogicalCores => "Logical Cores: "
    case CpuLoad => "CPU Load: "
    case MemoryTotal => "Memory Total: "
    case MemoryAvailable => "Memory Available: "
    case Disk => "Disk: "
    case CpuTemperature => "CPU Temperature: "
    case FanSpeeds => "Fan Speeds: "
    case BatteryVoltage => "Battery Voltage: "
    case GpuName => "GPU: "
    case GpuVendor => "Vendor: "
    case GpuVersion => "Version: "
    case GpuVRam => "VRAM: "
    case DisplayEdid => "Display "
    case SystemUptime => "System Uptime: "
  }

  datatype Line = Blank | Field(kind: Label, value: string)

  function Render(line: Line): string {
    match line
    case Blank => ""
    case Field(l, v) => LabelText(l) + v
  }

  /** The text of a list of lines, each followed by a newline. */
  function Text(lines: seq<Line>): string {
    if lines == [] then "" else Render(lines[0]) + "\n" + Text(lines[1..])
  }

  lemma {:induction false} TextAppend(a: seq<Line>, b: seq<Line>)
    ensures Text(a + b) == Text(a) + Text(b)
  {
    if a == [] {
      AppendNil(b);
      AppendNil(Text(b));
    } else {
      AppendTail(a, b);
      TextAppend(a[1..], b);
      Assoc(Render(a[0]) + "\n", Text(a[1..]), Text(b));
    }
  }

  lemma TextSingle(x: Line)
    ensures Text([x]) == Render(x) + "\n"
  {
    Singleton(x);
    AppendNil(Render(x) + "\n");
  }

  // ---------------------------------------------------------------------------
  // The layout

  function OsLines(r: Readings): seq<Line> {
    [Field(OperatingSystem, r.os), Blank]
  }

  function CpuLines(r: Readings, cpuLoad: real, f: Renderers): seq<Line> {
    [Field(CpuName, r.cpuName),
     Field(PhysicalCores, IntText(r.physicalCores)),
     Field(LogicalCores, IntText(r.logicalCores)),
     Field(CpuLoad, f.decimal(cpuLoad * 100.0) + "%"),
     Blank]
  }

  function MemoryLines(r: Readings, f: Renderers): seq<Line> {
    [Field(MemoryTotal, FormatBytes(f, r.memoryTotal)),
     Field(MemoryAvailable, FormatBytes(f, r.memoryAvailable)),
     Blank]
  }

  function DiskLine(f: Renderers, fs: FileStore): Line {
    Field(Disk, fs.mount + " - " + FormatBytes(f, fs.usableSpace) + " / " + FormatBytes(f, fs.totalSpace))
  }

  function DiskLines(f: Renderers, stores: seq<FileStore>): seq<Line> {
    if stores == [] then [] else [DiskLine(f, stores[0])] + DiskLines(f, stores[1..])
  }

  /** The disk lines and the blank line after them. */
  function DiskSection(f: Renderers, stores: seq<FileStore>): seq<Line> {
    DiskLines(f, stores) + [Blank]
  }

  /** One entry per fan: its speed and " RPM ". */
  function FanEntries(speeds: seq<int>): string {
    if speeds == [] then "" else IntText(speeds[0]) + " RPM " + FanEntries(speeds[1..])
  }

  function SensorLines(r: Readings, f: Renderers): seq<Line> {
    [Field(CpuTemperature, f.decimal(r.cpuTemperature) + " °C"),
     Field(FanSpeeds, FanEntries(r.fanSpeeds)),
     Field(BatteryVoltage, f.doubleText(r.cpuVoltage) + " V"),
     Blank]
  }

  function GpuBlock(f: Renderers, g: GraphicsCard): seq<Line> {
    [Field(GpuName, g.name),
     Field(GpuVendor, g.vendor),
     Field(GpuVersion, g.versionInfo),
     Field(GpuVRam, FormatBytes(f, g.vRam)),
     Blank]
  }

  function GpuLines(f: Renderers, gpus: seq<GraphicsCard>): seq<Line> {
    if gpus == [] then [] else GpuBlock(f, gpus[0]) + GpuLines(f, gpus[1..])
  }

  function DisplayValue(index: int, edidLength: int): string {
    IntText(index) + ": EDID Length = " + IntText(edidLength) + " bytes"
  }

  /** One line per element of `xs`, made by `line` from its number, counting from `first`, and the element. */
  function Numbered<X>(xs: seq<X>, first: int, line: (int, X) -> Line): seq<Line> {
    if xs == [] then [] else [line(first, xs[0])] + Numbered(xs[1..], first + 1, line)
  }

  function DisplayLine(index: int, d: Display): Line {
    Field(DisplayEdid, DisplayValue(index, EdidLength(d)))
  }

  /** The display lines, numbered from `first` on. */
  function DisplayLines(displays: seq<Display>, first: int): seq<Line> {
    Numbered(displays, first, DisplayLine)
  }

  function UptimeValue(t: HMS): string {
    IntText(t.hours) + " h " + IntText(t.minutes) + " m " + IntText(t.seconds) + " s"
  }

  function UptimeLines(u: int): seq<Line> {
    [Blank, Field(SystemUptime, UptimeValue(Split(u)))]
  }

  /** The lines of one refresh, for the readings and the CPU load of that cycle. */
  function ReportLines(r: Readings, cpuLoad: real, f: Renderers): seq<Line> {
    OsLines(r) + CpuLines(r, cpuLoad, f) + MemoryLines(r, f)
    + DiskSection(f, r.fileStores)
    + SensorLines(r, f)
    + GpuLines(f, r.graphicsCards)
    + DisplayLines(r.displays, 1)
    + UptimeLines(r.uptimeSeconds)
  }

  // ---------------------------------------------------------------------------
  // The list sections grow by one entry per element

  lemma {:induction false} DiskLinesSnoc(f: Renderers, stores: seq<FileStore>, fs: FileStore)
    ensures DiskLines(f, stores + [fs]) == DiskLines(f, stores) + [DiskLine(f, fs)]
  {
    if stores == [] {
      AppendNil([fs]);
      Singleton(fs);
      AppendNil([DiskLine(f, fs)]);
    } else {
      SnocTail(stores, fs);
      DiskLinesSnoc(f, stores[1..], fs);
      Assoc([DiskLine(f, stores[0])], DiskLines(f, stores[1..]), [DiskLine(f, fs)]);
    }
  }

  lemma {:induction false} FanEntriesSnoc(speeds: seq<int>, s: int)
    ensures FanEntries(speeds + [s]) == FanEntries(speeds) + (IntText(s) + " RPM ")
  {
    if speeds == [] {
      AppendNil([s]);
      Singleton(s);
      AppendNil(IntText(s) + " RPM ");
    } else {
      SnocTail(speeds, s);
      FanEntriesSnoc(speeds[1..], s);
      Assoc(IntText(speeds[0]) + " RPM ", FanEntries(speeds[1..]), IntText(s) + " RPM ");
    }
  }

  lemma {:induction false} GpuLinesSnoc(f: Renderers, gpus: seq<GraphicsCard>, g: GraphicsCard)
    ensures GpuLines(f, gpus + [g]) == GpuLines(f, gpus) + GpuBlock(f, g)
  {
    if gpus == [] {
      AppendNil([g]);
      Singleton(g);
      AppendNil(GpuBlock(f, g));
    } else {
      SnocTail(gpus, g);
      GpuLinesSnoc(f, gpus[1..], g);
      Assoc(GpuBlock(f, gpus[0]), GpuLines(f, gpus[1..]), GpuBlock(f, g));
    }
  }

  lemma {:induction false} NumberedSnoc<X>(xs: seq<X>, x: X, first: int, line: (int, X) -> Line)
    ensures Numbered(xs + [x], first, line) == Numbered(xs, first, line) + [line(first + |xs|, x)]
  {
    if xs == [] {
      AppendNil([x]);
      Singleton(x);
      AppendNil([line(first, x)]);
    } else {
      SnocTail(xs, x);
      NumberedSnoc(xs[1..], x, first + 1, line);
      assert first + 1 + |xs[1..]| == first + |xs|;
      Assoc([line(first, xs[0])], Numbered(xs[1..], first + 1, line), [line(first + |xs|, x)]);
    }
  }

  lemma DisplayLinesSnoc(displays: seq<Display>, d: Display, first: int)
    ensures DisplayLines(displays + [d], first)
         == DisplayLines(displays, first) + [Field(DisplayEdid, DisplayValue(first + |displays|, EdidLength(d)))]
  {
    NumberedSnoc(displays, d, first, DisplayLine);
  }
}
