/**
 * The StringBuilder of updateStats.  Each section of the report is appended
 * by its own method, piece by piece and in loops as the source appends it,
 * and each method is proved to append exactly the text of that section's
 * lines; `BuildReport` runs them in the source's order and so builds
 * `Text(ReportLines(..))`.
 */
module Builder {
  import opened JavaText
  import opened Uptime
  import opened Seqs
  import opened Layout

  // ---------------------------------------------------------------------------
  // Appending one line

  /**
   * A builder that holds the text of `lines` after `sb0` holds the text of one
   * more line once that line and its newline are appended.
   */
  lemma AppendLine(sb: string, sb0: string, lines: seq<Line>, x: Line)
    requires sb == sb0 + Text(lines)
    ensures sb + (Render(x) + "\n") == sb0 + Text(lines + [x])
  {
    TextAppend(lines, [x]);
    TextSingle(x);
    Assoc(sb0, Text(lines), Render(x) + "\n");
  }

  lemma AppendField(sb: string, sb0: string, lines: seq<Line>, k: Label, v: string)
    requires sb == sb0 + Text(lines)
    ensures sb + LabelText(k) + v + "\n" == sb0 + Text(lines + [Field(k, v)])
  {
    AppendLine(sb, sb0, lines, Field(k, v));
    Assoc(sb, LabelText(k), v);
    Assoc(sb, LabelText(k) + v, "\n");
  }

  lemma AppendBlank(sb: string, sb0: string, lines: seq<Line>)
    requires sb == sb0 + Text(lines)
    ensures sb + "\n" == sb0 + Text(lines + [Blank])
  {
    AppendLine(sb, sb0, lines, Blank);
    AppendNil("\n");
  }

  /** A line and the blank line after it, appended with one "\n\n". */
  lemma AppendFieldAndBlank(sb: string, sb0: string, lines: seq<Line>, k: Label, v: string)
    requires sb == sb0 + Text(lines)
    ensures sb + LabelText(k) + v + "\n\n" == sb0 + Text(lines + [Field(k, v), Blank])
  {
    var s := sb + LabelText(k) + v;
    AppendField(sb, sb0, lines, k, v);
    AppendBlank(s + "\n", sb0, lines + [Field(k, v)]);
    assert "\n\n" == "\n" + "\n";
    Assoc(s, "\n", "\n");
    Snoc2(lines, Field(k, v), Blank);
  }

  /** Nothing appended yet: the builder holds the text of no lines. */
  lemma Start(sb0: string)
    ensures sb0 == sb0 + Text([])
  {
    AppendNil(sb0);
  }

  // ---------------------------------------------------------------------------
  // One iteration of each loop

  /** The appends of one file store extend the text by its disk line. */
  lemma DiskStep(sb: string, sb0: string, f: Renderers, stores: seq<FileStore>, i: int)
    requires 0 <= i < |stores|
    requires sb == sb0 + Text(DiskLines(f, stores[..i]))
    ensures sb + "Disk: " + stores[i].mount + " - " + FormatBytes(f, stores[i].usableSpace) + " / "
            + FormatBytes(f, stores[i].totalSpace) + "\n"
         == sb0 + Text(DiskLines(f, stores[..i + 1]))
  {
    var fs := stores[i];
    var usable, total := FormatBytes(f, fs.usableSpace), FormatBytes(f, fs.totalSpace);
    var p := sb + "Disk: ";
    Assoc(p, fs.mount, " - ");
    Assoc(p, fs.mount + " - ", usable);
    Assoc(p, fs.mount + " - " + usable, " / ");
    Assoc(p, fs.mount + " - " + usable + " / ", total);
    assert LabelText(Disk) == "Disk: ";
    AppendField(sb, sb0, DiskLines(f, stores[..i]), Disk, fs.mount + " - " + usable + " / " + total);
    TakeSnoc(stores, i);
    DiskLinesSnoc(f, stores[..i], fs);
  }

  /** The append of one fan speed extends the fan entries by one. */
  lemma FanStep(head: string, speeds: seq<int>, i: int)
    requires 0 <= i < |speeds|
    ensures head + FanEntries(speeds[..i]) + IntText(speeds[i]) + " RPM " == head + FanEntries(speeds[..i + 1])
  {
    TakeSnoc(speeds, i);
    FanEntriesSnoc(speeds[..i], speeds[i]);
    Assoc(head + FanEntries(speeds[..i]), IntText(speeds[i]), " RPM ");
    Assoc(head, FanEntries(speeds[..i]), IntText(speeds[i]) + " RPM ");
  }

  /** The name, vendor and version lines of one graphics card. */
  lemma GpuHeadStep(sb: string, sb0: string, lines: seq<Line>, g: GraphicsCard)
    requires sb == sb0 + Text(lines)
    ensures sb + "GPU: " + g.name + "\n" + "Vendor: " + g.vendor + "\n" + "Version: " + g.versionInfo + "\n"
         == sb0 + Text(lines + [Field(GpuName, g.name)] + [Field(GpuVendor, g.vendor)] + [Field(GpuVersion, g.versionInfo)])
  {
    var l1 := lines + [Field(GpuName, g.name)];
    var l2 := l1 + [Field(GpuVendor, g.vendor)];
    var s1 := sb + "GPU: " + g.name + "\n";
    var s2 := s1 + "Vendor: " + g.vendor + "\n";
    assert LabelText(GpuName) == "GPU: " && LabelText(GpuVendor) == "Vendor: " && LabelText(GpuVersion) == "Version: ";
    AppendField(sb, sb0, lines, GpuName, g.name);
    assert s1 == sb0 + Text(l1);
    AppendField(s1, sb0, l1, GpuVendor, g.vendor);
    assert s2 == sb0 + Text(l2);
    AppendField(s2, sb0, l2, GpuVersion, g.versionInfo);
  }

  /** The appends of one graphics card extend the text by that card's block. */
  lemma GpuStep(sb: string, sb0: string, f: Renderers, gpus: seq<GraphicsCard>, i: int)
    requires 0 <= i < |gpus|
    requires sb == sb0 + Text(GpuLines(f, gpus[..i]))
    ensures sb + "GPU: " + gpus[i].name + "\n" + "Vendor: " + gpus[i].vendor + "\n"
            + "Version: " + gpus[i].versionInfo + "\n" + "VRAM: " + FormatBytes(f, gpus[i].vRam) + "\n\n"
         == sb0 + Text(GpuLines(f, gpus[..i + 1]))
  {
    var g := gpus[i];
    var l0 := GpuLines(f, gpus[..i]);
    var l3 := l0 + [Field(GpuName, g.name)] + [Field(GpuVendor, g.vendor)] + [Field(GpuVersion, g.versionInfo)];
    var s3 := sb + "GPU: " + g.name + "\n" + "Vendor: " + g.vendor + "\n" + "Version: " + g.versionInfo + "\n";
    GpuHeadStep(sb, sb0, l0, g);
    assert LabelText(GpuVRam) == "VRAM: ";
    AppendFieldAndBlank(s3, sb0, l3, GpuVRam, FormatBytes(f, g.vRam));
    BlockAppended(l0, Field(GpuName, g.name), Field(GpuVendor, g.vendor), Field(GpuVersion, g.versionInfo),
      Field(GpuVRam, FormatBytes(f, g.vRam)));
    TakeSnoc(gpus, i);
    GpuLinesSnoc(f, gpus[..i], g);
  }

  lemma BlockAppended(s: seq<Line>, a: Line, b: Line, c: Line, d: Line)
    ensures s + [a] + [b] + [c] + [d, Blank] == s + [a, b, c, d, Blank]
  {
  }

  /** The appends of one display extend the text by its numbered line. */
  lemma DisplayStep(sb: string, sb0: string, displays: seq<Display>, i: int, index: int)
    requires 0 <= i < |displays|
    requires sb == sb0 + Text(DisplayLines(displays[..i], 1))
    requires index == i + 1
    ensures sb + "Display " + IntText(index) + ": EDID Length = " + IntText(EdidLength(displays[i])) + " bytes\n"
         == sb0 + Text(DisplayLines(displays[..i + 1], 1))
  {
    var n := IntText(EdidLength(displays[i]));
    var p := sb + "Display ";
    var k := IntText(index);
    assert " bytes\n" == " bytes" + "\n";
    Assoc(p + k + ": EDID Length = " + n, " bytes", "\n");
    Assoc(p, k, ": EDID Length = ");
    Assoc(p, k + ": EDID Length = ", n);
    Assoc(p, k + ": EDID Length = " + n, " bytes");
    assert LabelText(DisplayEdid) == "Display ";
    AppendField(sb, sb0, DisplayLines(displays[..i], 1), DisplayEdid, DisplayValue(index, EdidLength(displays[i])));
    TakeSnoc(displays, i);
    DisplayLinesSnoc(displays[..i], displays[i], 1);
  }

  // ---------------------------------------------------------------------------
  // The sensor section's literals, which end one line and start the next

  /** The temperature line, whose " °C\n" is the unit and the line end. */
  lemma TemperatureStep(sb0: string, t: string)
    ensures sb0 + "CPU Temperature: " + t + " °C\n" == sb0 + Text([Field(CpuTemperature, t + " °C")])
  {
    var p := sb0 + "CPU Temperature: ";
    assert " °C\n" == " °C" + "\n";
    Assoc(p + t, " °C", "\n");
    Assoc(p, t, " °C");
    Start(sb0);
    assert LabelText(CpuTemperature) == "CPU Temperature: ";
    AppendField(sb0, sb0, [], CpuTemperature, t + " °C");
    AppendNil([Field(CpuTemperature, t + " °C")]);
  }

  /**
   * The voltage line and the blank line after it, appended as
   * "\nBattery Voltage: ", the value and " V\n\n", where the leading "\n"
   * ends the fan line before it.
   */
  lemma VoltageStep(sb: string, sb0: string, lines: seq<Line>, v: string)
    requires sb + "\n" == sb0 + Text(lines)
    ensures sb + "\nBattery Voltage: " + v + " V\n\n" == sb0 + Text(lines + [Field(BatteryVoltage, v + " V"), Blank])
  {
    assert "\nBattery Voltage: " == "\n" + "Battery Voltage: ";
    Assoc(sb, "\n", "Battery Voltage: ");
    var s := sb + "\n" + "Battery Voltage: ";
    assert " V\n\n" == " V" + "\n\n";
    Assoc(s + v, " V", "\n\n");
    Assoc(s, v, " V");
    assert LabelText(BatteryVoltage) == "Battery Voltage: ";
    AppendFieldAndBlank(sb + "\n", sb0, lines, BatteryVoltage, v + " V");
  }

  /** The appends of the sensor section, once the fan entries are in. */
  lemma SensorsText(sb0: string, r: Readings, f: Renderers)
    ensures sb0 + "CPU Temperature: " + f.decimal(r.cpuTemperature) + " °C\n" + "Fan Speeds: " + FanEntries(r.fanSpeeds)
            + "\nBattery Voltage: " + f.doubleText(r.cpuVoltage) + " V\n\n"
         == sb0 + Text(SensorLines(r, f))
  {
    var t, v := f.decimal(r.cpuTemperature), f.doubleText(r.cpuVoltage);
    var fans := FanEntries(r.fanSpeeds);
    var l1 := [Field(CpuTemperature, t + " °C")];
    var s1 := sb0 + "CPU Temperature: " + t + " °C\n";
    TemperatureStep(sb0, t);
    assert LabelText(FanSpeeds) == "Fan Speeds: ";
    AppendField(s1, sb0, l1, FanSpeeds, fans);
    VoltageStep(s1 + "Fan Speeds: " + fans, sb0, l1 + [Field(FanSpeeds, fans)], v);
    assert l1 + [Field(FanSpeeds, fans)] + [Field(BatteryVoltage, v + " V"), Blank] == SensorLines(r, f);
  }

  // ---------------------------------------------------------------------------
  // The sections of updateStats

  method AppendOperatingSystem(sb0: string, r: Readings) returns (sb: string)
    ensures sb == sb0 + Text(OsLines(r))
  {
    sb := sb0 + "Operating System: " + r.os + "\n\n";
    Start(sb0);
    assert LabelText(OperatingSystem) == "Operating System: ";
    AppendFieldAndBlank(sb0, sb0, [], OperatingSystem, r.os);
    AppendNil(OsLines(r));
  }

  method AppendCpu(sb0: string, r: Readings, cpuLoad: real, f: Renderers) returns (sb: string)
    ensures sb == sb0 + Text(CpuLines(r, cpuLoad, f))
  {
    var physical, logical := IntText(r.physicalCores), IntText(r.logicalCores);
    ghost var l1 := [Field(CpuName, r.cpuName)];
    ghost var l2 := l1 + [Field(PhysicalCores, physical)];
    ghost var l3 := l2 + [Field(LogicalCores, logical)];
    sb := sb0 + "CPU: " + r.cpuName + "\n";
    Start(sb0);
    assert LabelText(CpuName) == "CPU: " && LabelText(PhysicalCores) == "Physical Cores: "
        && LabelText(LogicalCores) == "Logical Cores: " && LabelText(CpuLoad) == "CPU Load: ";
    AppendField(sb0, sb0, [], CpuName, r.cpuName);
    AppendNil(l1);
    ghost var prev := sb;
    sb := sb + "Physical Cores: " + physical + "\n";
    AppendField(prev, sb0, l1, PhysicalCores, physical);
    prev := sb;
    sb := sb + "Logical Cores: " + logical + "\n";
    AppendField(prev, sb0, l2, LogicalCores, logical);
    prev := sb;
    var load := f.decimal(cpuLoad * 100.0);
    sb := sb + "CPU Load: " + load + "%\n\n";
    assert "%\n\n" == "%" + "\n\n";
    Assoc(prev + "CPU Load: " + load, "%", "\n\n");
    Assoc(prev + "CPU Load: ", load, "%");
    AppendFieldAndBlank(prev, sb0, l3, CpuLoad, load + "%");
    assert l3 + [Field(CpuLoad, load + "%"), Blank] == CpuLines(r, cpuLoad, f);
  }

  method AppendMemory(sb0: string, r: Readings, f: Renderers) returns (sb: string)
    ensures sb == sb0 + Text(MemoryLines(r, f))
  {
    var total := FormatBytes(f, r.memoryTotal);
    var available := FormatBytes(f, r.memoryAvailable);
    ghost var l1 := [Field(MemoryTotal, total)];
    sb := sb0 + "Memory Total: " + total + "\n";
    Start(sb0);
    assert LabelText(MemoryTotal) == "Memory Total: " && LabelText(MemoryAvailable) == "Memory Available: ";
    AppendField(sb0, sb0, [], MemoryTotal, total);
    AppendNil(l1);
    ghost var prev := sb;
    sb := sb + "Memory Available: " + available + "\n\n";
    AppendFieldAndBlank(prev, sb0, l1, MemoryAvailable, available);
    assert l1 + [Field(MemoryAvailable, available), Blank] == MemoryLines(r, f);
  }

  method AppendDisks(sb0: string, stores: seq<FileStore>, f: Renderers) returns (sb: string)
    ensures sb == sb0 + Text(DiskSection(f, stores))
  {
    sb := sb0;
    Start(sb0);
    TakeNone(stores);
    for i := 0 to |stores|
      invariant sb == sb0 + Text(DiskLines(f, stores[..i]))
    {
      var fs := stores[i];
      DiskStep(sb, sb0, f, stores, i);
      sb := sb + "Disk: " + fs.mount + " - " + FormatBytes(f, fs.usableSpace) + " / " + FormatBytes(f, fs.totalSpace) + "\n";
    }
    TakeAll(stores);
    AppendBlank(sb, sb0, DiskLines(f, stores));
    sb := sb + "\n";
  }

  method AppendSensors(sb0: string, r: Readings, f: Renderers) returns (sb: string)
    ensures sb == sb0 + Text(SensorLines(r, f))
  {
    sb := sb0 + "CPU Temperature: " + f.decimal(r.cpuTemperature) + " °C\n";
    sb := sb + "Fan Speeds: ";
    ghost var head := sb;
    var speeds := r.fanSpeeds;
    TakeNone(speeds);
    AppendNil(head);
    for i := 0 to |speeds|
      invariant sb == head + FanEntries(speeds[..i])
    {
      var speed := speeds[i];
      FanStep(head, speeds, i);
      sb := sb + IntText(speed) + " RPM ";
    }
    TakeAll(speeds);
    sb := sb + "\nBattery Voltage: " + f.doubleText(r.cpuVoltage) + " V\n\n";
    SensorsText(sb0, r, f);
  }

  method AppendGraphicsCards(sb0: string, gpus: seq<GraphicsCard>, f: Renderers) returns (sb: string)
    ensures sb == sb0 + Text(GpuLines(f, gpus))
  {
    sb := sb0;
    Start(sb0);
    TakeNone(gpus);
    for i := 0 to |gpus|
      invariant sb == sb0 + Text(GpuLines(f, gpus[..i]))
    {
      var gpu := gpus[i];
      GpuStep(sb, sb0, f, gpus, i);
      sb := sb + "GPU: " + gpu.name + "\n";
      sb := sb + "Vendor: " + gpu.vendor + "\n";
      sb := sb + "Version: " + gpu.versionInfo + "\n";
      sb := sb + "VRAM: " + FormatBytes(f, gpu.vRam) + "\n\n";
    }
    TakeAll(gpus);
  }

  method AppendDisplays(sb0: string, displays: seq<Display>) returns (sb: string)
    ensures sb == sb0 + Text(DisplayLines(displays, 1))
  {
    sb := sb0;
    Start(sb0);
    TakeNone(displays);
    var displayIndex := 1;
    for i := 0 to |displays|
      invariant displayIndex == i + 1
      invariant sb == sb0 + Text(DisplayLines(displays[..i], 1))
    {
      var edid := displays[i].edid;
      DisplayStep(sb, sb0, displays, i, displayIndex);
      sb := sb + "Display " + IntText(displayIndex) + ": EDID Length = "
        + IntText(if edid.Some? then |edid.value| else 0) + " bytes\n";
      displayIndex := displayIndex + 1;
    }
    TakeAll(displays);
  }

  method AppendUptime(sb0: string, uptimeSec: int) returns (sb: string)
    ensures sb == sb0 + Text(UptimeLines(uptimeSec))
  {
    var uptime := Split(uptimeSec);
    var hours, minutes, seconds := uptime.hours, uptime.minutes, uptime.seconds;
    var formatted := IntText(hours) + " h " + IntText(minutes) + " m " + IntText(seconds) + " s";
    sb := sb0 + "\nSystem Uptime: " + formatted + "\n";
    assert "\nSystem Uptime: " == "\n" + "System Uptime: ";
    Assoc(sb0, "\n", "System Uptime: ");
    Start(sb0);
    assert LabelText(SystemUptime) == "System Uptime: ";
    AppendBlank(sb0, sb0, []);
    AppendField(sb0 + "\n", sb0, [] + [Blank], SystemUptime, formatted);
    assert [] + [Blank] + [Field(SystemUptime, formatted)] == UptimeLines(uptimeSec);
  }

  /** The whole text of one refresh, its sections appended in the source's order. */
  method BuildReport(r: Readings, cpuLoad: real, f: Renderers) returns (sb: string)
    ensures sb == Text(ReportLines(r, cpuLoad, f))
  {
    sb := AppendOperatingSystem("", r);
    AppendNil(Text(OsLines(r)));
    ghost var lines := OsLines(r);
    sb := AppendCpu(sb, r, cpuLoad, f);
    TextAppend(lines, CpuLines(r, cpuLoad, f));
    lines := lines + CpuLines(r, cpuLoad, f);
    sb := AppendMemory(sb, r, f);
    TextAppend(lines, MemoryLines(r, f));
    lines := lines + MemoryLines(r, f);
    sb := AppendDisks(sb, r.fileStores, f);
    TextAppend(lines, DiskSection(f, r.fileStores));
    lines := lines + DiskSection(f, r.fileStores);
    sb := AppendSensors(sb, r, f);
    TextAppend(lines, SensorLines(r, f));
    lines := lines + SensorLines(r, f);
    sb := AppendGraphicsCards(sb, r.graphicsCards, f);
    TextAppend(lines, GpuLines(f, r.graphicsCards));
    lines := lines + GpuLines(f, r.graphicsCards);
    sb := AppendDisplays(sb, r.displays);
    TextAppend(lines, DisplayLines(r.displays, 1));
    lines := lines + DisplayLines(r.displays, 1);
    sb := AppendUptime(sb, r.uptimeSeconds);
    TextAppend(lines, UptimeLines(r.uptimeSeconds));
    lines := lines + UptimeLines(r.uptimeSeconds);
  }
}
