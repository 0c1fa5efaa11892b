# System Health Monitor: a verified model of the refresh cycle

SystemHealthMonitor is a Swing window. Every three seconds a timer calls
`updateStats`. That method reads the machine's state through the OSHI
hardware library, writes it into a `StringBuilder` as a fixed text layout,
and shows the text. This project models the parts of that cycle whose
behaviour can be stated exactly:

- **The CPU tick baseline.** The monitor keeps the CPU tick counters of the
  previous refresh in `prevTicks`, first read when the object is created.
  Each refresh measures the CPU load against the kept counters and then
  replaces them with a fresh sample.
- **The report layout.** The readings of one refresh become the same text
  every time:
  - sections in a fixed order (operating system, processor, memory, disks,
    sensors, graphics cards, displays, uptime);
  - one line per file store;
  - one "RPM" entry per fan;
  - four labelled lines and a blank line per graphics card;
  - one numbered line per display, where a missing EDID counts as length 0;
  - a last line with the uptime in hours, minutes and seconds;
  - every byte count (memory, disk space, video memory) through `FormatBytes`,
    formatBytes' rendering of the count divided by 1024^3 followed by " GB".
    The two-decimal rendering itself (`decimal`) is left open, so the model
    states no property of formatBytes beyond its definition.
- **The uptime split.** `Duration.toHours`, `toMinutesPart` and
  `toSecondsPart` use Java's truncating `/` and `%`. There is no days
  component.

Modules:

- `Seqs` (seqs.dfy) holds generic sequence facts.
- `JavaText` (java_text.dfy) holds Java's decimal text of integers and a
  reader for it.
- `Uptime` (uptime.dfy) holds the split.
- `Layout` (layout.dfy) holds the readings, the labelled lines, `ReportLines`
  (the layout as a list of lines) and `Text` (the string of a list of lines,
  each ended by a newline).
- `LayoutFacts` (layout_facts.dfy) holds what the layout guarantees, stated
  through `Values(lines, label)`: the values shown under one label, in order.
- `Builder` (builder.dfy) holds the `StringBuilder` appends of `updateStats`,
  section by section and loop by loop. Each method is proved to append
  exactly its section's text.
- `Monitor` (monitor.dfy) holds the class `SystemHealthMonitor` with its
  `prevTicks` field, one refresh (`UpdateStats`) and a run of timer refreshes
  (`Run`).

## Model

| member | source | states |
|---|---|---|
| Uptime.Rem | src/main/java/os/SystemHealthMonitor.java:106-107 | Java's remainder: `a == b * Quot(a, b) + r`; it lies in [0, b) for non-negative `a` and in (-b, 0] for negative `a` |
| Uptime.SplitReconstructs | src/main/java/os/SystemHealthMonitor.java:103-107 | hours * 3600 + minutes * 60 + seconds equals the uptime, for every second count |
| Uptime.SplitBounds | src/main/java/os/SystemHealthMonitor.java:103-107 | for a non-negative uptime: hours are the whole hours, and minutes and seconds lie in [0, 60) |
| Uptime.SplitUnique | src/main/java/os/SystemHealthMonitor.java:103-107 | any decomposition with whole hours and minutes and seconds in [0, 60) is exactly the split |
| Uptime.HoursNotWrapped | src/main/java/os/SystemHealthMonitor.java:105 | hours are not reduced modulo 24: they reach 24 exactly when the uptime reaches 86400 seconds |
| Uptime.SplitNegated | src/main/java/os/SystemHealthMonitor.java:103-107 | truncation makes a negative uptime split into the negated parts of its magnitude |
| JavaText.NatText | src/main/java/os/SystemHealthMonitor.java:55-56 | the decimal text of a natural number is non-empty, all digits, and starts with '0' only for zero |
| JavaText.IntText | src/main/java/os/SystemHealthMonitor.java:55-56 | the text of an int is non-empty and starts with '-' exactly when the number is negative |
| JavaText.NatTextValue | src/main/java/os/SystemHealthMonitor.java:55-56 | the digits of `NatText(n)` denote `n` |
| JavaText.ReadIntText | src/main/java/os/SystemHealthMonitor.java:55-56 | reading an int's text followed by a non-digit gives back the int and the rest |
| JavaText.IntTextInjective | src/main/java/os/SystemHealthMonitor.java:55-56 | different ints have different texts |
| Layout.TextAppend | src/main/java/os/SystemHealthMonitor.java:46-110 | appending lines appends their text |
| Layout.DiskLinesSnoc | src/main/java/os/SystemHealthMonitor.java:68-72 | one more file store adds exactly its disk line at the end |
| Layout.FanEntriesSnoc | src/main/java/os/SystemHealthMonitor.java:79-81 | one more fan adds exactly its speed and " RPM " at the end |
| Layout.GpuLinesSnoc | src/main/java/os/SystemHealthMonitor.java:86-91 | one more card adds exactly its five-line block at the end |
| Layout.DisplayLinesSnoc | src/main/java/os/SystemHealthMonitor.java:95-99 | one more display adds one line numbered after all earlier ones |
| LayoutFacts.ValuesAppend | src/main/java/os/SystemHealthMonitor.java:46-110 | the values under a label in two line lists are those of the first, then those of the second |
| LayoutFacts.DiskLinesAre | src/main/java/os/SystemHealthMonitor.java:67-72 | one disk line per file store, in list order: mount, " - ", usable space, " / ", total space |
| LayoutFacts.DisplayLinesAre | src/main/java/os/SystemHealthMonitor.java:94-99 | one display line per display, the i-th numbered first + i and showing that display's EDID length |
| LayoutFacts.GpuLinesAre | src/main/java/os/SystemHealthMonitor.java:85-91 | five lines per graphics card: line 5i + j is line j of card i's block |
| LayoutFacts.FanEntriesAre | src/main/java/os/SystemHealthMonitor.java:78-81 | the fan-speed text reads back as the list of fan speeds, one entry per fan in order |
| LayoutFacts.DisplayValueReadsBack | src/main/java/os/SystemHealthMonitor.java:97-98 | a display line's value reads back as its number and its EDID length |
| LayoutFacts.UptimeValueReadsBack | src/main/java/os/SystemHealthMonitor.java:108 | the "%d h %d m %d s" text reads back as the hours, minutes and seconds |
| LayoutFacts.ReportInSectionOrder | src/main/java/os/SystemHealthMonitor.java:48-108 | no labelled line of the report comes after a labelled line of a later section |
| LayoutFacts.ValuesInReport | src/main/java/os/SystemHealthMonitor.java:48-108 | every value shown under a label comes from that label's own section |
| LayoutFacts.ReportLength | src/main/java/os/SystemHealthMonitor.java:48-108 | the report has 17 fixed lines plus one per file store, five per graphics card and one per display |
| LayoutFacts.OsInReport | src/main/java/os/SystemHealthMonitor.java:50 | the operating system is shown once |
| LayoutFacts.CpuInReport | src/main/java/os/SystemHealthMonitor.java:53-59 | the CPU name, both core counts and the load (times 100, then "%") are each shown once |
| LayoutFacts.MemoryInReport | src/main/java/os/SystemHealthMonitor.java:62-64 | total and available memory are each shown once, through formatBytes |
| LayoutFacts.DisksInReport | src/main/java/os/SystemHealthMonitor.java:67-72 | exactly one Disk value per file store, in list order, each showing mount, usable and total space |
| LayoutFacts.SensorsInReport | src/main/java/os/SystemHealthMonitor.java:76-82 | temperature and voltage are each shown once; the one fan line reads back as all fan speeds in order |
| LayoutFacts.GpusInReport | src/main/java/os/SystemHealthMonitor.java:85-91 | under each of GPU, Vendor, Version and VRAM, one value per card, in list order |
| LayoutFacts.DisplaysInReport | src/main/java/os/SystemHealthMonitor.java:94-99 | one value per display in list order; the i-th reads back as number i + 1 and EDID length 0 when the EDID is null, else the EDID's length |
| LayoutFacts.UptimeInReport | src/main/java/os/SystemHealthMonitor.java:102-108 | the uptime is shown once, on the last line; it reads back as parts that add up to the uptime, with minutes and seconds below 60 when the uptime is non-negative |
| Builder.AppendOperatingSystem | src/main/java/os/SystemHealthMonitor.java:50 | appends exactly the text of the operating-system section |
| Builder.AppendCpu | src/main/java/os/SystemHealthMonitor.java:53-59 | appends exactly the text of the processor section |
| Builder.AppendMemory | src/main/java/os/SystemHealthMonitor.java:62-64 | appends exactly the text of the memory section |
| Builder.AppendDisks | src/main/java/os/SystemHealthMonitor.java:67-73 | the loop over file stores appends exactly the disk lines, then a blank line |
| Builder.AppendSensors | src/main/java/os/SystemHealthMonitor.java:76-82 | the appends around the fan loop build exactly the sensor section |
| Builder.AppendGraphicsCards | src/main/java/os/SystemHealthMonitor.java:85-91 | the loop over cards appends exactly the card blocks |
| Builder.AppendDisplays | src/main/java/os/SystemHealthMonitor.java:94-100 | the loop with its `displayIndex` counter appends exactly the numbered display lines |
| Builder.AppendUptime | src/main/java/os/SystemHealthMonitor.java:102-108 | appends exactly the blank line and the uptime line |
| Builder.BuildReport | src/main/java/os/SystemHealthMonitor.java:46-108 | the whole `StringBuilder` text is `Text(ReportLines(..))` |
| Monitor.SystemHealthMonitor.constructor | src/main/java/os/SystemHealthMonitor.java:21 | the tick baseline is the sample read when the monitor is created |
| Monitor.SystemHealthMonitor.UpdateStats | src/main/java/os/SystemHealthMonitor.java:46-110 | the report uses the load measured from the kept ticks; afterwards `prevTicks` is the fresh sample, and nothing else changes |
| Monitor.RunBaselines | src/main/java/os/SystemHealthMonitor.java:57-58 | refresh k measures the load from refresh k - 1's sample; the first refresh uses the ticks read at construction. This is the definition of `RunReports` written out, not a separate proof; `Run`'s loop invariant proves that the method delivers it |
| Monitor.Run | src/main/java/os/SystemHealthMonitor.java:39-40 | repeated refreshes yield one report per refresh, as `RunReports` gives them, and leave the last sample in `prevTicks` |

## Left out

- Swing is not modelled: the frame, text area, scroll pane, fonts, colours, `setText` and `main`. `UpdateStats` returns the text that `setText` would show.
- The `javax.swing.Timer` schedule and the event thread are not modelled. `Run` treats the timer as a sequence of refreshes, one after another.
- OSHI calls are inputs:
  - each refresh's readings form a `Readings` value;
  - `getSystemCpuLoadBetweenTicks` is the function `loadSince` of a refresh;
  - `getSystemCpuLoadTicks` is the refresh's `ticks`.
  How the load is computed from ticks is not modelled.
- Floating point is not modelled:
  - `DecimalFormat("0.00")` and Java's rendering of a `double` (the battery voltage) are left as the functions `decimal` and `doubleText`;
  - `cpuLoad * 100` and formatBytes' division by 1024^3 are exact real arithmetic;
  - Locale-dependent decimal separators are part of `decimal`.
- Text values from OSHI (OS name, CPU name, mount points, card names) are arbitrary strings. A value that itself contains a newline is not treated specially. Java `null` strings ("null" when appended) are not modelled.
- Integer widths are not modelled:
  - `int`/`long` readings are unbounded integers;
  - overflow of `displayIndex` past 2^31 - 1 displays is not modelled;
  - overflow of a `long` byte count is not modelled.
- A few behaviours have no code in this file, so none is modelled: a temperature severity classifier, a KB/MB/GB/TB unit ladder (formatBytes always uses GB), a days component in the uptime (hours are not wrapped at 24), per-subsystem error isolation (there is no try/catch), division-by-zero guards for disks, and clamping of counter resets.
- Every OSHI call is assumed to return. The source has no catch in `updateStats`. If a call after the new tick sample is taken throws (`getMemory`, `getFileStores`, `getSensors`, `getGraphicsCards`, `getDisplays`, `getSystemUptime`), `prevTicks` has already advanced and `setText` never runs. The timer then keeps firing, and the next refresh measures from the advanced baseline while the window still shows the old text. `UpdateStats` and `Run` do not model that path: every refresh returns a report.
- The uptime's `%d` conversions are modelled for a locale whose zero digit is '0'. `String.format` uses the default format locale, and a locale with other digits (Persian, for one) writes the hours, minutes and seconds in those digits. `UptimeInReport`'s read-back relies on ASCII digits. The `append(int)` and `append(long)` numbers are always ASCII.
- In the source the CPU load is computed after the CPU name and core lines are appended. The model computes it before building the report. This does not change the text, since the load appears only on its own line.
