/**
 * The info-line builder: from the options and a snapshot of what the system
 * lookups returned, the ordered lines shown beside the art: a `user@host`
 * header and a divider of the same visible width, one "key: value" line
 * per enabled field in a fixed order (one per GPU for the GPU field), and a
 * blank line with two colour swatches at the end.
 */
module InfoBuilder {

  import opened Wrappers
  import opened StyledText
  import opened Decimal
  import opened DurationExtras
  import opened CliArgs
  import opened IconArtCatalog

  // ---------------------------------------------------------------------------
  // What the system lookups returned.

  datatype Cpu = Cpu(brand: string, vendorId: string)

  /** Adapter kinds the graphics enumeration reports. */
  datatype DeviceType = Other | IntegratedGpu | DiscreteGpu | VirtualGpu | CpuDevice

  /** A graphics adapter: its kind, its device id and its display name. */
  datatype Adapter = Adapter(deviceType: DeviceType, device: nat, name: string)

  /**
   * One run's lookups. `None` marks a lookup that failed where the source
   * falls back to "Unknown"; `hostname` is `None` when the host name cannot
   * be read. Sizes, the CPU frequency and the CPU usage arrive already
   * formatted as text.
   */
  datatype Snapshot = Snapshot(
    username: string,
    hostname: Option<string>,
    distro: string,
    deviceName: string,
    arch: string,
    uptime: Option<nat>,
    motherboardName: Option<string>,
    motherboardManufacturer: Option<string>,
    cpus: seq<Cpu>,
    cpuFrequency: Option<string>,
    cpuUsage: string,
    adapters: seq<Adapter>,
    usedMemory: string,
    totalMemory: string,
    usedSwap: string,
    totalSwap: string,
    localIp: Option<string>)

  const UnknownValue: string := "Unknown"

  // ---------------------------------------------------------------------------
  // Entries, header and trailer.

  /** `get_entry_formatted`: the label in yellow, then ": " and the value. */
  function Entry(key: string, value: string): Text {
    [Span(Normal(Yellow), key), Span(Plain, ": " + value)]
  }

  /** Position of the first ':' in `s`, if any. */
  function ColonIndex(s: string): (r: Option<nat>)
    ensures r.Some? ==> r.value < |s| && s[r.value] == ':' && ':' !in s[..r.value]
    ensures r.None? ==> ':' !in s
    decreases |s|
  {
    if s == [] then None
    else if s[0] == ':' then Some(0)
    else match ColonIndex(s[1..])
      case None => None
      case Some(i) =>
        assert s[..i + 1] == [s[0]] + s[1..][..i];
        Some(i + 1)
  }

  /** Reads a visible entry line back into its label and value. */
  function SplitEntry(s: string): Option<(string, string)> {
    match ColonIndex(s)
    case None => None
    case Some(i) => if i + 1 < |s| && s[i + 1] == ' ' then Some((s[..i], s[i + 2..])) else None
  }

  /**
   * An entry shows its label in yellow, and, when the label has no colon,
   * its visible text splits back into exactly that label and value.
   */
  lemma EntryRoundTrip(key: string, value: string)
    requires ':' !in key
    ensures Entry(key, value)[0].style == Normal(Yellow)
    ensures Strip(Entry(key, value)) == key + ": " + value
    ensures SplitEntry(Strip(Entry(key, value))) == Some((key, value))
  {
    var t := Entry(key, value);
    assert Strip(t) == key + (": " + value + Strip([])) by {
      assert t[1..] == [Span(Plain, ": " + value)];
      assert t[1..][1..] == [];
    }
    var s := key + ": " + value;
    assert s[|key|] == ':';
    assert s[..|key|] == key;
    assert s[|key| + 2..] == value;
  }

  /** The header: user and host in green joined by '@', or the user alone without a host name. */
  function Header(sys: Snapshot): Text {
    match sys.hostname
    case Some(host) => [Span(Normal(Green), sys.username), Span(Plain, "@"), Span(Normal(Green), host)]
    case None => [Span(Normal(Green), sys.username)]
  }

  /** A rule of '-' as wide as the visible text of `header`. */
  function Divider(header: Text): Text {
    PlainText(Repeat('-', Width(header)))
  }

  /** The header reads `user@host` (or `user`), and the divider under it is exactly as wide. */
  lemma HeaderAndDivider(sys: Snapshot)
    ensures Strip(Header(sys)) == match sys.hostname
                                  case Some(host) => sys.username + "@" + host
                                  case None => sys.username
    ensures Width(Divider(Header(sys))) == Width(Header(sys))
    ensures forall i :: 0 <= i < Width(Header(sys)) ==> Strip(Divider(Header(sys)))[i] == '-'
  {
    var h := Header(sys);
    match sys.hostname {
      case Some(host) =>
        assert h[1..] == [Span(Plain, "@"), Span(Normal(Green), host)];
        assert h[1..][1..] == [Span(Normal(Green), host)];
        assert h[1..][1..][1..] == [];
        assert Strip(h[1..][1..]) == host + Strip(h[1..][1..][1..]);
        assert Strip(h[1..]) == "@" + Strip(h[1..][1..]);
        assert Strip(h) == sys.username + Strip(h[1..]);
      case None =>
        assert h[1..] == [];
    }
    var d := Divider(h);
    assert d[1..] == [];
    assert Strip(d) == Repeat('-', Width(h)) + "";
  }

  const Palette: seq<Color> := [Red, Green, Blue, Cyan, Yellow, Magenta, Black, White]

  /** Eight three-character blocks, one per palette colour, bright or normal. */
  function Swatch(bright: bool): (t: Text)
    ensures |t| == 8
    ensures forall i :: 0 <= i < 8 ==> t[i].text == "███"
    ensures forall i :: 0 <= i < 8 ==> t[i].style == if bright then Bright(Palette[i]) else Normal(Palette[i])
  {
    seq(8, i requires 0 <= i < 8 => Span(if bright then Bright(Palette[i]) else Normal(Palette[i]), "███"))
  }

  /** The fixed last lines: a blank line, the bright swatch, the normal swatch. */
  function Trailer(): seq<Text> {
    [[], Swatch(true), Swatch(false)]
  }

  // ---------------------------------------------------------------------------
  // GPU adapters: keep discrete and integrated ones, sort stably by device id,
  // collapse consecutive equal ids keeping the first.

  predicate IsGpu(a: Adapter) {
    a.deviceType == DiscreteGpu || a.deviceType == IntegratedGpu
  }

  /** The first GPU adapter of `s` whose device id is `d`, if any, in enumeration order. */
  function FirstGpuWithDevice(s: seq<Adapter>, d: nat): Option<Adapter>
    decreases |s|
  {
    if s == [] then None
    else if IsGpu(s[0]) && s[0].device == d then Some(s[0])
    else FirstGpuWithDevice(s[1..], d)
  }

  /**
   * The GPU adapters of `s`, in their original order: for every id, the first
   * adapter kept with it is the first GPU of `s` with it.
   */
  function KeepGpus(s: seq<Adapter>): (r: seq<Adapter>)
    ensures forall a :: a in r <==> a in s && IsGpu(a)
    ensures IsSubsequence(r, s)
    ensures forall d :: FirstWithDevice(r, d) == FirstGpuWithDevice(s, d)
  {
    if s == [] then []
    else if IsGpu(s[0]) then
      var r := [s[0]] + KeepGpus(s[1..]);
      assert r[1..] == KeepGpus(s[1..]);
      r
    else KeepGpus(s[1..])
  }

  /** The first adapter of `s` whose device id is `d`, if any. */
  function FirstWithDevice(s: seq<Adapter>, d: nat): (r: Option<Adapter>)
    ensures r.Some? ==> r.value in s && r.value.device == d
    ensures r.None? <==> forall a :: a in s ==> a.device != d
  {
    if s == [] then None
    else if s[0].device == d then Some(s[0])
    else FirstWithDevice(s[1..], d)
  }

  predicate SortedByDevice(s: seq<Adapter>) {
    forall i, j :: 0 <= i < j < |s| ==> s[i].device <= s[j].device
  }

  predicate StrictlyIncreasingDevice(s: seq<Adapter>) {
    forall i, j :: 0 <= i < j < |s| ==> s[i].device < s[j].device
  }

  /** Inserts `a` before the first element whose id is not smaller, so it precedes later equal ids. */
  function InsertByDevice(a: Adapter, s: seq<Adapter>): (r: seq<Adapter>)
    ensures multiset(r) == multiset(s) + multiset{a}
  {
    if s == [] || a.device <= s[0].device then [a] + s
    else
      assert s == [s[0]] + s[1..];
      [s[0]] + InsertByDevice(a, s[1..])
  }

  /** A stable sort by device id, equal ids keeping their input order. */
  function SortByDevice(s: seq<Adapter>): (r: seq<Adapter>)
    ensures multiset(r) == multiset(s)
  {
    if s == [] then []
    else
      assert s == [s[0]] + s[1..];
      InsertByDevice(s[0], SortByDevice(s[1..]))
  }

  /** Drops every element whose id equals its predecessor's, keeping the first of each run. */
  function DedupByDevice(s: seq<Adapter>): (r: seq<Adapter>)
    ensures forall a :: a in r ==> a in s
    ensures s != [] ==> r != [] && r[0] == s[0]
    decreases |s|
  {
    if |s| <= 1 then s
    else if s[0].device == s[1].device then DedupByDevice([s[0]] + s[2..])
    else [s[0]] + DedupByDevice(s[1..])
  }

  /** The adapters that get a "GPU n" line, in numbering order. */
  function GpuAdapters(s: seq<Adapter>): seq<Adapter> {
    DedupByDevice(SortByDevice(KeepGpus(s)))
  }

  lemma {:induction false} InsertKeepsSorted(a: Adapter, s: seq<Adapter>)
    requires SortedByDevice(s)
    ensures SortedByDevice(InsertByDevice(a, s))
    decreases |s|
  {
    if s == [] || a.device <= s[0].device {
    } else {
      InsertKeepsSorted(a, s[1..]);
      var t := InsertByDevice(a, s[1..]);
      var r := InsertByDevice(a, s);
      assert r == [s[0]] + t;
      assert s[0].device <= t[0].device by {
        if s[1..] != [] && a.device > s[1..][0].device {
          assert t[0] == s[1];
        }
      }
      forall i, j | 0 <= i < j < |r|
        ensures r[i].device <= r[j].device
      {
        assert r[j] == t[j - 1];
        if i > 0 {
          assert r[i] == t[i - 1];
        }
      }
    }
  }

  /** Inserting `a` changes the first adapter with id `d` only when `d` is `a`'s id. */
  lemma {:induction false} InsertFirstWithDevice(a: Adapter, s: seq<Adapter>, d: nat)
    ensures FirstWithDevice(InsertByDevice(a, s), d)
         == if a.device == d then Some(a) else FirstWithDevice(s, d)
    decreases |s|
  {
    if s == [] || a.device <= s[0].device {
      assert ([a] + s)[1..] == s;
    } else {
      InsertFirstWithDevice(a, s[1..], d);
      assert ([s[0]] + InsertByDevice(a, s[1..]))[1..] == InsertByDevice(a, s[1..]);
    }
  }

  lemma {:induction false} SortSpec(s: seq<Adapter>)
    ensures SortedByDevice(SortByDevice(s))
    ensures forall d :: FirstWithDevice(SortByDevice(s), d) == FirstWithDevice(s, d)
  {
    if s != [] {
      SortSpec(s[1..]);
      InsertKeepsSorted(s[0], SortByDevice(s[1..]));
      forall d ensures FirstWithDevice(SortByDevice(s), d) == FirstWithDevice(s, d) {
        InsertFirstWithDevice(s[0], SortByDevice(s[1..]), d);
      }
    }
  }

  /** Collapsing runs keeps, for every id, the first adapter with that id. */
  lemma {:induction false} DedupFirstWithDevice(s: seq<Adapter>, d: nat)
    ensures FirstWithDevice(DedupByDevice(s), d) == FirstWithDevice(s, d)
    decreases |s|
  {
    if |s| <= 1 {
    } else if s[0].device == s[1].device {
      var t := [s[0]] + s[2..];
      DedupFirstWithDevice(t, d);
      assert t[1..] == s[2..] == s[1..][1..];
    } else {
      DedupFirstWithDevice(s[1..], d);
      assert ([s[0]] + DedupByDevice(s[1..]))[1..] == DedupByDevice(s[1..]);
    }
  }

  /** On sorted input, collapsing runs leaves strictly increasing ids. */
  lemma {:induction false} DedupStrict(s: seq<Adapter>)
    requires SortedByDevice(s)
    ensures StrictlyIncreasingDevice(DedupByDevice(s))
    decreases |s|
  {
    if |s| <= 1 {
    } else if s[0].device == s[1].device {
      var t := [s[0]] + s[2..];
      assert SortedByDevice(t) by {
        forall i, j | 0 <= i < j < |t| ensures t[i].device <= t[j].device {
          assert t[j] == s[j + 1];
          if i > 0 { assert t[i] == s[i + 1]; }
        }
      }
      DedupStrict(t);
    } else {
      var u := s[1..];
      assert SortedByDevice(u) by {
        forall i, j | 0 <= i < j < |u| ensures u[i].device <= u[j].device {
          assert u[i] == s[i + 1] && u[j] == s[j + 1];
        }
      }
      DedupStrict(u);
      var du := DedupByDevice(u);
      var r := [s[0]] + du;
      assert du[0] == s[1];
      forall i, j | 0 <= i < j < |r| ensures r[i].device < r[j].device {
        assert r[j] == du[j - 1];
        if i > 0 { assert r[i] == du[i - 1]; } else if j > 1 { assert du[0].device < du[j - 1].device; }
      }
    }
  }

  /**
   * The numbered adapters have strictly increasing ids, and for every id the
   * numbered adapter with it is the first GPU of the input with that id (none
   * when no GPU has it): one line per distinct id, in ascending order, and
   * only GPUs.
   */
  lemma GpuAdaptersSpec(s: seq<Adapter>)
    ensures StrictlyIncreasingDevice(GpuAdapters(s))
    ensures forall d :: FirstWithDevice(GpuAdapters(s), d) == FirstGpuWithDevice(s, d)
    ensures forall a :: a in GpuAdapters(s) ==> IsGpu(a) && a in s
  {
    var k := KeepGpus(s);
    SortSpec(k);
    DedupStrict(SortByDevice(k));
    forall d ensures FirstWithDevice(GpuAdapters(s), d) == FirstGpuWithDevice(s, d) {
      DedupFirstWithDevice(SortByDevice(k), d);
    }
    forall a | a in GpuAdapters(s) ensures IsGpu(a) && a in s {
      assert a in multiset(SortByDevice(k));
    }
  }

  // ---------------------------------------------------------------------------
  // The optional lines, in the order they are emitted.

  datatype Field =
    | Distro | Device | Architecture | Uptime | MotherboardName | MotherboardManufacturer
    | CpuName | CpuVendor | CpuFrequency | CpuUsage | Gpu | Memory | Swap | LocalAddress

  const FieldCount := 14

  /** The option that switches a field on by itself. */
  function Toggle(args: Cli, f: Field): bool {
    match f
    case Distro => args.showDistro
    case Device => args.showDeviceName
    case Architecture => args.showArchitecture
    case Uptime => args.showUptime
    case MotherboardName => args.showMotherboard
    case MotherboardManufacturer => args.showMotherboardManufacturer
    case CpuName => args.showCpu
    case CpuVendor => args.showCpuVendor
    case CpuFrequency => args.showCpuFrequency
    case CpuUsage => args.showCpuUsage
    case Gpu => args.showGpu
    case Memory => args.showMemory
    case Swap => args.showSwap
    case LocalAddress => args.showIp
  }

  /** A field is shown when its own option or the show-all option is set. */
  predicate Shown(args: Cli, f: Field) {
    Toggle(args, f) || args.showAll
  }

  /** The label of a one-line field (the GPU lines are numbered instead). */
  function Label(f: Field): string
    requires f != Gpu
  {
    match f
    case Distro => "Distro"
    case Device => "Device"
    case Architecture => "Arch"
    case Uptime => "Uptime"
    case MotherboardName => "Motherboard Name"
    case MotherboardManufacturer => "Motherboard Manufacturer"
    case CpuName => "CPU Name"
    case CpuVendor => "CPU Vendor"
    case CpuFrequency => "CPU Frequency"
    case CpuUsage => "CPU Usage"
    case Memory => "Memory Usage"
    case Swap => "Swap Usage"
    case LocalAddress => "Local Address"
  }

  /** The CPU lines read the first CPU; the source unwraps it and would abort on an empty list. */
  predicate CpuLookupsDefined(args: Cli, sys: Snapshot) {
    (Shown(args, CpuName) || Shown(args, CpuVendor)) ==> |sys.cpus| > 0
  }

  /** The value printed for a one-line field, "Unknown" where a fallible lookup failed. */
  function FieldValue(sys: Snapshot, f: Field): string
    requires f != Gpu
    requires (f == CpuName || f == CpuVendor) ==> |sys.cpus| > 0
  {
    match f
    case Distro => sys.distro
    case Device => sys.deviceName
    case Architecture => sys.arch
    case Uptime => (match sys.uptime case Some(t) => DurationText(t) case None => UnknownValue)
    case MotherboardName => sys.motherboardName.GetOr(UnknownValue)
    case MotherboardManufacturer => sys.motherboardManufacturer.GetOr(UnknownValue)
    case CpuName => sys.cpus[0].brand
    case CpuVendor => sys.cpus[0].vendorId
    case CpuFrequency => sys.cpuFrequency.GetOr(UnknownValue)
    case CpuUsage => sys.cpuUsage + "%"
    case Memory => sys.usedMemory + " used of " + sys.totalMemory + " total"
    case Swap => sys.usedSwap + " used of " + sys.totalSwap + " total"
    case LocalAddress => sys.localIp.GetOr(UnknownValue)
  }

  /** "GPU n" for the adapter at 0-based position `i`. */
  function GpuLabel(i: nat): string {
    "GPU " + NatToString(i + 1)
  }

  /** One numbered line per adapter. */
  function GpuLines(gpus: seq<Adapter>): (r: seq<Text>)
    ensures |r| == |gpus|
    ensures forall i :: 0 <= i < |gpus| ==> r[i] == Entry(GpuLabel(i), gpus[i].name)
  {
    seq(|gpus|, i requires 0 <= i < |gpus| => Entry(GpuLabel(i), gpus[i].name))
  }

  /** The lines a field contributes: none when hidden, one entry, or one per numbered GPU. */
  function FieldLines(args: Cli, sys: Snapshot, f: Field): seq<Text>
    requires CpuLookupsDefined(args, sys)
  {
    if !Shown(args, f) then []
    else if f == Gpu then GpuLines(GpuAdapters(sys.adapters))
    else [Entry(Label(f), FieldValue(sys, f))]
  }

  /** Place of a field in the output order. */
  function Position(f: Field): (n: nat)
    ensures n < FieldCount
  {
    match f
    case Distro => 0
    case Device => 1
    case Architecture => 2
    case Uptime => 3
    case MotherboardName => 4
    case MotherboardManufacturer => 5
    case CpuName => 6
    case CpuVendor => 7
    case CpuFrequency => 8
    case CpuUsage => 9
    case Gpu => 10
    case Memory => 11
    case Swap => 12
    case LocalAddress => 13
  }

  /** The field emitted right after `f`, if any. */
  function NextField(f: Field): (r: Option<Field>)
    ensures r.Some? ==> Position(r.value) == Position(f) + 1
    ensures r.None? ==> Position(f) == FieldCount - 1
  {
    match f
    case Distro => Some(Device)
    case Device => Some(Architecture)
    case Architecture => Some(Uptime)
    case Uptime => Some(MotherboardName)
    case MotherboardName => Some(MotherboardManufacturer)
    case MotherboardManufacturer => Some(CpuName)
    case CpuName => Some(CpuVendor)
    case CpuVendor => Some(CpuFrequency)
    case CpuFrequency => Some(CpuUsage)
    case CpuUsage => Some(Gpu)
    case Gpu => Some(Memory)
    case Memory => Some(Swap)
    case Swap => Some(LocalAddress)
    case LocalAddress => None
  }

  /**
   * The lines of `f` and of every field after it, in output order. (`args`
   * in the decreases clause keeps the verifier from unrolling the whole
   * field chain whenever `f` is a constant.)
   */
  function LinesFrom(args: Cli, sys: Snapshot, f: Field): seq<Text>
    requires CpuLookupsDefined(args, sys)
    decreases FieldCount - Position(f), args
  {
    FieldLines(args, sys, f) + match NextField(f) case None => [] case Some(g) => LinesFrom(args, sys, g)
  }

  /** The GPU field contributes the numbered adapter lines when shown. */
  lemma GpuFieldLines(args: Cli, sys: Snapshot)
    requires CpuLookupsDefined(args, sys)
    ensures FieldLines(args, sys, Gpu) == if Shown(args, Gpu) then GpuLines(GpuAdapters(sys.adapters)) else []
  {
  }

  /** Pushing `mid` onto `lines` leaves `rest` to come, when `whole` is all three. */
  lemma PushThenRest<T>(lines: seq<T>, mid: seq<T>, rest: seq<T>, r: seq<T>, whole: seq<T>)
    requires lines + (mid + rest) == whole && r == lines + mid
    ensures r + rest == whole
  {
    AppendAssoc(lines, mid, rest);
  }

  /** The lines from `f` are those of `f` followed by the lines from the next field. */
  lemma LinesFromNext(args: Cli, sys: Snapshot, f: Field, g: Field)
    requires CpuLookupsDefined(args, sys) && NextField(f) == Some(g)
    ensures LinesFrom(args, sys, f) == FieldLines(args, sys, f) + LinesFrom(args, sys, g)
  {
  }

  /** One field's step of `build_info_lines`, as it advances through the field order. */
  method PushField(args: Cli, sys: Snapshot, f: Field, g: Field, lines: seq<Text>, ghost whole: seq<Text>)
    returns (r: seq<Text>)
    requires f != Gpu && NextField(f) == Some(g)
    requires CpuLookupsDefined(args, sys)
    requires lines + LinesFrom(args, sys, f) == whole
    ensures r + LinesFrom(args, sys, g) == whole
  {
    LinesFromNext(args, sys, f, g);
    AppendAssoc(lines, FieldLines(args, sys, f), LinesFrom(args, sys, g));
    r := PushEntry(args, sys, f, lines);
  }

  /** Everything `build_info_lines` returns. */
  function InfoLines(args: Cli, sys: Snapshot): seq<Text>
    requires CpuLookupsDefined(args, sys)
  {
    [Header(sys), Divider(Header(sys))] + LinesFrom(args, sys, Distro) + Trailer()
  }

  lemma AppendEmpty<T>(a: seq<T>)
    ensures a + [] == a
  {
  }

  lemma AppendAssoc<T>(a: seq<T>, b: seq<T>, c: seq<T>)
    ensures a + (b + c) == (a + b) + c
  {
  }

  /**
   * One conditional block of `build_info_lines` for a one-line field: when
   * the field is shown, push its entry (formatting the uptime, falling back
   * to "Unknown" where a lookup failed).
   */
  method PushEntry(args: Cli, sys: Snapshot, f: Field, lines: seq<Text>) returns (r: seq<Text>)
    requires f != Gpu
    requires CpuLookupsDefined(args, sys)
    ensures r == lines + FieldLines(args, sys, f)
  {
    r := lines;
    if Toggle(args, f) || args.showAll {
      match f {
        case Distro => r := r + [Entry("Distro", sys.distro)];
        case Device => r := r + [Entry("Device", sys.deviceName)];
        case Architecture => r := r + [Entry("Arch", sys.arch)];
        case Uptime =>
          match sys.uptime {
            case Some(t) =>
              var text := FormatDuration(t);
              r := r + [Entry("Uptime", text)];
            case None => r := r + [Entry("Uptime", UnknownValue)];
          }
        case MotherboardName =>
          r := r + [Entry("Motherboard Name", sys.motherboardName.GetOr(UnknownValue))];
        case MotherboardManufacturer =>
          r := r + [Entry("Motherboard Manufacturer", sys.motherboardManufacturer.GetOr(UnknownValue))];
        case CpuName => r := r + [Entry("CPU Name", sys.cpus[0].brand)];
        case CpuVendor => r := r + [Entry("CPU Vendor", sys.cpus[0].vendorId)];
        case CpuFrequency =>
          match sys.cpuFrequency {
            case Some(freq) => r := r + [Entry("CPU Frequency", freq)];
            case None => r := r + [Entry("CPU Frequency", UnknownValue)];
          }
        case CpuUsage => r := r + [Entry("CPU Usage", sys.cpuUsage + "%")];
        case Memory =>
          r := r + [Entry("Memory Usage", sys.usedMemory + " used of " + sys.totalMemory + " total")];
        case Swap =>
          r := r + [Entry("Swap Usage", sys.usedSwap + " used of " + sys.totalSwap + " total")];
        case LocalAddress =>
          match sys.localIp {
            case Some(ip) => r := r + [Entry("Local Address", ip)];
            case None => r := r + [Entry("Local Address", UnknownValue)];
          }
      }
    }
  }

  /** The GPU loop of `build_info_lines`: one numbered entry per adapter, pushed only when shown. */
  method PushGpuLines(args: Cli, gpus: seq<Adapter>, lines: seq<Text>) returns (r: seq<Text>)
    ensures r == lines + (if Shown(args, Gpu) then GpuLines(gpus) else [])
  {
    r := lines;
    for index := 0 to |gpus|
      invariant r == lines + (if Shown(args, Gpu) then GpuLines(gpus)[..index] else [])
    {
      if args.showGpu || args.showAll {
        r := r + [Entry("GPU " + NatToString(index + 1), gpus[index].name)];
        assert GpuLines(gpus)[..index + 1] == GpuLines(gpus)[..index] + [GpuLines(gpus)[index]];
      }
    }
    assert GpuLines(gpus)[..|gpus|] == GpuLines(gpus);
  }

  /** The blocks of `build_info_lines` that read the host: distro, device, architecture, uptime. */
  method PushHostFields(args: Cli, sys: Snapshot, lines: seq<Text>, ghost whole: seq<Text>) returns (r: seq<Text>)
    requires CpuLookupsDefined(args, sys)
    requires lines + LinesFrom(args, sys, Distro) == whole
    ensures r + LinesFrom(args, sys, MotherboardName) == whole
  {
    r := lines;
    r := PushField(args, sys, Distro, Device, r, whole);
    r := PushField(args, sys, Device, Architecture, r, whole);
    r := PushField(args, sys, Architecture, Uptime, r, whole);
    r := PushField(args, sys, Uptime, MotherboardName, r, whole);
  }

  /** The blocks of `build_info_lines` that read the board and the CPU, before the GPU loop. */
  method PushHardwareFields(args: Cli, sys: Snapshot, lines: seq<Text>, ghost whole: seq<Text>) returns (r: seq<Text>)
    requires CpuLookupsDefined(args, sys)
    requires lines + LinesFrom(args, sys, MotherboardName) == whole
    ensures r + LinesFrom(args, sys, Gpu) == whole
  {
    r := lines;
    r := PushField(args, sys, MotherboardName, MotherboardManufacturer, r, whole);
    r := PushField(args, sys, MotherboardManufacturer, CpuName, r, whole);
    r := PushField(args, sys, CpuName, CpuVendor, r, whole);
    r := PushField(args, sys, CpuVendor, CpuFrequency, r, whole);
    r := PushField(args, sys, CpuFrequency, CpuUsage, r, whole);
    r := PushField(args, sys, CpuUsage, Gpu, r, whole);
  }

  /** The GPU block of `build_info_lines`: the adapters are enumerated whatever the options. */
  method PushGpuField(args: Cli, sys: Snapshot, lines: seq<Text>, ghost whole: seq<Text>) returns (r: seq<Text>)
    requires CpuLookupsDefined(args, sys)
    requires lines + LinesFrom(args, sys, Gpu) == whole
    ensures r + LinesFrom(args, sys, Memory) == whole
  {
    var gpus := GpuAdapters(sys.adapters);
    r := PushGpuLines(args, gpus, lines);
    GpuFieldLines(args, sys);
    LinesFromNext(args, sys, Gpu, Memory);
    PushThenRest(lines, FieldLines(args, sys, Gpu), LinesFrom(args, sys, Memory), r, whole);
  }

  /** The blocks of `build_info_lines` after the GPU loop: memory, swap, local address. */
  method PushUsageFields(args: Cli, sys: Snapshot, lines: seq<Text>, ghost whole: seq<Text>) returns (r: seq<Text>)
    requires CpuLookupsDefined(args, sys)
    requires lines + LinesFrom(args, sys, Memory) == whole
    ensures r == whole
  {
    r := PushField(args, sys, Memory, Swap, lines, whole);
    r := PushField(args, sys, Swap, LocalAddress, r, whole);
    r := PushEntry(args, sys, LocalAddress, r);
    AppendEmpty(FieldLines(args, sys, LocalAddress));
  }

  /**
   * `build_info_lines`: header and divider, each enabled field in order (the
   * uptime formatted by the duration printer, the GPUs numbered in a loop),
   * then the fixed trailer.
   */
  method BuildInfoLines(args: Cli, sys: Snapshot) returns (lines: seq<Text>)
    requires CpuLookupsDefined(args, sys)
    ensures lines == InfoLines(args, sys)
  {
    var header := Header(sys);
    var headerLen := Width(header);
    lines := [header, PlainText(Repeat('-', headerLen))];
    ghost var whole := lines + LinesFrom(args, sys, Distro);
    lines := PushHostFields(args, sys, lines, whole);
    lines := PushHardwareFields(args, sys, lines, whole);
    lines := PushGpuField(args, sys, lines, whole);
    lines := PushUsageFields(args, sys, lines, whole);

    lines := lines + [[], Swatch(true), Swatch(false)];
  }

  // ---------------------------------------------------------------------------
  // What the info lines promise.

  /** Number of one-line fields at or after `f` that are shown. */
  function ShownOneLineFrom(args: Cli, f: Field): nat
    decreases FieldCount - Position(f), args
  {
    (if f != Gpu && Shown(args, f) then 1 else 0)
    + match NextField(f) case None => 0 case Some(g) => ShownOneLineFrom(args, g)
  }

  lemma {:induction false} LinesFromLength(args: Cli, sys: Snapshot, f: Field)
    requires CpuLookupsDefined(args, sys)
    ensures |LinesFrom(args, sys, f)|
         == ShownOneLineFrom(args, f)
          + (if Shown(args, Gpu) && Position(f) <= Position(Gpu) then |GpuAdapters(sys.adapters)| else 0)
    decreases FieldCount - Position(f)
  {
    match NextField(f) {
      case None =>
      case Some(g) => LinesFromLength(args, sys, g);
    }
  }

  /**
   * The info block has the header, the divider, one line per shown one-line
   * field, one line per numbered GPU when GPUs are shown, and the three
   * trailer lines.
   */
  lemma LineCount(args: Cli, sys: Snapshot)
    requires CpuLookupsDefined(args, sys)
    ensures |InfoLines(args, sys)|
         == 5 + ShownOneLineFrom(args, Distro)
          + (if Shown(args, Gpu) then |GpuAdapters(sys.adapters)| else 0)
  {
    LinesFromLength(args, sys, Distro);
  }

  lemma {:induction false} ShowAllFrom(args: Cli, f: Field)
    requires args.showAll
    ensures ShownOneLineFrom(args, f)
         == FieldCount - Position(f) - (if Position(f) <= Position(Gpu) then 1 else 0)
    decreases FieldCount - Position(f)
  {
    match NextField(f) {
      case None =>
      case Some(g) => ShowAllFrom(args, g);
    }
  }

  /** With show-all set, all thirteen one-line fields are shown. */
  lemma ShowAllCount(args: Cli, sys: Snapshot)
    requires args.showAll && |sys.cpus| > 0
    ensures |InfoLines(args, sys)| == 18 + |GpuAdapters(sys.adapters)|
  {
    LineCount(args, sys);
    ShowAllFrom(args, Distro);
  }

  /** Different one-line fields have different labels, none of them like "GPU n". */
  lemma LabelInjective(f: Field, g: Field)
    requires f != Gpu && g != Gpu && f != g
    ensures Label(f) != Label(g)
  {
    match f
    case Distro =>
    case Device =>
    case Architecture =>
    case Uptime =>
    case MotherboardName =>
    case MotherboardManufacturer =>
    case CpuName =>
    case CpuVendor =>
    case CpuFrequency =>
    case CpuUsage =>
    case Memory =>
    case Swap =>
    case LocalAddress =>
  }

  lemma LabelNotGpu(f: Field, i: nat)
    requires f != Gpu
    ensures Label(f) != GpuLabel(i)
  {
    assert GpuLabel(i)[0] == 'G';
  }

  /** A line printed as entry `key`: two spans, the first the yellow key. */
  predicate KeyedLine(line: Text, key: string) {
    |line| == 2 && line[0] == Span(Normal(Yellow), key)
  }

  lemma {:induction false} LinesFromHasField(args: Cli, sys: Snapshot, g: Field, f: Field)
    requires CpuLookupsDefined(args, sys)
    requires f != Gpu && Shown(args, f) && Position(g) <= Position(f)
    ensures Entry(Label(f), FieldValue(sys, f)) in LinesFrom(args, sys, g)
    decreases FieldCount - Position(g)
  {
    if g != f {
      match NextField(g) {
        case None =>
        case Some(h) => LinesFromHasField(args, sys, h, f);
      }
    }
  }

  /** A line contributed by field `g`: its entry, or one of the numbered GPU entries. */
  lemma FieldLineShape(args: Cli, sys: Snapshot, g: Field, line: Text)
    requires CpuLookupsDefined(args, sys) && line in FieldLines(args, sys, g)
    ensures Shown(args, g)
    ensures g != Gpu ==> line == Entry(Label(g), FieldValue(sys, g))
    ensures g == Gpu ==> exists i :: 0 <= i < |GpuAdapters(sys.adapters)|
                                  && line == Entry(GpuLabel(i), GpuAdapters(sys.adapters)[i].name)
  {
  }

  /** A line of field `g` keyed with the label of a one-line field `f` is `f`'s own entry. */
  lemma KeyedFieldLine(args: Cli, sys: Snapshot, g: Field, f: Field, line: Text)
    requires CpuLookupsDefined(args, sys)
    requires f != Gpu && line in FieldLines(args, sys, g) && KeyedLine(line, Label(f))
    ensures g == f && Shown(args, f)
  {
    FieldLineShape(args, sys, g, line);
    if g == Gpu {
      var i :| 0 <= i < |GpuAdapters(sys.adapters)|
            && line == Entry(GpuLabel(i), GpuAdapters(sys.adapters)[i].name);
      LabelNotGpu(f, i);
    } else if g != f {
      LabelInjective(f, g);
    }
  }

  lemma {:induction false} LinesFromKeyedField(args: Cli, sys: Snapshot, g: Field, f: Field, line: Text)
    requires CpuLookupsDefined(args, sys)
    requires f != Gpu && line in LinesFrom(args, sys, g) && KeyedLine(line, Label(f))
    ensures Shown(args, f) && Position(g) <= Position(f)
    decreases FieldCount - Position(g)
  {
    if line in FieldLines(args, sys, g) {
      KeyedFieldLine(args, sys, g, f, line);
    } else {
      match NextField(g) {
        case Some(h) =>
          LinesFromNext(args, sys, g, h);
          LinesFromKeyedField(args, sys, h, f, line);
      }
    }
  }

  /** No line outside the field lines is keyed like an entry. */
  lemma OnlyFieldLinesKeyed(args: Cli, sys: Snapshot, line: Text, key: string)
    requires CpuLookupsDefined(args, sys)
    requires line in InfoLines(args, sys) && KeyedLine(line, key)
    ensures line in LinesFrom(args, sys, Distro)
  {
    var h := Header(sys);
    assert |h| == 1 || |h| == 3;
    var t := Trailer();
    assert |t[0]| == 0 && |t[1]| == 8 && |t[2]| == 8;
    assert line !in t;
    assert line in [h, Divider(h)] + LinesFrom(args, sys, Distro);
  }

  /**
   * A one-line field's entry appears, with its value, exactly when its own
   * option or show-all is set; no other line carries its label.
   */
  lemma FieldShownIff(args: Cli, sys: Snapshot, f: Field)
    requires CpuLookupsDefined(args, sys) && f != Gpu
    ensures Shown(args, f) ==> Entry(Label(f), FieldValue(sys, f)) in InfoLines(args, sys)
    ensures (exists line :: line in InfoLines(args, sys) && KeyedLine(line, Label(f))) ==> Shown(args, f)
  {
    if Shown(args, f) {
      LinesFromHasField(args, sys, Distro, f);
    }
    if line :| line in InfoLines(args, sys) && KeyedLine(line, Label(f)) {
      OnlyFieldLinesKeyed(args, sys, line, Label(f));
      LinesFromKeyedField(args, sys, Distro, f, line);
    }
  }

  lemma GpuLabelInjective(i: nat, j: nat)
    requires GpuLabel(i) == GpuLabel(j)
    ensures i == j
  {
    assert GpuLabel(i)[4..] == NatToString(i + 1);
    assert GpuLabel(j)[4..] == NatToString(j + 1);
    NatToStringInjective(i + 1, j + 1);
  }

  lemma {:induction false} LinesFromKeyedGpu(args: Cli, sys: Snapshot, g: Field, i: nat, line: Text)
    requires CpuLookupsDefined(args, sys)
    requires line in LinesFrom(args, sys, g) && KeyedLine(line, GpuLabel(i))
    ensures Shown(args, Gpu) && i < |GpuAdapters(sys.adapters)|
    ensures line == Entry(GpuLabel(i), GpuAdapters(sys.adapters)[i].name)
    decreases FieldCount - Position(g)
  {
    if line in FieldLines(args, sys, g) {
      FieldLineShape(args, sys, g, line);
      if g == Gpu {
        var j :| 0 <= j < |GpuAdapters(sys.adapters)|
              && line == Entry(GpuLabel(j), GpuAdapters(sys.adapters)[j].name);
        GpuLabelInjective(i, j);
      } else {
        LabelNotGpu(g, i);
      }
    } else {
      match NextField(g) {
        case Some(h) => LinesFromKeyedGpu(args, sys, h, i, line);
      }
    }
  }

  lemma {:induction false} LinesFromHasGpus(args: Cli, sys: Snapshot, g: Field)
    requires CpuLookupsDefined(args, sys)
    requires Shown(args, Gpu) && Position(g) <= Position(Gpu)
    ensures forall line :: line in GpuLines(GpuAdapters(sys.adapters)) ==> line in LinesFrom(args, sys, g)
    decreases FieldCount - Position(g)
  {
    if g != Gpu {
      match NextField(g) {
        case None =>
        case Some(h) => LinesFromHasGpus(args, sys, h);
      }
    }
  }

  /**
   * The line "GPU n" (for n = i + 1) appears exactly when GPUs are shown and
   * there are at least n numbered adapters, and it names the n-th of them.
   */
  lemma GpuLineShownIff(args: Cli, sys: Snapshot, i: nat)
    requires CpuLookupsDefined(args, sys)
    ensures Shown(args, Gpu) && i < |GpuAdapters(sys.adapters)|
        ==> Entry(GpuLabel(i), GpuAdapters(sys.adapters)[i].name) in InfoLines(args, sys)
    ensures forall line :: line in InfoLines(args, sys) && KeyedLine(line, GpuLabel(i)) ==>
              (Shown(args, Gpu) && i < |GpuAdapters(sys.adapters)|
               && line == Entry(GpuLabel(i), GpuAdapters(sys.adapters)[i].name))
  {
    if Shown(args, Gpu) {
      LinesFromHasGpus(args, sys, Distro);
      if i < |GpuAdapters(sys.adapters)| {
        assert GpuLines(GpuAdapters(sys.adapters))[i] in GpuLines(GpuAdapters(sys.adapters));
      }
    }
    forall line | line in InfoLines(args, sys) && KeyedLine(line, GpuLabel(i))
      ensures Shown(args, Gpu) && i < |GpuAdapters(sys.adapters)|
      ensures line == Entry(GpuLabel(i), GpuAdapters(sys.adapters)[i].name)
    {
      OnlyFieldLinesKeyed(args, sys, line, GpuLabel(i));
      LinesFromKeyedGpu(args, sys, Distro, i, line);
    }
  }

  /** `a` is `b` with some elements left out, the rest in the same order. */
  predicate IsSubsequence<T(==)>(a: seq<T>, b: seq<T>)
    decreases |b|
  {
    a == [] || (b != [] && (IsSubsequence(a, b[1..]) || (a[0] == b[0] && IsSubsequence(a[1..], b[1..]))))
  }

  lemma {:induction false} SubsequenceRefl<T>(a: seq<T>)
    ensures IsSubsequence(a, a)
    decreases |a|
  {
    if a != [] {
      SubsequenceRefl(a[1..]);
    }
  }

  lemma {:induction false} SubsequenceAppend<T>(a: seq<T>, b: seq<T>, c: seq<T>, d: seq<T>)
    requires IsSubsequence(a, b) && IsSubsequence(c, d)
    ensures IsSubsequence(a + c, b + d)
    decreases |b|
  {
    if b == [] {
      assert a == [];
      assert a + c == c && b + d == d;
    } else if a == [] {
      assert (b + d)[1..] == b[1..] + d;
      SubsequenceAppend([], b[1..], c, d);
      assert [] + c == a + c;
    } else {
      assert (b + d)[1..] == b[1..] + d;
      if IsSubsequence(a, b[1..]) {
        SubsequenceAppend(a, b[1..], c, d);
      } else {
        assert (a + c)[1..] == a[1..] + c;
        SubsequenceAppend(a[1..], b[1..], c, d);
      }
    }
  }

  /** `args` with every field shown. */
  function ShowEverything(args: Cli): Cli {
    args.(showAll := true)
  }

  lemma {:induction false} LinesFromSubsequence(args: Cli, sys: Snapshot, g: Field)
    requires CpuLookupsDefined(ShowEverything(args), sys)
    ensures CpuLookupsDefined(args, sys)
    ensures IsSubsequence(LinesFrom(args, sys, g), LinesFrom(ShowEverything(args), sys, g))
    decreases FieldCount - Position(g)
  {
    var all := ShowEverything(args);
    var mine := FieldLines(args, sys, g);
    var full := FieldLines(all, sys, g);
    assert IsSubsequence(mine, full) by {
      if mine == [] {
      } else {
        assert mine == full;
        SubsequenceRefl(mine);
      }
    }
    match NextField(g) {
      case None =>
        SubsequenceAppend(mine, full, [], []);
      case Some(h) =>
        LinesFromSubsequence(args, sys, h);
        SubsequenceAppend(mine, full, LinesFrom(args, sys, h), LinesFrom(all, sys, h));
    }
  }

  /**
   * Whatever the options, the info block is the show-everything block with
   * some lines left out and the rest in the same order: the header, the
   * divider, the fields in their fixed order, then the trailer.
   */
  lemma FixedOrder(args: Cli, sys: Snapshot)
    requires CpuLookupsDefined(ShowEverything(args), sys)
    ensures CpuLookupsDefined(args, sys)
    ensures IsSubsequence(InfoLines(args, sys), InfoLines(ShowEverything(args), sys))
  {
    var all := ShowEverything(args);
    var head := [Header(sys), Divider(Header(sys))];
    LinesFromSubsequence(args, sys, Distro);
    SubsequenceRefl(head);
    SubsequenceAppend(head, head, LinesFrom(args, sys, Distro), LinesFrom(all, sys, Distro));
    SubsequenceRefl(Trailer());
    SubsequenceAppend(head + LinesFrom(args, sys, Distro), head + LinesFrom(all, sys, Distro), Trailer(), Trailer());
  }

  lemma {:induction false} IgnoredOptionsFrom(args: Cli, sys: Snapshot, g: Field,
                                               packages: bool, desktop: bool, art: Option<IconArt>)
    requires CpuLookupsDefined(args, sys)
    ensures CpuLookupsDefined(args.(showPackages := packages, showDesktopEnv := desktop, iconArt := art), sys)
    ensures LinesFrom(args.(showPackages := packages, showDesktopEnv := desktop, iconArt := art), sys, g)
         == LinesFrom(args, sys, g)
    decreases FieldCount - Position(g)
  {
    match NextField(g) {
      case None =>
      case Some(h) => IgnoredOptionsFrom(args, sys, h, packages, desktop, art);
    }
  }

  /** The packages and desktop-environment options, and the art override, never change the info lines. */
  lemma IgnoredOptions(args: Cli, sys: Snapshot, packages: bool, desktop: bool, art: Option<IconArt>)
    requires CpuLookupsDefined(args, sys)
    ensures CpuLookupsDefined(args.(showPackages := packages, showDesktopEnv := desktop, iconArt := art), sys)
    ensures InfoLines(args.(showPackages := packages, showDesktopEnv := desktop, iconArt := art), sys)
         == InfoLines(args, sys)
  {
    IgnoredOptionsFrom(args, sys, Distro, packages, desktop, art);
  }

  /** The lookups that can fail, and whether the one behind `f` failed in `sys`. */
  predicate LookupFailed(sys: Snapshot, f: Field) {
    match f
    case Uptime => sys.uptime.None?
    case MotherboardName => sys.motherboardName.None?
    case MotherboardManufacturer => sys.motherboardManufacturer.None?
    case CpuFrequency => sys.cpuFrequency.None?
    case LocalAddress => sys.localIp.None?
    case _ => false
  }

  /**
   * A failed lookup still gets its line when shown, with the value "Unknown":
   * uptime, motherboard name and manufacturer, CPU frequency, local address.
   */
  lemma UnknownFallbacks(args: Cli, sys: Snapshot, f: Field)
    requires CpuLookupsDefined(args, sys)
    ensures LookupFailed(sys, f) && Shown(args, f) ==> f != Gpu && Entry(Label(f), "Unknown") in InfoLines(args, sys)
  {
    if LookupFailed(sys, f) && Shown(args, f) {
      FieldShownIff(args, sys, f);
    }
  }
}
