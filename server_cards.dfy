/**
 * The cards of the server-monitor page, derived from one monitor snapshot: the CPU
 * card with its combined usage, the memory card pairing host and Python figures, and
 * the disk table whose usage cells are flagged above 80 %. Numbers are reals (NaN is
 * not modelled); every field of the snapshot may be missing.
 */
module ServerCards {
  import opened JsValues

  datatype CpuInfo = CpuInfo(cpuNum: Option<real>, used: Option<real>, sys: Option<real>, free: Option<real>)

  /** Host memory, and the Python process's memory (which has the same fields). */
  datatype MemoryInfo = MemoryInfo(total: Option<string>, used: Option<string>, free: Option<string>, usage: Option<real>)

  datatype SysFile = SysFile(
    dirName: Option<string>, sysTypeName: Option<string>, typeName: Option<string>,
    total: Option<string>, free: Option<string>, used: Option<string>,
    usage: Option<string>)   // a percentage such as "85%"

  datatype Server = Server(cpu: Option<CpuInfo>, py: Option<MemoryInfo>, mem: Option<MemoryInfo>, sysFiles: Option<seq<SysFile>>)

  const DANGER_THRESHOLD := 80

  // ---------------------------------------------------------------- CPU card

  datatype CpuColumn = CpuColumn(heading: string, value: Option<real>, suffix: Option<string>)

  datatype CpuCard = CpuCard(usage: real, columns: seq<CpuColumn>)

  /** `x || 0` for an optional number. */
  function OrZero(x: Option<real>): real {
    if x.Some? then x.value else 0.0
  }

  /** `server.cpu?.…` reads every field of a missing CPU record as undefined. */
  function Cpu(server: Server): CpuInfo {
    server.cpu.GetOr(CpuInfo(None, None, None, None))
  }

  /** `useCpuCard`: the usage is user plus system time, a missing figure counting as 0. */
  function UseCpuCard(server: Server): (r: CpuCard)
    ensures r.usage == OrZero(Cpu(server).used) + OrZero(Cpu(server).sys)
    ensures server.cpu.None? ==> r.usage == 0.0
    ensures |r.columns| == 4
    ensures r.columns[0].value == Cpu(server).cpuNum && r.columns[0].suffix == None
    ensures forall i :: 1 <= i < 4 ==> r.columns[i].suffix == Some("%")
    ensures r.columns[1].value == Cpu(server).used
    ensures r.columns[2].value == Cpu(server).sys
    ensures r.columns[3].value == Cpu(server).free
  {
    var used := Cpu(server).used;
    var sys := Cpu(server).sys;
    CpuCard(OrZero(used) + OrZero(sys), [
      CpuColumn("核心数", Cpu(server).cpuNum, None),
      CpuColumn("用户使用率", used, Some("%")),
      CpuColumn("系统使用率", sys, Some("%")),
      CpuColumn("当前空闲率", Cpu(server).free, Some("%"))])
  }

  // ---------------------------------------------------------------- memory card

  /** A cell shows a size string or a usage number. */
  datatype Figure = Number(x: real) | Size(s: string)

  datatype MemoryValue = MemoryValue(heading: string, value: Option<Figure>, suffix: Option<string>, danger: Option<bool>)

  datatype MemoryColumn = MemoryColumn(heading: string, values: seq<MemoryValue>)

  datatype MemoryCard = MemoryCard(usage: Option<real>, pyUsage: Option<real>, columns: seq<MemoryColumn>)

  /** `typeof u === 'number' && u > 80`. */
  predicate UsageIsDanger(usage: Option<real>) {
    usage.Some? && usage.value > DANGER_THRESHOLD as real
  }

  /** `server.mem?.…` / `server.py?.…`: a missing record reads as all fields undefined. */
  function Memory(info: Option<MemoryInfo>): MemoryInfo {
    info.GetOr(MemoryInfo(None, None, None, None))
  }

  function SizeOf(x: Option<string>): Option<Figure> {
    if x.Some? then Some(Size(x.value)) else None
  }

  function UsageOf(info: Option<MemoryInfo>): Option<real> {
    Memory(info).usage
  }

  function NumberOf(x: Option<real>): Option<Figure> {
    if x.Some? then Some(Number(x.value)) else None
  }

  /** One column: the host figure and the Python figure under the same heading. */
  function Pair(heading: string, mem: Option<Figure>, py: Option<Figure>): MemoryColumn {
    MemoryColumn(heading, [MemoryValue("内存", mem, None, None), MemoryValue("Python", py, None, None)])
  }

  /**
   * `useMemoryCard`: four columns (total, used, free, usage), each pairing the host
   * value with the Python value; only the usage pair carries a suffix and a danger flag.
   */
  function UseMemoryCard(server: Server): (r: MemoryCard)
    ensures r.usage == UsageOf(server.mem) && r.pyUsage == UsageOf(server.py)
    ensures |r.columns| == 4
    ensures forall i :: 0 <= i < 4 ==>
      |r.columns[i].values| == 2 && r.columns[i].values[0].heading == "内存" && r.columns[i].values[1].heading == "Python"
    ensures r.columns[0].heading == "总内存" && r.columns[1].heading == "已用内存"
    ensures r.columns[2].heading == "剩余内存" && r.columns[3].heading == "使用率"
    ensures forall i :: 0 <= i < 3 ==>
      && r.columns[i].values[0].danger == None && r.columns[i].values[1].danger == None
      && r.columns[i].values[0].suffix == None && r.columns[i].values[1].suffix == None
    ensures r.columns[0].values[0].value == SizeOf(Memory(server.mem).total)
    ensures r.columns[0].values[1].value == SizeOf(Memory(server.py).total)
    ensures r.columns[1].values[0].value == SizeOf(Memory(server.mem).used)
    ensures r.columns[1].values[1].value == SizeOf(Memory(server.py).used)
    ensures r.columns[2].values[0].value == SizeOf(Memory(server.mem).free)
    ensures r.columns[2].values[1].value == SizeOf(Memory(server.py).free)
    ensures r.columns[3].values[0] == MemoryValue("内存", NumberOf(UsageOf(server.mem)), Some("%"), Some(UsageIsDanger(UsageOf(server.mem))))
    ensures r.columns[3].values[1] == MemoryValue("Python", NumberOf(UsageOf(server.py)), Some("%"), Some(UsageIsDanger(UsageOf(server.py))))
  {
    var memUsage := UsageOf(server.mem);
    var pyUsage := UsageOf(server.py);
    MemoryCard(memUsage, pyUsage, [
      Pair("总内存", SizeOf(Memory(server.mem).total), SizeOf(Memory(server.py).total)),
      Pair("已用内存", SizeOf(Memory(server.mem).used), SizeOf(Memory(server.py).used)),
      Pair("剩余内存", SizeOf(Memory(server.mem).free), SizeOf(Memory(server.py).free)),
      MemoryColumn("使用率", [
        MemoryValue("内存", NumberOf(memUsage), Some("%"), Some(UsageIsDanger(memUsage))),
        MemoryValue("Python", NumberOf(pyUsage), Some("%"), Some(UsageIsDanger(pyUsage)))])])
  }

  // ---------------------------------------------------------------- disk card

  /** A disk-table cell: plain text, or the usage with its danger flag. */
  datatype DiskCell = TextCell(text: Option<string>) | UsageCell(value: Option<string>, danger: bool)

  /**
   * `Number.parseInt(usage ?? '0') > 80`; NaN compares false. A missing usage is never
   * flagged, and a flagged one starts with a number above 80.
   */
  predicate DiskIsDanger(usage: Option<string>)
    ensures DiskIsDanger(usage) ==> usage.Some? && ParseInt(usage.value).Some? && ParseInt(usage.value).value > DANGER_THRESHOLD
  {
    match ParseInt(usage.GetOr("0"))
    case Some(n) => n > DANGER_THRESHOLD
    case None => false
  }

  /** What a cell shows, text or usage alike. */
  function CellValue(c: DiskCell): Option<string> {
    match c
    case TextCell(text) => text
    case UsageCell(value, _) => value
  }

  /** The disk field each column heading names; no field for any other heading. */
  function FieldUnder(f: SysFile, heading: string): Option<string> {
    if heading == "盘符路径" then f.dirName
    else if heading == "文件系统" then f.sysTypeName
    else if heading == "盘符名称" then f.typeName
    else if heading == "总大小" then f.total
    else if heading == "可用大小" then f.free
    else if heading == "已用大小" then f.used
    else if heading == "已用百分比" then f.usage
    else None
  }

  /** One row: six text cells in header order, then the usage cell. */
  function DiskRow(f: SysFile): (row: seq<DiskCell>)
    ensures |row| == 7
    ensures row[0] == TextCell(f.dirName) && row[1] == TextCell(f.sysTypeName) && row[2] == TextCell(f.typeName)
    ensures row[3] == TextCell(f.total) && row[4] == TextCell(f.free) && row[5] == TextCell(f.used)
    ensures row[6] == UsageCell(f.usage, DiskIsDanger(f.usage))
  {
    [TextCell(f.dirName), TextCell(f.sysTypeName), TextCell(f.typeName),
     TextCell(f.total), TextCell(f.free), TextCell(f.used),
     UsageCell(f.usage, DiskIsDanger(f.usage))]
  }

  /** `useDiskStatusCard` rows: one per disk, in input order; none when the list is missing. */
  function DiskRows(files: Option<seq<SysFile>>): (rows: seq<seq<DiskCell>>)
    ensures files.None? ==> rows == []
    ensures files.Some? ==> |rows| == |files.value| && forall i :: 0 <= i < |rows| ==> rows[i] == DiskRow(files.value[i])
  {
    if files.None? then []
    else seq(|files.value|, i requires 0 <= i < |files.value| => DiskRow(files.value[i]))
  }

  /** The header row has one heading per cell of a row. */
  const DISK_HEADERS := ["盘符路径", "文件系统", "盘符名称", "总大小", "可用大小", "已用大小", "已用百分比"]

  /** A usage written as an integer percentage is flagged exactly when it exceeds 80. */
  lemma DiskDangerOfPercent(n: int)
    ensures DiskIsDanger(Some(IntToString(n) + "%")) <==> n > DANGER_THRESHOLD
  {
    ParseIntOfIntToString(n, "%");
  }

  lemma PercentText85()
    ensures IntToString(85) + "%" == "85%"
  {
    assert NatToString(85) == "85";
  }

  lemma PercentText80()
    ensures IntToString(80) + "%" == "80%"
  {
    assert NatToString(80) == "80";
  }

  /** The backend's "85%" is flagged. */
  lemma DiskDanger85()
    ensures DiskIsDanger(Some("85%"))
  {
    PercentText85();
    DiskDangerOfPercent(85);
  }

  /** Exactly 80 % is not. */
  lemma DiskDanger80()
    ensures !DiskIsDanger(Some("80%"))
  {
    PercentText80();
    DiskDangerOfPercent(80);
  }

  /** A missing usage reads as "0", and text without a leading number is never flagged. */
  lemma DiskDangerEdges(s: string)
    requires s != [] && !IsJsWhiteSpace(s[0]) && !IsDecimalDigit(s[0]) && s[0] != '-' && s[0] != '+'
    ensures !DiskIsDanger(None)
    ensures !DiskIsDanger(Some(s))
  {
    MissingUsageIsZero();
    NonNumericUsage(s);
  }

  lemma MissingUsageIsZero()
    ensures ParseInt("0") == Some(0)
  {
    assert "0" == IntToString(0) + "";
    ParseIntOfIntToString(0, "");
  }

  lemma NonNumericUsage(s: string)
    requires s != [] && !IsJsWhiteSpace(s[0]) && !IsDecimalDigit(s[0]) && s[0] != '-' && s[0] != '+'
    ensures ParseInt(s) == None
  {
    assert TrimStart(s) == s;
    assert DigitRun(s, 10) == 0;
  }

  /**
   * Every cell of a row sits under the heading that names its field: the headings and
   * the cells line up one to one.
   */
  lemma DiskHeadingsNameTheirCells(f: SysFile)
    ensures |DISK_HEADERS| == |DiskRow(f)|
    ensures forall i :: 0 <= i < |DISK_HEADERS| ==> CellValue(DiskRow(f)[i]) == FieldUnder(f, DISK_HEADERS[i])
  {
    forall i | 0 <= i < |DISK_HEADERS|
      ensures CellValue(DiskRow(f)[i]) == FieldUnder(f, DISK_HEADERS[i])
    {
      HeadingNamesCell(f, i);
    }
  }

  lemma HeadingNamesCell(f: SysFile, i: nat)
    requires i < |DISK_HEADERS|
    ensures CellValue(DiskRow(f)[i]) == FieldUnder(f, DISK_HEADERS[i])
  {
    var h := DISK_HEADERS[i];
    if i == 0 {
      assert h == "盘符路径";
    } else if i == 1 {
      assert h[0] == '文';
    } else if i == 2 {
      assert h[2] == '名' && h != "盘符路径";
    } else if i == 3 {
      assert h[0] == '总';
    } else if i == 4 {
      assert h[0] == '可';
    } else if i == 5 {
      assert h[0] == '已' && |h| == 4 && h[2] == '大';
    } else {
      assert h[0] == '已' && |h| == 5;
    }
  }
}
