/** Sizing postgresql.conf from a shard's memory, CPU and disk. */
module Sizing {
  import opened Options

  const KIB := 1024
  const MIB := 1024 * 1024
  const GIB := 1024 * 1024 * 1024
  const INT64_MAX := 0x7fff_ffff_ffff_ffff
  const TWO_64 := 0x1_0000_0000_0000_0000

  predicate IsInt64(x: int) { -INT64_MAX - 1 <= x <= INT64_MAX }

  /** Signed 64-bit wrap-around. */
  function Wrap(x: int): (r: int)
    ensures IsInt64(r) && (IsInt64(x) ==> r == x)
  {
    var m := x % TWO_64;
    if m <= INT64_MAX then m else m - TWO_64
  }

  /** Division that rounds toward zero. */
  function Quotient(a: int, b: nat): int
    requires b > 0
  {
    if a >= 0 then a / b else -((-a) / b)
  }

  function Max(a: int, b: int): int { if a >= b then a else b }

  function Min(a: int, b: int): int { if a <= b then a else b }

  function Clamp(v: int, lo: int, hi: int): int { Min(Max(v, lo), hi) }

  // ------------------------------------------------------------ size strings

  function Digit(d: nat): char requires d < 10 { ('0' as int + d) as char }

  predicate Digits(s: string) { forall i | 0 <= i < |s| :: '0' <= s[i] <= '9' }

  function Decimal(n: nat): (s: string)
    ensures s != "" && Digits(s)
  {
    if n < 10 then [Digit(n)] else Decimal(n / 10) + [Digit(n % 10)]
  }

  function DecimalValue(s: string): nat
    requires Digits(s)
  {
    if s == "" then 0 else 10 * DecimalValue(s[..|s| - 1]) + (s[|s| - 1] as int - '0' as int)
  }

  lemma {:induction false} DecimalReadsBack(n: nat)
    ensures DecimalValue(Decimal(n)) == n
  {
    var s := Decimal(n);
    if n < 10 { assert s[..0] == ""; }
    else { DecimalReadsBack(n / 10); assert s[..|s| - 1] == Decimal(n / 10); }
  }

  /** The largest of GB, MB and kB that divides the size. */
  function FormatKb(kb: nat): string
  {
    if kb % MIB == 0 then Decimal(kb / MIB) + "GB"
    else if kb % KIB == 0 then Decimal(kb / KIB) + "MB"
    else Decimal(kb) + "kB"
  }

  function FormatBytes(b: int): string
  {
    var kb := Quotient(b, KIB);
    if kb <= 0 then "0kB" else FormatKb(kb)
  }

  function UnitBytes(unit: string): nat
  {
    if unit == "kB" then KIB else if unit == "MB" then MIB else if unit == "GB" then GIB else 0
  }

  /** The bytes a size string stands for. */
  function SizeBytes(s: string): Option<nat>
  {
    if |s| < 3 || !Digits(s[..|s| - 2]) || UnitBytes(s[|s| - 2..]) == 0 then None
    else Some(DecimalValue(s[..|s| - 2]) * UnitBytes(s[|s| - 2..]))
  }

  lemma SuffixReads(n: nat, unit: string)
    requires |unit| == 2 && UnitBytes(unit) > 0
    ensures SizeBytes(Decimal(n) + unit) == Some(n * UnitBytes(unit))
  {
    var s := Decimal(n) + unit;
    DecimalReadsBack(n);
    assert s[..|s| - 2] == Decimal(n) && s[|s| - 2..] == unit;
  }

  lemma GigaReads(n: nat)
    ensures SizeBytes(Decimal(n) + "GB") == Some(n * GIB)
  {
    SuffixReads(n, "GB");
  }

  lemma MegaReads(n: nat)
    ensures SizeBytes(Decimal(n) + "MB") == Some(n * MIB)
  {
    SuffixReads(n, "MB");
  }

  lemma KiloReads(n: nat)
    ensures SizeBytes(Decimal(n) + "kB") == Some(n * KIB)
  {
    SuffixReads(n, "kB");
  }

  lemma CountReads(kb: nat)
    ensures SizeBytes(FormatKb(kb)) == Some(kb * KIB)
  {
    if kb % MIB == 0 { GigaReads(kb / MIB); }
    else if kb % KIB == 0 { MegaReads(kb / KIB); }
    else { KiloReads(kb); }
  }

  lemma ZeroReads()
    ensures SizeBytes("0kB") == Some(0)
  {
    KiloReads(0);
    assert Decimal(0) + "kB" == "0kB";
  }

  /** A size string stands for the size rounded down to a kB. */
  lemma FormatReadsBack(b: nat)
    ensures SizeBytes(FormatBytes(b)) == Some(b / KIB * KIB)
  {
    if b / KIB == 0 { ZeroReads(); } else { CountReads(b / KIB); }
  }

  // ------------------------------------------------------------ write-ahead log

  datatype Wal = Wal(minMB: nat, maxMB: nat, keepMB: nat, slotMB: nat)

  const WAL_CAP_MB := 4096
  const WAL_SEGMENT := 16 * MIB

  function DeriveWal(volume: nat, segment: nat): Option<Wal>
  {
    if segment == 0 || segment % MIB != 0 then None
    else
      var vol, seg := volume / MIB, segment / MIB;
      var maxFloor := Max(64, 4 * seg);
      if maxFloor > WAL_CAP_MB then None
      else
        var minFloor := Max(32, 2 * seg);
        var maxWal := Clamp(vol / 4, maxFloor, WAL_CAP_MB);
        Some(Wal(Clamp(maxWal / 4, minFloor, Max(1024, minFloor)), maxWal,
                 Clamp(vol / 8, Max(32, seg), Max(1000, seg)), maxWal))
  }

  /** Which segment sizes are supported, and what PostgreSQL needs of the result. */
  lemma WalBounds(volume: nat, segment: nat)
    ensures DeriveWal(volume, segment).Some? <==> MIB <= segment <= 1024 * MIB && segment % MIB == 0
    ensures DeriveWal(volume, segment).Some? ==>
              var w, seg := DeriveWal(volume, segment).value, segment / MIB;
              2 * seg <= w.minMB && 2 * w.minMB <= w.maxMB <= WAL_CAP_MB && seg <= w.keepMB && w.slotMB == w.maxMB
  {
    if segment % MIB == 0 { assert segment == segment / MIB * MIB; }
  }

  /** The log's allowance fits the volume exactly when the volume holds the floor. */
  lemma WalFitsVolume(volume: nat, segment: nat)
    requires DeriveWal(volume, segment).Some?
    ensures DeriveWal(volume, segment).value.maxMB <= volume / MIB <==> Max(64, 4 * (segment / MIB)) <= volume / MIB
  {
  }

  // ------------------------------------------------------------ the configuration

  datatype Values = Values(
    connections: int, workers: int, parallel: int, perGather: int, maintenance: int, senders: int, slots: int,
    sharedBuffers: string, cacheSize: string, maintenanceMem: string, walBuffers: string, workMem: string,
    minWal: string, maxWal: string, walKeep: string, slotKeep: string)

  function Connections(mem: int): int
  {
    var g := Quotient(mem, GIB);
    if g < 2 then 60 else if g < 4 then 90 else if g < 8 then 120 else if g < 16 then 160 else if g < 32 then 240
    else if g < 64 then 380 else if g < 128 then 480 else if g < 192 then 490 else if g < 384 then 500
    else if g < 768 then 750 else 1000
  }

  function Senders(mem: int): int
  {
    var g := Quotient(mem, GIB);
    if g < 2 then 5 else if g < 16 then 10 else if g < 32 then 24 else 80
  }

  function WithCpu(c: Values, cpu: int): Values
  {
    if cpu <= 0 then c
    else
      var cores := cpu / 1000;
      c.(workers := Max(cores, c.workers), parallel := Max(cores, c.parallel), perGather := Max(cores / 2, c.perGather),
         maintenance := Min(Max(cores / 2, c.maintenance), 4))
  }

  /** Memory for one sort: what is left beside the shared buffers, over connections and parallel workers. */
  function WorkMem(mem: nat, connections: int, perGather: int): int
  {
    Max((mem - mem / 4) / (Max(connections, 1) * 3) / Max(perGather, 1), 64 * KIB)
  }

  function WithMemory(c: Values, mem: int): Values
  {
    if mem <= 0 then c
    else
      var shared := mem / 4;
      c.(connections := Connections(mem), senders := Senders(mem), slots := Senders(mem),
         sharedBuffers := FormatBytes(shared), cacheSize := FormatBytes(Quotient(Wrap(mem * 3), 4)),
         maintenanceMem := FormatBytes(Min(mem / 16, 2 * GIB)),
         walBuffers := FormatBytes(Clamp(shared * 3 / 100, 32 * KIB, 16 * MIB)),
         workMem := FormatBytes(WorkMem(mem, Connections(mem), c.perGather)))
  }

  function Megabytes(n: nat): string { Decimal(n) + "MB" }

  function WithDisk(c: Values, disk: int): Values
  {
    if disk <= 0 || DeriveWal(disk, WAL_SEGMENT).None? then c
    else
      var w := DeriveWal(disk, WAL_SEGMENT).value;
      c.(minWal := Megabytes(w.minMB), maxWal := Megabytes(w.maxMB), walKeep := Megabytes(w.keepMB),
         slotKeep := Megabytes(w.slotMB))
  }

  function Sized(c: Values, mem: int, cpu: int, disk: int): Values { WithDisk(WithMemory(WithCpu(c, cpu), mem), disk) }

  class Config {
    var connections: int
    var workers: int
    var parallel: int
    var perGather: int
    var maintenance: int
    var senders: int
    var slots: int
    var sharedBuffers: string
    var cacheSize: string
    var maintenanceMem: string
    var walBuffers: string
    var workMem: string
    var minWal: string
    var maxWal: string
    var walKeep: string
    var slotKeep: string

    function Value(): Values
      reads this
    {
      Values(connections, workers, parallel, perGather, maintenance, senders, slots, sharedBuffers, cacheSize,
             maintenanceMem,
             walBuffers, workMem, minWal, maxWal, walKeep, slotKeep)
    }

    method ApplyCpu(cpu: int)
      modifies `workers, `parallel, `perGather, `maintenance
      ensures Value() == WithCpu(old(Value()), cpu)
    {
      if cpu > 0 {
        var cores := cpu / 1000;
        workers := Max(cores, workers);
        parallel := Max(cores, parallel);
        perGather := Max(cores / 2, perGather);
        maintenance := Min(Max(cores / 2, maintenance), 4);
      }
    }

    method ApplyMemory(mem: int)
      modifies `connections, `senders, `slots, `sharedBuffers, `cacheSize, `maintenanceMem, `walBuffers, `workMem
      ensures Value() == WithMemory(old(Value()), mem)
    {
      if mem > 0 {
        connections := Connections(mem);
        senders := Senders(mem);
        slots := senders;
        var shared := mem / 4;
        sharedBuffers := FormatBytes(shared);
        cacheSize := FormatBytes(Quotient(Wrap(mem * 3), 4));
        maintenanceMem := FormatBytes(Min(mem / 16, 2 * GIB));
        walBuffers := FormatBytes(Clamp(shared * 3 / 100, 32 * KIB, 16 * MIB));
        workMem := FormatBytes(WorkMem(mem, connections, perGather));
      }
    }

    method ApplyDisk(disk: int)
      modifies `minWal, `maxWal, `walKeep, `slotKeep
      ensures Value() == WithDisk(old(Value()), disk)
    {
      if disk > 0 {
        WalBounds(disk, WAL_SEGMENT);
        var w := DeriveWal(disk, WAL_SEGMENT).value;
        minWal := Megabytes(w.minMB);
        maxWal := Megabytes(w.maxMB);
        walKeep := Megabytes(w.keepMB);
        slotKeep := Megabytes(w.slotMB);
      }
    }

    /** CPU first, since memory for sorts is shared out over the parallel workers. */
    method ApplyResourceSizing(mem: int, cpu: int, disk: int)
      requires IsInt64(mem) && IsInt64(cpu) && IsInt64(disk)
      modifies this
      ensures Value() == Sized(old(Value()), mem, cpu, disk)
    {
      ApplyCpu(cpu);
      ApplyMemory(mem);
      ApplyDisk(disk);
    }
  }

  // ------------------------------------------------------------ what the sizes promise

  lemma CpuTwice(c: Values, cpu: int)
    ensures WithCpu(WithCpu(c, cpu), cpu) == WithCpu(c, cpu)
  {
  }

  lemma DiskLast(c: Values, cpu: int, mem: int, disk: int)
    ensures WithCpu(WithDisk(c, disk), cpu) == WithDisk(WithCpu(c, cpu), disk)
    ensures WithMemory(WithDisk(c, disk), mem) == WithDisk(WithMemory(c, mem), disk)
  {
  }

  lemma MemoryOverwrites(c: Values, d: Values, mem: int)
    requires mem > 0 && d == WithMemory(c, mem).(workMem := d.workMem)
    ensures WithMemory(d, mem) == WithMemory(c, mem)
  {
  }

  /** Sizing a sized configuration changes nothing. */
  lemma SizingTwice(c: Values, mem: int, cpu: int, disk: int)
    ensures Sized(Sized(c, mem, cpu, disk), mem, cpu, disk) == Sized(c, mem, cpu, disk)
  {
    var k := WithCpu(c, cpu);
    var m := WithMemory(k, mem);
    CpuTwice(c, cpu);
    CpuLeavesMemory(k, mem, cpu);
    DiskLast(m, cpu, mem, disk);
    if mem > 0 { MemoryOverwrites(k, m, mem); }
    DiskTwice(m, disk);
  }

  lemma CpuLeavesMemory(k: Values, mem: int, cpu: int)
    requires WithCpu(k, cpu) == k
    ensures WithCpu(WithMemory(k, mem), cpu) == WithMemory(k, mem)
  {
  }

  lemma DiskTwice(c: Values, disk: int)
    ensures WithDisk(WithDisk(c, disk), disk) == WithDisk(c, disk)
  {
  }

  lemma DivideAtLeast(x: nat, a: nat, n: nat)
    requires a > 0
    ensures x / a >= n <==> x >= n * a
  {
    var q, r := x / a, x % a;
    assert x == q * a + r;
    if q >= n { assert q * a >= n * a; } else { assert n * a >= (q + 1) * a == q * a + a; }
  }

  lemma DivideTwice(x: nat, a: nat, b: nat, n: nat)
    requires a > 0 && b > 0
    ensures x / a / b >= n <==> x >= n * (a * b)
  {
    DivideAtLeast(x / a, b, n);
    DivideAtLeast(x, a, n * b);
    assert n * b * a == n * (a * b);
  }

  /** Shared buffers and every connection's parallel sorts fit in memory exactly when the 64kB floor does. */
  lemma MemoryBudget(mem: nat, perGather: int)
    requires mem > 0
    ensures var conns, workers := Connections(mem), Max(perGather, 1);
            mem / 4 + conns * 3 * workers * WorkMem(mem, conns, perGather) <= mem <==>
            mem / 4 + conns * 3 * workers * (64 * KIB) <= mem
  {
    Budget(mem - mem / 4, Connections(mem) * 3, Max(perGather, 1), 64 * KIB);
  }

  lemma Budget(rest: nat, a: nat, workers: nat, floor: nat)
    requires a > 0 && workers > 0
    ensures a * workers * Max(rest / a / workers, floor) <= rest <==> a * workers * floor <= rest
  {
    DivideTwice(rest, a, workers, rest / a / workers);
    DivideTwice(rest, a, workers, floor);
    Larger(rest, rest / a / workers, a * workers, floor);
  }

  lemma Larger(rest: nat, raw: nat, share: nat, floor: nat)
    requires rest >= raw * share && (raw >= floor <==> rest >= floor * share)
    ensures share * Max(raw, floor) <= rest <==> share * floor <= rest
  {
    assert raw * share == share * raw && floor * share == share * floor;
  }

  /** The planner is told three quarters of memory exactly when tripling it stays within 64 bits. */
  lemma CacheSizeExact(mem: int)
    requires 0 < mem <= INT64_MAX
    ensures Quotient(Wrap(mem * 3), 4) == mem * 3 / 4 <==> mem * 3 <= INT64_MAX
  {
    if mem * 3 > INT64_MAX {
      var m := mem * 3 % TWO_64;
      assert m == mem * 3 || m == mem * 3 - TWO_64;
    }
  }

  /** More memory never means fewer connections, senders or slots. */
  lemma MoreMemoryNeverLess(a: int, b: int)
    requires 0 < a <= b
    ensures Connections(a) <= Connections(b) && Senders(a) <= Senders(b)
    ensures 60 <= Connections(a) <= 1000 && 5 <= Senders(a) <= 80
  {
    assert a / GIB <= b / GIB;
  }
}
