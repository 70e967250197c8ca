/** The sizes a configuration is given, read back from its fields, and what they promise together. */
module SizedFields {
  import opened Options
  import opened Sizing

  /** The field reads as this size, to the kB. */
  predicate Reads(field: string, bytes: int) { bytes >= 0 && SizeBytes(field) == Some(bytes / KIB * KIB) }

  // ------------------------------------------------------------ CPU

  /** The larger of the two. */
  predicate Largest(r: int, a: int, b: int) { (r == a || r == b) && r >= a && r >= b }

  /** A worker for every core, and half as many for one query, unless there were more; maintenance stops at four. */
  lemma SizedCpu(c: Values, mem: int, cpu: int, disk: int)
    ensures var v, cores := Sized(c, mem, cpu, disk), cpu / 1000;
            if cpu > 0
            then
              && Largest(v.workers, cores, c.workers) && Largest(v.parallel, cores, c.parallel)
              && Largest(v.perGather, cores / 2, c.perGather)
              && (v.maintenance == 4 || Largest(v.maintenance, cores / 2, c.maintenance)) && v.maintenance <= 4
              && (v.maintenance == 4 ==> cores / 2 >= 4 || c.maintenance >= 4)
            else
              v.workers == c.workers && v.parallel == c.parallel && v.perGather == c.perGather &&
              v.maintenance == c.maintenance
  {
  }

  // ------------------------------------------------------------ memory

  /** The connection limit by memory in bytes. */
  lemma ConnectionSteps(mem: int)
    requires mem > 0
    ensures mem < 2 * GIB ==> Connections(mem) == 60
    ensures 2 * GIB <= mem < 4 * GIB ==> Connections(mem) == 90
    ensures 4 * GIB <= mem < 8 * GIB ==> Connections(mem) == 120
    ensures 8 * GIB <= mem < 16 * GIB ==> Connections(mem) == 160
    ensures 16 * GIB <= mem < 32 * GIB ==> Connections(mem) == 240
    ensures 32 * GIB <= mem < 64 * GIB ==> Connections(mem) == 380
    ensures 64 * GIB <= mem < 128 * GIB ==> Connections(mem) == 480
    ensures 128 * GIB <= mem < 192 * GIB ==> Connections(mem) == 490
    ensures 192 * GIB <= mem < 384 * GIB ==> Connections(mem) == 500
    ensures 384 * GIB <= mem < 768 * GIB ==> Connections(mem) == 750
    ensures 768 * GIB <= mem ==> Connections(mem) == 1000
  {
  }

  lemma SenderSteps(mem: int)
    requires mem > 0
    ensures mem < 2 * GIB ==> Senders(mem) == 5
    ensures 2 * GIB <= mem < 16 * GIB ==> Senders(mem) == 10
    ensures 16 * GIB <= mem < 32 * GIB ==> Senders(mem) == 24
    ensures 32 * GIB <= mem ==> Senders(mem) == 80
  {
  }

  /** Without memory to go by, every memory setting stays. */
  lemma NoMemoryNoChange(c: Values, mem: int, cpu: int, disk: int)
    requires mem <= 0
    ensures var v := Sized(c, mem, cpu, disk);
            && v.connections == c.connections && v.senders == c.senders && v.slots == c.slots
            && v.sharedBuffers == c.sharedBuffers && v.cacheSize == c.cacheSize && v.workMem == c.workMem
            && v.maintenanceMem == c.maintenanceMem && v.walBuffers == c.walBuffers
  {
  }

  /** Shared buffers a quarter, the cache three quarters, maintenance a sixteenth up to 2GB; a slot for each sender. */
  lemma SizedMemory(c: Values, mem: int, cpu: int, disk: int)
    requires 0 < mem <= INT64_MAX
    ensures var v := Sized(c, mem, cpu, disk);
            && v.connections == Connections(mem) && v.senders == Senders(mem) == v.slots
            && Reads(v.sharedBuffers, mem / 4)
            && (mem * 3 <= INT64_MAX ==> Reads(v.cacheSize, mem * 3 / 4))
            && Reads(v.maintenanceMem, if mem < 32 * GIB then mem / 16 else 2 * GIB)
  {
    var m := WithMemory(WithCpu(c, cpu), mem);
    FormatReadsBack(mem / 4);
    if mem * 3 <= INT64_MAX { FormatReadsBack(mem * 3 / 4); }
    FormatReadsBack(Min(mem / 16, 2 * GIB));
    assert Min(mem / 16, 2 * GIB) == if mem < 32 * GIB then mem / 16 else 2 * GIB;
  }

  /** The log's buffers are three hundredths of the shared ones, from 32kB to 16MB. */
  lemma SizedWalBuffers(c: Values, mem: int, cpu: int, disk: int)
    requires mem > 0
    ensures var v, share := Sized(c, mem, cpu, disk), mem / 4 * 3 / 100;
            Reads(v.walBuffers, if share < 32 * KIB then 32 * KIB else if share > 16 * MIB then 16 * MIB else share)
  {
    FormatReadsBack(Clamp(mem / 4 * 3 / 100, 32 * KIB, 16 * MIB));
  }

  lemma SizedWorkMem(c: Values, mem: int, cpu: int, disk: int)
    requires mem > 0
    ensures var v := Sized(c, mem, cpu, disk);
            WorkMem(mem, v.connections, v.perGather) >= 64 * KIB &&
            Reads(v.workMem, WorkMem(mem, v.connections, v.perGather))
  {
    var v := Sized(c, mem, cpu, disk);
    FormatReadsBack(WorkMem(mem, v.connections, v.perGather));
  }

  /** So much each, for so many, and not a byte more. */
  predicate Shares(raw: nat, sorts: nat, rest: nat) { raw * sorts <= rest < (raw + 1) * sorts }

  lemma LargestShare(rest: nat, a: nat, workers: nat)
    requires a > 0 && workers > 0
    ensures Shares(rest / a / workers, a * workers, rest)
  {
    DivideTwice(rest, a, workers, rest / a / workers);
    DivideTwice(rest, a, workers, rest / a / workers + 1);
  }

  /** One more byte each would not fit, and above the floor the shares do fit. */
  predicate ShareAbove(floor: nat, work: int, sorts: nat, rest: nat)
  {
    work >= floor && rest < (work + 1) * sorts && (work > floor ==> work * sorts <= rest)
  }

  lemma ShareOrFloor(rest: nat, sorts: nat, raw: nat, floor: nat)
    requires Shares(raw, sorts, rest)
    ensures ShareAbove(floor, Max(raw, floor), sorts, rest)
  {
    var work := Max(raw, floor);
    assert (work + 1) * sorts == (raw + 1) * sorts + (work - raw) * sorts;
  }

  lemma DividedShare(rest: nat, a: nat, workers: nat, floor: nat, work: int)
    requires a > 0 && workers > 0 && work == Max(rest / a / workers, floor)
    ensures ShareAbove(floor, work, a * workers, rest)
  {
    LargestShare(rest, a, workers);
    ShareOrFloor(rest, a * workers, rest / a / workers, floor);
  }

  /** Memory for one sort is 64kB, or the largest share of what the shared buffers leave, whichever is more. */
  lemma WorkMemIsLargestShare(mem: nat, connections: nat, perGather: int)
    requires connections > 0
    ensures ShareAbove(64 * KIB, WorkMem(mem, connections, perGather), connections * 3 * Max(perGather, 1),
                       mem - mem / 4)
  {
    DividedShare(mem - mem / 4, connections * 3, Max(perGather, 1), 64 * KIB, WorkMem(mem, connections, perGather));
  }

  lemma RoundedDown(x: nat)
    ensures x / KIB * KIB <= x && (x >= 64 * KIB ==> x / KIB * KIB >= 64 * KIB)
    ensures x % KIB == 0 ==> x / KIB * KIB == x
  {
  }

  lemma RoundedBudget(shared: nat, rest: nat, users: nat, work: nat)
    requires work >= 64 * KIB && (users * work <= rest <==> users * (64 * KIB) <= rest)
    requires users * (64 * KIB) > rest ==> work == 64 * KIB
    ensures shared / KIB * KIB + users * (work / KIB * KIB) <= shared + rest <==>
            shared / KIB * KIB + users * (64 * KIB) <= shared + rest
  {
    var rounded := work / KIB * KIB;
    RoundedDown(work);
    RoundedDown(shared);
    assert 64 * KIB <= rounded <= work;
    assert users * (64 * KIB) <= users * rounded <= users * work;
  }

  lemma FloorWhenTight(rest: nat, a: nat, workers: nat)
    requires a > 0 && workers > 0 && a * workers * (64 * KIB) > rest
    ensures rest / a / workers < 64 * KIB
  {
    DivideTwice(rest, a, workers, 64 * KIB);
  }

  lemma RoundedSizesFit(mem: nat, perGather: int)
    requires mem > 0
    ensures var sorts := Connections(mem) * 3 * Max(perGather, 1);
            mem / 4 / KIB * KIB + sorts * (WorkMem(mem, Connections(mem), perGather) / KIB * KIB) <= mem <==>
            mem / 4 / KIB * KIB + sorts * (64 * KIB) <= mem
  {
    var share, workers := Connections(mem) * 3, Max(perGather, 1);
    MemoryBudget(mem, perGather);
    if share * workers * (64 * KIB) > mem - mem / 4 { FloorWhenTight(mem - mem / 4, share, workers); }
    RoundedBudget(mem / 4, mem - mem / 4, share * workers, WorkMem(mem, Connections(mem), perGather));
  }

  /** Shared buffers and all sorts, `each` as big as this, fit in the memory. */
  predicate Fits(v: Values, each: nat, mem: int)
  {
    var shared := SizeBytes(v.sharedBuffers);
    shared.Some? && shared.value + v.connections * 3 * Max(v.perGather, 1) * each <= mem
  }

  /** As written, shared buffers and every connection's parallel sorts fit exactly when the 64kB floor does. */
  lemma WrittenSizesFit(c: Values, mem: int, cpu: int, disk: int)
    requires mem > 0
    ensures var v := Sized(c, mem, cpu, disk);
            && SizeBytes(v.workMem).Some?
            && (Fits(v, SizeBytes(v.workMem).value, mem) <==> Fits(v, 64 * KIB, mem))
  {
    var v := Sized(c, mem, cpu, disk);
    FormatReadsBack(mem / 4);
    SizedWorkMem(c, mem, cpu, disk);
    RoundedSizesFit(mem, v.perGather);
  }

  // ------------------------------------------------------------ disk

  function MaxWalMB(vol: nat): nat { if vol < 256 then 64 else if vol > 16384 then 4096 else vol / 4 }

  function MinWalMB(vol: nat): nat { if MaxWalMB(vol) < 128 then 32 else MaxWalMB(vol) / 4 }

  function KeepMB(vol: nat): nat { if vol < 256 then 32 else if vol > 8000 then 1000 else vol / 8 }

  lemma WalByVolume(disk: nat)
    ensures var vol := disk / MIB;
            DeriveWal(disk, WAL_SEGMENT) == Some(Wal(MinWalMB(vol), MaxWalMB(vol), KeepMB(vol), MaxWalMB(vol)))
  {
    var vol := disk / MIB;
    assert WAL_SEGMENT % MIB == 0 && WAL_SEGMENT / MIB == 16;
    assert Clamp(vol / 4, 64, 4096) == MaxWalMB(vol);
    assert Clamp(MaxWalMB(vol) / 4, 32, 1024) == MinWalMB(vol);
    assert Clamp(vol / 8, 32, 1000) == KeepMB(vol);
  }

  /** The four log sizes by the volume's megabytes. */
  lemma SizedDisk(c: Values, mem: int, cpu: int, disk: int)
    requires disk > 0
    ensures var v, vol := Sized(c, mem, cpu, disk), disk / MIB;
            && SizeBytes(v.maxWal) == SizeBytes(v.slotKeep) == Some(MaxWalMB(vol) * MIB)
            && SizeBytes(v.minWal) == Some(MinWalMB(vol) * MIB) && SizeBytes(v.walKeep) == Some(KeepMB(vol) * MIB)
  {
    var vol := disk / MIB;
    WalByVolume(disk);
    MegaReads(MinWalMB(vol));
    MegaReads(MaxWalMB(vol));
    MegaReads(KeepMB(vol));
  }

  lemma BoundsByVolume(vol: nat)
    ensures 2 * 16 <= MinWalMB(vol) && 2 * MinWalMB(vol) <= MaxWalMB(vol) <= 4096 && 16 <= KeepMB(vol)
    ensures MaxWalMB(vol) <= vol <==> 64 <= vol
  {
  }

  /**
    What PostgreSQL needs: two segments at least, room between the two limits, one segment
    kept; and a volume of 64MB or more holds it all.
   */
  predicate LogSizesServe(min: nat, max: nat, keep: nat, disk: int)
  {
    && 2 * (16 * MIB) <= min && 2 * min <= max <= 4 * GIB && 16 * MIB <= keep
    && (max <= disk <==> 64 * MIB <= disk)
  }

  lemma WholeMegabytes(disk: nat, mb: nat)
    ensures mb <= disk / MIB <==> mb * MIB <= disk
  {
  }

  lemma ServesByVolume(disk: nat)
    ensures var vol := disk / MIB; LogSizesServe(MinWalMB(vol) * MIB, MaxWalMB(vol) * MIB, KeepMB(vol) * MIB, disk)
  {
    BoundsByVolume(disk / MIB);
    WholeMegabytes(disk, MaxWalMB(disk / MIB));
    WholeMegabytes(disk, 64);
  }

  /** So do the sizes as written. */
  lemma WrittenWalBounds(c: Values, mem: int, cpu: int, disk: int)
    requires disk > 0
    ensures var v := Sized(c, mem, cpu, disk);
            var min, max, keep := SizeBytes(v.minWal), SizeBytes(v.maxWal), SizeBytes(v.walKeep);
            && min.Some? && max.Some? && keep.Some? && SizeBytes(v.slotKeep) == max
            && LogSizesServe(min.value, max.value, keep.value, disk)
  {
    SizedDisk(c, mem, cpu, disk);
    ServesByVolume(disk);
  }

  lemma NoDiskNoChange(c: Values, mem: int, cpu: int, disk: int)
    requires disk <= 0
    ensures var v := Sized(c, mem, cpu, disk);
            v.minWal == c.minWal && v.maxWal == c.maxWal && v.walKeep == c.walKeep && v.slotKeep == c.slotKeep
  {
  }
}
