/**
  Backup configuration and PVC deletion policy are set at several levels and merged from
  the root down.  What each setting comes out as, said without the merges: the nearest
  level that says anything.
 */
module Levels {
  import opened Options
  import opened Backups

  // ------------------------------------------------------------ backups

  datatype Field =
    | Path | Size | StorageClass | AccessModes
    | Bucket | Region | Endpoint | KeyPrefix | EnvCredentials | Secret | Account
    | Tls | Encryption

  datatype Value = Text(text: string) | List(items: seq<string>) | Flag(on: bool) | Ref(id: nat)

  function OfText(s: string): Option<Value> { if s == "" then None else Some(Text(s)) }

  function OfRef(r: Option<nat>): Option<Value> { if r.None? then None else Some(Ref(r.value)) }

  function InFilesystem(f: Field, x: Filesystem): Option<Value>
  {
    match f
    case Path => OfText(x.path)
    case Size => OfText(x.storage.size)
    case StorageClass => OfText(x.storage.storageClass)
    case AccessModes => if x.storage.accessModes == [] then None else Some(List(x.storage.accessModes))
    case _ => None
  }

  function InS3(f: Field, x: S3): Option<Value>
  {
    match f
    case Bucket => OfText(x.bucket)
    case Region => OfText(x.region)
    case Endpoint => OfText(x.endpoint)
    case KeyPrefix => OfText(x.keyPrefix)
    case EnvCredentials => Some(Flag(x.envCredentials))
    case Secret => OfText(x.secret)
    case Account => OfText(x.account)
    case _ => None
  }

  predicate OfFilesystem(f: Field) { f.Path? || f.Size? || f.StorageClass? || f.AccessModes? }

  /** What a configuration says about a setting, if anything. */
  function Get(f: Field, b: Backup): Option<Value>
  {
    if f.Tls? then OfRef(b.tls)
    else if f.Encryption? then OfRef(b.encryption)
    else if OfFilesystem(f) then (if b.filesystem.None? then None else InFilesystem(f, b.filesystem.value))
    else if b.s3.None? then None else InS3(f, b.s3.value)
  }

  /** The setting means something for backups of this kind. */
  predicate Belongs(f: Field, kind: string)
  {
    f.Tls? || f.Encryption? || kind == if OfFilesystem(f) then FILESYSTEM else S3_KIND
  }

  /** What the schema admits: one of the two kinds, with its section. */
  predicate Valid(b: Option<Backup>)
  {
    b.Some? ==> (b.value.kind == FILESYSTEM || b.value.kind == S3_KIND) && SectionPresent(b.value)
  }

  /** Levels from the nearest to the root, merged. */
  function Chain(levels: seq<Option<Backup>>): Option<Backup>
  {
    if levels == [] then None else Merge(levels[0], Chain(levels[1..]))
  }

  /** The kind of the nearest level that is set. */
  function Kind(levels: seq<Option<Backup>>): string
  {
    if levels == [] then "" else if levels[0].Some? then levels[0].value.kind else Kind(levels[1..])
  }

  /** The levels before the first one of another kind. */
  function Span(levels: seq<Option<Backup>>, kind: string): seq<Option<Backup>>
  {
    if levels == [] || (levels[0].Some? && levels[0].value.kind != kind) then []
    else [levels[0]] + Span(levels[1..], kind)
  }

  /** What the nearest level that says anything about a setting says. */
  function Nearest(levels: seq<Option<Backup>>, f: Field): Option<Value>
  {
    if levels == [] then None
    else if levels[0].Some? && Get(f, levels[0].value).Some? then Get(f, levels[0].value)
    else Nearest(levels[1..], f)
  }

  /** A child of the same kind wins wherever it says anything; of another kind it replaces its parent whole. */
  lemma ChildWins(c: Backup, p: Backup, f: Field)
    requires Valid(Some(c)) && Valid(Some(p))
    ensures Merge(Some(c), Some(p)).Some? && Valid(Merge(Some(c), Some(p))) &&
            Merge(Some(c), Some(p)).value.kind == c.kind
    ensures c.kind != p.kind ==> Merge(Some(c), Some(p)) == Some(c)
    ensures c.kind == p.kind && Belongs(f, c.kind) ==>
              Get(f, Merge(Some(c), Some(p)).value) == Or(Get(f, c), Get(f, p))
  {
  }

  /** Levels that begin, once set, with another kind say nothing within the span. */
  lemma {:induction false} SilentSpan(levels: seq<Option<Backup>>, kind: string, f: Field)
    requires Kind(levels) != kind
    ensures Nearest(Span(levels, kind), f) == None
  {
    if levels != [] && levels[0].None? {
      SilentSpan(levels[1..], kind, f);
      NearestCons(levels[0], Span(levels[1..], kind), f);
    }
  }

  lemma NearestCons(level: Option<Backup>, rest: seq<Option<Backup>>, f: Field)
    ensures Nearest([level] + rest, f) ==
            if level.Some? then Or(Get(f, level.value), Nearest(rest, f)) else Nearest(rest, f)
  {
    assert ([level] + rest)[1..] == rest;
  }

  /**
    The merged backup has the kind of the nearest level that is set, and each setting is
    the one of the nearest level that says anything, up to the first level of another kind.
   */
  lemma {:induction false} NearestLevelWins(levels: seq<Option<Backup>>, f: Field)
    requires forall i | 0 <= i < |levels| :: Valid(levels[i])
    ensures var kind, merged := Kind(levels), Chain(levels);
            && (merged.None? <==> forall i | 0 <= i < |levels| :: levels[i].None?)
            && (merged.None? <==> kind == "") && Valid(merged)
            && (merged.Some? ==> merged.value.kind == kind)
            && (merged.Some? && Belongs(f, kind) ==> Get(f, merged.value) == Nearest(Span(levels, kind), f))
  {
    if levels != [] {
      var rest := levels[1..];
      assert forall i | 0 <= i < |rest| :: rest[i] == levels[i + 1];
      NearestLevelWins(rest, f);
      LevelStep(levels[0], rest, f);
      assert levels == [levels[0]] + rest;
      if levels[0].None? { assert forall i | 0 <= i < |levels| :: levels[i] == if i == 0 then None else rest[i - 1]; }
    }
  }

  lemma LevelStep(level: Option<Backup>, rest: seq<Option<Backup>>, f: Field)
    requires Valid(level) && Valid(Chain(rest)) && (Chain(rest).None? <==> Kind(rest) == "")
    requires Chain(rest).Some? ==> Chain(rest).value.kind == Kind(rest)
    requires Chain(rest).Some? && Belongs(f, Kind(rest)) ==>
               Get(f, Chain(rest).value) == Nearest(Span(rest, Kind(rest)), f)
    ensures var kind, merged := Kind([level] + rest), Chain([level] + rest);
            && merged == Merge(level, Chain(rest)) && Valid(merged) && (merged.Some? ==> merged.value.kind == kind)
            && (merged.Some? && Belongs(f, kind) ==> Get(f, merged.value) == Nearest(Span([level] + rest, kind), f))
  {
    var levels := [level] + rest;
    assert levels[1..] == rest;
    var kind := Kind(levels);
    NearestCons(level, Span(rest, kind), f);
    if level.Some? {
      assert Span(levels, kind) == [level] + Span(rest, kind);
      if Kind(rest) != kind { SilentSpan(rest, kind, f); }
      if Chain(rest).Some? { ChildWins(level.value, Chain(rest).value, f); }
    } else if Chain(rest).Some? {
      assert Span(levels, kind) == [level] + Span(rest, kind);
    }
  }

  /** The value a setting takes when no level says anything. */
  function Default(f: Field, kind: string): Option<Value>
  {
    if kind == FILESYSTEM && f.Path? then Some(Text(BACKUP_PATH))
    else if kind == FILESYSTEM && f.Size? then Some(Text(BACKUP_SIZE))
    else None
  }

  lemma DefaultedSays(b: Backup, f: Field)
    requires b.kind == FILESYSTEM || b.kind == S3_KIND
    requires Belongs(f, b.kind)
    ensures Defaulted(b).kind == b.kind && Get(f, Defaulted(b)) == Or(Get(f, b), Default(f, b.kind))
  {
  }

  lemma SilentLevels(levels: seq<Option<Backup>>, kind: string, f: Field)
    requires kind != "" && Kind(levels) == ""
    ensures Nearest(Span(levels, kind), f) == None
  {
    SilentSpan(levels, kind, f);
  }

  /** Levels from the shard up, resolved: nearest level, then default; a filesystem backup when no level is set. */
  lemma ResolvedBackup(own: Option<Backup>, above: seq<Option<Backup>>, f: Field)
    requires Valid(own) && forall i | 0 <= i < |above| :: Valid(above[i])
    ensures var levels, backup := [own] + above, ShardBackup(own, Chain(above));
            var kind := if Kind(levels) == "" then FILESYSTEM else Kind(levels);
            backup.kind == kind &&
            (Belongs(f, kind) ==> Get(f, backup) == Or(Nearest(Span(levels, kind), f), Default(f, kind)))
  {
    var levels := [own] + above;
    assert levels[1..] == above;
    assert forall i | 0 <= i < |levels| :: Valid(levels[i]);
    NearestLevelWins(levels, f);
    if Kind(levels) == "" { SilentLevels(levels, FILESYSTEM, f); }
    var merged := Merge(own, Chain(above));
    var b := if merged.Some? then merged.value else Backup(FILESYSTEM, None, None, None, None);
    if Belongs(f, b.kind) { DefaultedSays(b, f); } else { DefaultedSays(b, Tls); }
  }

  // ------------------------------------------------------------ PVC deletion policy

  /** Levels from the nearest to the root, merged. */
  function PvcChain(levels: seq<Option<PvcPolicy>>): Option<PvcPolicy>
    requires levels != []
  {
    if |levels| == 1 then levels[0] else MergePvcPolicy(levels[0], PvcChain(levels[1..]))
  }

  function Says(p: Option<PvcPolicy>, scaled: bool): string
  {
    if p.None? then "" else if scaled then p.value.whenScaled else p.value.whenDeleted
  }

  function NearestSaying(levels: seq<Option<PvcPolicy>>, scaled: bool): string
  {
    if levels == [] then "" else OrText(Says(levels[0], scaled), NearestSaying(levels[1..], scaled))
  }

  /** Each half of the merged policy is what the nearest level says that says anything about it. */
  lemma {:induction false} NearestPolicyWins(levels: seq<Option<PvcPolicy>>, scaled: bool)
    requires levels != []
    ensures Says(PvcChain(levels), scaled) == NearestSaying(levels, scaled)
  {
    if |levels| == 1 { assert levels[1..] == []; } else { NearestPolicyWins(levels[1..], scaled); }
  }

  const DELETE := "Delete"

  /** The claim goes with its shard. */
  predicate GoesWithShard(policy: Option<PvcPolicy>) { policy.Some? && policy.value.whenDeleted == DELETE }

  /** The claim goes when its pod is scaled away; nothing said means it does. */
  predicate GoesWhenScaled(policy: Option<PvcPolicy>)
  {
    (if policy.Some? && policy.value.whenScaled != "" then policy.value else PvcPolicy("", DELETE)).whenScaled == DELETE
  }

  /**
    Over pool, shard, table group and cluster: a claim goes with its shard exactly when the
    nearest level that says anything says Delete, and on scaling also when none does.
   */
  lemma ClaimsGoByNearestPolicy(levels: seq<Option<PvcPolicy>>)
    requires levels != []
    ensures GoesWithShard(PvcChain(levels)) <==> NearestSaying(levels, false) == DELETE
    ensures GoesWhenScaled(PvcChain(levels)) <==> NearestSaying(levels, true) in {"", DELETE}
  {
    NearestPolicyWins(levels, false);
    NearestPolicyWins(levels, true);
  }

  /** Four levels that say nothing: kept when the shard goes, deleted when the pod is scaled away. */
  lemma UnsaidIsDeletedOnScaling()
    ensures var levels: seq<Option<PvcPolicy>> := [None, None, None, None];
            !GoesWithShard(PvcChain(levels)) && GoesWhenScaled(PvcChain(levels))
  {
    var levels: seq<Option<PvcPolicy>> := [None, None, None, None];
    ClaimsGoByNearestPolicy(levels);
    assert levels[1..] == [None, None, None] && levels[1..][1..] == [None, None] && levels[1..][1..][1..] == [None];
  }
}
