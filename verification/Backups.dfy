/** Backup configuration and PVC deletion policy: merging a child over its parent, and defaulting. */
module Backups {
  import opened Options

  // An absent optional field, an empty string and an empty list all mean "inherit".

  function Or<T>(a: Option<T>, b: Option<T>): Option<T> { if a.Some? then a else b }

  function OrText(a: string, b: string): string { if a != "" then a else b }

  function OrList<T>(a: seq<T>, b: seq<T>): seq<T> { if |a| > 0 then a else b }

  datatype Storage = Storage(size: string, storageClass: string, accessModes: seq<string>)

  const NO_STORAGE := Storage("", "", [])

  function MergeStorage(child: Storage, parent: Storage): Storage
  {
    Storage(OrText(child.size, parent.size), OrText(child.storageClass, parent.storageClass),
            OrList(child.accessModes, parent.accessModes))
  }

  datatype Filesystem = Filesystem(path: string, storage: Storage)

  datatype S3 = S3(bucket: string, region: string, endpoint: string, keyPrefix: string, envCredentials: bool,
                   secret: string, account: string)

  const NO_FILESYSTEM := Filesystem("", NO_STORAGE)
  const NO_S3 := S3("", "", "", "", false, "", "")

  datatype Backup = Backup(kind: string, filesystem: Option<Filesystem>, s3: Option<S3>, tls: Option<nat>,
                           encryption: Option<nat>)

  const FILESYSTEM := "filesystem"
  const S3_KIND := "s3"

  function MergeFilesystem(child: Option<Filesystem>, parent: Option<Filesystem>): Filesystem
  {
    var base := if parent.Some? then parent.value else NO_FILESYSTEM;
    if child.None? then base
    else Filesystem(OrText(child.value.path, base.path), MergeStorage(child.value.storage, base.storage))
  }

  function MergeS3(child: Option<S3>, parent: Option<S3>): S3
  {
    var base := if parent.Some? then parent.value else NO_S3;
    if child.None? then base
    else
      var c := child.value;
      S3(OrText(c.bucket, base.bucket), OrText(c.region, base.region), OrText(c.endpoint, base.endpoint),
         OrText(c.keyPrefix, base.keyPrefix), c.envCredentials, OrText(c.secret, base.secret),
         OrText(c.account, base.account))
  }

  function Merge(child: Option<Backup>, parent: Option<Backup>): Option<Backup>
  {
    if child.None? then parent
    else if parent.None? then child
    else
      var c, p := child.value, parent.value;
      if c.kind != "" && c.kind != p.kind then child
      else
        Some(Backup(p.kind,
                    if p.kind == FILESYSTEM then Some(MergeFilesystem(c.filesystem, p.filesystem)) else p.filesystem,
                    if p.kind == S3_KIND then Some(MergeS3(c.s3, p.s3)) else p.s3,
                    Or(c.tls, p.tls), Or(c.encryption, p.encryption)))
  }

  /** The section the kind needs is there. */
  predicate SectionPresent(b: Backup)
  {
    (b.kind == FILESYSTEM ==> b.filesystem.Some?) && (b.kind == S3_KIND ==> b.s3.Some?)
  }

  /** Merging configurations that obey the schema rule gives one that does. */
  lemma MergeKeepsRule(child: Option<Backup>, parent: Option<Backup>)
    requires (child.Some? ==> SectionPresent(child.value)) && (parent.Some? ==> SectionPresent(parent.value))
    ensures Merge(child, parent).Some? ==> SectionPresent(Merge(child, parent).value)
  {
  }

  /**
    Merging a merged configuration over the same parent adds nothing, unless the parent was
    inherited without its section.
   */
  lemma Absorption(child: Option<Backup>, parent: Option<Backup>)
    ensures Merge(Merge(child, parent), parent) == Merge(child, parent) <==>
            !(child.None? && parent.Some? && !SectionPresent(parent.value))
  {
  }

  // ------------------------------------------------------------ a shard's backup

  const BACKUP_PATH := "/backups"
  const BACKUP_SIZE := "10Gi"

  function Defaulted(b: Backup): Backup
  {
    var kind := OrText(b.kind, FILESYSTEM);
    if kind != FILESYSTEM then b.(kind := kind)
    else
      var f := if b.filesystem.Some? then b.filesystem.value else NO_FILESYSTEM;
      b.(kind := kind,
         filesystem := Some(Filesystem(OrText(f.path, BACKUP_PATH),
                                       f.storage.(size := OrText(f.storage.size, BACKUP_SIZE)))))
  }

  /** The backup a shard resolves to under what it inherits. */
  function ShardBackup(own: Option<Backup>, inherited: Option<Backup>): Backup
  {
    var merged := Merge(own, inherited);
    Defaulted(if merged.Some? then merged.value else Backup(FILESYSTEM, None, None, None, None))
  }

  /**
    Inherited as S3 without an S3 section, and nothing of the shard's own: the one case that
    storing the result changes.
   */
  predicate BareS3(own: Option<Backup>, inherited: Option<Backup>)
  {
    own.None? && inherited.Some? && inherited.value.kind == S3_KIND && inherited.value.s3.None?
  }

  /** Defaults fill only what is unset, so what absorbs a parent still does. */
  lemma DefaultedStaysAbsorbed(m: Backup, parent: Option<Backup>)
    requires Merge(Some(m), parent) == Some(m)
    ensures Merge(Some(Defaulted(m)), parent) == Some(Defaulted(m)) && Defaulted(Defaulted(m)) == Defaulted(m)
  {
  }

  /** A parent inherited without its section: only a filesystem's is put back by the defaults. */
  lemma BareParent(parent: Backup)
    requires !SectionPresent(parent)
    ensures ShardBackup(Some(ShardBackup(None, Some(parent))), Some(parent)) == ShardBackup(None, Some(parent)) <==>
            parent.kind == FILESYSTEM
  {
  }

  /** Storing the resolved backup as the shard's own resolves to the same backup, except for a bare S3. */
  lemma StoredBackupResolvesTheSame(own: Option<Backup>, inherited: Option<Backup>)
    ensures ShardBackup(Some(ShardBackup(own, inherited)), inherited) == ShardBackup(own, inherited) <==>
            !BareS3(own, inherited)
  {
    Absorption(own, inherited);
    var merged := Merge(own, inherited);
    if own.None? && inherited.Some? && !SectionPresent(inherited.value) { BareParent(inherited.value); }
    else if merged.Some? { DefaultedStaysAbsorbed(merged.value, inherited); }
  }

  /** The schema rule excludes the exception. */
  lemma RuleExcludesBareS3(own: Option<Backup>, inherited: Option<Backup>)
    requires inherited.Some? ==> SectionPresent(inherited.value)
    ensures !BareS3(own, inherited)
  {
  }

  // ------------------------------------------------------------ PVC deletion policy

  datatype PvcPolicy = PvcPolicy(whenDeleted: string, whenScaled: string)

  const NO_POLICY := PvcPolicy("", "")

  function MergePvcPolicy(child: Option<PvcPolicy>, parent: Option<PvcPolicy>): Option<PvcPolicy>
  {
    if child.None? then parent
    else
      var p := if parent.Some? then parent.value else NO_POLICY;
      var merged := PvcPolicy(OrText(child.value.whenDeleted, p.whenDeleted),
                              OrText(child.value.whenScaled, p.whenScaled));
      if merged == NO_POLICY then None else Some(merged)
  }
}
