/** The writers of one package's entry: each reads the entry, works, and writes
    it back, all while it holds the package's lock. The flows are arbitrary
    functions from entry to entry or error. */
module InstalledPackage {
  import opened Wrappers
  import opened Lineage

  type Flow = PackageLineage -> Result<PackageLineage, Error>

  /** What reading one package's entry answers. */
  function ReadEntry(file: File, namespace: Namespace): Result<PackageLineage, Error> {
    match ReadRecord(file)
    case Err(error) => Err(error)
    case Ok(lineage) =>
      if namespace in lineage.packages then Ok(lineage.packages[namespace]) else Err(NotInstalled(namespace))
  }

  /** `file` with the package's entry replaced. */
  function WithEntry(file: File, namespace: Namespace, entry: PackageLineage): (r: File)
    requires file.Holds?
  {
    Holds(Splice(file.lineage, namespace, Some(entry)))
  }

  /** Replacing one package's entry reads back as that entry, spares every
      other package and the home, and the last replacement is the one kept. */
  lemma WithEntryReadsBack(file: File, namespace: Namespace, first: PackageLineage, last: PackageLineage)
    requires ReadRecord(file).Ok?
    ensures ReadEntry(WithEntry(file, namespace, last), namespace) == Ok(last)
    ensures forall other :: other != namespace ==>
                              ReadEntry(WithEntry(file, namespace, last), other) == ReadEntry(file, other)
    ensures WithEntry(WithEntry(file, namespace, first), namespace, last) == WithEntry(file, namespace, last)
  {
    var twice := Splice(Splice(file.lineage, namespace, Some(first)), namespace, Some(last));
    assert twice.packages == Splice(file.lineage, namespace, Some(last)).packages;
  }

  /** Whether writing the entry succeeds: one that is there already is not
      written again. */
  predicate WriteLands(file: File, namespace: Namespace, entry: PackageLineage, writeOk: bool) {
    ReadRecord(file).Ok? && (writeOk || EntryOf(file, namespace) == Some(entry))
  }

  lemma SameEntry(file: File, namespace: Namespace, entry: PackageLineage)
    requires EntryOf(file, namespace) == Some(entry)
    ensures WithEntry(file, namespace, entry) == file
  {
    assert file.lineage.packages[namespace := entry] == file.lineage.packages;
  }

  datatype SetRemoteOutcome = SetRemoteOutcome(resolutionWarning: Option<Error>)

  /** Whether the package's revisions were pushed to a remote. */
  predicate Pushed(package: PackageLineage) {
    package.remote.Some? && package.remote.value.hash != ""
  }

  predicate HasBucket(package: PackageLineage) {
    package.remote.Some? && package.remote.value.bucket != ""
  }

  /** The entry with its remote set, not pushed to yet. */
  function Pointed(package: PackageLineage, namespace: Namespace, bucket: string, origin: Option<string>)
    : PackageLineage
  {
    package.(remote := Some(ManifestUri(origin, bucket, namespace, "")))
  }

  /** Whether a push gets as far as its write. */
  predicate PushWrites(file: File, namespace: Namespace, lineage: PackageLineage, push: Flow, foldersOk: bool,
                       writeOk: bool)
  {
    && foldersOk && HasBucket(lineage) && lineage.commit.Some?
    && push(lineage).Ok? && WriteLands(file, namespace, push(lineage).value, writeOk)
  }

  type Snapshot = PackageLineage -> Result<(PackageLineage, bool), Error>

  /** The entry a pull writes: the refreshed one when there is nothing to pull. */
  function PulledEntry(before: PackageLineage, snapshot: Snapshot, pull: Flow): Result<PackageLineage, Error> {
    match snapshot(before)
    case Err(error) => Err(error)
    case Ok((seen, more)) => if more then pull(seen) else Ok(seen)
  }

  /** An installed package whose lock is held. `foldersOk`, `writeOk` and the like
      say whether the storage does as it is asked. */
  class LockedPackage {
    const domain: DomainLineageIo
    const namespace: Namespace

    constructor (domain: DomainLineageIo, namespace: Namespace)
      ensures this.domain == domain && this.namespace == namespace
    {
      this.domain := domain;
      this.namespace := namespace;
    }

    method Read() returns (r: Result<PackageLineage, Error>)
      ensures r.Ok? ==> ReadRecord(domain.data).Ok? && EntryOf(domain.data, namespace) == Some(r.value)
      ensures r.Err? ==>
                if ReadRecord(domain.data).Err? then r.error == ReadRecord(domain.data).error
                else EntryOf(domain.data, namespace).None? && r.error == NotInstalled(namespace)
      ensures r == ReadEntry(domain.data, namespace)
    {
      var record := ReadRecord(domain.data);
      if record.Err? {
        return Err(record.error);
      }
      if namespace !in record.value.packages {
        return Err(NotInstalled(namespace));
      }
      return Ok(record.value.packages[namespace]);
    }

    method Write(lineage: PackageLineage, writeOk: bool) returns (r: Result<PackageLineage, Error>)
      modifies domain
      ensures r.Ok? <==> WriteLands(old(domain.data), namespace, lineage, writeOk)
      ensures r.Ok? ==> r.value == lineage && domain.data == WithEntry(old(domain.data), namespace, lineage)
      ensures r.Err? ==> domain.data == old(domain.data)
      ensures r.Err? && ReadRecord(old(domain.data)).Ok? ==> r.error == Storage
    {
      var put := (entry: Option<PackageLineage>) =>
        Result<(Option<PackageLineage>, PackageLineage), Error>.Ok((Some(lineage), lineage));
      UpdateTouchesOneEntry(domain.data, namespace, put, writeOk);
      r := domain.UpdatePackageLineage(namespace, put, writeOk);
    }

    /** Uploads a pending commit and writes the entry the push made; a package
        with no pending commit is left as it is. A push whose entry names no
        remote is an error once that entry is written. */
    method PushFrom(lineage: PackageLineage, push: Flow, foldersOk: bool, writeOk: bool)
      returns (r: Result<PackageLineage, Error>)
      modifies domain
      ensures var writes := PushWrites(old(domain.data), namespace, lineage, push, foldersOk, writeOk);
              && domain.data == (if writes then WithEntry(old(domain.data), namespace, push(lineage).value)
                                 else old(domain.data))
              && (r.Ok? <==>
                  || (writes && push(lineage).value.remote.Some?)
                  || (foldersOk && HasBucket(lineage) && lineage.commit.None?))
              && (r.Ok? ==> Ok(r.value) == if writes then push(lineage) else Ok(lineage))
    {
      if !foldersOk {
        return Err(Storage);
      }
      if lineage.remote.None? {
        return Err(PackageOp("No remote configured. Use set_remote first."));
      }
      if lineage.remote.value.bucket == "" {
        return Err(PackageOp("Remote bucket not set. Use set_remote first."));
      }
      if lineage.commit.None? {
        return Ok(lineage);
      }
      var pushed := push(lineage);
      if pushed.Err? {
        return pushed;
      }
      r := Write(pushed.value, writeOk);
      if r.Ok? && r.value.remote.None? {
        return Err(PackageOp("no remote"));
      }
    }

    /** `snapshot` refreshes the entry and says whether there is anything to
        pull; the refreshed entry is written even when there is not. */
    method Pull(snapshot: Snapshot, pull: Flow, foldersOk: bool, writeOk: bool) returns (r: Result<bool, Error>)
      modifies domain
      ensures r.Err? ==> domain.data == old(domain.data)
      ensures r.Ok? <==>
                var before := ReadEntry(old(domain.data), namespace);
                && foldersOk && before.Ok? && before.value.remote.Some?
                && var pulled := PulledEntry(before.value, snapshot, pull);
                   pulled.Ok? && WriteLands(old(domain.data), namespace, pulled.value, writeOk)
      ensures r.Ok? ==>
                var before := ReadEntry(old(domain.data), namespace).value;
                var (refreshed, more) := snapshot(before).value;
                && r.value == more
                && domain.data == WithEntry(old(domain.data), namespace,
                                            if more then pull(refreshed).value else refreshed)
                && (more ==> pull(refreshed).Ok?)
    {
      if !foldersOk {
        return Err(Storage);
      }
      var read := Read();
      if read.Err? {
        return Err(read.error);
      }
      var lineage := read.value;
      if lineage.remote.None? {
        return Err(PackageOp("no remote"));
      }
      var seen := snapshot(lineage);
      if seen.Err? {
        return Err(seen.error);
      }
      lineage := seen.value.0;
      if !seen.value.1 {
        var written := Write(lineage, writeOk);
        return if written.Err? then Err(written.error) else Ok(false);
      }
      var pulled := pull(lineage);
      if pulled.Err? {
        return Err(pulled.error);
      }
      lineage := pulled.value;
      var written := Write(lineage, writeOk);
      return if written.Err? then Err(written.error) else Ok(true);
    }

    /** Pushes a pending commit first, then tags what was pushed. Two writes,
        the second computed from the entry the first one wrote: when the tag
        fails the pushed entry stays, and no other half-way state exists. */
    method CertifyLatest(push: Flow, certify: Flow, foldersOk: bool, pushWriteOk: bool, writeOk: bool)
      returns (r: Result<ManifestUri, Error>)
      modifies domain
      ensures ReadEntry(old(domain.data), namespace).Err? ==>
                r == Err(ReadEntry(old(domain.data), namespace).error) && domain.data == old(domain.data)
      ensures ReadEntry(old(domain.data), namespace).Ok? ==>
                var file, before := old(domain.data), ReadEntry(old(domain.data), namespace).value;
                var pushed := if before.commit.Some? then push(before) else Ok(before);
                var stands := before.commit.None? || PushWrites(file, namespace, before, push, foldersOk, pushWriteOk);
                var tags := stands && pushed.value.remote.Some? && certify(pushed.value).Ok?
                            && (writeOk || certify(pushed.value) == pushed);
                && domain.data == (if tags then WithEntry(file, namespace, certify(pushed.value).value)
                                   else if stands then WithEntry(file, namespace, pushed.value)
                                   else file)
                && (r.Ok? <==> tags && certify(pushed.value).value.remote.Some?)
                && (r.Ok? ==> certify(pushed.value).value.remote == Some(r.value))
    {
      var read := Read();
      if read.Err? {
        return Err(read.error);
      }
      var lineage := read.value;
      SameEntry(domain.data, namespace, lineage);
      if lineage.commit.Some? {
        var pushed := PushFrom(lineage, push, foldersOk, pushWriteOk);
        if pushed.Err? {
          return Err(pushed.error);
        }
        lineage := pushed.value;
      }
      if lineage.remote.None? {
        return Err(PackageOp("no remote"));
      }
      r := Tag(lineage, certify, old(domain.data), writeOk);
    }

    /** Tags the entry on disk, which is `before` with that entry. */
    method Tag(lineage: PackageLineage, certify: Flow, ghost before: File, writeOk: bool)
      returns (r: Result<ManifestUri, Error>)
      requires ReadRecord(before).Ok? && domain.data == WithEntry(before, namespace, lineage)
      modifies domain
      ensures var tags := certify(lineage).Ok? && (writeOk || certify(lineage).value == lineage);
              && domain.data == WithEntry(before, namespace, if tags then certify(lineage).value else lineage)
              && (r.Ok? <==> tags && certify(lineage).value.remote.Some?)
              && (r.Ok? ==> certify(lineage).value.remote == Some(r.value))
    {
      var certified := certify(lineage);
      if certified.Err? {
        return Err(certified.error);
      }
      WithEntryReadsBack(before, namespace, lineage, certified.value);
      var written := Write(certified.value, writeOk);
      if written.Err? {
        return Err(written.error);
      }
      if written.value.remote.None? {
        return Err(PackageOp("no remote"));
      }
      return Ok(written.value.remote.value);
    }

    /** Stores `scope`, then, when `download` asks and `backlog` is not empty,
        installs it. A failure after the first write keeps the scope.
        `rereadOk` says whether the storage lets the new entry be read back. */
    method Keep(scope: string, download: bool, backlog: PackageLineage -> Result<nat, Error>, install: Flow,
                scopeWriteOk: bool, rereadOk: bool, writeOk: bool)
      returns (r: Result<PackageLineage, Error>)
      modifies domain
      ensures ReadEntry(old(domain.data), namespace).Err? ==> r.Err? && domain.data == old(domain.data)
      ensures ReadEntry(old(domain.data), namespace).Ok? ==>
                var file, before := old(domain.data), ReadEntry(old(domain.data), namespace).value;
                var scoped := before.(syncScope := scope);
                var stores := scopeWriteOk || scoped == before;
                var counts := stores && rereadOk && backlog(scoped).Ok?;
                var wanted := counts && download && backlog(scoped).value != 0;
                var installs := wanted && scoped.remote.Some? && install(scoped).Ok?
                                && (writeOk || install(scoped).value == scoped);
                && domain.data == (if installs then WithEntry(file, namespace, install(scoped).value)
                                   else if stores then WithEntry(file, namespace, scoped)
                                   else file)
                && (r.Ok? <==> counts && (wanted ==> installs))
                && (r.Ok? ==> r == if wanted then install(scoped) else Ok(scoped))
    {
      var edited := domain.EditPackageLineage(namespace, (l: PackageLineage) => l.(syncScope := scope), scopeWriteOk);
      if edited.Err? {
        return Err(edited.error);
      }
      if !rereadOk {
        return Err(Storage);
      }
      var read := Read();
      var lineage := read.value;
      var outstanding := backlog(lineage);
      if outstanding.Err? {
        return Err(outstanding.error);
      }
      if !download || outstanding.value == 0 {
        return Ok(lineage);
      }
      if lineage.remote.None? {
        return Err(PackageOp("no remote"));
      }
      var installed := install(lineage);
      if installed.Err? {
        return Err(installed.error);
      }
      WithEntryReadsBack(old(domain.data), namespace, lineage, installed.value);
      r := Write(installed.value, writeOk);
    }

    /** Points a package that was never pushed at a bucket. `recommit` stamps a
        pending commit for the new remote; `explicit` says a workflow was named. */
    method SetRemote(bucket: string, origin: Option<string>, explicit: bool, bucketOk: bool, recommit: Flow,
                     recommitWriteOk: bool, writeOk: bool)
      returns (r: Result<SetRemoteOutcome, Error>)
      modifies domain
      ensures bucket == "" ==> r.Err? && domain.data == old(domain.data)
      ensures ReadEntry(old(domain.data), namespace).Err? ==> r.Err? && domain.data == old(domain.data)
      ensures bucket != "" && ReadEntry(old(domain.data), namespace).Ok? ==>
                var file, before := old(domain.data), ReadEntry(old(domain.data), namespace).value;
                if Pushed(before) then
                  && domain.data == file
                  && (r.Ok? <==> before.remote.value.bucket == bucket && before.remote.value.origin == origin)
                else
                  var pointed := Pointed(before, namespace, bucket, origin);
                  && pointed.remote == Some(ManifestUri(origin, bucket, namespace, ""))
                  && PointedAt(file, domain.data, r, before, Pointed(before, namespace, bucket, origin), explicit,
                            bucketOk, recommit, recommitWriteOk, writeOk)
    {
      if bucket == "" {
        return Err(PackageOp("Bucket cannot be empty"));
      }
      var read := Read();
      if read.Err? {
        return Err(read.error);
      }
      var lineage := read.value;
      if lineage.remote.Some? && lineage.remote.value.hash != "" {
        var existing := lineage.remote.value;
        if existing.bucket == bucket && existing.origin == origin {
          return Ok(SetRemoteOutcome(None));
        }
        return Err(PackageOp("Cannot change remote on a package that has already been pushed"));
      }
      if !bucketOk {
        return Err(Storage);
      }
      lineage := lineage.(remote := Some(ManifestUri(origin, bucket, namespace, "")));
      if lineage.commit.Some? {
        var recommitted := recommit(lineage);
        if recommitted.Ok? {
          recommitted := Write(recommitted.value, recommitWriteOk);
        }
        if recommitted.Ok? {
          return Ok(SetRemoteOutcome(None));
        }
        if recommitted.error.WorkflowValidation? {
          return Err(recommitted.error);
        }
        var written := Write(lineage, writeOk);
        if written.Err? {
          return Err(written.error);
        }
        if explicit {
          return Err(recommitted.error);
        }
        return Ok(SetRemoteOutcome(Some(recommitted.error)));
      }
      var written := Write(lineage, writeOk);
      if written.Err? {
        return Err(written.error);
      }
      return Ok(SetRemoteOutcome(None));
    }

    /** What pointing a package leaves and answers: a pending commit is stamped
        and stored; when that fails the remote alone is, unless the commit was
        refused. It succeeds with a warning when the stamp was not asked for. */
    ghost predicate PointedAt(file: File, after: File, r: Result<SetRemoteOutcome, Error>, before: PackageLineage,
                              pointed: PackageLineage, explicit: bool, bucketOk: bool, recommit: Flow,
                              recommitWriteOk: bool, writeOk: bool)
    {
      var pending := before.commit.Some?;
      var stamps := pending && bucketOk && recommit(pointed).Ok?
                    && WriteLands(file, namespace, recommit(pointed).value, recommitWriteOk);
      var refused := pending && recommit(pointed) == Err(WorkflowValidation);
      var points := bucketOk && !stamps && !refused && WriteLands(file, namespace, pointed, writeOk);
      && after == (if stamps then WithEntry(file, namespace, recommit(pointed).value)
                   else if points then WithEntry(file, namespace, pointed)
                   else file)
      && (r.Ok? <==> stamps || (points && !(pending && explicit)))
      && (r.Ok? ==> (r.value.resolutionWarning.Some? <==> pending && !stamps))
      && (points ==> PointsAt(EntryOf(after, namespace), before, pointed))
    }

    /** The entry names the new remote, with no revision pushed there, and is else
        as it was. */
    ghost predicate PointsAt(entry: Option<PackageLineage>, before: PackageLineage, pointed: PackageLineage) {
      && entry == Some(pointed)
      && pointed == PackageLineage(before.commit, pointed.remote, before.baseHash, before.latestHash, before.paths,
                                   before.syncScope)
    }
  }
}
