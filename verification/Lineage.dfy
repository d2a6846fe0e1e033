/** The domain's record, `data.json`: one entry per installed package and the
    home folder, and the methods that change it under the short lock. */
module Lineage {
  import opened Wrappers

  type Namespace = string

  datatype ManifestUri = ManifestUri(origin: Option<string>, bucket: string, namespace: Namespace, hash: string)

  /** One package's entry: what its writers branch on. */
  datatype PackageLineage = PackageLineage(
    commit: Option<string>,
    remote: Option<ManifestUri>,
    baseHash: string,
    latestHash: string,
    paths: map<string, string>,
    syncScope: string)

  datatype DomainLineage = DomainLineage(packages: map<Namespace, PackageLineage>, home: string)

  datatype Error =
    | Missing
    | MissingHome
    | Parse
    | NotInstalled(namespace: Namespace)
    | HomeInUse(home: string, installed: nat)
    | Storage
    | PackageOp(reason: string)
    | WorkflowValidation
    | Flow(reason: string)

  /** What is at the record's path. A record whose home is empty parses, but
      only a home change may read it. */
  datatype File = Absent | Unreadable | Damaged | Holds(lineage: DomainLineage)

  function ReadRecord(file: File): Result<DomainLineage, Error> {
    match file
    case Absent => Err(Missing)
    case Unreadable => Err(Storage)
    case Damaged => Err(Parse)
    case Holds(lineage) => if lineage.home == "" then Err(MissingHome) else Ok(lineage)
  }

  /** A record is read exactly when the file parses and names a home; only a home
      change does without. */
  lemma RecordReads(file: File, lineage: DomainLineage)
    ensures ReadRecord(file) == Ok(lineage) <==> file == Holds(lineage) && lineage.home != ""
    ensures ReadRecord(file) == Err(MissingHome) <==> file.Holds? && file.lineage.home == ""
  {
  }

  function Entry(lineage: DomainLineage, namespace: Namespace): Option<PackageLineage> {
    if namespace in lineage.packages then Some(lineage.packages[namespace]) else None
  }

  /** The package's entry on disk; a file with no record in it has none. */
  function EntryOf(file: File, namespace: Namespace): Option<PackageLineage> {
    if file.Holds? then Entry(file.lineage, namespace) else None
  }

  /** `lineage` with one package's entry put, replaced or taken out. */
  function Splice(lineage: DomainLineage, namespace: Namespace, entry: Option<PackageLineage>): DomainLineage {
    match entry
    case Some(package) => lineage.(packages := lineage.packages[namespace := package])
    case None => lineage.(packages := lineage.packages - {namespace})
  }

  /** A splice changes the one entry, no other entry and not the home; splicing
      back what was there undoes it. */
  lemma SpliceChangesOneEntry(lineage: DomainLineage, namespace: Namespace, entry: Option<PackageLineage>)
    ensures Entry(Splice(lineage, namespace, entry), namespace) == entry
    ensures forall other :: other != namespace ==>
                              Entry(Splice(lineage, namespace, entry), other) == Entry(lineage, other)
    ensures Splice(lineage, namespace, entry).home == lineage.home
    ensures Splice(Splice(lineage, namespace, entry), namespace, Entry(lineage, namespace)) == lineage
  {
    var undone := Splice(Splice(lineage, namespace, entry), namespace, Entry(lineage, namespace));
    assert undone.packages == lineage.packages;
  }

  /** What a home change does with the file it finds. */
  datatype HomeChange = Refuse(error: Error) | KeepRecord(lineage: DomainLineage) | WriteRecord(lineage: DomainLineage)

  function ChangeHomeOf(file: File, home: string, overwrite: bool): HomeChange {
    match file
    case Unreadable => Refuse(Storage)
    case Damaged => Refuse(Parse)
    case Absent => WriteRecord(DomainLineage(map[], home))
    case Holds(lineage) =>
      if lineage.home == home then KeepRecord(lineage)
      else if !overwrite && lineage.home != "" && lineage.packages != map[] then
        Refuse(HomeInUse(lineage.home, |lineage.packages|))
      else WriteRecord(lineage.(home := home))
  }

  /** A home change touches no package's entry, and without `overwrite` it
      leaves a stored home alone exactly while a package is installed. */
  lemma HomeChangeSparesPackages(file: File, home: string, overwrite: bool)
    ensures var change := ChangeHomeOf(file, home, overwrite);
            change.WriteRecord? ==>
              && change.lineage.home == home
              && (forall namespace :: Entry(change.lineage, namespace) == EntryOf(file, namespace))
              && (file.Holds? && file.lineage.home != "" && !overwrite ==> file.lineage.packages == map[])
  {
  }

  /** **What a home change comes to**: refused exactly for a file that cannot be
      read or parsed, or for another home than the stored one while a package is
      installed and nothing overwrites; kept as it is exactly for the same home. */
  lemma HomeChangeExactly(file: File, home: string, overwrite: bool)
    ensures match ChangeHomeOf(file, home, overwrite)
            case Refuse(error) =>
              || (file == Unreadable && error == Storage)
              || (file == Damaged && error == Parse)
              || (&& file.Holds? && !overwrite && file.lineage.home != "" && file.lineage.home != home
                  && file.lineage.packages != map[]
                  && error == HomeInUse(file.lineage.home, |file.lineage.packages|))
            case KeepRecord(lineage) => file == Holds(lineage) && lineage.home == home
            case WriteRecord(lineage) =>
              && lineage.home == home
              && (|| (file == Absent && lineage.packages == map[])
                  || (&& file.Holds? && file.lineage.home != home && lineage.packages == file.lineage.packages
                      && (overwrite || file.lineage.home == "" || lineage.packages == map[])))
  {
  }

  /** What `Update` leaves on disk and answers, for a `step` on the record it
      re-reads: an error anywhere writes nothing. */
  function Updated<T>(file: File, step: DomainLineage -> Result<(DomainLineage, T), Error>, writeOk: bool)
    : (File, Result<T, Error>)
  {
    match ReadRecord(file)
    case Err(error) => (file, Err(error))
    case Ok(lineage) =>
      match step(lineage)
      case Err(error) => (file, Err(error))
      case Ok((next, out)) =>
        if next == lineage then (file, Ok(out))
        else if writeOk then (Holds(next), Ok(out))
        else (file, Err(Storage))
  }

  /** The step `UpdatePackageLineage` runs: `edit` sees the entry or `None`. */
  function SpliceStep<T>(namespace: Namespace,
                         edit: Option<PackageLineage> -> Result<(Option<PackageLineage>, T), Error>)
    : DomainLineage -> Result<(DomainLineage, T), Error>
  {
    (lineage: DomainLineage) =>
      match edit(Entry(lineage, namespace))
      case Err(error) => Err(error)
      case Ok((entry, out)) => Ok((Splice(lineage, namespace, entry), out))
  }

  /** An update of one package's entry answers `Ok` exactly when the record
      reads, the edit accepts the entry on disk and a needed write lands; then
      that entry alone is the edited one. Any error leaves the file as it was. */
  lemma UpdateTouchesOneEntry<T>(file: File, namespace: Namespace,
                                 edit: Option<PackageLineage> -> Result<(Option<PackageLineage>, T), Error>,
                                 writeOk: bool)
    ensures var (after, r) := Updated(file, SpliceStep(namespace, edit), writeOk);
            && (r.Err? ==> after == file)
            && (r.Ok? ==>
                  && edit(EntryOf(file, namespace)) == Ok((EntryOf(after, namespace), r.value))
                  && after.Holds? && after.lineage.home == file.lineage.home
                  && forall other :: other != namespace ==> EntryOf(after, other) == EntryOf(file, other))
            && (r.Ok? <==>
                && ReadRecord(file).Ok?
                && edit(EntryOf(file, namespace)).Ok?
                && (writeOk || edit(EntryOf(file, namespace)).value.0 == EntryOf(file, namespace)))
  {
    if ReadRecord(file).Ok? && edit(EntryOf(file, namespace)).Ok? {
      var entry := edit(EntryOf(file, namespace)).value.0;
      SpliceChangesOneEntry(file.lineage, namespace, entry);
      SpliceChangesOneEntry(file.lineage, namespace, EntryOf(file, namespace));
      if entry == EntryOf(file, namespace) {
        assert Splice(file.lineage, namespace, entry).packages == file.lineage.packages;
      }
    }
  }

  /** `data.json` and its writers. Each method runs under the short lock;
      `writeOk` and `mkdirOk` say whether the storage does as it is asked. */
  class DomainLineageIo {
    var data: File

    constructor (data: File)
      ensures this.data == data
    {
      this.data := data;
    }

    method WriteUnlocked(lineage: DomainLineage, writeOk: bool) returns (r: Result<(), Error>)
      modifies this
      ensures r == if writeOk then Ok(()) else Err(Storage)
      ensures data == if writeOk then Holds(lineage) else old(data)
    {
      if !writeOk {
        return Err(Storage);
      }
      data := Holds(lineage);
      return Ok(());
    }

    method Update<T>(step: DomainLineage -> Result<(DomainLineage, T), Error>, writeOk: bool)
      returns (r: Result<T, Error>)
      modifies this
      ensures (data, r) == Updated(old(data), step, writeOk)
    {
      var read := ReadRecord(data);
      if read.Err? {
        return Err(read.error);
      }
      var before := read.value;
      var stepped := step(before);
      if stepped.Err? {
        return Err(stepped.error);
      }
      var (lineage, out) := stepped.value;
      if lineage != before {
        var written := WriteUnlocked(lineage, writeOk);
        if written.Err? {
          return Err(written.error);
        }
      }
      return Ok(out);
    }

    method UpdatePackageLineage<T>(namespace: Namespace,
                                   edit: Option<PackageLineage> -> Result<(Option<PackageLineage>, T), Error>,
                                   writeOk: bool)
      returns (r: Result<T, Error>)
      modifies this
      ensures (data, r) == Updated(old(data), SpliceStep(namespace, edit), writeOk)
    {
      r := Update(SpliceStep(namespace, edit), writeOk);
    }

    /** A field update: a package that is not installed is an error. */
    method EditPackageLineage(namespace: Namespace, edit: PackageLineage -> PackageLineage, writeOk: bool)
      returns (r: Result<PackageLineage, Error>)
      modifies this
      ensures r.Ok? ==> ReadRecord(old(data)).Ok? && EntryOf(old(data), namespace).Some?
                        && r.value == edit(EntryOf(old(data), namespace).value)
                        && data == Holds(Splice(old(data).lineage, namespace, Some(r.value)))
      ensures r.Err? ==> data == old(data)
      ensures r.Ok? <==>
                && ReadRecord(old(data)).Ok? && EntryOf(old(data), namespace).Some?
                && (writeOk || edit(EntryOf(old(data), namespace).value) == EntryOf(old(data), namespace).value)
      ensures ReadRecord(old(data)).Ok? && EntryOf(old(data), namespace).None? ==> r == Err(NotInstalled(namespace))
    {
      var f := (entry: Option<PackageLineage>) =>
        match entry
        case None => Result.Err(NotInstalled(namespace))
        case Some(package) => Ok((Some(edit(package)), edit(package)));
      UpdateTouchesOneEntry(data, namespace, f, writeOk);
      r := UpdatePackageLineage(namespace, f, writeOk);
    }

    method ChangeHome(home: string, overwrite: bool, mkdirOk: bool, writeOk: bool)
      returns (r: Result<DomainLineage, Error>)
      modifies this
      ensures match ChangeHomeOf(old(data), home, overwrite) {
          case Refuse(error) => r == Err(error) && data == old(data)
          case KeepRecord(lineage) => r == (if mkdirOk then Ok(lineage) else Err(Storage)) && data == old(data)
          case WriteRecord(lineage) =>
            if mkdirOk && writeOk then r == Ok(lineage) && data == Holds(lineage)
            else r == Err(Storage) && data == old(data)
        }
    {
      match data {
        case Unreadable =>
          return Err(Storage);
        case Damaged =>
          return Err(Parse);
        case Absent =>
          if !mkdirOk {
            return Err(Storage);
          }
          var lineage := DomainLineage(map[], home);
          var written := WriteUnlocked(lineage, writeOk);
          if written.Err? {
            return Err(written.error);
          }
          return Ok(lineage);
        case Holds(stored) =>
          var lineage := stored;
          var homeMissing := lineage.home == "";
          if lineage.home == home {
            if !mkdirOk {
              return Err(Storage);
            }
            return Ok(lineage);
          }
          if !overwrite && !homeMissing && lineage.packages != map[] {
            return Err(HomeInUse(lineage.home, |lineage.packages|));
          }
          if !mkdirOk {
            return Err(Storage);
          }
          lineage := lineage.(home := home);
          var written := WriteUnlocked(lineage, writeOk);
          if written.Err? {
            return Err(written.error);
          }
          return Ok(lineage);
      }
    }
  }
}
