/** `ArchiveDataLoader.loadData`: loading the data archived under a key,
    migrating it from the legacy location when a legacy archive file holds
    it. The keyed archive is a map from key to data; the legacy location is
    a map from relative file path to archive file. */
module ArchiveMigration {
  import opened Results

  /** An archive file at the legacy location: it loads as data, or as nil. */
  datatype LegacyFile<D> = Readable(data: D) | Unreadable

  /** The legacy files by relative path; a path not in the map has no file. */
  type LegacyStore<D> = map<string, LegacyFile<D>>

  /** The data `loadData` returns and the legacy store it leaves behind
      (`None` when there is no migrator). */
  datatype LoadResult<D> = LoadResult(data: Option<D>, migrator: Option<LegacyStore<D>>)

  const ArchiveExtension := ".archive"

  /** The archive's `loadObject(for:)`. */
  function LoadObject<D>(archive: map<string, D>, key: string): (r: Option<D>)
    ensures r.Some? <==> key in archive
    ensures r.Some? ==> r.value == archive[key]
  {
    if key in archive then Some(archive[key]) else None
  }

  /** The migrator's `archiveFileExists(relativeFilePath:)`: a file that does
      not exist never loads, and deleting it is a no-op; deleting one that
      exists changes the store. */
  function ArchiveFileExists<D>(store: LegacyStore<D>, relativeFilePath: string): (b: bool)
    ensures !b ==> LoadArchiveFile(store, relativeFilePath).None?
    ensures !b <==> DeleteArchiveFile(store, relativeFilePath) == store
  {
    relativeFilePath in store
  }

  /** The migrator's `loadArchiveFile(relativeFilePath:)`. */
  function LoadArchiveFile<D>(store: LegacyStore<D>, relativeFilePath: string): (r: Option<D>)
    ensures r.Some? ==> relativeFilePath in store
    ensures r.Some? <==> relativeFilePath in store && store[relativeFilePath].Readable?
    ensures r.Some? ==> store[relativeFilePath] == Readable(r.value)
  {
    if relativeFilePath in store && store[relativeFilePath].Readable? then Some(store[relativeFilePath].data) else None
  }

  /** The migrator's `deleteArchiveFile(relativeFilePath:)`: that file, and only that file, is gone. */
  function DeleteArchiveFile<D>(store: LegacyStore<D>, relativeFilePath: string): (r: LegacyStore<D>)
    ensures relativeFilePath !in r
    ensures forall p :: p != relativeFilePath ==> (p in r <==> p in store)
    ensures forall p :: p in r ==> r[p] == store[p]
  {
    store - {relativeFilePath}
  }

  /** Where the legacy archive of `key` lives. */
  function LegacyPath(relativeFolderPath: string, key: string): (path: string)
    ensures |path| == |relativeFolderPath| + 1 + |key| + |ArchiveExtension|
    ensures path[..|relativeFolderPath|] == relativeFolderPath
    ensures path[|relativeFolderPath|] == '/'
    ensures path[|relativeFolderPath| + 1..|relativeFolderPath| + 1 + |key|] == key
    ensures path[|path| - |ArchiveExtension|..] == ArchiveExtension
  {
    relativeFolderPath + "/" + key + ArchiveExtension
  }

  /** Distinct keys have distinct legacy paths within a folder. */
  lemma LegacyPathInjective(relativeFolderPath: string, key1: string, key2: string)
    requires LegacyPath(relativeFolderPath, key1) == LegacyPath(relativeFolderPath, key2)
    ensures key1 == key2
  {
  }

  /** `loadData(relativeFolderPath:archiver:key:migrator:)`: the data for
      `key`, taken from the legacy archive file when one loads, and the
      legacy store afterwards. */
  function LoadData<D>(relativeFolderPath: string, archive: map<string, D>, key: string,
                       migrator: Option<LegacyStore<D>>): (r: LoadResult<D>)
    ensures migrator.None? ==> r == LoadResult(LoadObject(archive, key), None)
    ensures migrator.Some? ==> r.migrator.Some?
    ensures migrator.Some? && LoadArchiveFile(migrator.value, LegacyPath(relativeFolderPath, key)).Some? ==>
      && r.data == LoadArchiveFile(migrator.value, LegacyPath(relativeFolderPath, key))
      && !ArchiveFileExists(r.migrator.value, LegacyPath(relativeFolderPath, key))
    ensures migrator.Some? && LoadArchiveFile(migrator.value, LegacyPath(relativeFolderPath, key)).None? ==>
      r == LoadResult(LoadObject(archive, key), migrator)
    ensures migrator.Some? ==> forall p :: p != LegacyPath(relativeFolderPath, key) ==>
      (p in r.migrator.value <==> p in migrator.value)
    ensures migrator.Some? ==> forall p :: p in r.migrator.value ==> r.migrator.value[p] == migrator.value[p]
    ensures r.data.None? <==>
      && key !in archive
      && (migrator.None? || LoadArchiveFile(migrator.value, LegacyPath(relativeFolderPath, key)).None?)
  {
    var dataAtNewLocation := LoadObject(archive, key);
    match migrator
    case None => LoadResult(dataAtNewLocation, None)
    case Some(store) =>
      var relativeFilePath := LegacyPath(relativeFolderPath, key);
      if !ArchiveFileExists(store, relativeFilePath) then LoadResult(dataAtNewLocation, migrator)
      else
        match LoadArchiveFile(store, relativeFilePath)
        case None => LoadResult(dataAtNewLocation, migrator)
        case Some(dataAtOldLocation) =>
          LoadResult(Some(dataAtOldLocation), Some(DeleteArchiveFile(store, relativeFilePath)))
  }

  /** Loading again with the store the first load left behind returns the
      data at the new location and changes nothing: a legacy archive is
      migrated at most once. */
  lemma LoadDataTwice<D>(relativeFolderPath: string, archive: map<string, D>, key: string,
                         migrator: Option<LegacyStore<D>>)
    ensures var first := LoadData(relativeFolderPath, archive, key, migrator);
            LoadData(relativeFolderPath, archive, key, first.migrator) == LoadResult(LoadObject(archive, key), first.migrator)
  {
  }

  /** Loading one key leaves the legacy archive of every other key of the folder as it was. */
  lemma LoadDataLeavesOtherKeys<D>(relativeFolderPath: string, archive: map<string, D>, key: string,
                                   migrator: LegacyStore<D>, other: string)
    requires other != key
    ensures var after := LoadData(relativeFolderPath, archive, key, Some(migrator)).migrator.value;
            var otherPath := LegacyPath(relativeFolderPath, other);
            && (otherPath in after <==> otherPath in migrator)
            && (otherPath in after ==> after[otherPath] == migrator[otherPath])
  {
  }
}
