/**
 * The file store: the data sources (each with a file) that make up each
 * loaded data id, and the two readers beside it.
 */
module FileStore {
  import opened DataSources

  type SourceMap = map<string, seq<DataSourceWithFile>>

  /** `byDataID[dataID] ?? []`. */
  function SourcesIn(byDataID: SourceMap, dataID: string): (r: seq<DataSourceWithFile>)
    ensures dataID !in byDataID ==> r == []
    ensures dataID in byDataID ==> r == byDataID[dataID]
  {
    if dataID in byDataID then byDataID[dataID] else []
  }

  /** `.map((ds) => ds.fileSrc.file)`. */
  function FilesOf(sources: seq<DataSourceWithFile>): (r: seq<File>)
    ensures |r| == |sources| && forall i :: 0 <= i < |r| ==> r[i] == sources[i].fileSrc.value.file
  {
    seq(|sources|, i requires 0 <= i < |sources| => sources[i].fileSrc.value.file)
  }

  /** `getDataSources`, reading the store's current state. */
  function GetDataSources(byDataID: SourceMap, dataID: string): seq<DataSourceWithFile>
  {
    SourcesIn(byDataID, dataID)
  }

  /** `getFiles`, reading the store's current state: the file of each stored source, in order. */
  function GetFiles(byDataID: SourceMap, dataID: string): seq<File>
  {
    FilesOf(SourcesIn(byDataID, dataID))
  }

  /** The state object the module captures when it is loaded: the initial, empty one. */
  const LoadTimeSnapshot: SourceMap := map[]

  /** `getDataSources` as written: it reads the state captured at load time, not the current one. */
  function GetDataSourcesAsWritten(dataID: string): seq<DataSourceWithFile>
  {
    SourcesIn(LoadTimeSnapshot, dataID)
  }

  /** `getFiles` as written, over the same load-time state. */
  function GetFilesAsWritten(dataID: string): seq<File>
  {
    FilesOf(SourcesIn(LoadTimeSnapshot, dataID))
  }

  /** Whatever was added since, the readers as written see nothing. */
  lemma AsWrittenSeesNothing(dataID: string)
    ensures GetDataSourcesAsWritten(dataID) == [] && GetFilesAsWritten(dataID) == []
  {
  }

  /** After `addFiles(dataID, files)` with at least one file, the readers as written miss the files the corrected readers return. */
  lemma AsWrittenMissesAddedFiles(byDataID: SourceMap, dataID: string, files: seq<DataSourceWithFile>)
    requires |files| > 0
    ensures GetDataSources(byDataID[dataID := files], dataID) == files
    ensures GetFiles(byDataID[dataID := files], dataID) == FilesOf(files)
    ensures GetDataSourcesAsWritten(dataID) != files
    ensures GetFilesAsWritten(dataID) != FilesOf(files)
  {
  }

  class FileStore {
    var byDataID: SourceMap

    constructor ()
      ensures byDataID == map[]
    {
      byDataID := map[];
    }

    /** `addFiles`: the list stored under the id, replacing any earlier one. */
    method AddFiles(dataID: string, files: seq<DataSourceWithFile>)
      modifies this
      ensures byDataID == old(byDataID)[dataID := files]
      ensures GetDataSources(byDataID, dataID) == files && GetFiles(byDataID, dataID) == FilesOf(files)
    {
      byDataID := byDataID[dataID := files];
    }

    /** `removeFiles`: the entry deleted when present. */
    method RemoveFiles(dataID: string)
      modifies this
      ensures byDataID == old(byDataID) - {dataID}
      ensures GetDataSources(byDataID, dataID) == []
    {
      if dataID in byDataID {
        byDataID := byDataID - {dataID};
      }
    }
  }
}
