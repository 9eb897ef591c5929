/**
 * Data sources: where a piece of loaded data came from (a local file, a
 * URI, a path inside an archive, a bundle of DICOM sources) and the data
 * source it was derived from.
 */
module DataSources {
  import opened Wrappers
  import opened Strings

  /** A browser `File`: its name and MIME type. */
  datatype File = File(name: string, mimeType: string)

  datatype FileSource = FileSource(file: File, fileType: string)
  datatype UriSource = UriSource(uri: string, name: string)
  datatype ArchiveSource = ArchiveSource(path: string)

  datatype DataSource = DataSource(
    fileSrc: Option<FileSource>,
    uriSrc: Option<UriSource>,
    archiveSrc: Option<ArchiveSource>,
    dicomSrc: Option<DicomSource>,
    parent: Option<DataSource>)

  datatype DicomSource = DicomSource(sources: seq<DataSource>)

  /** `DataSource & { fileSrc: FileSource }`. */
  type DataSourceWithFile = ds: DataSource | ds.fileSrc.Some?
    witness DataSource(Some(FileSource(File("", ""), "")), None, None, None, None)

  /** `fileToDataSource`: a file source typed by the file's MIME type. */
  function FileToDataSource(file: File): (r: DataSourceWithFile)
    ensures r.fileSrc == Some(FileSource(file, file.mimeType))
    ensures r.uriSrc.None? && r.archiveSrc.None? && r.dicomSrc.None? && r.parent.None?
  {
    DataSource(Some(FileSource(file, file.mimeType)), None, None, None, None)
  }

  /** `uriToDataSource`. */
  function UriToDataSource(uri: string, name: string): (r: DataSource)
    ensures r.uriSrc == Some(UriSource(uri, name))
    ensures r.fileSrc.None? && r.archiveSrc.None? && r.dicomSrc.None? && r.parent.None?
  {
    DataSource(None, Some(UriSource(uri, name)), None, None, None)
  }

  /** The fields of `b` that are present, over those of `a` (`{...a, ...b}`). */
  function Spread(a: DataSource, b: DataSource): DataSource
  {
    DataSource(
      if b.fileSrc.Some? then b.fileSrc else a.fileSrc,
      if b.uriSrc.Some? then b.uriSrc else a.uriSrc,
      if b.archiveSrc.Some? then b.archiveSrc else a.archiveSrc,
      if b.dicomSrc.Some? then b.dicomSrc else a.dicomSrc,
      if b.parent.Some? then b.parent else a.parent)
  }

  /** `remoteFileToDataSource`: the file source and a URI source named after the file. */
  function RemoteFileToDataSource(file: File, uri: string): (r: DataSourceWithFile)
    ensures r.fileSrc == Some(FileSource(file, file.mimeType))
    ensures r.uriSrc == Some(UriSource(uri, file.name))
    ensures r.archiveSrc.None? && r.dicomSrc.None? && r.parent.None?
  {
    Spread(FileToDataSource(file), UriToDataSource(uri, file.name))
  }

  /** `isRemoteDataSource`. */
  predicate IsRemoteDataSource(ds: DataSource)
  {
    ds.uriSrc.Some? || (ds.parent.Some? && IsRemoteDataSource(ds.parent.value))
  }

  /** The data source `k` steps up the parent chain, if the chain is that long. */
  function Ancestor(ds: DataSource, k: nat): Option<DataSource>
  {
    if k == 0 then Some(ds)
    else if ds.parent.None? then None
    else Ancestor(ds.parent.value, k - 1)
  }

  /** A data source is remote exactly when it or one of its ancestors has a URI source. */
  lemma IsRemoteSpec(ds: DataSource)
    ensures IsRemoteDataSource(ds) <==> exists k: nat :: Ancestor(ds, k).Some? && Ancestor(ds, k).value.uriSrc.Some?
  {
    if IsRemoteDataSource(ds) {
      var k := RemoteAncestor(ds);
    }
    if exists k: nat :: Ancestor(ds, k).Some? && Ancestor(ds, k).value.uriSrc.Some? {
      var k: nat :| Ancestor(ds, k).Some? && Ancestor(ds, k).value.uriSrc.Some?;
      AncestorMakesRemote(ds, k);
    }
  }

  /** A remote data source has an ancestor with a URI source: the nearest one. */
  lemma {:induction false} RemoteAncestor(ds: DataSource) returns (k: nat)
    requires IsRemoteDataSource(ds)
    ensures Ancestor(ds, k).Some? && Ancestor(ds, k).value.uriSrc.Some?
  {
    if ds.uriSrc.Some? {
      k := 0;
    } else {
      var k' := RemoteAncestor(ds.parent.value);
      k := k' + 1;
    }
  }

  /** An ancestor with a URI source makes every data source below it remote. */
  lemma {:induction false} AncestorMakesRemote(ds: DataSource, k: nat)
    requires Ancestor(ds, k).Some? && Ancestor(ds, k).value.uriSrc.Some?
    ensures IsRemoteDataSource(ds)
  {
    if k > 0 && ds.uriSrc.None? {
      AncestorMakesRemote(ds.parent.value, k - 1);
    }
  }

  /** A file downloaded from a URI is remote; a plain local file is not. */
  lemma RemoteFileIsRemote(file: File, uri: string)
    ensures IsRemoteDataSource(RemoteFileToDataSource(file, uri))
    ensures !IsRemoteDataSource(FileToDataSource(file))
  {
  }

  /** A `Maybe<string>` in a template literal: `null` renders as the text `null`. */
  function Render(s: Option<string>): string
  {
    if s.Some? then s.value else "null"
  }

  /** The ` (+k more)` suffix for a bundle of `n` sources. */
  function MoreSuffix(n: nat): (r: string)
    ensures n <= 1 ==> r == ""
    ensures n > 1 ==> r == " (+" + NatToDecimal(n - 1) + " more)"
  {
    if n > 1 then " (+" + NatToDecimal(n - 1) + " more)" else ""
  }

  /** `getDataSourceName`. */
  function GetDataSourceName(ds: Option<DataSource>): (r: Option<string>)
    ensures ds.Some? && ds.value.fileSrc.Some? ==> r == Some(ds.value.fileSrc.value.file.name)
    ensures ds.None? || (ds.value.fileSrc.None? && (ds.value.dicomSrc.None? || |ds.value.dicomSrc.value.sources| == 0)) ==> r.None?
  {
    if ds.None? then None else NameOf(ds.value)
  }

  function NameOf(ds: DataSource): Option<string>
    decreases ds
  {
    if ds.fileSrc.Some? then Some(ds.fileSrc.value.file.name)
    else if ds.dicomSrc.Some? && |ds.dicomSrc.value.sources| > 0 then
      var sources := ds.dicomSrc.value.sources;
      assert sources[0] in sources;
      Some(Render(NameOf(sources[0])) + MoreSuffix(|sources|))
    else None
  }

  /**
   * A DICOM bundle without a file source of its own is named after its
   * first source, followed by ` (+k more)` exactly when there are k > 0
   * further sources.
   */
  lemma DicomBundleName(ds: DataSource)
    requires ds.fileSrc.None? && ds.dicomSrc.Some? && |ds.dicomSrc.value.sources| > 0
    requires ds.dicomSrc.value.sources[0].fileSrc.Some?
    ensures var sources := ds.dicomSrc.value.sources;
      var first := sources[0].fileSrc.value.file.name;
      GetDataSourceName(Some(ds)) == Some(if |sources| > 1 then first + " (+" + NatToDecimal(|sources| - 1) + " more)" else first)
  {
    var sources := ds.dicomSrc.value.sources;
    var first := sources[0].fileSrc.value.file.name;
    assert NameOf(sources[0]) == Some(first);
    assert NameOf(ds) == Some(first + MoreSuffix(|sources|));
    if |sources| <= 1 {
      assert first + "" == first;
    } else {
      var n := NatToDecimal(|sources| - 1);
      assert first + (" (+" + n + " more)") == first + " (+" + n + " more)";
    }
  }
}
