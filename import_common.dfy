/** The predicates over import results and data sources shared by the import pipeline. */
module ImportCommon {
  import opened Wrappers
  import opened DataSources

  datatype DataType = Image | Dicom | Model

  /** An import result: a data source, and for a loadable result its data id and type. */
  datatype ImportResult = ImportResult(dataSource: DataSource, dataID: Option<string>, dataType: Option<DataType>)

  /** `isLoadableResult`: the result carries both a data id and a data type. */
  predicate IsLoadableResult(r: ImportResult)
  {
    r.dataID.Some? && r.dataType.Some?
  }

  /** `isVolumeResult`: a loadable image or DICOM result. */
  predicate IsVolumeResult(r: ImportResult)
  {
    IsLoadableResult(r) && (r.dataType.value == Image || r.dataType.value == Dicom)
  }

  /** A volume result is loadable, and a loadable result is a volume exactly when it is not a model. */
  lemma VolumeResultSpec(r: ImportResult)
    ensures IsVolumeResult(r) ==> IsLoadableResult(r)
    ensures IsVolumeResult(r) <==> IsLoadableResult(r) && r.dataType != Some(Model)
  {
  }

  /** `isArchive`: a file source whose type is one of the archive MIME types. */
  predicate IsArchive(ds: DataSource, archiveFileTypes: set<string>)
  {
    ds.fileSrc.Some? && ds.fileSrc.value.fileType in archiveFileTypes
  }

  /** A file source made from a file is an archive exactly when the file's MIME type is an archive type. */
  lemma FileArchiveByType(file: File, archiveFileTypes: set<string>)
    ensures IsArchive(FileToDataSource(file), archiveFileTypes) <==> file.mimeType in archiveFileTypes
  {
  }
}
