/**
 * The image store: the ids of the loaded images in load order, the image
 * object behind each id and the metadata derived from it. The image object
 * is abstract; the geometry it reports is a function parameter.
 */
module Images {
  import opened Wrappers
  import Ids
  import Strings

  /** The geometry an image object reports. Matrices are flattened row by row. */
  datatype Geometry = Geometry(
    dimensions: seq<real>,
    spacing: seq<real>,
    origin: seq<real>,
    orientation: seq<real>,
    worldBounds: seq<real>,
    worldToIndex: seq<real>,
    indexToWorld: seq<real>)

  datatype ImageMetadata = ImageMetadata(name: string, geometry: Geometry)

  const Identity3: seq<real> := [1.0, 0.0, 0.0, 0.0, 1.0, 0.0, 0.0, 0.0, 1.0]
  const Identity4: seq<real> := [1.0, 0.0, 0.0, 0.0, 0.0, 1.0, 0.0, 0.0, 0.0, 0.0, 1.0, 0.0, 0.0, 0.0, 0.0, 1.0]

  /** `defaultImageMetadata()`: a unit image at the origin. */
  const DefaultImageMetadata := ImageMetadata("(none)", Geometry(
    [1.0, 1.0, 1.0], [1.0, 1.0, 1.0], [0.0, 0.0, 0.0], Identity3,
    [0.0, 1.0, 0.0, 1.0, 0.0, 1.0], Identity4, Identity4))

  /** `arr.indexOf(el)`, with `None` for -1. */
  function IndexOf<T(==)>(s: seq<T>, x: T): (r: Option<nat>)
    ensures r.None? <==> x !in s
    ensures r.Some? ==> r.value < |s| && s[r.value] == x && x !in s[..r.value]
  {
    if |s| == 0 then None
    else if s[0] == x then Some(0)
    else match IndexOf(s[1..], x)
      case None => None
      case Some(i) => assert s[1..][..i] == s[1..i + 1]; Some(i + 1)
  }

  /** `removeFromArray`: the first occurrence of `x` spliced out; nothing when absent. */
  function RemoveFromArray<T(==)>(s: seq<T>, x: T): (r: seq<T>)
    ensures x !in s ==> r == s
    ensures x in s ==> exists i :: 0 <= i < |s| && s[i] == x && x !in s[..i] && r == s[..i] + s[i + 1..]
  {
    match IndexOf(s, x)
      case None => s
      case Some(i) => s[..i] + s[i + 1..]
  }

  /** Removing `x` takes exactly one copy of it out of the multiset of elements, if there is one. */
  lemma RemoveFromArrayCount<T>(s: seq<T>, x: T)
    ensures x in s ==> multiset(RemoveFromArray(s, x)) == multiset(s) - multiset{x}
    ensures x !in s ==> multiset(RemoveFromArray(s, x)) == multiset(s)
  {
    if x in s {
      var i := IndexOf(s, x).value;
      assert s == s[..i] + [x] + s[i + 1..];
      calc {
        multiset(s);
        multiset(s[..i]) + multiset{x} + multiset(s[i + 1..]);
        multiset(RemoveFromArray(s, x)) + multiset{x};
      }
    }
  }

  /** No element other than `x` appears or disappears. */
  lemma RemoveFromArrayKeepsOthers<T>(s: seq<T>, x: T, y: T)
    requires y != x
    ensures y in RemoveFromArray(s, x) <==> y in s
  {
    RemoveFromArrayCount(s, x);
    assert y in multiset(RemoveFromArray(s, x)) <==> y in multiset(s);
  }

  /** The metadata `updateData` builds: the old name with the image's geometry. */
  function Rebuilt(old_: ImageMetadata, geometry: Geometry): (r: ImageMetadata)
    ensures r.name == old_.name && r.geometry == geometry
  {
    ImageMetadata(old_.name, geometry)
  }

  /** The three records of the store as one value. */
  datatype StoreState<D> = StoreState(idList: seq<string>, dataIndex: map<string, D>, metadata: map<string, ImageMetadata>)

  /**
   * `addVTKImageData` as the store's middleware runs it. The nested
   * `updateData` commits first, on the state from before the call, where a
   * new id has no metadata, so it only stores the image. The enclosing
   * producer's result, built from that same earlier state, is then merged
   * over the committed state; it holds all three records, so it replaces
   * them, and the new id keeps the default geometry.
   */
  function AddVTKImageDataAsWritten<D>(s: StoreState<D>, id: string, name: string, imageData: D): (r: StoreState<D>)
    ensures r.idList == s.idList + [id] && r.dataIndex == s.dataIndex[id := imageData]
    ensures r.metadata == s.metadata[id := DefaultImageMetadata.(name := name)]
  {
    StoreState(s.idList + [id], s.dataIndex[id := imageData], s.metadata[id := DefaultImageMetadata.(name := name)])
  }

  /** For any image whose geometry is not the default one, the metadata as written is not the image's. */
  lemma AsWrittenLosesGeometry<D>(s: StoreState<D>, id: string, name: string, imageData: D, geometryOf: D -> Geometry)
    requires geometryOf(imageData) != DefaultImageMetadata.geometry
    ensures AddVTKImageDataAsWritten(s, id, name, imageData).metadata[id] != ImageMetadata(name, geometryOf(imageData))
  {
  }

  class ImageStore<D> {
    var idList: seq<string>
    var dataIndex: map<string, D>
    var metadata: map<string, ImageMetadata>

    /** Every id with metadata has an image object and is listed. */
    ghost predicate Valid()
      reads this
    {
      metadata.Keys <= dataIndex.Keys && forall id :: id in metadata ==> id in idList
    }

    constructor ()
      ensures idList == [] && dataIndex == map[] && metadata == map[]
      ensures Valid()
    {
      idList := [];
      dataIndex := map[];
      metadata := map[];
    }

    /**
     * `addVTKImageData`: the given id, or else the next id from the id store;
     * the id appended to the list and the image registered with its name and
     * the geometry it reports.
     */
    method AddVTKImageData(name: string, imageData: D, useId: Option<string>, ids: Ids.IdStore, geometryOf: D -> Geometry)
      returns (id: string)
      requires Valid()
      modifies this, ids
      ensures Valid()
      ensures useId.Some? ==> id == useId.value && ids.id == old(ids.id)
      ensures useId.None? ==> id == Strings.NatToDecimal(old(ids.id) + 1) && ids.id == old(ids.id) + 1
      ensures idList == old(idList) + [id]
      ensures dataIndex == old(dataIndex)[id := imageData]
      ensures metadata == old(metadata)[id := ImageMetadata(name, geometryOf(imageData))]
    {
      if useId.Some? {
        id := useId.value;
      } else {
        id := ids.NextID();
      }
      idList := idList + [id];
      dataIndex := dataIndex[id := imageData];
      metadata := metadata[id := DefaultImageMetadata.(name := name)];
      UpdateData(id, imageData, geometryOf);
    }

    /** `updateData`: the image object always replaced; the metadata rebuilt only when the id has some. */
    method UpdateData(id: string, imageData: D, geometryOf: D -> Geometry)
      requires Valid()
      modifies this
      ensures Valid()
      ensures idList == old(idList)
      ensures dataIndex == old(dataIndex)[id := imageData]
      ensures id in old(metadata) ==> metadata == old(metadata)[id := Rebuilt(old(metadata)[id], geometryOf(imageData))]
      ensures id !in old(metadata) ==> metadata == old(metadata)
    {
      if id in metadata {
        metadata := metadata[id := Rebuilt(metadata[id], geometryOf(imageData))];
        dataIndex := dataIndex[id := imageData];
      }
      dataIndex := dataIndex[id := imageData];
    }

    /** `deleteData`: the id dropped from both records and its first listing removed. */
    method DeleteData(id: string)
      requires Valid()
      modifies this
      ensures Valid()
      ensures dataIndex == old(dataIndex) - {id}
      ensures metadata == old(metadata) - {id}
      ensures idList == RemoveFromArray(old(idList), id)
    {
      dataIndex := dataIndex - {id};
      metadata := metadata - {id};
      forall other | other in metadata
        ensures other in RemoveFromArray(idList, id)
      {
        RemoveFromArrayKeepsOthers(idList, id, other);
      }
      idList := RemoveFromArray(idList, id);
    }
  }
}
