/**
 * `CustomUser` and its overridden `save`: the row is written first, and then,
 * only when a photo is attached, the photo file is opened, cropped to its
 * centred square, resized to 300x300 and written back over itself.
 * The database row and the file system are abstracted to a `persisted` flag,
 * the attached file's size, and the ordered list of writes `save` performs.
 */
module Users {
  import opened Wrappers
  import opened Crop

  /** The file behind the photo field as `Image.open` sees it: an image of some size, or a file it cannot decode. */
  datatype StoredFile = Decodable(dims: Dims) | Undecodable

  /** A durable write performed by `save`: the row, or the photo file rewritten from a crop box at a size. */
  datatype Write = RowWritten | FileRewritten(box: Box, dims: Dims)

  /** How `save` ends: normally, or with the error `Image.open` raises after the row is written. */
  datatype SaveResult = Saved | DecodeError

  class CustomUser {
    /** The `photo` field: `None` when no file is attached (the field is falsy). */
    var photo: Option<StoredFile>
    /** Whether the row has been written by the base class's `save`. */
    var persisted: bool
    /** Every durable write so far, oldest first. */
    var writes: seq<Write>

    constructor (photo: Option<StoredFile>)
      ensures this.photo == photo && !persisted && writes == []
    {
      this.photo := photo;
      persisted := false;
      writes := [];
    }

    /** The attached photo, if it is an image, is a 300x300 square. */
    predicate PhotoNormalized()
      reads this
    {
      photo.Some? && photo.value.Decodable? ==> photo.value.dims == Dims(ProfileSide, ProfileSide)
    }

    /**
     * Write the row, then normalise the photo if one is attached. Without a
     * photo the only write is the row. With an undecodable file the row stays
     * written and the error surfaces. Otherwise the file is rewritten, after
     * the row, from the centred-square crop box, at 300x300. A photo that is
     * already 300x300 keeps its size but is still rewritten.
     */
    method Save() returns (r: SaveResult)
      modifies this
      ensures persisted
      ensures |writes| > |old(writes)| && writes[..|old(writes)|] == old(writes)
      ensures writes[|old(writes)|] == RowWritten
      ensures old(photo).None? ==> r == Saved && photo == old(photo) && writes == old(writes) + [RowWritten]
      ensures old(photo) == Some(Undecodable) ==>
                r == DecodeError && photo == old(photo) && writes == old(writes) + [RowWritten]
      ensures old(photo).Some? && old(photo).value.Decodable? ==>
                var d := old(photo).value.dims;
                && r == Saved && photo == Some(Decodable(Normalized(d)))
                && writes == old(writes) + [RowWritten, FileRewritten(CropBox(d.width, d.height), Normalized(d))]
      ensures r == Saved ==> PhotoNormalized()
      ensures old(PhotoNormalized()) ==> photo == old(photo)
    {
      persisted := true;
      writes := writes + [RowWritten];
      r := Saved;
      if photo.Some? {
        match photo.value
        case Undecodable =>
          r := DecodeError;
        case Decodable(d) =>
          var b := CropBox(d.width, d.height);
          var img := Cropped(b);
          img := Resized(img, Dims(ProfileSide, ProfileSide));
          photo := Some(Decodable(img));
          writes := writes + [FileRewritten(b, img)];
      }
    }
  }
}
