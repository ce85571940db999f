/** The photo grid of the sell form (src/components/ImageGridUpload.tsx): an upload appends one photo at the end,
    the remove button drops one position, and two placeholder tiles stand in for an empty list. Storage, the file
    reader, the clock and the random name token are parameters. */
module ImageGridUpload {
  import opened Text
  import opened Decimal

  /** `images.filter((_, index) => index !== k)`; k is any number, so it may be out of range. */
  function RemoveImage(images: seq<string>, k: int): (r: seq<string>)
    ensures 0 <= k < |images| ==> r == images[..k] + images[k + 1..]
    ensures !(0 <= k < |images|) ==> r == images
    decreases |images|
  {
    if images == [] then []
    else (if k == 0 then [] else [images[0]]) + RemoveImage(images[1..], k - 1)
  }

  /** Removing a position in range shortens the list by one and keeps every other photo in its order. */
  lemma RemoveImageShape(images: seq<string>, k: int)
    requires 0 <= k < |images|
    ensures |RemoveImage(images, k)| == |images| - 1
    ensures forall i :: 0 <= i < k ==> RemoveImage(images, k)[i] == images[i]
    ensures forall i :: k <= i < |images| - 1 ==> RemoveImage(images, k)[i] == images[i + 1]
  {
    var r := RemoveImage(images, k);
    assert r == images[..k] + images[k + 1..];
  }

  /** The extension `file.name.split('.').pop()`. */
  function Extension(name: string): (r: string)
    ensures '.' !in r
    ensures '.' !in name ==> r == name
    ensures '.' in name ==> |r| < |name| && name == name[..|name| - |r| - 1] + "." + r
  {
    var r := AfterLast(name, '.');
    AfterLastWhole(name, '.');
    if '.' in name then SplitBeforeSuffix(name, r, '.'); r else r
  }

  /** The storage path `${Date.now()}-${token}.${ext}`. */
  function StoragePath(now: nat, token: string, fileName: string): (r: string)
    ensures Extension(r) == Extension(fileName)
  {
    var r := NatToString(now) + "-" + token + "." + Extension(fileName);
    assert r == (NatToString(now) + "-" + token) + "." + Extension(fileName);
    AfterLastJoin(NatToString(now) + "-" + token, Extension(fileName), '.');
    r
  }

  /** The number of placeholder tiles drawn after the photos. */
  function PlaceholderTiles(images: seq<string>): (r: nat)
    ensures r > 0 <==> images == []
  {
    if |images| == 0 then 2 else 0
  }

  /** What the storage upload reports: a public URL, or a failure after which the file reader may yield a data
      URL; an exception ends the upload with an alert. */
  datatype UploadResult = Uploaded(publicUrl: string) | StorageFailed(dataUrl: string) | Failed

  class Grid {
    /** The parent's `images` prop, which `onImagesChange` replaces. */
    var images: seq<string>
    var uploading: bool
    /** The file input's value, reset after each upload. */
    var inputValue: string
    var alerts: seq<string>

    constructor(images: seq<string>)
      ensures this.images == images && !uploading && inputValue == "" && alerts == []
    {
      this.images := images;
      uploading := false;
      inputValue := "";
      alerts := [];
    }

    /** `handleUpload` for the chosen files: nothing happens without a file; otherwise the first file's photo
        is appended at the end (the public URL, or the reader's data URL when it is not empty), and the busy
        flag and the input are reset. */
    method HandleUpload(fileCount: nat, result: UploadResult)
      modifies this
      ensures fileCount == 0 ==>
        images == old(images) && uploading == old(uploading) && inputValue == old(inputValue)
        && alerts == old(alerts)
      ensures fileCount > 0 ==> !uploading && inputValue == ""
      ensures fileCount > 0 && result.Uploaded? ==> images == old(images) + [result.publicUrl]
      ensures fileCount > 0 && result.StorageFailed? ==>
        images == old(images) + (if result.dataUrl != [] then [result.dataUrl] else [])
      ensures fileCount > 0 && result.Failed? ==>
        images == old(images) && alerts == old(alerts) + ["Failed to upload image."]
      ensures !(fileCount > 0 && result.Failed?) ==> alerts == old(alerts)
    {
      if fileCount == 0 {
        return;
      }
      uploading := true;
      match result {
        case Uploaded(url) =>
          images := images + [url];
        case StorageFailed(dataUrl) =>
          if dataUrl != [] {
            images := images + [dataUrl];
          }
        case Failed =>
          alerts := alerts + ["Failed to upload image."];
      }
      uploading := false;
      inputValue := "";
    }

    /** The remove button on tile k. */
    method Remove(k: int)
      modifies this`images
      ensures images == RemoveImage(old(images), k)
    {
      images := RemoveImage(images, k);
    }
  }
}
