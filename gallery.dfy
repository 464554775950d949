/**
 * The photo gallery (GallerySection): a fixed list of albums, one per
 * folder, and a lightbox that shows the images of the selected album with
 * wrap-around next/previous navigation.
 */
module Gallery {
  import opened Opt
  import JsMath

  datatype GalleryImage = GalleryImage(
    id: string,
    folderId: string,
    src: string,
    thumbnail: string,
    title: string,
    description: string)

  /** The album folders, in display order. */
  const FolderIds: seq<string> := ["1", "2", "3", "7", "5", "4", "8", "9", "10", "11", "12", "13", "14"]

  const DefaultFile: string := "main.svg"

  /** The image files of each folder. */
  const FolderImages: map<string, seq<string>> := map[
    "1" := ["main.svg"], "2" := ["main.svg"], "3" := ["main.svg"], "4" := ["main.svg"],
    "5" := ["main.svg"], "7" := ["main.svg"], "8" := ["main.svg"], "9" := ["main.svg"],
    "10" := ["main.svg"], "11" := ["main.svg"], "12" := ["main.svg"], "13" := ["main.svg"],
    "14" := ["main.svg"]]

  /**
   * `folderImagesMap[folderId] || ['main.svg']`: a folder missing from the
   * map has the default file. The lookup here sees only the map's own
   * entries, not properties an object inherits.
   */
  function AlbumFiles(folderId: string): seq<string> {
    if folderId in FolderImages then FolderImages[folderId] else [DefaultFile]
  }

  /** Every folder in the map, and every folder name the map lacks, has at least one file. */
  lemma AlbumFilesNonEmpty(folderId: string)
    ensures |AlbumFiles(folderId)| > 0
  {
    if folderId in FolderImages {
      assert folderId in {"1", "2", "3", "4", "5", "7", "8", "9", "10", "11", "12", "13", "14"};
    }
  }

  /**
   * getThumbnailFile: the folder's first file, unless there is none or it
   * is the empty string (both falsy in JavaScript), in which case the default.
   */
  function ThumbnailFile(folderId: string): (file: string)
    ensures file != ""
    ensures file == DefaultFile || file == AlbumFiles(folderId)[0]
  {
    var files := AlbumFiles(folderId);
    if |files| > 0 && files[0] != "" then files[0] else DefaultFile
  }

  const PathPrefix: string := "/slide-images/"

  /** The public path of one file of a folder. */
  function ImagePath(folderId: string, file: string): string {
    PathPrefix + folderId + "/" + file
  }

  /** The file name read back from a path of the given folder. */
  function FileOfPath(folderId: string, path: string): string
    requires |PathPrefix + folderId + "/"| <= |path|
  {
    path[|PathPrefix + folderId + "/"|..]
  }

  lemma PathRoundTrip(folderId: string, file: string)
    ensures |PathPrefix + folderId + "/"| <= |ImagePath(folderId, file)|
    ensures FileOfPath(folderId, ImagePath(folderId, file)) == file
  {
    var head := PathPrefix + folderId + "/";
    assert ImagePath(folderId, file) == head + file;
    assert (head + file)[|head|..] == file;
  }

  /** One path per file, in the same order. */
  function AlbumPaths(folderId: string, files: seq<string>): (paths: seq<string>)
    ensures |paths| == |files|
    ensures forall i :: 0 <= i < |files| ==> paths[i] == ImagePath(folderId, files[i])
  {
    if files == [] then [] else [ImagePath(folderId, files[0])] + AlbumPaths(folderId, files[1..])
  }

  /** loadAlbumImages, whose promise always resolves to this list. */
  function LoadAlbumImages(folderId: string): seq<string> {
    AlbumPaths(folderId, AlbumFiles(folderId))
  }

  /**
   * An album is never empty, and each of its paths lies in the folder and
   * names the folder's file at the same position.
   */
  lemma AlbumImagesMatchFiles(folderId: string)
    ensures |LoadAlbumImages(folderId)| == |AlbumFiles(folderId)| > 0
    ensures forall i :: 0 <= i < |AlbumFiles(folderId)| ==>
      var path := LoadAlbumImages(folderId)[i];
      && |PathPrefix + folderId + "/"| <= |path|
      && path[..|PathPrefix + folderId + "/"|] == PathPrefix + folderId + "/"
      && FileOfPath(folderId, path) == AlbumFiles(folderId)[i]
  {
    AlbumFilesNonEmpty(folderId);
    var files := AlbumFiles(folderId);
    forall i | 0 <= i < |files|
      ensures var path := LoadAlbumImages(folderId)[i];
        && |PathPrefix + folderId + "/"| <= |path|
        && path[..|PathPrefix + folderId + "/"|] == PathPrefix + folderId + "/"
        && FileOfPath(folderId, path) == files[i]
    {
      PathRoundTrip(folderId, files[i]);
    }
  }

  /** The gallery entry of one folder, as the galleryImages map builds it. */
  function GalleryEntry(folderId: string): GalleryImage {
    var base := ImagePath(folderId, ThumbnailFile(folderId));
    GalleryImage(folderId, folderId, base, base, "Album " + folderId, "Beautiful memories from album " + folderId)
  }

  /**
   * An entry is identified by its folder, titled after it, and shows the
   * folder's thumbnail file as both image and thumbnail.
   */
  lemma GalleryEntryOfFolder(folderId: string)
    ensures var e := GalleryEntry(folderId);
      && e.id == e.folderId == folderId
      && e.title == "Album " + folderId
      && e.src == e.thumbnail
      && |PathPrefix + folderId + "/"| <= |e.src|
      && FileOfPath(folderId, e.src) == ThumbnailFile(folderId)
  {
    PathRoundTrip(folderId, ThumbnailFile(folderId));
  }

  function BuildGallery(folderIds: seq<string>): (images: seq<GalleryImage>)
    ensures |images| == |folderIds|
    ensures forall i :: 0 <= i < |folderIds| ==> images[i] == GalleryEntry(folderIds[i])
  {
    if folderIds == [] then [] else [GalleryEntry(folderIds[0])] + BuildGallery(folderIds[1..])
  }

  /** galleryImages: built once from the folder list. */
  function GalleryImages(): seq<GalleryImage> {
    BuildGallery(FolderIds)
  }

  /** Distinct folders give albums with distinct ids. */
  lemma BuildGalleryKeepsIdsDistinct(folderIds: seq<string>)
    requires forall i, j :: 0 <= i < j < |folderIds| ==> folderIds[i] != folderIds[j]
    ensures forall i, j :: 0 <= i < j < |folderIds| ==> BuildGallery(folderIds)[i].id != BuildGallery(folderIds)[j].id
  {
    var g := BuildGallery(folderIds);
    forall i, j | 0 <= i < j < |folderIds|
      ensures g[i].id != g[j].id
    {
      assert g[i].id == folderIds[i] && g[j].id == folderIds[j];
    }
  }

  /** One album per folder, in folder order, and no two albums with the same id. */
  lemma GalleryImagesFollowFolders()
    ensures |GalleryImages()| == |FolderIds|
    ensures forall i :: 0 <= i < |FolderIds| ==> GalleryImages()[i] == GalleryEntry(FolderIds[i])
    ensures forall i, j :: 0 <= i < j < |FolderIds| ==> GalleryImages()[i].id != GalleryImages()[j].id
  {
    FolderIdsDistinct();
    BuildGalleryKeepsIdsDistinct(FolderIds);
  }

  lemma FolderIdsDistinct()
    ensures forall i, j :: 0 <= i < j < |FolderIds| ==> FolderIds[i] != FolderIds[j]
  {
    var s := FolderIds;
    forall i, j | 0 <= i < j < |s|
      ensures s[i] != s[j]
    {
      assert s[i] == ["1", "2", "3", "7", "5", "4", "8", "9", "10", "11", "12", "13", "14"][i];
    }
  }

  /** nextImage: one forward, wrapping; nothing when the album is empty. */
  function NextIndex(index: int, count: nat): int {
    if count > 0 then JsMath.Rem(index + 1, count) else index
  }

  /** prevImage: one back, wrapping; nothing when the album is empty. */
  function PrevIndex(index: int, count: nat): int {
    if count > 0 then JsMath.Rem(index - 1 + count, count) else index
  }

  /**
   * From an index of a non-empty album both moves land on an index of the
   * album, and each undoes the other; on an empty album neither moves.
   */
  lemma NavigationLaws(index: int, count: nat)
    ensures count == 0 ==> NextIndex(index, count) == index && PrevIndex(index, count) == index
    ensures 0 <= index < count ==>
      && 0 <= NextIndex(index, count) < count
      && 0 <= PrevIndex(index, count) < count
      && PrevIndex(NextIndex(index, count), count) == index
      && NextIndex(PrevIndex(index, count), count) == index
  {
    if 0 <= index < count {
      var next := NextIndex(index, count);
      var prev := PrevIndex(index, count);
      JsMath.RemBelowTwice(index + 1, count);
      JsMath.RemBelowTwice(index - 1 + count, count);
      JsMath.RemBelowTwice(next - 1 + count, count);
      JsMath.RemBelowTwice(prev + 1, count);
    }
  }

  /** Five images, the last one shown: next wraps to the first. */
  lemma NextWrapsAround()
    ensures NextIndex(4, 5) == 0 && PrevIndex(0, 5) == 4
  {
  }

  /**
   * The lightbox image's onError handler: look for another index, starting
   * one after the current one and wrapping, and stop at the first that differs.
   */
  method FallbackIndex(current: int, count: nat) returns (foundNext: bool, next: int)
    requires 0 <= current < count
    ensures foundNext <==> count > 1
    ensures foundNext ==> next == NextIndex(current, count) && next != current && 0 <= next < count
    ensures !foundNext ==> next == current
  {
    foundNext, next := false, current;
    var i := 1;
    while i < count
      invariant 1 <= i <= count
      invariant !foundNext && next == current
      invariant forall k :: current < k < current + i ==> JsMath.Rem(k, count) == current
    {
      var nextIndex := JsMath.Rem(current + i, count);
      if nextIndex != current {
        foundNext, next := true, nextIndex;
        JsMath.RemBelowTwice(current + 1, count);
        break;
      }
      i := i + 1;
    }
    JsMath.RemBelowTwice(current + 1, count);
  }

  /** The lightbox state of the component. */
  class Lightbox {
    var selectedAlbum: Option<GalleryImage>
    var selectedImageIndex: int
    var albumImages: seq<string>

    /** The index is always one of the album's, or 0 when no images are loaded. */
    ghost predicate Valid()
      reads this
    {
      && 0 <= selectedImageIndex
      && (albumImages == [] ==> selectedImageIndex == 0)
      && (albumImages != [] ==> selectedImageIndex < |albumImages|)
      && (selectedAlbum == None ==> albumImages == [])
    }

    constructor ()
      ensures Valid()
      ensures selectedAlbum == None && selectedImageIndex == 0 && albumImages == []
    {
      selectedAlbum, selectedImageIndex, albumImages := None, 0, [];
    }

    /** openAlbum, with the album's images loaded once its promise resolves. */
    method OpenAlbum(image: GalleryImage)
      modifies this
      ensures Valid()
      ensures selectedAlbum == Some(image) && selectedImageIndex == 0
      ensures albumImages == LoadAlbumImages(image.folderId) && albumImages != []
    {
      selectedImageIndex := 0;
      selectedAlbum := Some(image);
      var images := LoadAlbumImages(image.folderId);
      AlbumImagesMatchFiles(image.folderId);
      albumImages := images;
    }

    method CloseAlbum()
      modifies this
      ensures Valid()
      ensures selectedAlbum == None && albumImages == [] && selectedImageIndex == 0
    {
      selectedAlbum := None;
      albumImages := [];
      selectedImageIndex := 0;
    }

    method NextImage()
      requires Valid()
      modifies this
      ensures Valid()
      ensures selectedImageIndex == NextIndex(old(selectedImageIndex), |albumImages|)
      ensures selectedAlbum == old(selectedAlbum) && albumImages == old(albumImages)
    {
      NavigationLaws(selectedImageIndex, |albumImages|);
      if |albumImages| > 0 {
        selectedImageIndex := JsMath.Rem(selectedImageIndex + 1, |albumImages|);
      }
    }

    method PrevImage()
      requires Valid()
      modifies this
      ensures Valid()
      ensures selectedImageIndex == PrevIndex(old(selectedImageIndex), |albumImages|)
      ensures selectedAlbum == old(selectedAlbum) && albumImages == old(albumImages)
    {
      NavigationLaws(selectedImageIndex, |albumImages|);
      if |albumImages| > 0 {
        selectedImageIndex := JsMath.Rem(selectedImageIndex - 1 + |albumImages|, |albumImages|);
      }
    }

    /**
     * The keydown listener, registered only while an album is selected:
     * Escape closes, the arrow keys navigate, any other key does nothing.
     */
    method KeyDown(key: string)
      requires Valid()
      modifies this
      ensures Valid()
      ensures old(selectedAlbum) == None || (key != "Escape" && key != "ArrowRight" && key != "ArrowLeft") ==>
        selectedAlbum == old(selectedAlbum) && albumImages == old(albumImages)
        && selectedImageIndex == old(selectedImageIndex)
      ensures old(selectedAlbum) != None && key == "Escape" ==>
        selectedAlbum == None && albumImages == [] && selectedImageIndex == 0
      ensures old(selectedAlbum) != None && key == "ArrowRight" ==>
        selectedImageIndex == NextIndex(old(selectedImageIndex), |old(albumImages)|)
        && albumImages == old(albumImages) && selectedAlbum == old(selectedAlbum)
      ensures old(selectedAlbum) != None && key == "ArrowLeft" ==>
        selectedImageIndex == PrevIndex(old(selectedImageIndex), |old(albumImages)|)
        && albumImages == old(albumImages) && selectedAlbum == old(selectedAlbum)
    {
      if selectedAlbum == None {
        return;
      }
      if key == "Escape" {
        CloseAlbum();
      }
      if key == "ArrowRight" {
        NextImage();
      }
      if key == "ArrowLeft" {
        PrevImage();
      }
    }

    /** A click on the thumbnail at `index` of the strip under the image. */
    method SelectThumbnail(index: int)
      requires Valid() && 0 <= index < |albumImages|
      modifies this
      ensures Valid()
      ensures selectedImageIndex == index
      ensures selectedAlbum == old(selectedAlbum) && albumImages == old(albumImages)
    {
      selectedImageIndex := index;
    }

    /**
     * The shown image failed to load (it is shown only when the album has
     * images): move to the next image if there is another one; otherwise
     * the component draws a placeholder and the state stays as it is.
     */
    method ImageError() returns (foundNext: bool)
      requires Valid() && albumImages != []
      modifies this
      ensures Valid()
      ensures foundNext <==> |albumImages| > 1
      ensures selectedImageIndex ==
        if foundNext then NextIndex(old(selectedImageIndex), |albumImages|) else old(selectedImageIndex)
      ensures foundNext ==> selectedImageIndex != old(selectedImageIndex)
      ensures selectedAlbum == old(selectedAlbum) && albumImages == old(albumImages)
    {
      var next;
      foundNext, next := FallbackIndex(selectedImageIndex, |albumImages|);
      if foundNext {
        selectedImageIndex := next;
      }
    }
  }
}
