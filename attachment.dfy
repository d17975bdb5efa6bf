/** crm/service/attachment.go: uploading and opening record and page attachments. An upload
    takes its extension from the file name, stores the original under the store's name scheme
    and, for images, records the dimensions and stores a preview no wider than 320 pixels for
    landscapes and no taller than 180 pixels otherwise. Decoding, resizing and encoding images
    belong to image libraries and enter the model as their results. */
module CrmAttachment {
  import opened Wrappers
  import opened Ints
  import Strs
  import GoPath
  import FileStore

  const PreviewMaxWidth: int := 320
  const PreviewMaxHeight: int := 180

  /** The messages of the errors the service returns, and the mimetype prefix of images. */
  const NilDereference: string := "invalid memory address or nil pointer dereference"
  const FormatErrorPrefix: string := "Could not get format from extension '"
  const GifDecodeFailed: string := "Could not decode gif config"
  const ImageDecodeFailed: string := "Could not decode original image"
  const NoStoreHandler: string := "Can not create attachment: store handler not set"
  const ImageMimePrefix: string := "image/"

  /** The image part of a file's metadata. */
  datatype ImageMeta = ImageMeta(width: int, height: int, animated: bool)

  /** `types.AttachmentFileMeta`. */
  datatype FileMeta = FileMeta(size: int, mimetype: string, extension: string, image: Option<ImageMeta>)

  const NoMeta: FileMeta := FileMeta(0, "", "", None)

  /** `types.Attachment`, with the fields the service writes. */
  class Attachment {
    const id: uint64
    var url: string
    var previewUrl: string
    var original: FileMeta
    var preview: Option<FileMeta>

    constructor (id: uint64)
      ensures this.id == id && url == "" && previewUrl == "" && original == NoMeta && preview.None?
    {
      this.id := id;
      url, previewUrl := "", "";
      original, preview := NoMeta, None;
    }
  }

  /** The extension stored for an upload named `name`: dots around the name are trimmed before
      `path.Ext`, and the extension's own dot after. */
  function Extension(name: string): (ext: string)
  {
    Strs.Trim(GoPath.Ext(Strs.Trim(name, '.')), '.')
  }

  /** The extension holds no dot and no slash, and it ends the name with its leading and
      trailing dots trimmed, after a dot. */
  lemma ExtensionShape(name: string)
    ensures var ext := Extension(name);
      '.' !in ext && '/' !in ext &&
      (ext != "" ==> var t := Strs.Trim(name, '.');
                     |ext| < |t| && t[|t| - |ext|..] == ext && t[|t| - |ext| - 1] == '.')
  {
    var t := Strs.Trim(name, '.');
    var e := GoPath.Ext(t);
    if e != "" {
      assert Strs.TrimLeft(e, '.') == e[1..] by {
        TrimLeftOneDot(e);
      }
      TrimRightNoDot(e[1..]);
    }
  }

  lemma TrimLeftOneDot(e: string)
    requires |e| > 0 && e[0] == '.' && forall k :: 0 < k < |e| ==> e[k] != '.'
    ensures Strs.TrimLeft(e, '.') == e[1..]
  {
    var r := Strs.TrimLeft(e, '.');
    if |r| < |e| - 1 {
      assert e[|e| - |r| - 1] == '.';
    }
  }

  lemma TrimRightNoDot(s: string)
    requires forall k :: 0 <= k < |s| ==> s[k] != '.'
    ensures Strs.TrimRight(s, '.') == s
  {
  }

  /** An original stored under the default name scheme of a clean relative namespace passes
      the store's name check, whatever the upload was called. */
  lemma OriginalNamePassesCheck(namespace: string, id: uint64, name: string)
    requires GoPath.IsCleanRelative(namespace)
    ensures FileStore.Check(namespace, FileStore.OriginalName(namespace, id, Extension(name))) == FileStore.Ok
  {
    ExtensionShape(name);
    FileStore.DefaultNamesPassCheck(namespace, id, Extension(name));
  }

  /** How the preview is sized. */
  datatype Resize = KeepSize | FitWidth | FitHeight

  /** A landscape wider than the maximum width is resized to that width; otherwise an image
      taller than the maximum height is resized to that height. */
  function PreviewResize(width: int, height: int): (r: Resize)
    ensures r == FitWidth <==> width > PreviewMaxWidth && width > height
    ensures r == FitHeight <==> !(width > PreviewMaxWidth && width > height) && height > PreviewMaxHeight
  {
    if width > PreviewMaxWidth && width > height then FitWidth
    else if height > PreviewMaxHeight then FitHeight
    else KeepSize
  }

  /** An image left at its size already fits 320 by 180, portrait or not. */
  lemma UnresizedFits(width: int, height: int)
    requires PreviewResize(width, height) == KeepSize
    ensures width <= PreviewMaxWidth && height <= PreviewMaxHeight
  {
  }

  /** A portrait wider than 320 pixels is constrained by its height, not its width. */
  lemma WidePortraitFitsHeight(width: int, height: int)
    requires width > PreviewMaxWidth && height >= width
    ensures PreviewResize(width, height) == FitHeight
  {
  }

  /** A GIF is animated when it loops or has more than one frame delay. */
  predicate IsAnimated(loopCount: int, delays: seq<int>) {
    loopCount > 0 || |delays| > 1
  }

  /** The image formats this service tells apart. */
  datatype Format = Jpeg | Gif | OtherFormat(name: string)

  /** A decoded image: its bounds and, for a GIF, its loop count and frame delays. */
  datatype Picture = Picture(width: int, height: int, loopCount: int, delays: seq<int>)

  /** What the image libraries yield for one upload: the format named by the extension, the
      decoded image, the proportional side of a resized preview, and the encoded preview. */
  datatype ImageCodec = ImageCodec(format: Result<Format>, decoded: Result<Picture>, scaled: int, encoded: Result<FileStore.Bytes>)

  /** GIF previews stay GIFs; every other image is previewed as a JPEG. */
  function PreviewFormat(f: Format): Format {
    if f == Gif then Gif else Jpeg
  }

  function PreviewMimetype(f: Format): string {
    if PreviewFormat(f) == Gif then "image/gif" else "image/jpeg"
  }

  function PreviewExtension(f: Format): string {
    if PreviewFormat(f) == Gif then "gif" else "jpg"
  }

  /** The preview's size: the original's, or the fixed side of a resize with the side the
      resizer scales in proportion. */
  function PreviewSize(width: int, height: int, scaled: int): (int, int) {
    match PreviewResize(width, height)
    case KeepSize => (width, height)
    case FitWidth => (PreviewMaxWidth, scaled)
    case FitHeight => (scaled, PreviewMaxHeight)
  }

  /** `errors.Wrapf`'s message: the context, a colon, then the cause. */
  function Wrapped(context: string, cause: string): string {
    context + ": " + cause
  }

  /** Only animation of GIFs is recorded. */
  function Animated(f: Format, p: Picture): bool {
    f == Gif && IsAnimated(p.loopCount, p.delays)
  }

  /** What `create` returns once the mimetype is known: the error of saving the original, or
      else the outcome of persisting the attachment; the preview's outcome is never returned. */
  function CreateOutcome(saved: FileStore.Outcome, persist: Option<string>): (r: FileStore.Outcome)
    ensures saved != FileStore.Ok ==> r == saved
    ensures saved == FileStore.Ok ==> (r == FileStore.Ok <==> persist.None?)
    ensures r.Err? && saved == FileStore.Ok ==> r.msg == persist.value
  {
    if saved != FileStore.Ok then saved
    else if persist.Some? then FileStore.Err(persist.value)
    else FileStore.Ok
  }

  /** The attachment service; `store` is the handler it was built with, possibly nil. */
  class AttachmentService {
    const store: FileStore.Store?

    constructor (store: FileStore.Store?)
      ensures this.store == store
    {
      this.store := store;
    }

    function StoreFrame(): set<object> {
      if store == null then {} else {store.fs}
    }

    /** `OpenOriginal`: an attachment without a URL yields no file and no error, without calling
        the store; with a URL the store opens it, and a nil store is a nil dereference panic. */
    method OpenOriginal(att: Attachment) returns (file: Option<FileStore.Bytes>, out: FileStore.Outcome)
      modifies StoreFrame()
      ensures |att.url| == 0 ==> file.None? && out == FileStore.Ok && unchanged(StoreFrame())
      ensures |att.url| > 0 && store == null ==> file.None? && out.Panic?
      ensures |att.url| > 0 && store != null && FileStore.Check(store.namespace, att.url) == FileStore.Ok ==>
        (file.Some? <==> att.url in store.fs.files) && (file.Some? ==> file.value == store.fs.files[att.url])
      ensures store != null && FileStore.Check(store.namespace, att.url) != FileStore.Ok ==> file.None?
    {
      file, out := Open(att.url);
    }

    /** `OpenPreview`: the same for the preview's URL. */
    method OpenPreview(att: Attachment) returns (file: Option<FileStore.Bytes>, out: FileStore.Outcome)
      modifies StoreFrame()
      ensures |att.previewUrl| == 0 ==> file.None? && out == FileStore.Ok && unchanged(StoreFrame())
      ensures |att.previewUrl| > 0 && store == null ==> file.None? && out.Panic?
      ensures |att.previewUrl| > 0 && store != null && FileStore.Check(store.namespace, att.previewUrl) == FileStore.Ok ==>
        (file.Some? <==> att.previewUrl in store.fs.files) &&
        (file.Some? ==> file.value == store.fs.files[att.previewUrl])
      ensures store != null && FileStore.Check(store.namespace, att.previewUrl) != FileStore.Ok ==> file.None?
    {
      file, out := Open(att.previewUrl);
    }

    /** The shared body of the two openers. */
    method Open(url: string) returns (file: Option<FileStore.Bytes>, out: FileStore.Outcome)
      modifies StoreFrame()
      ensures |url| == 0 ==> file.None? && out == FileStore.Ok && unchanged(StoreFrame())
      ensures |url| > 0 && store == null ==> file.None? && out.Panic?
      ensures |url| > 0 && store != null && FileStore.Check(store.namespace, url) == FileStore.Ok ==>
        (file.Some? <==> url in store.fs.files) && (file.Some? ==> file.value == store.fs.files[url])
      ensures store != null && FileStore.Check(store.namespace, url) != FileStore.Ok ==> file.None?
    {
      if |url| == 0 {
        return None, FileStore.Ok;
      }
      if store == null {
        return None, FileStore.Panic(NilDereference);
      }
      file, out := store.Open(url);
    }

    /** `processImage`: only images get a preview. The original's dimensions (and, for a GIF,
        whether it is animated) are recorded once the image decodes; the preview is sized by
        `PreviewResize`, encoded, described and saved under the store's preview name. */
    method ProcessImage(att: Attachment, codec: ImageCodec) returns (out: FileStore.Outcome)
      requires store != null
      modifies att, store.fs
      ensures att.url == old(att.url) && att.original == old(att.original).(image := att.original.image)
      ensures !Strs.HasPrefix(old(att.original.mimetype), ImageMimePrefix) ==>
        out == FileStore.Ok && unchanged(att) && unchanged(store.fs)
      ensures Strs.HasPrefix(old(att.original.mimetype), ImageMimePrefix) && codec.format.Failure? ==>
        out == FileStore.Err(Wrapped(FormatErrorPrefix + old(att.original.extension) + "'", codec.format.error)) &&
        unchanged(att) && unchanged(store.fs)
      ensures Strs.HasPrefix(old(att.original.mimetype), ImageMimePrefix) && codec.format.Success? && codec.decoded.Failure? ==>
        out == FileStore.Err(Wrapped(if codec.format.value == Gif then GifDecodeFailed else ImageDecodeFailed,
                                     codec.decoded.error)) &&
        unchanged(att) && unchanged(store.fs)
      ensures Strs.HasPrefix(old(att.original.mimetype), ImageMimePrefix) && codec.format.Success? && codec.decoded.Success? ==>
        var p := codec.decoded.value;
        att.original == old(att.original).(image := Some(ImageMeta(p.width, p.height, Animated(codec.format.value, p))))
      ensures Strs.HasPrefix(old(att.original.mimetype), ImageMimePrefix) && codec.format.Success? && codec.decoded.Success? &&
              codec.encoded.Failure? ==>
        out == FileStore.Err(codec.encoded.error) && att.preview == old(att.preview) &&
        att.previewUrl == old(att.previewUrl) && unchanged(store.fs)
      ensures Strs.HasPrefix(old(att.original.mimetype), ImageMimePrefix) && codec.format.Success? && codec.decoded.Success? &&
              codec.encoded.Success? ==>
        var f := codec.format.value;
        var p := codec.decoded.value;
        var (w, h) := PreviewSize(p.width, p.height, codec.scaled);
        att.preview == Some(FileMeta(|codec.encoded.value|, PreviewMimetype(f), PreviewExtension(f), Some(ImageMeta(w, h, false)))) &&
        att.previewUrl == store.Preview(att.id, PreviewExtension(f)) &&
        (out == FileStore.Ok ==> store.fs.files == old(store.fs.files)[att.previewUrl := codec.encoded.value]) &&
        (out != FileStore.Ok ==> store.fs.files == old(store.fs.files))
    {
      if !Strs.HasPrefix(att.original.mimetype, ImageMimePrefix) {
        return FileStore.Ok;
      }
      if codec.format.Failure? {
        return FileStore.Err(Wrapped(FormatErrorPrefix + att.original.extension + "'", codec.format.error));
      }
      var format := codec.format.value;
      var animated := false;
      if codec.decoded.Failure? {
        if format == Gif {
          return FileStore.Err(Wrapped(GifDecodeFailed, codec.decoded.error));
        }
        return FileStore.Err(Wrapped(ImageDecodeFailed, codec.decoded.error));
      }
      var picture := codec.decoded.value;
      if format == Gif {
        animated := IsAnimated(picture.loopCount, picture.delays);
      }
      var width, height := picture.width, picture.height;
      att.original := att.original.(image := Some(ImageMeta(width, height, animated)));
      match PreviewResize(width, height) {
        case FitWidth => width, height := PreviewMaxWidth, codec.scaled;
        case FitHeight => width, height := codec.scaled, PreviewMaxHeight;
        case KeepSize =>
      }
      if codec.encoded.Failure? {
        return FileStore.Err(codec.encoded.error);
      }
      var buf := codec.encoded.value;
      var previewFormat := PreviewFormat(format);
      att.preview := Some(FileMeta(|buf|, PreviewMimetype(format), PreviewExtension(format), Some(ImageMeta(width, height, false))));
      att.previewUrl := store.Preview(att.id, PreviewExtension(format));
      out := store.Save(att.previewUrl, buf);
    }

    /** `create`: fails at once without a store; otherwise records the extension and size, the
        sniffed mimetype (empty when sniffing fails), saves the original under the store's name,
        makes the preview (whose outcome is only logged) and persists the attachment. */
    method Create(att: Attachment, name: string, size: int, contents: FileStore.Bytes, mimetype: Result<string>,
                  codec: ImageCodec, persist: Option<string>) returns (out: FileStore.Outcome)
      modifies att, StoreFrame()
      ensures store == null ==> out == FileStore.Err(NoStoreHandler) && unchanged(att)
      ensures store != null ==> att.original.extension == Extension(name) && att.original.size == size
      ensures store != null && mimetype.Failure? ==>
        out == FileStore.Err(mimetype.error) && att.original.mimetype == "" && att.url == old(att.url) &&
        att.preview == old(att.preview) && unchanged(store.fs)
      ensures store != null && mimetype.Success? ==>
        att.url == store.Original(att.id, Extension(name)) && att.original.mimetype == mimetype.value
      ensures store != null && mimetype.Success? && FileStore.Check(store.namespace, att.url) != FileStore.Ok ==>
        unchanged(store.fs) && att.preview == old(att.preview)
      ensures store != null && mimetype.Success? ==>
        out == CreateOutcome(FileStore.SaveOutcome(store.namespace, old(store.fs.files), old(store.fs.dirs), att.url), persist)
      ensures out == FileStore.Ok ==> store != null && mimetype.Success? && persist.None?
    {
      if store == null {
        return FileStore.Err(NoStoreHandler);
      }
      var ext := Extension(name);
      if mimetype.Failure? {
        att.original := att.original.(extension := ext, size := size, mimetype := "");
        return FileStore.Err(mimetype.error);
      }
      var meta := att.original.(extension := ext, size := size, mimetype := mimetype.value);
      out := SaveAndProcess(att, meta, store.Original(att.id, ext), contents, codec, persist);
    }

    /** The rest of `create` once the metadata `meta` and the URL are known: the original is
        saved, then the preview made and the attachment persisted. */
    method SaveAndProcess(att: Attachment, meta: FileMeta, url: string, contents: FileStore.Bytes,
                          codec: ImageCodec, persist: Option<string>) returns (out: FileStore.Outcome)
      requires store != null
      modifies att, store.fs
      ensures att.url == url && att.original == meta.(image := att.original.image)
      ensures FileStore.Check(store.namespace, url) != FileStore.Ok ==>
        unchanged(store.fs) && att.preview == old(att.preview) && att.original == meta
      ensures out == CreateOutcome(FileStore.SaveOutcome(store.namespace, old(store.fs.files), old(store.fs.dirs), url), persist)
    {
      out := SaveOriginal(att, meta, url, contents);
      if out != FileStore.Ok {
        return;
      }
      ProcessImageLogged(att, codec);
      out := CreateOutcome(out, persist);
    }

    /** The middle of `create`, once the mimetype is known: the original's metadata and URL are
        recorded and the file is saved there. */
    method SaveOriginal(att: Attachment, meta: FileMeta, url: string, contents: FileStore.Bytes)
      returns (out: FileStore.Outcome)
      requires store != null
      modifies att, store.fs
      ensures att.original == meta && att.url == url
      ensures att.preview == old(att.preview) && att.previewUrl == old(att.previewUrl)
      ensures out == FileStore.SaveOutcome(store.namespace, old(store.fs.files), old(store.fs.dirs), url)
      ensures FileStore.Check(store.namespace, url) != FileStore.Ok ==> unchanged(store.fs)
    {
      att.original, att.url := meta, url;
      out := store.Save(url, contents);
    }

    /** `create`'s call of `processImage`, whose outcome goes only to the log: whatever it does,
        the original's URL and metadata other than its image dimensions stay as they were. */
    method ProcessImageLogged(att: Attachment, codec: ImageCodec)
      requires store != null
      modifies att, store.fs
      ensures att.url == old(att.url) && att.original == old(att.original).(image := att.original.image)
    {
      var _ := ProcessImage(att, codec);
    }
  }
}
