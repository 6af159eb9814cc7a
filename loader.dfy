/** The per-extension image loader and sprite lookup
    (common/render_filetype.go). */
module Loader {
  import opened Errors
  import opened Images
  import opened Gl
  import opened Textures

  type Bytes = seq<bv8>

  /** The view box an SVG description declares. */
  datatype ViewBox = ViewBox(x: real, y: real, w: real, h: real)

  /** A parsed SVG icon, as far as the loader looks at it. */
  datatype Icon = Icon(viewBox: ViewBox)

  /** The collaborators the loader calls but does not define: the extension
      of a URL, the SVG reader and the generic raster decoder (JPEG, PNG,
      GIF). Each is a total function of its input. */
  datatype Codecs = Codecs(
    ext: string -> string,
    readIcon: Bytes -> Result<Icon>,
    decode: Bytes -> Result<Raster>)

  /** engo.Resource: what the file dispatcher hands back for a URL. Other
      loaders (fonts, audio, ...) produce resources of other kinds. */
  datatype Resource = TextureRes(texture: TextureResource) | OtherResource(url: string) {
    function URL(): string
    {
      match this
      case TextureRes(t) => t.URL()
      case OtherResource(u) => u
    }
  }

  /** The SVG branch of Load: the view box size truncated to whole pixels,
      a buffer of that size (Rect swaps a negative size to the other side
      of the origin), then normalised. */
  function SvgBuffer(icon: Icon): (m: NRGBA)
    ensures m.rect == Rectangle(Origin, Point(Abs(Trunc(icon.viewBox.w)), Abs(Trunc(icon.viewBox.h))))
    ensures 0.0 <= icon.viewBox.w && 0.0 <= icon.viewBox.h ==>
      ImageObject(m).Width() == Trunc(icon.viewBox.w) && ImageObject(m).Height() == Trunc(icon.viewBox.h)
  {
    var w, h := Trunc(icon.viewBox.w), Trunc(icon.viewBox.h);
    var b := Rect(0, 0, w, h);
    Normalize(b)
  }

  /** A 64.7 x 32.2 view box gives a 64 x 32 buffer: truncation, not rounding. */
  lemma SvgTruncates()
    ensures var m := SvgBuffer(Icon(ViewBox(0.0, 0.0, 64.7, 32.2)));
      ImageObject(m).Width() == 64 && ImageObject(m).Height() == 32
  {
  }

  /** Decoding and normalisation in Load: by extension, the SVG reader or
      the raster decoder; a failure is returned as it is. */
  function DecodeBuffer(codecs: Codecs, url: string, data: Bytes): (r: Result<NRGBA>)
    ensures codecs.ext(url) == ".svg" ==>
      match codecs.readIcon(data)
      case Err(e) => r == Err(e)
      case Ok(icon) =>
        (r.Ok? && r.value.rect.min == Origin
         && r.value.rect.Dx() == Abs(Trunc(icon.viewBox.w)) && r.value.rect.Dy() == Abs(Trunc(icon.viewBox.h)))
    ensures codecs.ext(url) != ".svg" ==>
      match codecs.decode(data)
      case Err(e) => r == Err(e)
      case Ok(img) =>
        (r.Ok? && r.value.rect.WellFormed()
         && (img.bounds.WellFormed() ==>
               r.value.rect.min == Origin
               && ImageObject(r.value).Width() == img.bounds.Dx()
               && ImageObject(r.value).Height() == img.bounds.Dy()))
  {
    if codecs.ext(url) == ".svg" then
      match codecs.readIcon(data)
      case Err(e) => Err(e)
      case Ok(icon) => Ok(SvgBuffer(icon))
    else
      match codecs.decode(data)
      case Err(e) => Err(e)
      case Ok(img) => Ok(Normalize(img.bounds))
  }

  /** Resource on a registry map: the entry under `url`, or NotLoaded(url)
      (whose message quotes `url`, see NotLoadedMessageQuotesUrl). */
  function Lookup(images: map<string, TextureResource>, url: string): (r: Result<Resource>)
    ensures r.Ok? <==> url in images
    ensures r.Ok? ==> r.value == TextureRes(images[url]) && r.value.URL() == images[url].url
    ensures r.Err? ==> r.error == NotLoaded(url)
  {
    if url in images then Ok(TextureRes(images[url])) else Err(NotLoaded(url))
  }

  /** One completed registry operation: a successful Load storing `res`, a
      Load whose decoding failed, or an Unload. */
  datatype Op =
    | Loaded(url: string, res: TextureResource)
    | LoadFailed(url: string)
    | Unloaded(url: string)

  /** The registry transition of one operation. */
  function Apply(images: map<string, TextureResource>, op: Op): map<string, TextureResource>
  {
    match op
    case Loaded(url, res) => images[url := res]
    case LoadFailed(_) => images
    case Unloaded(url) => images - {url}
  }

  /** The registry after `ops`, in order. */
  function ApplyAll(images: map<string, TextureResource>, ops: seq<Op>): map<string, TextureResource>
    decreases |ops|
  {
    if ops == [] then images else Apply(ApplyAll(images, ops[..|ops| - 1]), ops[|ops| - 1])
  }

  /** The last operation in `ops` that wrote the entry for `url`: a
      successful Load or an Unload of it. */
  function LastWrite(ops: seq<Op>, url: string): Option<Op>
    decreases |ops|
  {
    if ops == [] then None
    else
      var op := ops[|ops| - 1];
      if op.url == url && !op.LoadFailed? then Some(op) else LastWrite(ops[..|ops| - 1], url)
  }

  /** After any sequence of operations, looking up `url` gives the resource
      of the last successful Load of `url`, NotLoaded if an Unload of `url`
      came after it, and the original answer if neither happened: the last
      writer wins, failed loads commit nothing, other URLs do not interfere. */
  lemma {:induction false} ReplayLookup(images: map<string, TextureResource>, ops: seq<Op>, url: string)
    ensures Lookup(ApplyAll(images, ops), url) ==
      match LastWrite(ops, url)
      case None => Lookup(images, url)
      case Some(Loaded(_, res)) => Ok(TextureRes(res))
      case Some(_) => Err(NotLoaded(url))
    decreases |ops|
  {
    if ops != [] {
      ReplayLookup(images, ops[..|ops| - 1], url);
    }
  }

  /** Looking up a URL in an empty registry fails with NotLoaded; for a URL
      of printable ASCII other than the double quote and the backslash, such
      as missing.png, the message shows the URL between double quotes. */
  lemma MissingResource(url: string)
    requires forall i :: 0 <= i < |url| ==> ' ' <= url[i] <= '~' && url[i] != '"' && url[i] != '\\'
    ensures var empty: map<string, TextureResource> := map[];
      Lookup(empty, url) == Err(NotLoaded(url)) &&
      Message(Lookup(empty, url).error) == NotLoadedPrefix + "\"" + url + "\""
  {
    PlainNotLoadedMessage(url);
  }

  /** Unloading twice is the same as unloading once. */
  lemma UnloadIdempotent(images: map<string, TextureResource>, url: string)
    ensures Apply(Apply(images, Unloaded(url)), Unloaded(url)) == Apply(images, Unloaded(url))
    ensures Lookup(Apply(images, Unloaded(url)), url) == Err(NotLoaded(url))
  {
  }

  /** Every entry of the registry is stored under its own URL. */
  ghost predicate Keyed(images: map<string, TextureResource>)
  {
    forall u | u in images :: images[u].url == u
  }

  /** LoadedSprite as the code is written, given what the file dispatcher
      answered for `url`. Building the sprite reads the ID of the texture the
      resource points to; None stands for the nil-pointer panic when that
      pointer is nil, as it is for every resource loaded on a headless
      context. */
  function LoadedSpriteAsWritten(url: string, found: Result<Resource>): (r: Option<Result<Texture>>)
    ensures r.None? <==> found.Ok? && found.value.TextureRes? && found.value.texture.texture.Null?
    ensures r.Some? ==> r.value == LoadedSprite(url, found)
  {
    match found
    case Err(e) => Some(Err(e))
    case Ok(OtherResource(_)) => Some(Err(TypeMismatch(url)))
    case Ok(TextureRes(res)) =>
      if res.texture.Null? then None else Some(Ok(WholeSprite(res.texture, res.width, res.height)))
  }

  /** LoadedSprite, given what the file dispatcher answered for `url`: the
      lookup error as it is, a type mismatch naming `url` for a resource of
      another kind, otherwise a texture of the same GPU handle and size
      showing the whole image. A resource loaded on a headless context has
      a nil handle and gives a texture with a nil ID, as NewTextureSingle
      does there. */
  function LoadedSprite(url: string, found: Result<Resource>): (r: Result<Texture>)
    ensures found.Err? ==> r == Err(found.error)
    ensures found.Ok? && found.value.OtherResource? ==>
      r == Err(TypeMismatch(url)) && Message(r.error) == TypeMismatchPrefix + url
    ensures found.Ok? && found.value.TextureRes? ==>
      var res := found.value.texture;
      r.Ok? && r.value.id == res.texture && r.value.Width() == res.width && r.value.Height() == res.height
      && r.value.View() == (0.0, 0.0, 1.0, 1.0)
  {
    match found
    case Err(e) => Err(e)
    case Ok(TextureRes(res)) => Ok(WholeSprite(res.texture, res.width, res.height))
    case Ok(OtherResource(_)) => Err(TypeMismatch(url))
  }

  /** A sprite looked up right after its file was loaded has the loaded
      handle and size and the whole-image viewport; the code as written
      gives the same sprite exactly when the handle is not nil. */
  lemma SpriteAfterLoad(images: map<string, TextureResource>, url: string, res: TextureResource)
    ensures var found := Lookup(Apply(images, Loaded(url, res)), url);
      var t := LoadedSprite(url, found);
      && t.Ok? && t.value.id == res.texture && t.value.Width() == res.width && t.value.Height() == res.height
      && t.value.View() == (0.0, 0.0, 1.0, 1.0)
      && (res.texture.Tex? <==> LoadedSpriteAsWritten(url, found) == Some(t))
  {
  }

  /** The texture resource of a handle issued by `gpu`: nil when headless,
      otherwise a texture name the allocator has handed out. */
  ghost predicate Issued(gpu: Gpu, h: Handle)
    reads gpu
  {
    if gpu.headless then h == Null else h.Tex? && 1 <= h.name < gpu.next
  }

  /** Every entry of the registry holds a texture issued by `gpu`. */
  ghost predicate Registered(images: map<string, TextureResource>, gpu: Gpu)
    reads gpu
  {
    forall u | u in images :: Issued(gpu, images[u].texture)
  }

  /** On a headless context, LoadedSprite as written panics for every URL the
      registry holds, while the corrected one gives a texture with a nil ID
      and the stored size. */
  lemma HeadlessSpritePanics(images: map<string, TextureResource>, gpu: Gpu, url: string)
    requires gpu.headless && Registered(images, gpu) && url in images
    ensures LoadedSpriteAsWritten(url, Lookup(images, url)).None?
    ensures var t := LoadedSprite(url, Lookup(images, url));
      t.Ok? && t.value.id == Null && t.value.Width() == images[url].width && t.value.Height() == images[url].height
  {
  }

  /** Removing an entry keeps every remaining entry under its own URL and
      holding an issued texture. */
  lemma UnloadKeepsValid(images: map<string, TextureResource>, gpu: Gpu, url: string)
    requires Keyed(images) && Registered(images, gpu)
    ensures Keyed(Apply(images, Unloaded(url))) && Registered(Apply(images, Unloaded(url)), gpu)
  {
  }

  /** The loader registered for one file extension: URL to resource. */
  class ImageLoader {
    var images: map<string, TextureResource>

    /** Each entry is stored under its own URL and holds a texture that was
        uploaded to `gpu`. */
    ghost predicate Valid(gpu: Gpu)
      reads this, gpu
    {
      && Keyed(images)
      && Registered(images, gpu)
    }

    constructor ()
      ensures images == map[]
    {
      images := map[];
    }

    /** Decodes `data`, uploads the image and stores it under `url`,
        replacing any earlier entry. A decoding error is returned and
        nothing changes. */
    method Load(gpu: Gpu, codecs: Codecs, url: string, data: Bytes) returns (err: Option<Error>)
      requires gpu.Valid() && Valid(gpu)
      modifies this, gpu
      ensures gpu.Valid() && Valid(gpu)
      ensures match DecodeBuffer(codecs, url, data)
        case Err(e) =>
          err == Some(e) && images == Apply(old(images), LoadFailed(url)) && unchanged(gpu)
        case Ok(m) =>
          var obj := ImageObject(m);
          && err == None && url in images
          && Uploaded(gpu, obj.AsImage(), images[url].texture)
          && images == Apply(old(images), Loaded(url, TextureResource(images[url].texture, obj.Width(), obj.Height(), url)))
    {
      var decoded := DecodeBuffer(codecs, url, data);
      if decoded.Err? {
        return Some(decoded.error);
      }
      var obj := ImageObject(decoded.value);
      var res := NewTextureResource(gpu, obj.AsImage());
      res := res.(url := url);
      images := images[url := res];
      err := None;
    }

    /** Removes the entry for `url`, if any; never fails. */
    method Unload(ghost gpu: Gpu, url: string) returns (err: Option<Error>)
      requires Valid(gpu)
      modifies this
      ensures Valid(gpu)
      ensures err == None && images == Apply(old(images), Unloaded(url))
    {
      UnloadKeepsValid(images, gpu, url);
      images := images - {url};
      err := None;
    }

    /** The resource stored under `url`, or NotLoaded. */
    method Resource(url: string) returns (r: Result<Resource>)
      ensures r == Lookup(images, url)
    {
      if url in images {
        r := Ok(TextureRes(images[url]));
      } else {
        r := Err(NotLoaded(url));
      }
    }
  }
}
