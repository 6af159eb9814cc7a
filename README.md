# Texture loading and upload in engo's `common` package, modelled in Dafny

This project models the image-resource pipeline of the engo game engine's
rendering layer. The engine reads an image file (JPEG, PNG, GIF or SVG) and
redraws it into a non-premultiplied RGBA buffer placed at the origin. It then
uploads that buffer to the GPU with fixed sampling parameters and keeps the
resulting `TextureResource` in a per-extension registry keyed by URL.
`LoadedSprite` later turns a registry entry into a drawable `Texture` that
shows the whole image.

Modules (one file each):

- `Errors` (`errors.dfy`): the error kinds and their message text. This
  includes Go's `%q` quoting of a URL and a proof that the URL can be read
  back from a not-loaded message.
- `Images` (`images.dfy`): the bounds of images. It covers `image.Rect` (which
  swaps coordinates so that the rectangle is well formed), Go's truncating
  `int(float)` conversion, the NRGBA buffer, `ImageObject`, the `Image`
  interface as the uploader sees it, the normalisation step and
  `ImageToNRGBA`.
- `Gl` (`gl.dfy`): an abstract OpenGL context. A `Gpu` object hands out texture
  names and records every call in order. `Run` gives the texture state those
  calls produce: the bound texture, live names, per-texture parameters and
  images.
- `Textures` (`textures.dfy`): `TextureResource`, `Texture` and its
  accessors, `UploadTexture`, `NewTextureResource`, `NewTextureSingle` and
  `Close`.
- `Loader` (`loader.dfy`): the decode-and-normalise step of `Load`, the
  registry class `ImageLoader` (`Load`, `Unload`, `Resource`), its transition
  function `Apply` and the replay lemma, and `LoadedSprite`.

The foreign collaborators are parameters. A `Codecs` value carries the URL
extension function (`getExt`), the SVG reader and the raster decoder, each as
a total function from bytes to a result. A `Gpu` object stands for the GL
context. Its `headless` flag is the engine's `Headless()` answer.
`LoadedSprite` receives what the global file dispatcher answered for the URL.

Three behaviours of the code worth noting:

- A zero-sized SVG view box is not rejected. `Load` stores a 0×0 texture.
- A negative view-box size is not rejected by the loader either. The model
  assumes that the foreign rasteriser accepts it. `image.Rect` then moves the
  buffer to the other side of the origin, so the buffer is
  |trunc(W)| × |trunc(H)|.
- `Load` on a URL that is already present overwrites the entry without
  freeing the old GPU texture.

## Model

| member | source | states |
|---|---|---|
| `Errors.Message` | common/render_filetype.go:67-124 | A decoder's error passes through with its own text. The not-loaded message (line 67) is its fixed prefix followed by the `%q` quoting of the URL. The type-mismatch message (line 124) is its fixed prefix followed by the URL verbatim (`%s`) |
| `Errors.Quote` | common/render_filetype.go:67 | The `%q` rendering starts and ends with a double quote. A left-to-right reader that starts after the opening quote stops exactly at the final one, and unescaping the text between them gives the URL back |
| `Errors.EscapeEndsAtClosingQuote` | common/render_filetype.go:67 | Whatever text follows an escaped body and its closing quote, the left-to-right reader stops at that closing quote and not earlier |
| `Errors.NotLoadedMessageQuotesUrl` | common/render_filetype.go:67 | The not-loaded message is the fixed prefix followed by the URL in `%q` quoting, and the URL can be parsed back out of it |
| `Errors.NotLoadedMessagesDistinct` | common/render_filetype.go:67 | Two different URLs never produce the same not-loaded message |
| `Errors.UnescapeEscape` | common/render_filetype.go:67 | Reading the quoted body back gives exactly the original URL (round trip of the `%q` escaping) |
| `Errors.Escape` | common/render_filetype.go:67 | In the quoted body every double quote is preceded by a backslash |
| `Errors.PlainNotLoadedMessage` | common/render_filetype.go:67 | For a URL made only of printable ASCII characters other than the double quote and the backslash, the message is the prefix and the URL between double quotes |
| `Images.Rect` | common/render_filetype.go:35 | `image.Rect` keeps both coordinates of each axis, orders them so the rectangle is well formed, and has size abs(x1-x0) × abs(y1-y0) |
| `Images.Trunc` | common/render_filetype.go:34 | `int(f)` truncates toward zero: for f ≥ 0 the result is the largest integer ≤ f, for f < 0 the smallest integer ≥ f |
| `Images.ImageObject.Width` | common/render_filetype.go:104-107 | The width is the buffer's maximum X coordinate, Min.X + Dx. It is the buffer's width Dx when the buffer starts at x = 0, and never less than Min.X for a well-formed buffer |
| `Images.ImageObject.Height` | common/render_filetype.go:109-112 | The height is the buffer's maximum Y coordinate, Min.Y + Dy. It is the buffer's height Dy when the buffer starts at y = 0, and never less than Min.Y for a well-formed buffer |
| `Images.ImageObject.AsImage` | common/render_filetype.go:99-112 | Seen through the `Image` interface, the object's `Data()` is present and is its own NRGBA buffer, and its width and height are `Width()` and `Height()` |
| `Images.Normalize` | common/render_filetype.go:48-50 | The normalised buffer of a decoded image with well-formed bounds has Min = (0,0) and Max = (Dx, Dy), so `ImageObject.Width()` = Dx and `Height()` = Dy even when the source bounds do not start at the origin |
| `Images.ImageToNRGBA` | common/render_filetype.go:82-87 | The buffer is width × height at the origin; for a negative size it is swapped to the other side of the origin and the reported Width/Height is 0 |
| `Loader.SvgBuffer` | common/render_filetype.go:34-41 | The SVG buffer is at the origin with size abs(trunc(W)) × abs(trunc(H)); for a non-negative view box, Width and Height are the truncated W and H |
| `Loader.SvgTruncates` | common/render_filetype.go:34 | A 64.7 × 32.2 view box gives a 64 × 32 buffer (truncation, not rounding) |
| `Loader.DecodeBuffer` | common/render_filetype.go:28-52 | For `.svg` the SVG reader's error is returned unchanged, and on success the buffer is at the origin with the truncated view-box size. Any other extension behaves the same way with the raster decoder. On success the buffer is well formed and, for well-formed decoded bounds, sits at the origin with Width and Height equal to Dx and Dy of those bounds |
| `Loader.Lookup` | common/render_filetype.go:64-71 | Resource succeeds exactly when the URL is in the map and returns its entry, whose `URL()` is the stored URL; otherwise it fails with NotLoaded for that URL |
| `Loader.ImageLoader.Resource` | common/render_filetype.go:64-71 | The method answers exactly as `Lookup` on the current map, for every URL including the empty string |
| `Loader.ImageLoader.Load` | common/render_filetype.go:27-57 | On a decode failure it returns that error and changes neither the map nor the GPU. On success it returns nil, uploads the normalised buffer and stores {handle, Width, Height, url} under `url`, overwriting any earlier entry and leaving other URLs alone. It keeps every entry stored under its own URL with a handle the GPU issued |
| `Loader.ImageLoader.Unload` | common/render_filetype.go:59-62 | Always returns nil and removes `url` from the map, leaving every other entry unchanged. It keeps every entry stored under its own URL with a handle the GPU issued |
| `Loader.UnloadKeepsValid` | common/render_filetype.go:59-62 | Deleting a key keeps every remaining entry under its own URL and holding a texture the GPU issued |
| `Loader.ReplayLookup` | common/render_filetype.go:53-62 | After any sequence of loads, failed loads and unloads, looking up a URL gives the entry of its last successful load. It gives NotLoaded if an unload of that URL came later, and the original answer if neither happened (last writer wins, a failed load commits nothing, other URLs do not interfere) |
| `Loader.UnloadIdempotent` | common/render_filetype.go:59-62 | Unloading twice leaves the same map as unloading once, and a lookup after an unload fails with NotLoaded |
| `Loader.MissingResource` | common/render_filetype.go:65-68 | Looking up a URL in an empty registry fails with NotLoaded. For a printable URL without quote or backslash, such as missing.png, the message is ``resource not loaded by `FileLoader`: "missing.png"`` |
| `Loader.LoadedSpriteAsWritten` | common/render_filetype.go:116-128 | The code as written: it panics exactly when the resource is a texture resource with a nil texture pointer, and otherwise gives what `LoadedSprite` gives |
| `Loader.LoadedSprite` | common/render_filetype.go:116-128 | The corrected function: a lookup error is passed on unchanged, and a resource of another kind gives a type-mismatch error naming the URL. A texture resource gives a Texture with the same handle, width and height and viewport (0,0)–(1,1). A nil handle gives a texture with a nil ID instead of a panic |
| `Loader.SpriteAfterLoad` | common/render_filetype.go:116-128 | A sprite looked up just after its URL was loaded has the loaded handle and size and the whole-image viewport. The code as written gives that same sprite exactly when the handle is not nil |
| `Loader.HeadlessSpritePanics` | common/render_filetype.go:127 | On a headless context every registry entry has a nil texture, so `LoadedSprite` as written panics for every loaded URL. The corrected function returns a nil-ID texture of the stored size |
| `Textures.UploadTexture` | common/render_filetype_gl.go:24-43 | When headless it returns nil and issues no GL call. Otherwise it creates a fresh texture, binds it, sets wrap S/T = clamp-to-edge, min = linear and mag = nearest, then uploads the data as RGBA/unsigned byte. The resulting GL state has those parameters and that image for the new texture, and no other texture changed. Non-nil data is required when not headless |
| `Textures.UploadEffect` | common/render_filetype_gl.go:27-40 | The upload call sequence leaves the new texture live and bound, with the four sampling parameters and the RGBA image, and every other texture untouched |
| `Textures.NewTextureResource` | common/render_filetype_gl.go:46-49 | Uploads the image and returns the upload's handle, `img.Width()`, `img.Height()` and an empty URL |
| `Textures.NewTextureSingle` | common/render_filetype_gl.go:52-55 | Uploads the image and returns a Texture with the upload's handle, the image's width and height and viewport (0,0)–(1,1) |
| `Textures.WholeSprite` | common/render_filetype_gl.go:54 | The whole-image texture reports the given handle, width and height, and View() = (0, 0, 1, 1) |
| `Textures.TextureResource.URL` | common/render_filetype_gl.go:18-21 | The URL is the file path stored in the resource |
| `Textures.Texture.Width` | common/render_filetype_gl.go:65-68 | The width is the one the texture was built with |
| `Textures.Texture.Height` | common/render_filetype_gl.go:70-73 | The height is the one the texture was built with |
| `Textures.Texture.Texture` | common/render_filetype_gl.go:76-78 | The returned copy has the same ID and the same Width(), Height() and View() as the receiver |
| `Textures.Texture.View` | common/render_filetype_gl.go:81-83 | The four numbers are Min.X, Min.Y, Max.X, Max.Y, in that order: they rebuild the viewport |
| `Textures.Texture.Close` | common/render_filetype_gl.go:86-90 | Does nothing when headless; otherwise issues exactly one DeleteTexture of `t.ID`, after which that texture is freed and every other texture is untouched |
| `Textures.CloseEffect` | common/render_filetype_gl.go:88 | Deleting a texture removes its name, parameters and image and changes no other texture |
| `Gl.Gpu.CreateTexture` | common/render_filetype_gl.go:27 | The allocator returns a non-nil name that it has never handed out before |

## Left out

- Pixel decoding, SVG rasterisation (`oksvg`, `rasterx`) and compositing (`draw.Draw`) are foreign library code. Decoding is a parameter that returns an error or an image's bounds. Buffers carry only their bounds, not pixel values or the colour conversion to NRGBA.
- The real OpenGL API is replaced by a recorded call sequence and the state function `Run`. Texture targets are recorded but not interpreted, and deleted names are never reused by the allocator.
- `img.Texture.ID` at common/render_filetype.go:127 reads a field of the `gl.Texture` that the resource points to. `gl.Texture` is not part of this model, so that field is identified with the handle itself.
- Loader.SvgBuffer: the truncated view-box size also goes to the foreign rasteriser (`rasterx.NewScannerGV`, `NewDasher`). What the rasteriser does with a negative size is not modelled, and it may panic. The model assumes that it returns, and sizes the buffer by `image.Rect` alone.
- `getExt` is not part of this model. The URL's extension comes from the `Codecs` parameter.
- The `init` registration of four loaders (`.jpg`, `.png`, `.gif`, `.svg`) with the global file dispatcher is left out, and so is the dispatcher. `LoadedSprite` takes the dispatcher's answer as a parameter.
- Widths and heights are `float32` in the engine. Here they are integers, and the viewport coordinates are reals. Precision loss above 2^24 and Go's behaviour for `int(f)` outside the integer range are not modelled.
- Go's fixed-width `int` is modelled as unbounded. The overflow panic of `image.NewNRGBA` for huge sizes is not modelled.
- `Errors.Escape`: Go's `%q` also writes bell, backspace, form feed and vertical tab as `\a`, `\b`, `\f` and `\v`, and other control and non-printable characters as `\x`, `\u` or `\U` escapes. This model copies them unchanged and escapes only the double quote, backslash, newline, carriage return and tab.
- `Errors.Escape`: a Go string is a sequence of bytes, and `%q` writes a byte that is not valid UTF-8 as `\x..`. Here a string is a sequence of characters, so invalid byte sequences cannot occur.
- `Textures.UploadTexture`: a nil `Data()` on a non-headless context is a panic in the engine. Here it is a precondition, so the texture the engine creates before it panics is not modelled.
- An `ImageObject` holding a nil `*image.NRGBA` is not modelled. In Go its `Data()` is a non-nil interface value, and `Width()` would dereference nil.
- Concurrency is left out. The engine confines all of this to one thread.
- `BufferData` in `common/render_gl.go` has no behaviour.

## Findings

| source | as written | input that shows it | evidently intended | confidence | as-written member | corrected member |
|---|---|---|---|---|---|---|
| common/render_filetype.go:127 | `img.Texture.ID` reads through the resource's `*gl.Texture`. `UploadTexture` leaves that pointer nil on a headless context, so the read panics | On a headless context, `Load("sprite.png", …)` succeeds and then `LoadedSprite("sprite.png")` is called | A `Texture` with a nil ID, the stored size and the whole-image viewport, as `NewTextureSingle` gives on a headless context | medium, not executed | `Loader.LoadedSpriteAsWritten`, `Loader.HeadlessSpritePanics` | `Loader.LoadedSprite` |
