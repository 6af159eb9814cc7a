/** Texture values and GPU upload (common/render_filetype_gl.go). */
module Textures {
  import opened Images
  import opened Gl

  /** The registry entry for one loaded image file. */
  datatype TextureResource = TextureResource(texture: Handle, width: int, height: int, url: string) {
    /** The file path the resource was loaded from. */
    function URL(): (u: string)
      ensures u == url
    {
      url
    }
  }

  /** engo.Point: a point in texture (UV) space. */
  datatype Vec2 = Vec2(x: real, y: real)

  /** engo.AABB: the viewport, a sub-rectangle of the texture in UV space. */
  datatype AABB = AABB(min: Vec2, max: Vec2)

  /** The whole texture: (0,0) to (1,1). */
  const UnitViewport: AABB := AABB(Vec2(0.0, 0.0), Vec2(1.0, 1.0))

  /** A texture in GPU memory, its size in pixels and its viewport. */
  datatype Texture = Texture(id: Handle, width: int, height: int, viewport: AABB) {
    /** The width the texture was created with. */
    function Width(): (w: int)
      ensures w == width
    {
      width
    }

    /** The height the texture was created with. */
    function Height(): (h: int)
      ensures h == height
    {
      height
    }

    /** A copy of the receiver, equal to it field for field. */
    function Texture(): (t: Texture)
      ensures t.id == id && t.Width() == Width() && t.Height() == Height() && t.View() == View()
    {
      this
    }

    /** The viewport as Min.X, Min.Y, Max.X, Max.Y: the four numbers rebuild it. */
    function View(): (v: (real, real, real, real))
      ensures AABB(Vec2(v.0, v.1), Vec2(v.2, v.3)) == viewport
    {
      (viewport.min.x, viewport.min.y, viewport.max.x, viewport.max.y)
    }

    /** Removes the texture from GPU memory; does nothing when headless. */
    method Close(gpu: Gpu)
      requires gpu.Valid()
      modifies gpu
      ensures gpu.Valid() && gpu.next == old(gpu.next)
      ensures gpu.headless ==> gpu.calls == old(gpu.calls)
      ensures !gpu.headless ==> gpu.calls == old(gpu.calls) + [DeleteTexture(id)]
      ensures !gpu.headless && id.Tex? ==>
        Released(Run(Initial, gpu.calls), id.name) &&
        Untouched(Run(Initial, old(gpu.calls)), Run(Initial, gpu.calls), id.name)
    {
      if !gpu.headless {
        gpu.DeleteTexture(id);
        RunAppend(Initial, old(gpu.calls), [DeleteTexture(id)]);
        if id.Tex? {
          CloseEffect(Run(Initial, old(gpu.calls)), id.name);
        }
      }
    }
  }

  /** A texture of the given size showing the whole image. */
  function WholeSprite(id: Handle, width: int, height: int): (t: Texture)
    ensures t.id == id && t.Width() == width && t.Height() == height
    ensures t.View() == (0.0, 0.0, 1.0, 1.0)
  {
    Texture(id, width, height, UnitViewport)
  }

  /** The calls UploadTexture issues for a texture named `h` holding `data`:
      create, bind, the four sampling parameters, then the RGBA upload. */
  function UploadCalls(h: Handle, data: NRGBA): seq<Call>
  {
    [ CreateTexture(h),
      BindTexture(Texture2D, h),
      TexParameteri(Texture2D, TextureWrapS, ClampToEdge),
      TexParameteri(Texture2D, TextureWrapT, ClampToEdge),
      TexParameteri(Texture2D, TextureMinFilter, Linear),
      TexParameteri(Texture2D, TextureMagFilter, Nearest),
      TexImage2D(Texture2D, 0, Rgba, Rgba, UnsignedByte, data) ]
  }

  /** Texture `n` is live, clamps at both edges, filters linearly when
      shrinking and by nearest texel when enlarging, and holds `data` as
      8-bit RGBA. */
  ghost predicate Configured(s: State, n: nat, data: NRGBA)
  {
    && n in s.live
    && (n, TextureWrapS) in s.params && s.params[(n, TextureWrapS)] == ClampToEdge
    && (n, TextureWrapT) in s.params && s.params[(n, TextureWrapT)] == ClampToEdge
    && (n, TextureMinFilter) in s.params && s.params[(n, TextureMinFilter)] == Linear
    && (n, TextureMagFilter) in s.params && s.params[(n, TextureMagFilter)] == Nearest
    && n in s.images && s.images[n] == TexImage(0, Rgba, Rgba, UnsignedByte, data)
  }

  /** Texture `n` has been freed: its name, parameters and image are gone. */
  ghost predicate Released(s: State, n: nat)
  {
    && n !in s.live
    && n !in s.images
    && forall p: Enum :: (n, p) !in s.params
  }

  /** What the upload calls do to the texture state. */
  lemma UploadEffect(s: State, n: nat, data: NRGBA)
    ensures var t := Run(s, UploadCalls(Tex(n), data));
      Configured(t, n, data) && t.bound == Tex(n) && Untouched(s, t, n)
  {
    var cs := UploadCalls(Tex(n), data);
    var s1 := Exec(s, cs[0]);
    var s2 := Exec(s1, cs[1]);
    var s3 := Exec(s2, cs[2]);
    var s4 := Exec(s3, cs[3]);
    var s5 := Exec(s4, cs[4]);
    var s6 := Exec(s5, cs[5]);
    var s7 := Exec(s6, cs[6]);
    assert Run(s, cs) == Run(s1, cs[1..]);
    assert Run(s1, cs[1..]) == Run(s2, cs[2..]);
    assert Run(s2, cs[2..]) == Run(s3, cs[3..]);
    assert Run(s3, cs[3..]) == Run(s4, cs[4..]);
    assert Run(s4, cs[4..]) == Run(s5, cs[5..]);
    assert Run(s5, cs[5..]) == Run(s6, cs[6..]);
    assert Run(s6, cs[6..]) == Run(s7, cs[7..]);
    assert cs[7..] == [];
    assert ParamsWithout(s7.params, n) == ParamsWithout(s.params, n);
  }

  /** What deleting texture `n` does to the texture state. */
  lemma CloseEffect(s: State, n: nat)
    ensures var t := Run(s, [DeleteTexture(Tex(n))]);
      Released(t, n) && Untouched(s, t, n)
  {
  }

  /** The effect of UploadTexture on `gpu`, with `h` the handle it returned:
      when headless nothing happens and the handle is nil; otherwise a fresh
      texture is created and the upload calls are issued for it. */
  twostate predicate Uploaded(gpu: Gpu, img: Image, h: Handle)
    reads gpu
  {
    if gpu.headless then
      h == Null && gpu.next == old(gpu.next) && gpu.calls == old(gpu.calls)
    else
      && img.data.Some?
      && h == Tex(old(gpu.next)) && gpu.next == old(gpu.next) + 1
      && gpu.calls == old(gpu.calls) + UploadCalls(h, img.data.value)
  }

  /** Sends the image to the GPU. A nil Data() on a non-headless context is
      fatal in the engine, so the caller must not pass one. */
  method UploadTexture(gpu: Gpu, img: Image) returns (h: Handle)
    requires gpu.Valid()
    requires !gpu.headless ==> img.data.Some?
    modifies gpu
    ensures gpu.Valid() && Uploaded(gpu, img, h)
    ensures !gpu.headless ==>
      h.Tex? &&
      Configured(Run(Initial, gpu.calls), h.name, img.data.value) &&
      Untouched(Run(Initial, old(gpu.calls)), Run(Initial, gpu.calls), h.name)
  {
    h := Null;
    if !gpu.headless {
      h := gpu.CreateTexture();
      gpu.BindTexture(Texture2D, h);
      gpu.TexParameteri(Texture2D, TextureWrapS, ClampToEdge);
      gpu.TexParameteri(Texture2D, TextureWrapT, ClampToEdge);
      gpu.TexParameteri(Texture2D, TextureMinFilter, Linear);
      gpu.TexParameteri(Texture2D, TextureMagFilter, Nearest);
      gpu.TexImage2D(Texture2D, 0, Rgba, Rgba, UnsignedByte, img.data.value);
      assert gpu.calls == old(gpu.calls) + UploadCalls(h, img.data.value);
      RunAppend(Initial, old(gpu.calls), UploadCalls(h, img.data.value));
      UploadEffect(Run(Initial, old(gpu.calls)), h.name, img.data.value);
    }
  }

  /** Uploads the image and describes it as a registry entry with no URL yet. */
  method NewTextureResource(gpu: Gpu, img: Image) returns (r: TextureResource)
    requires gpu.Valid()
    requires !gpu.headless ==> img.data.Some?
    modifies gpu
    ensures gpu.Valid() && Uploaded(gpu, img, r.texture)
    ensures r.width == img.width && r.height == img.height && r.url == ""
  {
    var id := UploadTexture(gpu, img);
    r := TextureResource(id, img.width, img.height, "");
  }

  /** Uploads the image and returns a texture showing all of it. */
  method NewTextureSingle(gpu: Gpu, img: Image) returns (t: Texture)
    requires gpu.Valid()
    requires !gpu.headless ==> img.data.Some?
    modifies gpu
    ensures gpu.Valid() && Uploaded(gpu, img, t.id)
    ensures t.Width() == img.width && t.Height() == img.height
    ensures t.View() == (0.0, 0.0, 1.0, 1.0)
  {
    var id := UploadTexture(gpu, img);
    t := WholeSprite(id, img.width, img.height);
  }
}
