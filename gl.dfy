/** An abstract OpenGL context: the texture calls the uploader issues, a
    handle allocator, and the texture state those calls produce. The real
    graphics API is foreign; here every call is recorded in order and the
    state it leads to is given by `Run`. */
module Gl {
  import opened Images

  /** The enum constants the uploader passes. */
  datatype Enum =
    | Texture2D
    | TextureWrapS | TextureWrapT | TextureMinFilter | TextureMagFilter
    | ClampToEdge | Linear | Nearest
    | Rgba | UnsignedByte

  /** *gl.Texture: nil, or a texture name handed out by the context. */
  datatype Handle = Null | Tex(name: nat)

  datatype Call =
    | CreateTexture(created: Handle)
    | BindTexture(target: Enum, tex: Handle)
    | TexParameteri(target: Enum, pname: Enum, param: Enum)
    | TexImage2D(target: Enum, level: int, internalFormat: Enum, format: Enum, kind: Enum, data: NRGBA)
    | DeleteTexture(tex: Handle)

  /** The image stored in a texture by TexImage2D. */
  datatype TexImage = TexImage(level: int, internalFormat: Enum, format: Enum, kind: Enum, data: NRGBA)

  /** The texture state of a context: the bound texture, the live texture
      names, each texture's parameters and each texture's image. */
  datatype State = State(
    bound: Handle,
    live: set<nat>,
    params: map<(nat, Enum), Enum>,
    images: map<nat, TexImage>)

  const Initial: State := State(Null, {}, map[], map[])

  /** The parameters of every texture except `n`. */
  function ParamsWithout(params: map<(nat, Enum), Enum>, n: nat): map<(nat, Enum), Enum>
  {
    map k | k in params && k.0 != n :: params[k]
  }

  /** The effect of one call. Parameters and images go to the bound
      texture; deleting a texture frees its name, parameters and image and
      unbinds it; the nil texture is ignored. */
  function Exec(s: State, c: Call): State
  {
    match c
    case CreateTexture(h) =>
      if h.Tex? then s.(live := s.live + {h.name}) else s
    case BindTexture(_, h) =>
      s.(bound := h)
    case TexParameteri(_, p, v) =>
      if s.bound.Tex? then s.(params := s.params[(s.bound.name, p) := v]) else s
    case TexImage2D(_, level, ifmt, fmt, kind, data) =>
      if s.bound.Tex? then s.(images := s.images[s.bound.name := TexImage(level, ifmt, fmt, kind, data)]) else s
    case DeleteTexture(h) =>
      if h.Tex? then
        s.(live := s.live - {h.name},
           params := ParamsWithout(s.params, h.name),
           images := s.images - {h.name},
           bound := if s.bound == h then Null else s.bound)
      else s
  }

  /** The state reached by issuing `cs` in order from `s`. */
  function Run(s: State, cs: seq<Call>): State
    decreases |cs|
  {
    if cs == [] then s else Run(Exec(s, cs[0]), cs[1..])
  }

  lemma {:induction false} RunAppend(s: State, a: seq<Call>, b: seq<Call>)
    ensures Run(s, a + b) == Run(Run(s, a), b)
    decreases |a|
  {
    if a == [] {
      assert a + b == b;
    } else {
      assert (a + b)[0] == a[0];
      assert (a + b)[1..] == a[1..] + b;
      RunAppend(Exec(s, a[0]), a[1..], b);
    }
  }

  /** Every texture other than `n` has the same name status, parameters and
      image in `s` and `t`. */
  ghost predicate Untouched(s: State, t: State, n: nat)
  {
    && s.live - {n} == t.live - {n}
    && ParamsWithout(s.params, n) == ParamsWithout(t.params, n)
    && s.images - {n} == t.images - {n}
  }

  /** The graphics context. `headless` is the engine's Headless() flag: a
      headless context has no GL functions at all. */
  class Gpu {
    const headless: bool
    var next: nat          // the name the allocator hands out next
    var calls: seq<Call>   // every call issued so far, in order

    ghost predicate Valid()
      reads this
    {
      && 1 <= next
      && (headless ==> calls == [])
      && forall i | 0 <= i < |calls| && calls[i].CreateTexture? ::
           calls[i].created.Tex? && calls[i].created.name < next
    }

    constructor (headless: bool)
      ensures Valid()
      ensures this.headless == headless && next == 1 && calls == []
    {
      this.headless := headless;
      next := 1;
      calls := [];
    }

    /** Allocates a texture name never handed out before. */
    method CreateTexture() returns (h: Handle)
      requires Valid() && !headless
      modifies this
      ensures Valid()
      ensures h == Tex(old(next)) && next == old(next) + 1
      ensures calls == old(calls) + [Call.CreateTexture(h)]
      ensures forall i | 0 <= i < |old(calls)| && old(calls)[i].CreateTexture? :: old(calls)[i].created != h
    {
      h := Tex(next);
      calls := calls + [Call.CreateTexture(h)];
      next := next + 1;
    }

    method BindTexture(target: Enum, h: Handle)
      requires Valid() && !headless
      modifies this
      ensures Valid() && next == old(next)
      ensures calls == old(calls) + [Call.BindTexture(target, h)]
    {
      calls := calls + [Call.BindTexture(target, h)];
    }

    method TexParameteri(target: Enum, pname: Enum, param: Enum)
      requires Valid() && !headless
      modifies this
      ensures Valid() && next == old(next)
      ensures calls == old(calls) + [Call.TexParameteri(target, pname, param)]
    {
      calls := calls + [Call.TexParameteri(target, pname, param)];
    }

    method TexImage2D(target: Enum, level: int, internalFormat: Enum, format: Enum, kind: Enum, data: NRGBA)
      requires Valid() && !headless
      modifies this
      ensures Valid() && next == old(next)
      ensures calls == old(calls) + [Call.TexImage2D(target, level, internalFormat, format, kind, data)]
    {
      calls := calls + [Call.TexImage2D(target, level, internalFormat, format, kind, data)];
    }

    method DeleteTexture(h: Handle)
      requires Valid() && !headless
      modifies this
      ensures Valid() && next == old(next)
      ensures calls == old(calls) + [Call.DeleteTexture(h)]
    {
      calls := calls + [Call.DeleteTexture(h)];
    }
  }
}
