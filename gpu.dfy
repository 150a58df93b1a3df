/**
  The engine side the effect talks to: the temporary render-texture pool
  (`RenderTexture.GetTemporary` / `ReleaseTemporary`), the material's property
  sheet (`SetFloat`, `SetTexture`) and the command buffer (`Blit`).

  Each call is one `Event` appended to a single trace, in the order the
  effect makes the calls. The pool hands out handles with ids it has never
  used before and keeps the set of ids that are live.
*/
module Gpu {
  import opened Wrappers

  datatype Format = Default | ARGBHalf
  datatype Filter = Bilinear | Point

  /** A temporary render texture: its pool handle and its descriptor. */
  datatype Texture = Texture(id: nat, width: nat, height: nat, format: Format, filter: Filter)

  /** What a blit reads from or writes to. `Null` is a blit without a main texture. */
  datatype Target = Source | Destination | Null | Tex(id: nat)

  /** The material's texture slots written by the effect. */
  datatype Slot = WorkTex | DispTex

  /** The material's float uniforms written by the effect. */
  datatype Uniform = BlockSizeParam | Quality | Velocity | Diffusion

  datatype Event =
    | Acquired(id: nat)
    | Released(id: nat)
    | SetFloat(name: Uniform)
    | SetTexture(slot: Slot, id: nat)
    | Blit(src: Target, dst: Target, pass: Option<nat>)

  /** Value view of the engine: next unused id, live ids, trace so far. */
  datatype Pool = Pool(next: nat, live: set<nat>, log: seq<Event>)

  const Empty := Pool(0, {}, [])

  /** Every live id was handed out before. */
  ghost predicate Sane(p: Pool)
  {
    forall i :: i in p.live ==> i < p.next
  }

  /** The texture `GetTemporary(w, h, fmt)` returns on pool `p`. */
  function Fresh(p: Pool, w: nat, h: nat, fmt: Format): (t: Texture)
    ensures Sane(p) ==> t.id !in p.live
    ensures t.width == w && t.height == h && t.format == fmt
  {
    Texture(p.next, w, h, fmt, Bilinear)
  }

  /** The pool after `GetTemporary`. */
  function Acquire(p: Pool): (r: Pool)
    ensures Sane(p) ==> Sane(r)
    ensures r.live == p.live + {p.next}
    ensures r.next == p.next + 1 && r.log == p.log + [Acquired(p.next)]
  {
    Pool(p.next + 1, p.live + {p.next}, p.log + [Acquired(p.next)])
  }

  /** The pool after `ReleaseTemporary` of handle `id`. */
  function Release(p: Pool, id: nat): (r: Pool)
    ensures Sane(p) ==> Sane(r)
    ensures r.live == p.live - {id}
    ensures r.next == p.next && r.log == p.log + [Released(id)]
  {
    Pool(p.next, p.live - {id}, p.log + [Released(id)])
  }

  /** The pool after a material write or a recorded blit. */
  function Record(p: Pool, e: Event): (r: Pool)
    requires !e.Acquired? && !e.Released?
    ensures r.next == p.next && r.live == p.live && r.log == p.log + [e]
  {
    p.(log := p.log + [e])
  }

  class Device {
    var next: nat
    var live: set<nat>
    var log: seq<Event>

    function View(): Pool
      reads this
    {
      Pool(next, live, log)
    }

    constructor ()
      ensures View() == Empty
    {
      next, live, log := 0, {}, [];
    }

    method GetTemporary(w: nat, h: nat, fmt: Format) returns (t: Texture)
      modifies this
      ensures t == Fresh(old(View()), w, h, fmt)
      ensures View() == Acquire(old(View()))
    {
      t := Texture(next, w, h, fmt, Bilinear);
      log := log + [Acquired(next)];
      live := live + {next};
      next := next + 1;
    }

    /** Only a live handle may be given back to the pool. */
    method ReleaseTemporary(t: Texture)
      requires t.id in live
      modifies this
      ensures View() == Release(old(View()), t.id)
    {
      live := live - {t.id};
      log := log + [Released(t.id)];
    }

    method SetFloat(name: Uniform)
      modifies this
      ensures View() == Record(old(View()), Event.SetFloat(name))
    {
      log := log + [Event.SetFloat(name)];
    }

    method SetTexture(slot: Slot, t: Texture)
      modifies this
      ensures View() == Record(old(View()), Event.SetTexture(slot, t.id))
    {
      log := log + [Event.SetTexture(slot, t.id)];
    }

    method Blit(src: Target, dst: Target, pass: Option<nat>)
      modifies this
      ensures View() == Record(old(View()), Event.Blit(src, dst, pass))
    {
      log := log + [Event.Blit(src, dst, pass)];
    }
  }
}
