/**
  The buffer-lifecycle state machine of the datamoshing post-process
  (Datamoshing/Datamoshing.cs).

  The effect owns a work buffer (full source resolution) and a displacement
  buffer (one texel per macroblock) and an `init` flag. The first active
  frame after construction or cleanup is cold: it allocates both buffers,
  passes the source through and seeds the displacement field with pass 0.
  Every later active frame is warm: it replaces each buffer by a new one
  written from the old one (pass 1 for displacement, pass 2 for the image),
  releases the old one and shows the new work buffer.

  The pure functions below (`RenderStep`, `CleanupStep`, ...) state the
  effect on the value `Sys` of the effect and the engine; the class
  `Datamoshing` is the imperative object, whose methods are proved to
  follow them.
*/
module Datamoshing {
  import opened Wrappers
  import opened Parameters
  import opened Gpu

  datatype Size = Size(width: nat, height: nat)

  /** The effect's fields: parameters, whether the material exists, the lifecycle state. */
  datatype Effect = Effect(
    enable: bool,
    blockSize: BlockSize,
    material: bool,
    init: bool,
    work: Option<Texture>,
    disp: Option<Texture>)

  /** The effect together with the engine it has been talking to. */
  datatype Sys = Sys(fx: Effect, pool: Pool)

  /** A freshly constructed effect on an unused engine. */
  const Initial := Sys(Effect(false, DefaultBlockSize, false, false, None, None), Empty)

  /** Texels of the displacement buffer along an axis of `n` pixels: one per whole macroblock. */
  function DispExtent(n: nat, b: BlockSize): (r: nat)
    ensures r * b <= n < r * b + b
  {
    n / b
  }

  /** The handles the effect holds. */
  function Owned(e: Effect): set<nat>
  {
    (if e.work.Some? then {e.work.value.id} else {}) + (if e.disp.Some? then {e.disp.value.id} else {})
  }

  /**
    The object invariant: `init` holds exactly when both buffers are present,
    the two are distinct handles in their formats, and the live handles of the
    pool are exactly the ones the effect holds.
  */
  ghost predicate Inv(s: Sys)
  {
    && s.fx.work.Some? == s.fx.init
    && s.fx.disp.Some? == s.fx.init
    && (s.fx.init ==>
          && s.fx.work.value.id != s.fx.disp.value.id
          && s.fx.work.value.format == Default
          && s.fx.disp.value.format == ARGBHalf
          && s.fx.disp.value.filter == Point)
    && s.pool.live == Owned(s.fx)
    && Sane(s.pool)
  }

  /** Both buffers exist and have the sizes `src` and the current block size call for. */
  predicate Sized(e: Effect, src: Size)
  {
    && e.work.Some? && e.disp.Some?
    && e.work.value.width == src.width && e.work.value.height == src.height
    && e.disp.value.width == DispExtent(src.width, e.blockSize)
    && e.disp.value.height == DispExtent(src.height, e.blockSize)
  }

  predicate SameParams(e: Effect, f: Effect)
  {
    e.enable == f.enable && e.blockSize == f.blockSize && e.material == f.material
  }

  /** The events a step appended to the trace. */
  function Appended(s: Sys, r: Sys): seq<Event>
    requires s.pool.log <= r.pool.log
  {
    r.pool.log[|s.pool.log|..]
  }

  function NewWork(p: Pool, src: Size): Texture
  {
    Fresh(p, src.width, src.height, Default)
  }

  function NewDisp(p: Pool, src: Size, b: BlockSize): Texture
  {
    Fresh(p, DispExtent(src.width, b), DispExtent(src.height, b), ARGBHalf).(filter := Point)
  }

  /** `ReleaseBuffer`: gives a present buffer back to the pool, ignores an absent one. */
  function ReleaseIfPresent(p: Pool, buffer: Option<Texture>): (r: Pool)
    ensures buffer.None? ==> r == p
    ensures buffer.Some? ==> r == Release(p, buffer.value.id)
    ensures buffer.Some? ==> r.live == p.live - {buffer.value.id} && r.log == p.log + [Released(buffer.value.id)]
  {
    if buffer.Some? then Release(p, buffer.value.id) else p
  }

  /** The uniforms written before either branch, in order. */
  const UniformWrites := [SetFloat(BlockSizeParam), SetFloat(Quality), SetFloat(Velocity), SetFloat(Diffusion)]

  function SetUniforms(p: Pool): (r: Pool)
    ensures r == p.(log := p.log + UniformWrites)
  {
    Record(Record(Record(Record(p, SetFloat(BlockSizeParam)), SetFloat(Quality)), SetFloat(Velocity)), SetFloat(Diffusion))
  }

  /** The cold branch: allocate both buffers, pass the source through, seed the displacement. */
  function ColdFrame(s: Sys, src: Size): (r: Sys)
    requires Inv(s) && !s.fx.init
    ensures Inv(r) && r.fx.init && Sized(r.fx, src) && SameParams(r.fx, s.fx)
    ensures r.pool.next == s.pool.next + 2
    ensures r.fx.work.value.id !in s.pool.live && r.fx.disp.value.id !in s.pool.live
    ensures r.pool.live == s.pool.live + {r.fx.work.value.id, r.fx.disp.value.id}
    ensures s.pool.log <= r.pool.log
    ensures forall e :: e in Appended(s, r) ==> !e.Released?
  {
    var p0 := s.pool;
    var d := NewDisp(p0, src, s.fx.blockSize);
    var p1 := Acquire(p0);
    var w := NewWork(p1, src);
    var p2 := Acquire(p1);
    var p3 := Record(p2, Blit(Source, Tex(w.id), None));
    var p4 := Record(p3, Blit(Tex(w.id), Destination, None));
    var p5 := Record(p4, Blit(Null, Tex(d.id), Some(0)));
    var r := Sys(s.fx.(init := true, work := Some(w), disp := Some(d)), p5);
    assert Appended(s, r) == [Acquired(d.id), Acquired(w.id), p3.log[|p2.log|], p4.log[|p3.log|], p5.log[|p4.log|]];
    r
  }

  /**
    The warm branch: rotate the displacement buffer through pass 1, then the
    work buffer through pass 2, and show the new work buffer.
  */
  function WarmFrame(s: Sys, src: Size): (r: Sys)
    requires Inv(s) && s.fx.init
    ensures Inv(r) && r.fx.init && Sized(r.fx, src) && SameParams(r.fx, s.fx)
    ensures r.pool.next == s.pool.next + 2
    ensures r.fx.work.value.id !in s.pool.live && r.fx.disp.value.id !in s.pool.live
    ensures r.pool.live == s.pool.live - {s.fx.work.value.id, s.fx.disp.value.id}
                                       + {r.fx.work.value.id, r.fx.disp.value.id}
    ensures s.pool.log <= r.pool.log
    ensures forall e :: e in Appended(s, r) && e.Released? ==>
              e == Released(s.fx.work.value.id) || e == Released(s.fx.disp.value.id)
    ensures Released(s.fx.work.value.id) in Appended(s, r)
    ensures Released(s.fx.disp.value.id) in Appended(s, r)
  {
    var p0 := s.pool;
    var d, w := s.fx.disp.value, s.fx.work.value;
    var d' := NewDisp(p0, src, s.fx.blockSize);
    var p1 := Acquire(p0);
    var p2 := Record(p1, Blit(Tex(d.id), Tex(d'.id), Some(1)));
    var p3 := ReleaseIfPresent(p2, s.fx.disp);
    var w' := NewWork(p3, src);
    var p4 := Acquire(p3);
    var p5 := Record(p4, SetTexture(WorkTex, w.id));
    var p6 := Record(p5, SetTexture(DispTex, d'.id));
    var p7 := Record(p6, Blit(Source, Tex(w'.id), Some(2)));
    var p8 := ReleaseIfPresent(p7, s.fx.work);
    var p9 := Record(p8, Blit(Tex(w'.id), Destination, None));
    var r := Sys(s.fx.(disp := Some(d'), work := Some(w')), p9);
    assert Appended(s, r) == [Acquired(d'.id), p2.log[|p1.log|], Released(d.id), Acquired(w'.id),
                              p5.log[|p4.log|], p6.log[|p5.log|], p7.log[|p6.log|], Released(w.id),
                              p9.log[|p8.log|]];
    r
  }

  /**
    `Render`: nothing happens unless the effect is enabled and has its
    material; otherwise the uniforms are written and the cold or warm branch
    runs. Afterwards both buffers exist at the current sizes.
  */
  function RenderStep(s: Sys, src: Size): (r: Sys)
    requires Inv(s)
    ensures Inv(r) && SameParams(r.fx, s.fx) && s.pool.log <= r.pool.log
    ensures !(s.fx.enable && s.fx.material) ==> r == s
    ensures s.fx.enable && s.fx.material ==>
              && r.fx.init && Sized(r.fx, src)
              && |s.pool.log| + 4 < |r.pool.log|
              && r.pool.log[|s.pool.log|..|s.pool.log| + 4] == UniformWrites
  {
    if !s.fx.enable || !s.fx.material then s
    else
      var s1 := s.(pool := SetUniforms(s.pool));
      if !s1.fx.init then ColdFrame(s1, src) else WarmFrame(s1, src)
  }

  /** `Cleanup`: give back both buffers that exist and return to the cold state. */
  function CleanupStep(s: Sys): (r: Sys)
    requires Inv(s)
    ensures Inv(r) && SameParams(r.fx, s.fx)
    ensures !r.fx.init && r.pool.live == {} && r.pool.next == s.pool.next
    ensures s.pool.log <= r.pool.log
    ensures forall e :: e in Appended(s, r) ==> e.Released? && e.id in Owned(s.fx)
    ensures forall h :: h in Owned(s.fx) ==> Released(h) in Appended(s, r)
    ensures |Appended(s, r)| == |Owned(s.fx)|
  {
    var p1 := ReleaseIfPresent(s.pool, s.fx.work);
    var p2 := ReleaseIfPresent(p1, s.fx.disp);
    var r := Sys(s.fx.(work := None, disp := None, init := false), p2);
    assert s.fx.init ==> Appended(s, r) == [Released(s.fx.work.value.id), Released(s.fx.disp.value.id)];
    assert !s.fx.init ==> Appended(s, r) == [];
    r
  }

  /** `Setup`: the material is created when the shader is found, kept otherwise. */
  function SetupStep(s: Sys, shaderFound: bool): (r: Sys)
    requires Inv(s)
    ensures Inv(r) && r.pool == s.pool
    ensures r.fx.material <==> s.fx.material || shaderFound
    ensures r.fx.enable == s.fx.enable && r.fx.blockSize == s.fx.blockSize
    ensures r.fx.init == s.fx.init && r.fx.work == s.fx.work && r.fx.disp == s.fx.disp
  {
    s.(fx := s.fx.(material := s.fx.material || shaderFound))
  }

  /** A freshly constructed effect on an unused engine satisfies the object invariant. */
  lemma InitialValid()
    ensures Inv(Initial) && Initial.pool.live == {} && !Initial.fx.init
  {
  }

  class Datamoshing {
    var enable: bool
    var blockSize: BlockSize
    var material: bool
    var init: bool
    var work: Option<Texture>
    var disp: Option<Texture>

    function Model(): Effect
      reads this
    {
      Effect(enable, blockSize, material, init, work, disp)
    }

    function State(dev: Device): Sys
      reads this, dev
    {
      Sys(Model(), dev.View())
    }

    ghost predicate Valid(dev: Device)
      reads this, dev
    {
      Inv(State(dev))
    }

    constructor ()
      ensures Model() == Initial.fx
    {
      enable := false;
      blockSize := DefaultBlockSize;
      material := false;
      init := false;
      work := None;
      disp := None;
    }

    /** Holds exactly when the material exists and the effect is enabled: the block size is never 0. */
    function IsActive(): (r: bool)
      reads this
      ensures r <==> material && enable
    {
      material && blockSize > 0 && enable
    }

    method SetEnable(on: bool)
      modifies this
      ensures Model() == old(Model()).(enable := on)
    {
      enable := on;
    }

    method SetBlockSize(v: int)
      modifies this
      ensures Model() == old(Model()).(blockSize := ClampBlockSize(v))
    {
      blockSize := ClampBlockSize(v);
    }

    method Setup(shaderFound: bool)
      modifies this
      ensures Model() == old(Model()).(material := old(material) || shaderFound)
    {
      if shaderFound {
        material := true;
      }
    }

    static method NewWorkBuffer(dev: Device, src: Size) returns (t: Texture)
      modifies dev
      ensures t == NewWork(old(dev.View()), src) && dev.View() == Acquire(old(dev.View()))
      ensures t.width == src.width && t.height == src.height
    {
      t := dev.GetTemporary(src.width, src.height, Default);
    }

    method NewDispBuffer(dev: Device, src: Size) returns (t: Texture)
      modifies dev
      ensures t == NewDisp(old(dev.View()), src, blockSize) && dev.View() == Acquire(old(dev.View()))
      ensures t.width == src.width / blockSize && t.height == src.height / blockSize && t.filter == Point
    {
      t := dev.GetTemporary(src.width / blockSize, src.height / blockSize, ARGBHalf);
      t := t.(filter := Point);
    }

    static method ReleaseBuffer(dev: Device, buffer: Option<Texture>)
      requires buffer.Some? ==> buffer.value.id in dev.live
      modifies dev
      ensures dev.View() == ReleaseIfPresent(old(dev.View()), buffer)
    {
      if buffer.Some? {
        dev.ReleaseTemporary(buffer.value);
      }
    }

    method Render(dev: Device, src: Size)
      requires Valid(dev)
      modifies this, dev
      ensures Valid(dev)
      ensures State(dev) == RenderStep(old(State(dev)), src)
    {
      if !enable || !material {
        return;
      }

      dev.SetFloat(BlockSizeParam);
      dev.SetFloat(Quality);
      dev.SetFloat(Velocity);
      dev.SetFloat(Diffusion);
      assert State(dev) == old(State(dev)).(pool := SetUniforms(old(dev.View())));

      if !init {
        StartEffect(dev, src);
      } else {
        UpdateBuffers(dev, src);
      }
    }

    /** `Render`'s cold branch: allocate both buffers, pass the source through, seed the displacement. */
    method StartEffect(dev: Device, src: Size)
      requires Valid(dev) && !init
      modifies this, dev
      ensures State(dev) == ColdFrame(old(State(dev)), src)
    {
      var d := NewDispBuffer(dev, src);
      disp := Some(d);
      var w := NewWorkBuffer(dev, src);
      work := Some(w);

      dev.Blit(Source, Tex(w.id), None);
      dev.Blit(Tex(w.id), Destination, None);
      dev.Blit(Null, Tex(d.id), Some(0));

      init := true;
    }

    /** `Render`'s warm branch: rotate the displacement buffer, then the work buffer, and show the result. */
    method UpdateBuffers(dev: Device, src: Size)
      requires Valid(dev) && init
      modifies this, dev
      ensures State(dev) == WarmFrame(old(State(dev)), src)
    {
      var newDisp := NewDispBuffer(dev, src);
      dev.Blit(Tex(disp.value.id), Tex(newDisp.id), Some(1));
      ReleaseBuffer(dev, disp);
      disp := Some(newDisp);

      var newWork := NewWorkBuffer(dev, src);
      dev.SetTexture(WorkTex, work.value);
      dev.SetTexture(DispTex, disp.value);
      dev.Blit(Source, Tex(newWork.id), Some(2));
      ReleaseBuffer(dev, work);
      work := Some(newWork);

      dev.Blit(Tex(work.value.id), Destination, None);
    }

    method Cleanup(dev: Device)
      requires Valid(dev)
      modifies this, dev
      ensures Valid(dev)
      ensures State(dev) == CleanupStep(old(State(dev)))
    {
      ReleaseBuffer(dev, work);
      work := None;

      ReleaseBuffer(dev, disp);
      disp := None;

      init := false;
    }
  }

  /** A newly constructed effect on a newly constructed device starts valid. */
  lemma ConstructedValid(m: Datamoshing, dev: Device)
    requires m.Model() == Initial.fx && dev.View() == Empty
    ensures m.Valid(dev) && m.State(dev) == Initial
  {
    InitialValid();
  }
}
