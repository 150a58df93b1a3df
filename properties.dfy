/**
  What the lifecycle guarantees, frame by frame and over any sequence of
  host callbacks: the data flow of cold and warm frames, the order of their
  events, that the instrumented engine accepts every trace the effect can
  produce (so no handle is released twice or named after its release), and
  that no handle leaks.
*/
module Properties {
  import opened Wrappers
  import opened Parameters
  import opened Gpu
  import opened Audit
  import opened Datamoshing

  /** The replayed engine agrees with the pool: same live handles, every id it saw handed out. */
  ghost predicate Tracks(a: Tracker, p: Pool)
  {
    a.live == p.live && forall i :: i in a.seen ==> i < p.next
  }

  /** The pool's trace is accepted by the instrumented engine, which ends in step with it. */
  ghost predicate Audited(p: Pool)
  {
    Replay(p.log).Some? && Tracks(Replay(p.log).value, p)
  }

  lemma AcquireAudited(p: Pool)
    requires Audited(p)
    ensures Audited(Acquire(p))
    ensures Replay(Acquire(p).log) == Some(Perform(Replay(p.log).value, Acquired(p.next)))
  {
    ReplaySnoc(p.log, Acquired(p.next));
  }

  lemma ReleaseAudited(p: Pool, id: nat)
    requires Audited(p) && id in p.live
    ensures Audited(Release(p, id))
    ensures Replay(Release(p, id).log) == Some(Perform(Replay(p.log).value, Released(id)))
  {
    ReplaySnoc(p.log, Released(id));
  }

  lemma RecordAudited(p: Pool, e: Event)
    requires Audited(p) && !e.Acquired? && !e.Released? && Allowed(Replay(p.log).value, e)
    ensures Audited(Record(p, e))
    ensures Replay(Record(p, e).log) == Some(Perform(Replay(p.log).value, e))
  {
    ReplaySnoc(p.log, e);
  }

  /** Writing the uniforms leaves the replayed engine as it was. */
  lemma UniformsAudited(p: Pool)
    requires Audited(p)
    ensures Audited(SetUniforms(p)) && Replay(SetUniforms(p).log) == Replay(p.log)
  {
    var p1 := Record(p, SetFloat(BlockSizeParam));
    RecordAudited(p, SetFloat(BlockSizeParam));
    var p2 := Record(p1, SetFloat(Quality));
    RecordAudited(p1, SetFloat(Quality));
    var p3 := Record(p2, SetFloat(Velocity));
    RecordAudited(p2, SetFloat(Velocity));
    RecordAudited(p3, SetFloat(Diffusion));
  }

  /** The cold branch's engine calls: acquire both buffers, pass the source through, seed the displacement. */
  function ColdStart(q0: Pool, d: Texture, w: Texture): Pool
  {
    var q2 := Acquire(Acquire(q0));
    Record(Record(Record(q2, Blit(Source, Tex(w.id), None)), Blit(Tex(w.id), Destination, None)),
           Blit(Null, Tex(d.id), Some(0)))
  }

  /** The cold branch's calls are accepted; the work buffer and the destination hold the source, the displacement the seed. */
  lemma ColdStartAudited(q0: Pool, d: Texture, w: Texture)
    requires Audited(q0) && Sane(q0) && d.id == q0.next && w.id == q0.next + 1
    ensures Audited(ColdStart(q0, d, w))
    ensures var a5 := Replay(ColdStart(q0, d, w).log).value;
            && a5.dest == Frame
            && ImageOf(a5, w.id) == Frame
            && ImageOf(a5, d.id) == Kernel(0, [])
  {
    var q1 := Acquire(q0);
    AcquireAudited(q0);
    var q2 := Acquire(q1);
    AcquireAudited(q1);
    var e3 := Blit(Source, Tex(w.id), None);
    var q3 := Record(q2, e3);
    RecordAudited(q2, e3);
    assert ImageOf(Replay(q3.log).value, w.id) == Frame;
    var e4 := Blit(Tex(w.id), Destination, None);
    var q4 := Record(q3, e4);
    RecordAudited(q3, e4);
    assert Replay(q4.log).value.dest == Frame;
    RecordAudited(q4, Blit(Null, Tex(d.id), Some(0)));
  }

  /**
    A cold frame shows the source unmodified: the work buffer and the
    destination both hold the source frame, and the displacement buffer
    holds the seed pass's output.
  */
  lemma ColdFramePassesSourceThrough(s: Sys, src: Size)
    requires Inv(s) && Audited(s.pool)
    requires s.fx.enable && s.fx.material && !s.fx.init
    ensures var r := RenderStep(s, src);
            && Audited(r.pool)
            && Replay(r.pool.log).value.dest == Frame
            && ImageOf(Replay(r.pool.log).value, r.fx.work.value.id) == Frame
            && ImageOf(Replay(r.pool.log).value, r.fx.disp.value.id) == Kernel(0, [])
  {
    var s1 := s.(pool := SetUniforms(s.pool));
    UniformsAudited(s.pool);
    var q0 := s1.pool;
    var d := NewDisp(q0, src, s.fx.blockSize);
    var w := NewWork(Acquire(q0), src);
    ColdStartAudited(q0, d, w);
    assert RenderStep(s, src) == ColdFrame(s1, src);
  }

  /** The warm branch's displacement rotation: acquire `d'`, run pass 1 from `d` into it, release `d`. */
  function RotateDisp(q0: Pool, d: Texture, d': Texture): Pool
  {
    ReleaseIfPresent(Record(Acquire(q0), Blit(Tex(d.id), Tex(d'.id), Some(1))), Some(d))
  }

  /** The warm branch's moshing step: acquire `w'`, bind the old work and new displacement, run pass 2 into `w'`. */
  function Mosh(q3: Pool, w: Texture, d': Texture, w': Texture): Pool
  {
    Record(Record(Record(Acquire(q3), SetTexture(WorkTex, w.id)), SetTexture(DispTex, d'.id)),
           Blit(Source, Tex(w'.id), Some(2)))
  }

  /** The warm branch's last step: release the old work buffer and show the new one. */
  function Show(q7: Pool, w: Texture, w': Texture): Pool
  {
    Record(ReleaseIfPresent(q7, Some(w)), Blit(Tex(w'.id), Destination, None))
  }

  /** The displacement rotation is accepted: the new buffer holds pass 1 of the old one, the work buffer is untouched. */
  lemma RotateDispAudited(q0: Pool, d: Texture, w: Texture, d': Texture)
    requires Audited(q0) && Sane(q0)
    requires d.id in q0.live && w.id in q0.live && d.id != w.id && d'.id == q0.next
    ensures Audited(RotateDisp(q0, d, d'))
    ensures var q3 := RotateDisp(q0, d, d');
            var a0, a3 := Replay(q0.log).value, Replay(q3.log).value;
            && Sane(q3) && q3.next == q0.next + 1
            && w.id in q3.live && d'.id in q3.live && d.id !in q3.live && w.id != d'.id
            && ImageOf(a3, d'.id) == Kernel(1, [ImageOf(a0, d.id)])
            && ImageOf(a3, w.id) == ImageOf(a0, w.id)
  {
    var q1 := Acquire(q0);
    AcquireAudited(q0);
    var e2 := Blit(Tex(d.id), Tex(d'.id), Some(1));
    var q2 := Record(q1, e2);
    RecordAudited(q1, e2);
    ReleaseAudited(q2, d.id);
  }

  /**
    The moshing step is accepted: pass 2 writes a texture bound to neither
    slot, and the new work buffer holds pass 2 of the source, the old work
    image and the new displacement.
  */
  lemma MoshAudited(q3: Pool, w: Texture, d': Texture, w': Texture)
    requires Audited(q3) && Sane(q3)
    requires w.id in q3.live && d'.id in q3.live && w.id != d'.id && w'.id == q3.next
    ensures var q7 := Mosh(q3, w, d', w');
            Audited(q7) && Sane(q7) && w.id in q7.live && w'.id in q7.live && w.id != w'.id
    ensures var a3, a7 := Replay(q3.log).value, Replay(Mosh(q3, w, d', w').log).value;
            && ImageOf(a7, w'.id) == Kernel(2, [Frame, ImageOf(a3, w.id), ImageOf(a3, d'.id)])
            && ImageOf(a7, d'.id) == ImageOf(a3, d'.id)
  {
    var q4 := Acquire(q3);
    AcquireAudited(q3);
    var e5 := SetTexture(WorkTex, w.id);
    var q5 := Record(q4, e5);
    RecordAudited(q4, e5);
    var e6 := SetTexture(DispTex, d'.id);
    var q6 := Record(q5, e6);
    RecordAudited(q5, e6);
    var a6 := Replay(q6.log).value;
    assert a6.bound == Replay(q4.log).value.bound[WorkTex := w.id][DispTex := d'.id];
    forall x | x in a6.bound.Values
      ensures x == w.id || x == d'.id
    {
      var k :| k in a6.bound && a6.bound[k] == x;
      assert k == WorkTex || k == DispTex;
    }
    RecordAudited(q6, Blit(Source, Tex(w'.id), Some(2)));
  }

  /** Releasing the old work buffer and showing the new one is accepted; the destination holds the new work image. */
  lemma ShowAudited(q7: Pool, w: Texture, w': Texture)
    requires Audited(q7) && w.id in q7.live && w'.id in q7.live && w.id != w'.id
    ensures Audited(Show(q7, w, w'))
    ensures var a7, a9 := Replay(q7.log).value, Replay(Show(q7, w, w').log).value;
            && a9.dest == ImageOf(a7, w'.id)
            && a9.img == a7.img
  {
    var q8 := ReleaseIfPresent(q7, Some(w));
    ReleaseAudited(q7, w.id);
    RecordAudited(q8, Blit(Tex(w'.id), Destination, None));
  }

  /**
    A warm frame feeds back: the new displacement is pass 1 of the old one,
    the new work image is pass 2 of the source, the old work image and the
    NEW displacement, and that is what the destination shows.
  */
  lemma WarmFrameFeedsBack(s: Sys, src: Size)
    requires Inv(s) && Audited(s.pool)
    requires s.fx.enable && s.fx.material && s.fx.init
    ensures var r := RenderStep(s, src);
            var a := Replay(s.pool.log).value;
            var disp' := Kernel(1, [ImageOf(a, s.fx.disp.value.id)]);
            var work' := Kernel(2, [Frame, ImageOf(a, s.fx.work.value.id), disp']);
            && Audited(r.pool)
            && ImageOf(Replay(r.pool.log).value, r.fx.disp.value.id) == disp'
            && ImageOf(Replay(r.pool.log).value, r.fx.work.value.id) == work'
            && Replay(r.pool.log).value.dest == work'
  {
    var d, w := s.fx.disp.value, s.fx.work.value;
    var s1 := s.(pool := SetUniforms(s.pool));
    UniformsAudited(s.pool);
    var q0 := s1.pool;
    var d' := NewDisp(q0, src, s.fx.blockSize);
    RotateDispAudited(q0, d, w, d');
    var q3 := RotateDisp(q0, d, d');
    var w' := NewWork(q3, src);
    MoshAudited(q3, w, d', w');
    ShowAudited(Mosh(q3, w, d', w'), w, w');
    assert RenderStep(s, src) == WarmFrame(s1, src);
  }

  lemma RenderAudited(s: Sys, src: Size)
    requires Inv(s) && Audited(s.pool)
    ensures Audited(RenderStep(s, src).pool)
  {
    if s.fx.enable && s.fx.material {
      if s.fx.init {
        WarmFrameFeedsBack(s, src);
      } else {
        ColdFramePassesSourceThrough(s, src);
      }
    }
  }

  lemma CleanupAudited(s: Sys)
    requires Inv(s) && Audited(s.pool)
    ensures Audited(CleanupStep(s).pool)
  {
    var p1 := ReleaseIfPresent(s.pool, s.fx.work);
    if s.fx.init {
      ReleaseAudited(s.pool, s.fx.work.value.id);
      ReleaseAudited(p1, s.fx.disp.value.id);
    }
  }

  lemma SuffixSplit(x: seq<Event>, y: seq<Event>, z: seq<Event>)
    requires x <= y <= z
    ensures z[|x|..] == y[|x|..] + z[|y|..]
  {
  }

  /** The events of a cold frame that acquires displacement `d` and work `w`. */
  function ColdEvents(d: nat, w: nat): seq<Event>
  {
    UniformWrites + [Acquired(d), Acquired(w), Blit(Source, Tex(w), None),
                     Blit(Tex(w), Destination, None), Blit(Null, Tex(d), Some(0))]
  }

  /** The events of a warm frame that rotates `d` to `d'` and `w` to `w'`. */
  function WarmEvents(d: nat, w: nat, d': nat, w': nat): seq<Event>
  {
    UniformWrites + [Acquired(d'), Blit(Tex(d), Tex(d'), Some(1)), Released(d),
                     Acquired(w'), SetTexture(WorkTex, w), SetTexture(DispTex, d'),
                     Blit(Source, Tex(w'), Some(2)), Released(w), Blit(Tex(w'), Destination, None)]
  }

  /** The events a cold frame appends after the uniform writes. */
  lemma ColdTail(s1: Sys, src: Size)
    requires Inv(s1) && !s1.fx.init
    ensures var r := ColdFrame(s1, src);
            var d, w := r.fx.disp.value.id, r.fx.work.value.id;
            Appended(s1, r) == [Acquired(d), Acquired(w), Blit(Source, Tex(w), None),
                                Blit(Tex(w), Destination, None), Blit(Null, Tex(d), Some(0))]
  {
  }

  /** The events a warm frame appends after the uniform writes. */
  lemma WarmTail(s1: Sys, src: Size)
    requires Inv(s1) && s1.fx.init
    ensures var r := WarmFrame(s1, src);
            var d, w := s1.fx.disp.value.id, s1.fx.work.value.id;
            var d', w' := r.fx.disp.value.id, r.fx.work.value.id;
            Appended(s1, r) == [Acquired(d'), Blit(Tex(d), Tex(d'), Some(1)), Released(d),
                                Acquired(w'), SetTexture(WorkTex, w), SetTexture(DispTex, d'),
                                Blit(Source, Tex(w'), Some(2)), Released(w), Blit(Tex(w'), Destination, None)]
  {
  }

  /** The events an active frame appends, spelled out. */
  lemma FrameEvents(s: Sys, src: Size)
    requires Inv(s) && s.fx.enable && s.fx.material
    ensures var r := RenderStep(s, src);
            Appended(s, r) ==
              if s.fx.init
              then WarmEvents(s.fx.disp.value.id, s.fx.work.value.id, r.fx.disp.value.id, r.fx.work.value.id)
              else ColdEvents(r.fx.disp.value.id, r.fx.work.value.id)
  {
    var s1 := s.(pool := SetUniforms(s.pool));
    var r := RenderStep(s, src);
    SuffixSplit(s.pool.log, s1.pool.log, r.pool.log);
    assert Appended(s, s1) == UniformWrites;
    if s.fx.init {
      assert r == WarmFrame(s1, src);
      WarmTail(s1, src);
    } else {
      assert r == ColdFrame(s1, src);
      ColdTail(s1, src);
    }
  }

  /** Positions in a cold frame's events, counted from the end of the uniform writes. */
  lemma ColdEventsOrder(d: nat, w: nat)
    ensures var seg := ColdEvents(d, w);
            var u := |UniformWrites|;
            && seg[u + 2] == Blit(Source, Tex(w), None)
            && seg[u + 3] == Blit(Tex(w), Destination, None)
            && seg[u + 4] == Blit(Null, Tex(d), Some(0))
            && (forall e :: e in seg ==> !e.Released?)
            && (forall e :: e in seg && e.Blit? && e.dst == Destination ==> e.src == Tex(w))
  {
  }

  /** Positions in a warm frame's events, counted from the end of the uniform writes. */
  lemma WarmEventsOrder(d: nat, w: nat, d': nat, w': nat)
    ensures var seg := WarmEvents(d, w, d', w');
            var u := |UniformWrites|;
            && seg[u + 1] == Blit(Tex(d), Tex(d'), Some(1)) && seg[u + 2] == Released(d)
            && seg[u + 4] == SetTexture(WorkTex, w) && seg[u + 6] == Blit(Source, Tex(w'), Some(2))
            && seg[u + 7] == Released(w)
            && seg[u + 8] == Blit(Tex(w'), Destination, None)
            && (forall h :: SetTexture(DispTex, h) in seg ==> h == d')
            && (forall e :: e in seg && e.Blit? && e.dst == Destination ==> e.src == Tex(w'))
  {
  }

  /**
    In a cold frame the source is copied into the work buffer before the work
    buffer is shown, the displacement is seeded afterwards, and nothing is
    released.
  */
  lemma ColdFrameOrder(s: Sys, src: Size)
    requires Inv(s) && s.fx.enable && s.fx.material && !s.fx.init
    ensures var r := RenderStep(s, src);
            var seg := Appended(s, r);
            var d, w := r.fx.disp.value.id, r.fx.work.value.id;
            && (exists i, j, k :: 0 <= i < j < k < |seg|
                  && seg[i] == Blit(Source, Tex(w), None)
                  && seg[j] == Blit(Tex(w), Destination, None)
                  && seg[k] == Blit(Null, Tex(d), Some(0)))
            && (forall e :: e in seg ==> !e.Released?)
  {
    var r := RenderStep(s, src);
    FrameEvents(s, src);
    ColdEventsOrder(r.fx.disp.value.id, r.fx.work.value.id);
  }

  /**
    In a warm frame the old displacement buffer is released only after the
    pass-1 blit that reads it, and the old work buffer is bound as `_WorkTex`
    and read by the pass-2 blit before it is released.
  */
  lemma WarmFrameReleasesAfterReads(s: Sys, src: Size)
    requires Inv(s) && s.fx.enable && s.fx.material && s.fx.init
    ensures var r := RenderStep(s, src);
            var seg := Appended(s, r);
            var d, w := s.fx.disp.value.id, s.fx.work.value.id;
            var d', w' := r.fx.disp.value.id, r.fx.work.value.id;
            && (exists i, j :: 0 <= i < j < |seg|
                  && seg[i] == Blit(Tex(d), Tex(d'), Some(1))
                  && seg[j] == Released(d))
            && (exists i, j, k :: 0 <= i < j < k < |seg|
                  && seg[i] == SetTexture(WorkTex, w)
                  && seg[j] == Blit(Source, Tex(w'), Some(2))
                  && seg[k] == Released(w))
  {
    var r := RenderStep(s, src);
    FrameEvents(s, src);
    WarmEventsOrder(s.fx.disp.value.id, s.fx.work.value.id, r.fx.disp.value.id, r.fx.work.value.id);
  }

  /** In a warm frame the only buffer bound as `_DispTex` is the new displacement buffer. */
  lemma WarmFrameBindsNewDisp(s: Sys, src: Size)
    requires Inv(s) && s.fx.enable && s.fx.material && s.fx.init
    ensures var r := RenderStep(s, src);
            forall h :: SetTexture(DispTex, h) in Appended(s, r) ==> h == r.fx.disp.value.id
  {
    var r := RenderStep(s, src);
    FrameEvents(s, src);
    WarmEventsOrder(s.fx.disp.value.id, s.fx.work.value.id, r.fx.disp.value.id, r.fx.work.value.id);
  }

  lemma WarmEventsUnaliased(d: nat, w: nat, d': nat, w': nat)
    requires d' != d && w' != w && w' != d'
    ensures var seg := WarmEvents(d, w, d', w');
            && (forall e :: e in seg && e.Blit? ==> e.src != e.dst)
            && (forall e :: e in seg && e.Blit? && e.pass == Some(2) ==> e.dst == Tex(w') && e.src == Source)
  {
  }

  /**
    A warm frame never writes a texture it reads: pass 1 writes a buffer
    other than the old displacement it reads, and pass 2 writes a buffer
    other than the old work and new displacement buffers bound to its slots.
    This is why the effect rotates its buffers instead of updating them in place.
  */
  lemma WarmFrameWritesFresh(s: Sys, src: Size)
    requires Inv(s) && s.fx.enable && s.fx.material && s.fx.init
    ensures var r := RenderStep(s, src);
            var d, w := s.fx.disp.value.id, s.fx.work.value.id;
            var d', w' := r.fx.disp.value.id, r.fx.work.value.id;
            d' != d && d' != w && w' != w && w' != d && w' != d'
    ensures var r := RenderStep(s, src);
            var seg := Appended(s, r);
            var w' := r.fx.work.value.id;
            && (forall e :: e in seg && e.Blit? ==> e.src != e.dst)
            && (forall e :: e in seg && e.Blit? && e.pass == Some(2) ==> e.dst == Tex(w') && e.src == Source)
  {
    var r := RenderStep(s, src);
    var s1 := s.(pool := SetUniforms(s.pool));
    assert r == WarmFrame(s1, src);
    FrameEvents(s, src);
    WarmEventsUnaliased(s.fx.disp.value.id, s.fx.work.value.id, r.fx.disp.value.id, r.fx.work.value.id);
  }

  /** Every active frame shows the current work buffer, and only it, on the destination. */
  lemma DestinationShowsWork(s: Sys, src: Size)
    requires Inv(s) && s.fx.enable && s.fx.material
    ensures var r := RenderStep(s, src);
            var seg := Appended(s, r);
            var w' := r.fx.work.value.id;
            && Blit(Tex(w'), Destination, None) in seg
            && (forall e :: e in seg && e.Blit? && e.dst == Destination ==> e.src == Tex(w'))
  {
    var r := RenderStep(s, src);
    FrameEvents(s, src);
    if s.fx.init {
      WarmEventsOrder(s.fx.disp.value.id, s.fx.work.value.id, r.fx.disp.value.id, r.fx.work.value.id);
    } else {
      ColdEventsOrder(r.fx.disp.value.id, r.fx.work.value.id);
    }
  }

  /** The live handles are the effect's own: two while warm, none while cold. */
  lemma LiveHandles(s: Sys)
    requires Inv(s)
    ensures |s.pool.live| == if s.fx.init then 2 else 0
  {
  }

  /** A second cleanup releases nothing and changes nothing. */
  lemma CleanupIdempotent(s: Sys)
    requires Inv(s)
    ensures CleanupStep(CleanupStep(s)) == CleanupStep(s)
  {
  }

  /** `Render` never consults `IsActive`, yet it changes the state exactly when `IsActive` holds. */
  lemma RenderActsIffActive(m: Datamoshing, dev: Device, src: Size)
    requires m.Valid(dev)
    ensures RenderStep(m.State(dev), src) != m.State(dev) <==> m.IsActive()
  {
    var s := m.State(dev);
    var r := RenderStep(s, src);
    if m.IsActive() {
      assert |r.pool.log| > |s.pool.log|;
    }
  }

  /** A callback the host may make on the effect. */
  datatype Call =
    | Setup(shaderFound: bool)
    | SetEnable(on: bool)
    | SetBlockSize(v: int)
    | Render(src: Size)
    | Cleanup

  function Apply(s: Sys, c: Call): (r: Sys)
    requires Inv(s)
    ensures Inv(r) && s.pool.log <= r.pool.log
  {
    match c
    case Setup(found) => SetupStep(s, found)
    case SetEnable(on) => s.(fx := s.fx.(enable := on))
    case SetBlockSize(v) => s.(fx := s.fx.(blockSize := ClampBlockSize(v)))
    case Render(src) => RenderStep(s, src)
    case Cleanup => CleanupStep(s)
  }

  /** The state after the host makes `calls` in order. */
  function Run(s: Sys, calls: seq<Call>): (r: Sys)
    requires Inv(s)
    ensures Inv(r) && s.pool.log <= r.pool.log
    decreases |calls|
  {
    if calls == [] then s else Run(Apply(s, calls[0]), calls[1..])
  }

  lemma {:induction false} RunAppend(s: Sys, xs: seq<Call>, ys: seq<Call>)
    requires Inv(s)
    ensures Run(s, xs + ys) == Run(Run(s, xs), ys)
    decreases |xs|
  {
    if xs != [] {
      assert (xs + ys)[0] == xs[0] && (xs + ys)[1..] == xs[1..] + ys;
      RunAppend(Apply(s, xs[0]), xs[1..], ys);
    } else {
      assert xs + ys == ys;
    }
  }

  lemma {:induction false} RunAudited(s: Sys, calls: seq<Call>)
    requires Inv(s) && Audited(s.pool)
    ensures Audited(Run(s, calls).pool)
    decreases |calls|
  {
    if calls != [] {
      match calls[0] {
        case Render(src) => RenderAudited(s, src);
        case Cleanup => CleanupAudited(s);
        case _ =>
      }
      RunAudited(Apply(s, calls[0]), calls[1..]);
    }
  }

  /**
    Whatever the host does, the trace is accepted by the instrumented engine:
    no handle is acquired twice, released twice, or bound, read or written
    after it was released; pass 2 always reads live textures; and no blit
    writes a texture it reads.
  */
  lemma NeverMisused(calls: seq<Call>)
    ensures Replay(Run(Initial, calls).pool.log).Some?
    ensures NoUseAfterRelease(Run(Initial, calls).pool.log)
    ensures NoInPlaceBlit(Run(Initial, calls).pool.log)
  {
    assert Replay(Initial.pool.log) == Some(Start);
    RunAudited(Initial, calls);
    AcceptedIsSafe(Run(Initial, calls).pool.log);
  }

  /** Whatever the host did before, a cleanup leaves no handle live. */
  lemma NoLeakAfterCleanup(calls: seq<Call>)
    ensures Run(Initial, calls + [Cleanup]).pool.live == {}
  {
    RunAppend(Initial, calls, [Cleanup]);
  }

  /**
    Warm frames reallocate at the current size: a block size written between
    two frames takes effect, clamped, at the next frame.
  */
  lemma BlockSizeTakesEffect(s: Sys, v: int, src: Size)
    requires Inv(s) && s.fx.enable && s.fx.material
    ensures var r := Run(s, [SetBlockSize(v), Render(src)]);
            && r.fx.disp.Some? && r.fx.work.Some?
            && r.fx.disp.value.width == src.width / ClampBlockSize(v)
            && r.fx.disp.value.height == src.height / ClampBlockSize(v)
            && r.fx.work.value.width == src.width && r.fx.work.value.height == src.height
  {
    var s1 := Apply(s, SetBlockSize(v));
    assert Run(s, [SetBlockSize(v), Render(src)]) == Run(s1, [Render(src)]);
    assert Run(s1, [Render(src)]) == Run(RenderStep(s1, src), []);
  }
}
