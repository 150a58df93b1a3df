/**
  An instrumented replay of the engine trace. It plays the role of a pool
  and command queue that refuse misuse: acquiring an id handed out before,
  releasing a handle that is not live, binding, reading or writing a handle
  that is not live, running the moshing pass with a texture slot that is
  unbound or bound to a dead handle, and any blit that writes a texture it
  reads (the main input, or for the moshing pass a bound slot). While it
  replays, it also follows what each texture and the destination hold, as
  symbolic images, so that the data flow of a frame can be stated.

  Passes 0 and 1 read only the blit's main texture; pass 2 also reads the
  material's `_WorkTex` and `_DispTex` slots (the shader itself is external).
*/
module Audit {
  import opened Wrappers
  import opened Gpu

  /**
    Symbolic image content: unwritten memory, the source frame of the blit's
    own call, or the output of a shader pass applied to its inputs.
  */
  datatype Image = Undefined | Frame | Kernel(pass: nat, inputs: seq<Image>)

  datatype Tracker = Tracker(
    live: set<nat>,
    seen: set<nat>,
    bound: map<Slot, nat>,
    img: map<nat, Image>,
    dest: Image)

  const Start := Tracker({}, {}, map[], map[], Undefined)

  function ImageOf(a: Tracker, id: nat): Image
  {
    if id in a.img then a.img[id] else Undefined
  }

  function SlotImage(a: Tracker, slot: Slot): Image
  {
    if slot in a.bound then ImageOf(a, a.bound[slot]) else Undefined
  }

  function Read(a: Tracker, t: Target): Image
  {
    match t
    case Source => Frame
    case Destination => a.dest
    case Null => Undefined
    case Tex(id) => ImageOf(a, id)
  }

  /** The pool handles an event names. */
  function Uses(e: Event): set<nat>
  {
    match e
    case Acquired(id) => {id}
    case Released(id) => {id}
    case SetFloat(_) => {}
    case SetTexture(_, id) => {id}
    case Blit(src, dst, _) => (if src.Tex? then {src.id} else {}) + (if dst.Tex? then {dst.id} else {})
  }

  predicate SlotsLive(a: Tracker)
  {
    && WorkTex in a.bound && a.bound[WorkTex] in a.live
    && DispTex in a.bound && a.bound[DispTex] in a.live
  }

  /** Whether the instrumented engine accepts event `e` in state `a`. */
  predicate Allowed(a: Tracker, e: Event)
  {
    match e
    case Acquired(id) => id !in a.seen
    case Released(id) => id in a.live
    case SetFloat(_) => true
    case SetTexture(_, id) => id in a.live
    case Blit(src, dst, pass) =>
      && Uses(e) <= a.live
      && (dst.Tex? || dst.Destination?)
      && src != dst
      && (pass == Some(2) ==> SlotsLive(a) && (dst.Tex? ==> dst.id !in a.bound.Values))
  }

  /** What a blit writes: a copy of its main texture, or the pass applied to its inputs. */
  function Output(a: Tracker, src: Target, pass: Option<nat>): Image
  {
    if pass.None? then Read(a, src)
    else
      var main := if src.Null? then [] else [Read(a, src)];
      var slots := if pass.value == 2 then [SlotImage(a, WorkTex), SlotImage(a, DispTex)] else [];
      Kernel(pass.value, main + slots)
  }

  function Perform(a: Tracker, e: Event): Tracker
  {
    match e
    case Acquired(id) => a.(live := a.live + {id}, seen := a.seen + {id}, img := a.img[id := Undefined])
    case Released(id) => a.(live := a.live - {id})
    case SetFloat(_) => a
    case SetTexture(slot, id) => a.(bound := a.bound[slot := id])
    case Blit(src, dst, pass) =>
      var out := Output(a, src, pass);
      if dst.Tex? then a.(img := a.img[dst.id := out]) else a.(dest := out)
  }

  function Step(r: Option<Tracker>, e: Event): Option<Tracker>
  {
    if r.Some? && Allowed(r.value, e) then Some(Perform(r.value, e)) else None
  }

  /** Replays a whole trace from an empty engine; `None` once any event is refused. */
  function Replay(log: seq<Event>): Option<Tracker>
    decreases |log|
  {
    if log == [] then Some(Start) else Step(Replay(log[..|log| - 1]), log[|log| - 1])
  }

  lemma ReplaySnoc(log: seq<Event>, e: Event)
    ensures Replay(log + [e]) == Step(Replay(log), e)
  {
    assert (log + [e])[..|log|] == log;
  }

  /** Declarative form of the safety property: nothing names a handle after its release. */
  ghost predicate NoUseAfterRelease(log: seq<Event>)
  {
    forall i, j :: 0 <= i < j < |log| && log[i].Released? ==> log[i].id !in Uses(log[j])
  }

  /** Declarative form of the no-aliasing rule: no blit writes the texture it reads as main input. */
  ghost predicate NoInPlaceBlit(log: seq<Event>)
  {
    forall i :: 0 <= i < |log| && log[i].Blit? ==> log[i].src != log[i].dst
  }

  /**
    A trace the instrumented engine accepts names no handle after releasing
    it; in particular no handle is released twice. No blit in it writes the
    texture it reads.
  */
  lemma {:induction false} AcceptedIsSafe(log: seq<Event>)
    requires Replay(log).Some?
    ensures NoUseAfterRelease(log) && NoInPlaceBlit(log)
    ensures Replay(log).value.live <= Replay(log).value.seen
    ensures forall i :: 0 <= i < |log| && log[i].Released? ==>
              log[i].id in Replay(log).value.seen - Replay(log).value.live
    decreases |log|
  {
    if log != [] {
      var init, e := log[..|log| - 1], log[|log| - 1];
      assert log == init + [e];
      ReplaySnoc(init, e);
      AcceptedIsSafe(init);
      var a, b := Replay(init).value, Replay(log).value;
      assert Allowed(a, e) && b == Perform(a, e);
      forall i | 0 <= i < |log| && log[i].Blit?
        ensures log[i].src != log[i].dst
      {
        if i < |init| {
          assert log[i] == init[i];
        }
      }
      forall i | 0 <= i < |log| && log[i].Released?
        ensures log[i].id in b.seen - b.live
      {
        if i < |init| {
          assert log[i] == init[i];
        }
      }
      forall i, j | 0 <= i < j < |log| && log[i].Released?
        ensures log[i].id !in Uses(log[j])
      {
        if j < |init| {
          assert log[i] == init[i] && log[j] == init[j];
        } else {
          assert log[i] == init[i] && log[j] == e;
        }
      }
    }
  }
}
