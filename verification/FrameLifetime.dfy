/**
 How long the buffer behind a video frame lives (src/ndi/sender.cpp; the pool in src/av/video_processor.cpp).

 NDI reads a frame after the call that passed it has returned, so the sender keeps it until the next call
 returns. Meanwhile the decode thread allocates from a pool that recycles buffers and may itself be replaced.
 */
module FrameLifetime {
  import opened Options

  // ---------------------------------------------------------------- the sender object

  /** NDI's asynchronous send, by contract: once it returns, NDI may read the frame passed and no other. */
  class NdiInstance {
    var reading: set<nat>
    var created: bool

    constructor ()
      ensures reading == {} && created
    {
      reading, created := {}, true;
    }

    method SendVideoAsync(frame: Option<nat>)
      requires created
      modifies this`reading
      ensures reading == if frame.Some? then {frame.value} else {}
    {
      reading := if frame.Some? then {frame.value} else {};
    }

    method Destroy()
      requires created && reading == {}
      modifies this`created
      ensures !created
    {
      created := false;
    }
  }

  class Sender {
    const instance: NdiInstance
    var inFlight: Option<nat>

    /** NDI reads the frame in flight, and nothing else. */
    ghost predicate Valid()
      reads this, instance
    {
      instance.created && instance.reading == if inFlight.Some? then {inFlight.value} else {}
    }

    constructor ()
      ensures Valid() && fresh(instance) && inFlight == None
    {
      instance := new NdiInstance();
      inFlight := None;
    }

    /** `released` is the frame given up, after NDI has finished with it. */
    method SendVideo(frame: nat) returns (released: Option<nat>)
      requires Valid()
      modifies this`inFlight, instance`reading
      ensures Valid() && inFlight == Some(frame) && released == old(inFlight)
    {
      instance.SendVideoAsync(Some(frame));
      released := inFlight;
      inFlight := Some(frame);
    }

    method FlushVideo() returns (released: Option<nat>)
      requires Valid()
      modifies this`inFlight, instance`reading
      ensures Valid() && inFlight == None && released == old(inFlight)
    {
      released := inFlight;
      if inFlight.None? { return; }
      instance.SendVideoAsync(None);
      inFlight := None;
    }

    /** The destructor: NDI is told to let go before the instance is destroyed. */
    method Close() returns (released: Option<nat>)
      requires Valid()
      modifies this`inFlight, instance
      ensures inFlight == None && released == old(inFlight) && instance.reading == {} && !instance.created
    {
      released := FlushVideo();
      instance.Destroy();
    }
  }

  // ---------------------------------------------------------------- all owners together

  const PADDING := 64
  const FOREIGN: nat := 0 // buffers of the decoder's own frames, sent without copying

  datatype Buffer = Buffer(id: nat, size: int, pool: nat)

  /** Where the presenter is in SendVideo, FlushVideo (no frame) or the destructor. */
  datatype Phase = Idle | Calling(frame: Option<Buffer>) | Returned(frame: Option<Buffer>) | Destroyed

  /**
   `held` are frames owned by the decode stage, the frame queue or the presenter; `free` are buffers the
   current pool may reissue; `live` is all memory not given back; `reading` is what NDI may read.
   */
  datatype State = State(pool: nat, poolSize: Option<int>, nextId: nat, live: set<Buffer>, free: set<Buffer>,
                         held: seq<Buffer>, inFlight: Option<Buffer>, phase: Phase, reading: set<Buffer>)

  datatype Step =
    | Allocate(size: int, recycled: Option<Buffer>) // AllocateContiguous, from the pool's free buffers or anew
    | Receive(size: int)                            // a decoder frame that already lies as NDI expects
    | Drop(index: nat)                              // a frame is dropped on the way to the sender
    | BeginSend(index: nat)
    | BeginFlush
    | NdiReturns
    | KeepFrame                                     // the sender's slot takes the frame, and releases the one before
    | EndProcessor                                  // the decode thread ends, and its pool with it
    | DestroySender

  function Only(b: Option<Buffer>): set<Buffer> {
    if b.Some? then {b.value} else {}
  }

  function Local(s: State): Option<Buffer> {
    if s.phase.Calling? || s.phase.Returned? then s.phase.frame else None
  }

  /** The pool AllocateContiguous uses: replaced when the size differs, and its free buffers with it. */
  function PoolFor(s: State, size: int): State {
    if s.poolSize == Some(size) then s
    else s.(pool := s.pool + 1, poolSize := Some(size), live := s.live - s.free, free := {})
  }

  /** The last reference is gone: back to the pool if that is still current, otherwise freed. */
  function Release(s: State, b: Buffer): State {
    if s.poolSize.Some? && b.pool == s.pool then s.(free := s.free + {b}) else s.(live := s.live - {b})
  }

  predicate Enabled(s: State, step: Step) {
    match step
    case Allocate(size, recycled) => recycled.Some? ==> recycled.value in PoolFor(s, size).free
    case Receive(_) => true
    case Drop(i) => i < |s.held|
    case BeginSend(i) => s.phase.Idle? && i < |s.held|
    case BeginFlush => s.phase.Idle? && s.inFlight.Some?
    case NdiReturns => s.phase.Calling?
    case KeepFrame => s.phase.Returned?
    case EndProcessor => true
    case DestroySender => s.phase.Idle? && s.inFlight.None?
  }

  function Without(held: seq<Buffer>, i: nat): seq<Buffer>
    requires i < |held|
  {
    held[..i] + held[i + 1..]
  }

  function Obtain(s: State, b: Buffer): State {
    s.(nextId := s.nextId + 1, live := s.live + {b}, held := s.held + [b])
  }

  function Next(s: State, step: Step): State
    requires Enabled(s, step)
  {
    match step
    case Allocate(size, recycled) =>
      var t := PoolFor(s, size);
      if recycled.Some? then t.(free := t.free - {recycled.value}, held := t.held + [recycled.value])
      else Obtain(t, Buffer(t.nextId, size + PADDING, t.pool))
    case Receive(size) => Obtain(s, Buffer(s.nextId, size, FOREIGN))
    case Drop(i) => Release(s.(held := Without(s.held, i)), s.held[i])
    case BeginSend(i) =>
      s.(held := Without(s.held, i), phase := Calling(Some(s.held[i])), reading := s.reading + {s.held[i]})
    case BeginFlush => s.(phase := Calling(None))
    case NdiReturns => s.(phase := Returned(s.phase.frame), reading := Only(s.phase.frame))
    case KeepFrame =>
      var t := s.(phase := Idle, inFlight := s.phase.frame);
      if s.inFlight.Some? then Release(t, s.inFlight.value) else t
    case EndProcessor => s.(pool := s.pool + 1, poolSize := None, live := s.live - s.free, free := {})
    case DestroySender => s.(phase := Destroyed)
  }

  const START := State(1, None, 0, {}, {}, [], None, Idle, {})

  ghost predicate IsRun(run: seq<State>, steps: seq<Step>) {
    && |run| == |steps| + 1 && run[0] == START
    && forall i :: 0 <= i < |steps| ==> Enabled(run[i], steps[i]) && run[i + 1] == Next(run[i], steps[i])
  }

  // ---------------------------------------------------------------- the invariant

  /** The buffers some frame owns; `loose` is one just given up and not yet released. */
  ghost function Owned(s: State, loose: Option<Buffer>): set<Buffer> {
    (set b | b in s.held) + Only(Local(s)) + Only(s.inFlight) + Only(loose)
  }

  /** No buffer has two owners. */
  ghost predicate OwnedOnce(s: State, loose: Option<Buffer>) {
    && (forall i, j :: 0 <= i < j < |s.held| ==> s.held[i] != s.held[j])
    && (set b | b in s.held) !! Only(Local(s)) !! Only(s.inFlight) !! Only(loose)
  }

  /** Live memory is owned or waits in the pool for reuse, never both: nothing is freed early, nothing leaks. */
  ghost predicate Balanced(s: State, loose: Option<Buffer>) {
    s.live == s.free + Owned(s, loose) && s.free !! Owned(s, loose)
  }

  /** Only the current pool has free buffers, and all of its buffers have its size. */
  ghost predicate PoolFits(s: State) {
    && s.pool > FOREIGN
    && (forall b :: b in s.free ==> b.pool == s.pool)
    && (forall b :: b in s.live ==> b.id < s.nextId && b.pool <= s.pool)
    && (forall b :: b in s.live && b.pool == s.pool ==> s.poolSize.Some? && b.size == s.poolSize.value + PADDING)
  }

  /** Exactly what NDI may read: the frame in flight, and during a call the one being passed as well. */
  ghost predicate ReadingIsOwned(s: State) {
    s.reading == match s.phase
                 case Calling(f) => Only(s.inFlight) + Only(f)
                 case Returned(f) => Only(f)
                 case _ => Only(s.inFlight)
  }

  ghost predicate Inv(s: State) {
    && OwnedOnce(s, None) && Balanced(s, None) && PoolFits(s) && ReadingIsOwned(s)
    && (s.phase.Destroyed? ==> s.inFlight.None?)
  }

  lemma HeldWithout(held: seq<Buffer>, i: nat)
    requires i < |held| && forall j, k :: 0 <= j < k < |held| ==> held[j] != held[k]
    ensures var rest := Without(held, i);
            && (forall j, k :: 0 <= j < k < |rest| ==> rest[j] != rest[k])
            && (set b | b in rest) == (set b | b in held) - {held[i]}
  {
    var rest := Without(held, i);
    forall b ensures b in rest <==> b in held && b != held[i] {
      if b in held && b != held[i] {
        var k :| 0 <= k < |held| && held[k] == b;
        assert rest[if k < i then k else k - 1] == b;
      }
    }
  }

  lemma PoolForInv(s: State, size: int)
    requires Inv(s)
    ensures Inv(PoolFor(s, size)) && PoolFor(s, size).poolSize == Some(size)
  {
  }

  lemma ObtainInv(s: State, b: Buffer)
    requires Inv(s) && b.id == s.nextId && b.pool <= s.pool
    requires b.pool == s.pool ==> s.poolSize.Some? && b.size == s.poolSize.value + PADDING
    ensures Inv(Obtain(s, b))
  {
    assert (set x | x in s.held + [b]) == (set x | x in s.held) + {b};
    assert b !in s.live;
  }

  lemma RecycleInv(s: State, b: Buffer)
    requires Inv(s) && b in s.free
    ensures Inv(s.(free := s.free - {b}, held := s.held + [b]))
  {
    assert (set x | x in s.held + [b]) == (set x | x in s.held) + {b};
  }

  lemma ReleaseInv(s: State, b: Buffer)
    requires OwnedOnce(s, Some(b)) && Balanced(s, Some(b)) && PoolFits(s)
    ensures OwnedOnce(Release(s, b), None) && Balanced(Release(s, b), None) && PoolFits(Release(s, b))
  {
  }

  lemma BeginSendInv(s: State, i: nat)
    requires Inv(s) && Enabled(s, BeginSend(i))
    ensures Inv(Next(s, BeginSend(i)))
  {
    HeldWithout(s.held, i);
  }

  lemma DropInv(s: State, i: nat)
    requires Inv(s) && Enabled(s, Drop(i))
    ensures Inv(Next(s, Drop(i)))
  {
    HeldWithout(s.held, i);
    ReleaseInv(s.(held := Without(s.held, i)), s.held[i]);
  }

  lemma KeepFrameInv(s: State)
    requires Inv(s) && Enabled(s, KeepFrame)
    ensures Inv(Next(s, KeepFrame))
  {
    if s.inFlight.Some? { ReleaseInv(s.(phase := Idle, inFlight := s.phase.frame), s.inFlight.value); }
  }

  lemma AllocateInv(s: State, size: int, recycled: Option<Buffer>)
    requires Inv(s) && Enabled(s, Allocate(size, recycled))
    ensures Inv(Next(s, Allocate(size, recycled)))
  {
    hide Inv, PoolFor;
    PoolForInv(s, size);
    var t := PoolFor(s, size);
    if recycled.Some? { RecycleInv(t, recycled.value); } else { ObtainInv(t, Buffer(t.nextId, size + PADDING, t.pool)); }
  }

  lemma PhaseInv(s: State, step: Step)
    requires Inv(s) && Enabled(s, step)
    requires step.BeginFlush? || step.NdiReturns? || step.EndProcessor? || step.DestroySender?
    ensures Inv(Next(s, step))
  {
  }

  lemma StepInv(s: State, step: Step)
    requires Inv(s) && Enabled(s, step)
    ensures Inv(Next(s, step))
  {
    match step
    case Allocate(size, recycled) => AllocateInv(s, size, recycled);
    case Receive(size) =>
      assert s.pool > FOREIGN;
      ObtainInv(s, Buffer(s.nextId, size, FOREIGN));
    case Drop(i) => DropInv(s, i);
    case BeginSend(i) => BeginSendInv(s, i);
    case KeepFrame => KeepFrameInv(s);
    case _ => PhaseInv(s, step);
  }

  lemma {:induction false} RunInv(run: seq<State>, steps: seq<Step>, i: nat)
    requires IsRun(run, steps) && i < |run|
    ensures Inv(run[i])
  {
    if i > 0 {
      RunInv(run, steps, i - 1);
      StepInv(run[i - 1], steps[i - 1]);
    }
  }

  // ---------------------------------------------------------------- what follows for every run

  /**
   Whatever NDI may read is owned by the sender's slot, or during a call by the frame being passed: it is live
   memory, in no pool's free list and in no other frame. That still holds after any next step, so no step frees
   it, reissues it, or hands it to code that writes frames.
   */
  lemma NdiReadsOnlyTheSendersFrames(run: seq<State>, steps: seq<Step>, i: nat)
    requires IsRun(run, steps) && i < |steps|
    ensures run[i].reading <= Only(run[i].inFlight) + Only(Local(run[i]))
    ensures run[i].phase.Idle? ==> run[i].reading == Only(run[i].inFlight)
    ensures forall b :: b in run[i].reading ==> b in run[i].live && b !in run[i].free && b !in run[i].held
    ensures forall b :: b in run[i].reading ==> b in run[i + 1].live && b !in run[i + 1].free && b !in run[i + 1].held
  {
    RunInv(run, steps, i);
    RunInv(run, steps, i + 1);
    StillOwned(run[i], steps[i]);
  }

  lemma StillOwned(s: State, step: Step)
    requires Inv(s) && Enabled(s, step) && Inv(Next(s, step))
    ensures s.reading <= Owned(Next(s, step), None)
  {
  }

  /** An allocated buffer had no owner, is none that NDI may read, and has room for the layout and its padding. */
  lemma AllocatedBufferIsUnused(run: seq<State>, steps: seq<Step>, i: nat, size: int, recycled: Option<Buffer>)
    requires IsRun(run, steps) && i < |steps| && steps[i] == Allocate(size, recycled)
    ensures var held := run[i + 1].held;
            && held != [] && held[..|held| - 1] == run[i].held
            && var b := held[|held| - 1];
               b.size == size + PADDING && b !in Owned(run[i], None) && b !in run[i].reading && b !in run[i + 1].reading
  {
    RunInv(run, steps, i);
    RunInv(run, steps, i + 1);
    PoolForInv(run[i], size);
    var t := PoolFor(run[i], size);
    assert Owned(t, None) == Owned(run[i], None);
  }

  /** At the end, with every frame gone, no buffer is left over, whichever pool it came from. */
  lemma NothingLeaks(run: seq<State>, steps: seq<Step>, i: nat)
    requires IsRun(run, steps) && i < |run|
    requires run[i].phase.Destroyed? && run[i].held == [] && run[i].poolSize.None?
    ensures run[i].live == {} && run[i].reading == {}
  {
    RunInv(run, steps, i);
    assert forall b :: b in run[i].free ==> b in run[i].live && b.pool == run[i].pool;
  }

  /** Flushing takes three steps too: afterwards NDI reads nothing, and only the frame in flight has lost its owner. */
  lemma FlushTakesThreeSteps(s: State)
    requires Inv(s) && s.phase.Idle? && s.inFlight.Some?
    ensures var t := Next(Next(Next(s, BeginFlush), NdiReturns), KeepFrame);
            && t.phase.Idle? && t.inFlight == None && t.reading == {} && t.held == s.held
            && Owned(t, None) == Owned(s, None) - Only(s.inFlight)
            && Enabled(t, DestroySender)
  {
  }

  /**
   In every run, a buffer that loses its owner can be issued again by the pool it came from, for another frame of
   the same size and without new memory, as long as that pool is in use; otherwise its memory is freed at once.
   */
  lemma ReleasedBuffersAreReusedOrFreed(run: seq<State>, steps: seq<Step>, i: nat, b: Buffer)
    requires IsRun(run, steps) && i < |steps| && b in Owned(run[i], None) && b !in Owned(run[i + 1], None)
    ensures var s, t := run[i], run[i + 1];
            if s.poolSize.Some? && b.pool == s.pool then
              var again := Allocate(s.poolSize.value, Some(b));
              && Enabled(t, again)
              && Next(t, again).held == t.held + [b] && Next(t, again).live == t.live
            else b !in t.live
  {
    RunInv(run, steps, i);
    RunInv(run, steps, i + 1);
    OnlyReleasesDisown(run[i], steps[i], b);
  }

  lemma OnlyReleasesDisown(s: State, step: Step, b: Buffer)
    requires Inv(s) && Enabled(s, step) && b in Owned(s, None) && b !in Owned(Next(s, step), None)
    ensures var t := Next(s, step);
            && t.pool == s.pool && t.poolSize == s.poolSize
            && if s.poolSize.Some? && b.pool == s.pool then b in t.free else b !in t.live
  {
    match step
    case Drop(i) => HeldWithout(s.held, i);
    case BeginSend(i) => HeldWithout(s.held, i);
    case _ =>
  }

  /** The three steps of a send, taken together, are what Sender.SendVideo promises. */
  lemma SendTakesThreeSteps(s: State, i: nat)
    requires Inv(s) && s.phase.Idle? && i < |s.held|
    ensures var t := Next(Next(Next(s, BeginSend(i)), NdiReturns), KeepFrame);
            && t.phase.Idle? && t.inFlight == Some(s.held[i]) && t.reading == {s.held[i]}
            && t.held == Without(s.held, i)
            && Owned(t, None) == Owned(s, None) - Only(s.inFlight)
  {
    HeldWithout(s.held, i);
  }
}
