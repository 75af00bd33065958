/** `Renderer::createDepthImageImpl`: the shared depth image, rebuilt at the swapchain's extent. */
module DepthResources {
  import opened Vk
  import Images
  import Devices

  /**
   * Create the depth image with exactly the given (swapchain) extent in the device's depth
   * format, give it a depth view and move it to DepthStencilAttachmentOptimal.
   * `allocation` is what the allocator returns for the image (0 on failure).
   */
  method CreateDepthImage(depth: Images.Image, extent: Extent2D,
                          formatProperties: Format -> Devices.FormatProperties, allocation: nat)
    modifies depth
    ensures depth.allocatedExtent == extent
    ensures depth.handle == allocation
    ensures depth.view == Images.ViewAfterCreate(allocation, old(depth.view),
                                                 Devices.FindDepthFormat(formatProperties), Images.Depth)
    ensures depth.currentLayout == DepthStencilAttachmentOptimal
  {
    var depthFormat := Devices.FindDepthFormat(formatProperties);
    var _ := depth.Create(extent.width, extent.height, depthFormat, allocation);
    var _ := depth.CreateView(depthFormat, Images.Depth);
    var _, _ := depth.TransitionLayout(depthFormat, Undefined, DepthStencilAttachmentOptimal);
  }
}

/**
 * The frame-slot orchestrator of `Renderer`: `createSyncObjects`, `prepareFrameImpl`,
 * `endFrameImpl` and the resize callback. Each slot has a command buffer, two semaphores
 * and a fence; the fence is modelled by whether it is signaled, and the GPU finishing a
 * slot's submission is a separate step. A pure `FrameState` machine specifies the class.
 */
module Frames {
  import opened Vk
  import Images
  import Swapchains
  import DescriptorSets

  /** A semaphore, named by its role and slot; NullSemaphore is a default-constructed handle. */
  datatype Semaphore = NullSemaphore | ImageAvailable(slot: nat) | RenderFinished(slot: nat)

  /** The lifecycle state of a primary command buffer. */
  datatype CmdState = Initial | Recording | Executable | Pending

  /** The commands the renderer and the application record. */
  datatype Command =
    | SetViewport(width: u32, height: u32)
    | SetScissor(extent: Extent2D)
    | BeginRenderPass(renderPass: nat, framebufferIndex: u32, area: Extent2D)
    | BindPipeline(pipeline: nat)
    | BindVertexBuffer(buffer: nat)
    | BindIndexBuffer(buffer: nat)
    | BindDescriptorSet(firstSet: nat, descriptorSet: DescriptorSets.SetHandle)
    | DrawIndexed(indexCount: u32, instanceCount: u32, firstIndex: u32, vertexOffset: int, firstInstance: u32)
    | EndRenderPass

  /** What `acquireNextImageKHR` returns. */
  datatype AcquireResult = AcquireResult(result: VkResult, imageIndex: u32)

  /** What `presentKHR` does: return a code, or throw `vk::OutOfDateKHRError`. */
  datatype PresentOutcome = Presented(result: VkResult) | ThrewOutOfDate

  /** `vk::SubmitInfo` plus the fence passed to `submit`; command buffer and fence by slot. */
  datatype SubmitInfo = SubmitInfo(
    waitSemaphores: seq<Semaphore>,
    waitStages: seq<Images.Stage>,
    signalSemaphores: seq<Semaphore>,
    commandBuffer: nat,
    fence: nat)

  /** `vk::PresentInfoKHR`. */
  datatype PresentInfo = PresentInfo(waitSemaphores: seq<Semaphore>, swapchain: nat, imageIndex: u32)

  /**
   * `m_currentFrame`, `m_fbIndex`, `m_resized`, whether each slot's fence is signaled,
   * each slot's command buffer state and the commands recorded in it.
   */
  datatype FrameState = FrameState(
    currentFrame: nat,
    fbIndex: u32,
    resized: bool,
    fenceSignaled: seq<bool>,
    cmdState: seq<CmdState>,
    recorded: seq<seq<Command>>)

  /**
   * One entry per slot; the current slot is in range; a fence is unsignaled exactly while
   * its slot's command buffer is being recorded or executed; only the current slot records.
   */
  predicate SlotsValid(s: FrameState) {
    && |s.fenceSignaled| == MaxFramesInFlight
    && |s.cmdState| == MaxFramesInFlight
    && |s.recorded| == MaxFramesInFlight
    && s.currentFrame < MaxFramesInFlight
    && (forall i :: 0 <= i < MaxFramesInFlight ==>
          (!s.fenceSignaled[i] <==> s.cmdState[i] == Recording || s.cmdState[i] == Pending))
    && (forall i :: 0 <= i < MaxFramesInFlight && s.cmdState[i] == Recording ==> i == s.currentFrame)
  }

  /** Between frames: valid, and no command buffer is being recorded. */
  predicate Idle(s: FrameState) {
    SlotsValid(s) && forall i :: 0 <= i < MaxFramesInFlight ==> s.cmdState[i] != Recording
  }

  /** The state right after construction: slot 0, nothing resized, every fence signaled. */
  function InitialFrameState(): (s: FrameState)
    ensures Idle(s) && s.currentFrame == 0 && !s.resized
    ensures forall i :: 0 <= i < MaxFramesInFlight ==> s.fenceSignaled[i] && s.cmdState[i] == Initial
  {
    FrameState(0, 0, false,
               seq(MaxFramesInFlight, _ => true),
               seq(MaxFramesInFlight, _ => Initial),
               seq(MaxFramesInFlight, _ => []))
  }

  /** The GPU finishes the submission of `slot` (if any): its fence becomes signaled. */
  function Completed(s: FrameState, slot: nat): (r: FrameState)
    requires SlotsValid(s) && slot < MaxFramesInFlight
    ensures SlotsValid(r)
    ensures r.cmdState[slot] != Pending
    ensures s.cmdState[slot] == Pending ==> r.fenceSignaled[slot] && r.cmdState[slot] == Executable
    ensures forall i :: 0 <= i < MaxFramesInFlight ==> (r.cmdState[i] == Recording <==> s.cmdState[i] == Recording)
    ensures forall i :: 0 <= i < MaxFramesInFlight && i != slot ==>
      r.fenceSignaled[i] == s.fenceSignaled[i] && r.cmdState[i] == s.cmdState[i]
    ensures r.currentFrame == s.currentFrame && r.fbIndex == s.fbIndex && r.resized == s.resized
    ensures r.recorded == s.recorded
  {
    if s.cmdState[slot] == Pending then
      s.(fenceSignaled := s.fenceSignaled[slot := true], cmdState := s.cmdState[slot := Executable])
    else
      s
  }

  /** The wait on the current slot's fence: the GPU finishes that slot first if its fence is unsignaled. */
  function Waited(s: FrameState): (r: FrameState)
    requires SlotsValid(s) && s.cmdState[s.currentFrame] != Recording
    ensures SlotsValid(r) && r.fenceSignaled[s.currentFrame]
    ensures r.currentFrame == s.currentFrame && r.fbIndex == s.fbIndex && r.resized == s.resized
    ensures r.recorded == s.recorded
    ensures forall i :: 0 <= i < MaxFramesInFlight && i != s.currentFrame ==>
      r.fenceSignaled[i] == s.fenceSignaled[i] && r.cmdState[i] == s.cmdState[i]
  {
    if !s.fenceSignaled[s.currentFrame] then Completed(s, s.currentFrame) else s
  }

  /**
   * Store the acquired image index, reset the current slot's fence and command buffer,
   * begin recording and set viewport and scissor to `extent`.
   */
  function Begun(s: FrameState, imageIndex: u32, extent: Extent2D): (r: FrameState)
    requires SlotsValid(s) && s.fenceSignaled[s.currentFrame]
    ensures SlotsValid(r)
    ensures r.currentFrame == s.currentFrame && r.fbIndex == imageIndex && r.resized == s.resized
    ensures !r.fenceSignaled[s.currentFrame] && r.cmdState[s.currentFrame] == Recording
    ensures r.recorded[s.currentFrame] == [SetViewport(extent.width, extent.height), SetScissor(extent)]
    ensures forall i :: 0 <= i < MaxFramesInFlight && i != s.currentFrame ==>
      r.fenceSignaled[i] == s.fenceSignaled[i] && r.cmdState[i] == s.cmdState[i] && r.recorded[i] == s.recorded[i]
  {
    var cur := s.currentFrame;
    s.(fbIndex := imageIndex,
       fenceSignaled := s.fenceSignaled[cur := false],
       cmdState := s.cmdState[cur := Recording],
       recorded := s.recorded[cur := [SetViewport(extent.width, extent.height), SetScissor(extent)]])
  }

  /**
   * The GPU finishes every submission from slot `k` on: each pending command buffer
   * becomes executable and its fence signals.
   */
  function DrainFrom(s: FrameState, k: nat): (r: FrameState)
    requires SlotsValid(s) && k <= MaxFramesInFlight
    ensures SlotsValid(r)
    ensures forall i :: 0 <= i < MaxFramesInFlight ==>
      && r.cmdState[i] == (if k <= i && s.cmdState[i] == Pending then Executable else s.cmdState[i])
      && r.fenceSignaled[i] == (s.fenceSignaled[i] || (k <= i && s.cmdState[i] == Pending))
    ensures r.currentFrame == s.currentFrame && r.fbIndex == s.fbIndex && r.resized == s.resized
    ensures r.recorded == s.recorded
    decreases MaxFramesInFlight - k
  {
    if k == MaxFramesInFlight then s else DrainFrom(Completed(s, k), k + 1)
  }

  /** Draining does not depend on `m_resized`. */
  lemma {:induction false} DrainFromResized(s: FrameState, k: nat, b: bool)
    requires SlotsValid(s) && k <= MaxFramesInFlight
    ensures DrainFrom(s.(resized := b), k) == DrainFrom(s, k).(resized := b)
    decreases MaxFramesInFlight - k
  {
    if k < MaxFramesInFlight {
      assert Completed(s.(resized := b), k) == Completed(s, k).(resized := b);
      DrainFromResized(Completed(s, k), k + 1, b);
    }
  }

  /**
   * The `waitIdle` with which `Swapchain::recreate` starts: once it returns, no command
   * buffer is pending and every fence whose buffer is not being recorded is signaled.
   */
  function Drained(s: FrameState): (r: FrameState)
    requires SlotsValid(s)
    ensures SlotsValid(r)
    ensures forall i :: 0 <= i < MaxFramesInFlight ==>
      r.cmdState[i] != Pending && (r.fenceSignaled[i] <==> r.cmdState[i] != Recording)
    ensures forall i :: 0 <= i < MaxFramesInFlight ==>
      && r.cmdState[i] == (if s.cmdState[i] == Pending then Executable else s.cmdState[i])
      && r.fenceSignaled[i] == (s.fenceSignaled[i] || s.cmdState[i] == Pending)
    ensures r.currentFrame == s.currentFrame && r.fbIndex == s.fbIndex && r.resized == s.resized
    ensures r.recorded == s.recorded
  {
    DrainFrom(s, 0)
  }

  /** `prepareFrameImpl` recreates the swapchain exactly when the acquire reports out-of-date. */
  predicate AcquireRecreates(acquire: AcquireResult) {
    acquire.result == ErrorOutOfDateKhr
  }

  /**
   * `prepareFrameImpl`: wait on the current slot's fence; when `rebuilt` (the acquire
   * asked for a recreate), the recreate's `waitIdle` finishes every other submission;
   * then begin the current slot's frame with the swapchain extent. A slot whose buffer is
   * still being recorded has nothing for its fence to wait on, so the caller must not be
   * mid-frame.
   */
  function Prepared(s: FrameState, imageIndex: u32, extent: Extent2D, rebuilt: bool): (r: FrameState)
    requires SlotsValid(s) && s.cmdState[s.currentFrame] != Recording
    ensures SlotsValid(r)
    ensures r.currentFrame == s.currentFrame && r.fbIndex == imageIndex && r.resized == s.resized
    ensures !r.fenceSignaled[s.currentFrame] && r.cmdState[s.currentFrame] == Recording
    ensures r.recorded[s.currentFrame] == [SetViewport(extent.width, extent.height), SetScissor(extent)]
    ensures forall i :: 0 <= i < MaxFramesInFlight && i != s.currentFrame ==> r.recorded[i] == s.recorded[i]
    ensures !rebuilt ==> forall i :: 0 <= i < MaxFramesInFlight && i != s.currentFrame ==>
      r.fenceSignaled[i] == s.fenceSignaled[i] && r.cmdState[i] == s.cmdState[i]
    ensures rebuilt ==> forall i :: 0 <= i < MaxFramesInFlight && i != s.currentFrame ==>
      && r.cmdState[i] == (if s.cmdState[i] == Pending then Executable else s.cmdState[i])
      && r.fenceSignaled[i] == (s.fenceSignaled[i] || s.cmdState[i] == Pending)
  {
    var w := Waited(s);
    Begun(if rebuilt then Drained(w) else w, imageIndex, extent)
  }

  /** One command recorded into the current slot's command buffer. */
  function Recorded(s: FrameState, c: Command): (r: FrameState)
    requires SlotsValid(s) && s.cmdState[s.currentFrame] == Recording
    ensures SlotsValid(r) && r.cmdState == s.cmdState && r.fenceSignaled == s.fenceSignaled
    ensures r.recorded[s.currentFrame] == s.recorded[s.currentFrame] + [c]
  {
    s.(recorded := s.recorded[s.currentFrame := s.recorded[s.currentFrame] + [c]])
  }

  /** Commands recorded one after the other into the current slot. */
  function RecordAll(s: FrameState, cmds: seq<Command>): (r: FrameState)
    requires SlotsValid(s) && s.cmdState[s.currentFrame] == Recording
    ensures SlotsValid(r) && r.cmdState == s.cmdState && r.fenceSignaled == s.fenceSignaled
    ensures r.currentFrame == s.currentFrame && r.fbIndex == s.fbIndex && r.resized == s.resized
    ensures r.recorded[s.currentFrame] == s.recorded[s.currentFrame] + cmds
    ensures forall i :: 0 <= i < MaxFramesInFlight && i != s.currentFrame ==> r.recorded[i] == s.recorded[i]
    decreases |cmds|
  {
    if cmds == [] then s
    else
      var r := RecordAll(Recorded(s, cmds[0]), cmds[1..]);
      assert s.recorded[s.currentFrame] + [cmds[0]] + cmds[1..] == s.recorded[s.currentFrame] + cmds;
      r
  }

  /** Recording a sequence and then one more command is recording the extended sequence. */
  lemma RecordAllSnoc(s: FrameState, cmds: seq<Command>, c: Command)
    requires SlotsValid(s) && s.cmdState[s.currentFrame] == Recording
    ensures RecordAll(s, cmds + [c]) == Recorded(RecordAll(s, cmds), c)
  {
    var a := RecordAll(s, cmds + [c]);
    var b := Recorded(RecordAll(s, cmds), c);
    assert a.recorded[s.currentFrame] == b.recorded[s.currentFrame];
    assert forall i :: 0 <= i < MaxFramesInFlight ==> a.recorded[i] == b.recorded[i];
    assert a.recorded == b.recorded;
  }

  /** Recording two sequences one after the other is recording their concatenation. */
  lemma {:induction false} RecordAllAppend(s: FrameState, a: seq<Command>, b: seq<Command>)
    requires SlotsValid(s) && s.cmdState[s.currentFrame] == Recording
    ensures RecordAll(s, a + b) == RecordAll(RecordAll(s, a), b)
    decreases |a|
  {
    if a == [] {
      assert a + b == b;
    } else {
      assert (a + b)[0] == a[0] && (a + b)[1..] == a[1..] + b;
      RecordAllAppend(Recorded(s, a[0]), a[1..], b);
    }
  }

  /** `endFrameImpl` recreates the swapchain exactly when present threw out-of-date, returned suboptimal, or a resize is pending. */
  predicate EndRecreates(present: PresentOutcome, resized: bool) {
    present.ThrewOutOfDate? || present == Presented(SuboptimalKhr) || resized
  }

  /**
   * `endFrameImpl`: end and submit the current slot's command buffer (it is now executing
   * and its fence signals when it finishes), present, and advance to the next slot. On
   * the recreate branch `m_resized` is cleared and the recreate's `waitIdle` finishes
   * every submission, the one just made included.
   */
  function Ended(s: FrameState, present: PresentOutcome): (r: FrameState)
    requires SlotsValid(s) && s.cmdState[s.currentFrame] == Recording
    ensures Idle(r)
    ensures r.currentFrame == (s.currentFrame + 1) % MaxFramesInFlight
    ensures !r.resized
    ensures r.fbIndex == s.fbIndex && r.recorded == s.recorded
    ensures !EndRecreates(present, s.resized) ==>
      && r.cmdState[s.currentFrame] == Pending && !r.fenceSignaled[s.currentFrame]
      && r.fenceSignaled == s.fenceSignaled
      && forall i :: 0 <= i < MaxFramesInFlight && i != s.currentFrame ==> r.cmdState[i] == s.cmdState[i]
    ensures EndRecreates(present, s.resized) ==>
      && r.cmdState[s.currentFrame] == Executable
      && (forall i :: 0 <= i < MaxFramesInFlight ==> r.fenceSignaled[i] && r.cmdState[i] != Pending)
      && forall i :: 0 <= i < MaxFramesInFlight && i != s.currentFrame ==>
           r.cmdState[i] == (if s.cmdState[i] == Pending then Executable else s.cmdState[i])
  {
    var cur := s.currentFrame;
    var submitted := s.(cmdState := s.cmdState[cur := Pending]);
    var recreates := EndRecreates(present, s.resized);
    var presented := if recreates then Drained(submitted) else submitted;
    presented.(resized := if recreates then false else s.resized,
               currentFrame := (cur + 1) % MaxFramesInFlight)
  }

  /** The environment of one frame: GPU completions before it, then acquire, commands and present. */
  datatype FrameInput = FrameInput(
    completions: seq<nat>,
    acquire: AcquireResult,
    extent: Extent2D,
    commands: seq<Command>,
    present: PresentOutcome)

  function CompleteAll(s: FrameState, slots: seq<nat>): (r: FrameState)
    requires SlotsValid(s)
    requires forall j :: 0 <= j < |slots| ==> slots[j] < MaxFramesInFlight
    ensures SlotsValid(r) && r.currentFrame == s.currentFrame && r.resized == s.resized
    ensures forall i :: 0 <= i < MaxFramesInFlight ==> (r.cmdState[i] == Recording <==> s.cmdState[i] == Recording)
    ensures slots == [] ==> r == s
    decreases |slots|
  {
    if slots == [] then s else CompleteAll(Completed(s, slots[0]), slots[1..])
  }

  /** One whole frame: completions, prepare, record, end. */
  function Frame(s: FrameState, f: FrameInput): (r: FrameState)
    requires Idle(s) && CompletionsOk(f)
    ensures Idle(r)
    ensures r.currentFrame == (s.currentFrame + 1) % MaxFramesInFlight
  {
    var c := CompleteAll(s, f.completions);
    Ended(RecordAll(Prepared(c, f.acquire.imageIndex, f.extent, AcquireRecreates(f.acquire)), f.commands), f.present)
  }

  /** Every completion names a slot. */
  predicate CompletionsOk(f: FrameInput) {
    forall j :: 0 <= j < |f.completions| ==> f.completions[j] < MaxFramesInFlight
  }

  predicate InputsOk(inputs: seq<FrameInput>) {
    forall f :: f in inputs ==> CompletionsOk(f)
  }

  /** The slot reached from slot `c` after `n` calls of `endFrame`, one step at a time. */
  function Advance(c: nat, n: nat): nat
    decreases n
  {
    if n == 0 then c else Advance((c + 1) % MaxFramesInFlight, n - 1)
  }

  /**
   * Stepping one slot at a time is adding modulo `maxFramesInFlight`; from slot 0 the
   * slot index alternates 0, 1, 0, ...
   */
  lemma {:induction false} AdvanceRotates(c: nat, n: nat)
    requires c < MaxFramesInFlight
    ensures Advance(c, n) == (c + n) % MaxFramesInFlight
    ensures Advance(c, n) < MaxFramesInFlight
    ensures Advance(0, n) == n % 2
    decreases n
  {
    if n > 0 {
      AdvanceRotates((c + 1) % MaxFramesInFlight, n - 1);
      AdvanceRotates(0, n - 1);
      AdvanceRotates(1, n - 1);
    }
  }

  lemma AdvanceStep(c: nat, next: nat, n: nat)
    requires n > 0 && next == (c + 1) % MaxFramesInFlight
    ensures Advance(c, n) == Advance(next, n - 1)
  {
  }

  /** A run of whole frames; each frame moves on to the next slot. */
  function RunFrames(s: FrameState, inputs: seq<FrameInput>): (r: FrameState)
    requires Idle(s) && InputsOk(inputs)
    ensures Idle(r)
    ensures r.currentFrame == Advance(s.currentFrame, |inputs|)
    decreases |inputs|
  {
    if inputs == [] then s
    else
      assert inputs[0] in inputs;
      assert forall f :: f in inputs[1..] ==> f in inputs;
      var next := Frame(s, inputs[0]);
      AdvanceStep(s.currentFrame, next.currentFrame, |inputs|);
      RunFrames(next, inputs[1..])
  }

  /**
   * Unless the GPU finishes something in between, after two frames the current slot is
   * the one of two frames ago and its submission is still executing. This needs frames
   * that do not recreate the swapchain once the first submission is made (at the first
   * present, the second acquire or the second present), since the recreate's `waitIdle`
   * finishes it.
   */
  lemma {:induction false} InFlightAfterTwoFrames(s: FrameState, f1: FrameInput, f2: FrameInput)
    requires Idle(s) && f1.completions == [] && f2.completions == []
    requires !s.resized && !EndRecreates(f1.present, false)
    requires !AcquireRecreates(f2.acquire) && !EndRecreates(f2.present, false)
    ensures Frame(Frame(s, f1), f2).currentFrame == s.currentFrame
    ensures Frame(Frame(s, f1), f2).cmdState[s.currentFrame] == Pending
    ensures !Frame(Frame(s, f1), f2).fenceSignaled[s.currentFrame]
  {
    var s1 := Frame(s, f1);
    assert s1.cmdState[s.currentFrame] == Pending;
    var s2 := Frame(s1, f2);
    assert s1.currentFrame != s.currentFrame;
  }

  /** A frame that recreates the swapchain at present leaves every submission finished. */
  lemma RecreateAtPresentDrains(s: FrameState, f: FrameInput)
    requires Idle(s) && CompletionsOk(f) && EndRecreates(f.present, s.resized)
    ensures forall i :: 0 <= i < MaxFramesInFlight ==>
      Frame(s, f).cmdState[i] != Pending && Frame(s, f).fenceSignaled[i]
  {
    var c := CompleteAll(s, f.completions);
    var p := RecordAll(Prepared(c, f.acquire.imageIndex, f.extent, AcquireRecreates(f.acquire)), f.commands);
    assert p.resized == s.resized;
  }

  class Renderer {
    /** `m_currentFrame`. */
    var currentFrame: nat
    /** `m_fbIndex`. */
    var fbIndex: u32
    /** `m_resized`. */
    var resized: bool
    /** `m_inFlightFences`, as signaled flags. */
    var fenceSignaled: seq<bool>
    /** `m_commandBuffers`, as lifecycle states and recorded commands. */
    var cmdState: seq<CmdState>
    var recorded: seq<seq<Command>>
    /** `m_imageAvailableSemaphores` and `m_renderFinishedSemaphores`. */
    var imageAvailable: seq<Semaphore>
    var renderFinished: seq<Semaphore>
    /** `m_swapchain`; its depth image is `m_depthImage`. */
    const swapchain: Swapchains.Swapchain

    function State(): FrameState
      reads this
    {
      FrameState(currentFrame, fbIndex, resized, fenceSignaled, cmdState, recorded)
    }

    predicate SyncReady()
      reads this
    {
      && |imageAvailable| == MaxFramesInFlight
      && |renderFinished| == MaxFramesInFlight
      && (forall i :: 0 <= i < MaxFramesInFlight ==>
            imageAvailable[i] == ImageAvailable(i) && renderFinished[i] == RenderFinished(i))
    }

    predicate Valid()
      reads this
    {
      SlotsValid(State()) && SyncReady()
    }

    /** The constructor's part that concerns frames: the header defaults, then `createSyncObjects`. */
    constructor (swapchain: Swapchains.Swapchain)
      ensures this.swapchain == swapchain
      ensures Valid() && State() == InitialFrameState()
    {
      this.swapchain := swapchain;
      currentFrame := 0;
      fbIndex := 0;
      resized := false;
      fenceSignaled := [];
      cmdState := [];
      recorded := [];
      imageAvailable := [];
      renderFinished := [];
      new;
      CreateSyncObjects();
    }

    /**
     * `createSyncObjects`: allocate `maxFramesInFlight` command buffers, size the three
     * vectors to `maxFramesInFlight`, then create each slot's two semaphores and a fence
     * that starts signaled.
     */
    method CreateSyncObjects()
      modifies this`fenceSignaled, this`cmdState, this`recorded, this`imageAvailable, this`renderFinished
      ensures SyncReady()
      ensures fenceSignaled == InitialFrameState().fenceSignaled
      ensures cmdState == InitialFrameState().cmdState && recorded == InitialFrameState().recorded
    {
      cmdState := seq(MaxFramesInFlight, _ => Initial);
      recorded := seq(MaxFramesInFlight, _ => []);
      imageAvailable := seq(MaxFramesInFlight, _ => NullSemaphore);
      renderFinished := seq(MaxFramesInFlight, _ => NullSemaphore);
      fenceSignaled := seq(MaxFramesInFlight, _ => false);
      for i := 0 to MaxFramesInFlight
        invariant |imageAvailable| == MaxFramesInFlight && |renderFinished| == MaxFramesInFlight
        invariant |fenceSignaled| == MaxFramesInFlight
        invariant cmdState == InitialFrameState().cmdState && recorded == InitialFrameState().recorded
        invariant forall k :: 0 <= k < i ==>
          imageAvailable[k] == ImageAvailable(k) && renderFinished[k] == RenderFinished(k) && fenceSignaled[k]
      {
        imageAvailable := imageAvailable[i := ImageAvailable(i)];
        renderFinished := renderFinished[i := RenderFinished(i)];
        fenceSignaled := fenceSignaled[i := true];
      }
    }

    /** `getCurrentFrameIndex`. */
    function CurrentFrameIndex(): (r: nat)
      reads this
      requires Valid()
      ensures r < MaxFramesInFlight
    {
      currentFrame
    }

    /** The GPU finishes executing the submission of `slot`. */
    method GpuComplete(slot: nat)
      requires Valid() && slot < MaxFramesInFlight
      modifies this`fenceSignaled, this`cmdState
      ensures Valid() && State() == Completed(old(State()), slot)
    {
      if cmdState[slot] == Pending {
        fenceSignaled := fenceSignaled[slot := true];
        cmdState := cmdState[slot := Executable];
      }
    }

    /** `waitForFences` on the current slot's fence (with no timeout) returns once the GPU has finished that slot. */
    method WaitForCurrentFence()
      requires Valid() && cmdState[currentFrame] != Recording
      modifies this`fenceSignaled, this`cmdState
      ensures Valid() && State() == Waited(old(State()))
    {
      if !fenceSignaled[currentFrame] {
        GpuComplete(currentFrame);
      }
    }

    /**
     * The `waitIdle` of `Swapchain::recreate` (Swapchain.cpp:93), as it acts on the
     * renderer's slots: every submission finishes.
     */
    method WaitIdle()
      requires Valid()
      modifies this`fenceSignaled, this`cmdState
      ensures Valid() && State() == Drained(old(State()))
    {
      for i := 0 to MaxFramesInFlight
        invariant Valid() && DrainFrom(State(), i) == Drained(old(State()))
      {
        GpuComplete(i);
      }
    }

    /** The part of `prepareFrameImpl` after the acquire: reset the fence and the command buffer, begin, viewport and scissor. */
    method BeginRecording(imageIndex: u32, extent: Extent2D)
      requires Valid() && fenceSignaled[currentFrame]
      modifies this`fbIndex, this`fenceSignaled, this`cmdState, this`recorded
      ensures Valid() && State() == Begun(old(State()), imageIndex, extent)
    {
      var cur := currentFrame;
      fbIndex := imageIndex;
      fenceSignaled := fenceSignaled[cur := false];
      cmdState := cmdState[cur := Initial];
      recorded := recorded[cur := []];
      cmdState := cmdState[cur := Recording];
      recorded := recorded[cur := [SetViewport(extent.width, extent.height), SetScissor(extent)]];
    }

    /**
     * `prepareFrameImpl`. An out-of-date acquire recreates the swapchain once (from `env`),
     * which first waits for the device to be idle; any result other than success or
     * suboptimal is only logged; in every case the fence reset and the recording follow.
     */
    method PrepareFrame(acquire: AcquireResult, env: Swapchains.RecreateEnv) returns (recreated: bool, logged: bool)
      requires Valid() && cmdState[currentFrame] != Recording
      requires acquire.result == ErrorOutOfDateKhr ==> env.Ok()
      modifies this`fbIndex, this`fenceSignaled, this`cmdState, this`recorded, swapchain, swapchain.depthImage
      ensures Valid()
      ensures State() == Prepared(old(State()), acquire.imageIndex, swapchain.extent, recreated)
      ensures recreated <==> AcquireRecreates(acquire)
      ensures logged <==> acquire.result !in {ErrorOutOfDateKhr, Success, SuboptimalKhr}
      ensures recreated ==> swapchain.RebuiltFor(env, old(swapchain.depthImage.view))
      ensures swapchain.renderPass == old(swapchain.renderPass)
      ensures !recreated ==> unchanged(swapchain) && unchanged(swapchain.depthImage)
    {
      WaitForCurrentFence();
      ghost var waited := State();
      if acquire.result == ErrorOutOfDateKhr {
        WaitIdle();
        swapchain.Recreate(env);
        recreated, logged := true, false;
      } else {
        recreated := false;
        logged := acquire.result != Success && acquire.result != SuboptimalKhr;
      }
      assert State() == if recreated then Drained(waited) else waited;
      BeginRecording(acquire.imageIndex, swapchain.extent);
    }

    /** A command recorded into the buffer `prepareFrame` returned. */
    method Record(c: Command)
      requires Valid() && cmdState[currentFrame] == Recording
      modifies this`recorded
      ensures Valid() && State() == Recorded(old(State()), c)
    {
      recorded := recorded[currentFrame := recorded[currentFrame] + [c]];
    }

    /** End the current slot's command buffer and submit it with that slot's semaphores and fence. */
    method SubmitCurrent() returns (submit: SubmitInfo)
      requires Valid() && cmdState[currentFrame] == Recording
      modifies this`cmdState
      ensures cmdState == old(cmdState)[currentFrame := Pending]
      ensures submit == SubmitInfo([ImageAvailable(currentFrame)], [Images.ColorAttachmentOutput],
                                   [RenderFinished(currentFrame)], currentFrame, currentFrame)
    {
      var cur := currentFrame;
      cmdState := cmdState[cur := Executable];
      submit := SubmitInfo([imageAvailable[cur]], [Images.ColorAttachmentOutput], [renderFinished[cur]], cur, cur);
      cmdState := cmdState[cur := Pending];
    }

    /**
     * `endFrameImpl`. Submit and present use only the current slot's objects; the
     * swapchain is recreated exactly when `EndRecreates` holds, and a non-success present
     * result is otherwise only logged.
     */
    method EndFrame(present: PresentOutcome, env: Swapchains.RecreateEnv)
      returns (submit: SubmitInfo, presentInfo: PresentInfo, recreated: bool, logged: bool)
      requires Valid() && cmdState[currentFrame] == Recording
      requires EndRecreates(present, resized) ==> env.Ok()
      modifies this`fenceSignaled, this`cmdState, this`resized, this`currentFrame, swapchain, swapchain.depthImage
      ensures Valid()
      ensures State() == Ended(old(State()), present)
      ensures submit == SubmitInfo([ImageAvailable(old(currentFrame))], [Images.ColorAttachmentOutput],
                                   [RenderFinished(old(currentFrame))], old(currentFrame), old(currentFrame))
      ensures presentInfo == PresentInfo([RenderFinished(old(currentFrame))], old(swapchain.handle), fbIndex)
      ensures recreated <==> EndRecreates(present, old(resized))
      ensures logged <==> !recreated && present.Presented? && present.result != Success
      ensures recreated ==> swapchain.RebuiltFor(env, old(swapchain.depthImage.view))
      ensures swapchain.renderPass == old(swapchain.renderPass)
      ensures !recreated ==> unchanged(swapchain) && unchanged(swapchain.depthImage)
    {
      ghost var expected := Ended(State(), present);
      var cur := currentFrame;
      submit := SubmitCurrent();
      ghost var submitted := State();
      assert submitted == old(State()).(cmdState := old(cmdState)[cur := Pending]);
      presentInfo := PresentInfo(submit.signalSemaphores, swapchain.handle, fbIndex);
      recreated, logged := HandlePresent(present, env);
      ghost var presented := if recreated then Drained(submitted) else submitted;
      assert fenceSignaled == presented.fenceSignaled && cmdState == presented.cmdState;
      currentFrame := (cur + 1) % MaxFramesInFlight;
      assert State() == presented.(resized := resized, currentFrame := currentFrame);
    }

    /**
     * The branch of `endFrameImpl` after `presentKHR`: recreate (clearing `m_resized`, and
     * waiting for the device to be idle first) or log.
     */
    method HandlePresent(present: PresentOutcome, env: Swapchains.RecreateEnv) returns (recreated: bool, logged: bool)
      requires Valid()
      requires EndRecreates(present, resized) ==> env.Ok()
      modifies this`fenceSignaled, this`cmdState, this`resized, swapchain, swapchain.depthImage
      ensures Valid()
      ensures recreated <==> EndRecreates(present, old(resized))
      ensures resized == (old(resized) && !recreated)
      ensures recreated ==> fenceSignaled == Drained(old(State())).fenceSignaled && cmdState == Drained(old(State())).cmdState
      ensures !recreated ==> fenceSignaled == old(fenceSignaled) && cmdState == old(cmdState)
      ensures logged <==> !recreated && present.Presented? && present.result != Success
      ensures recreated ==> swapchain.RebuiltFor(env, old(swapchain.depthImage.view))
      ensures swapchain.renderPass == old(swapchain.renderPass)
      ensures !recreated ==> unchanged(swapchain) && unchanged(swapchain.depthImage)
    {
      var invalidSwapchain := present.ThrewOutOfDate?;
      if invalidSwapchain || present.result == SuboptimalKhr || resized {
        resized := false;
        DrainFromResized(old(State()), 0, false);
        WaitIdle();
        swapchain.Recreate(env);
        recreated, logged := true, false;
      } else {
        recreated := false;
        logged := present.result != Success;
      }
    }

    /** `framebufferResizeCallback`: its only effect is to set `m_resized`. */
    method FramebufferResized()
      modifies this`resized
      ensures State() == old(State()).(resized := true)
      ensures old(Valid()) ==> Valid()
    {
      resized := true;
    }
  }
}
