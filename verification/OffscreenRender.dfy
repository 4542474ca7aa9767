/**
 * The offscreen clear of crates/vulkan_backend: acquire, record, submit, read back, release, with
 * every fallible Vulkan call free to fail, over a device that accepts only valid usage.
 */
module OffscreenRender {
  import opened Common
  import opened VulkanDevice

  datatype VulkanError = DeviceLost | Vulkan | NoSuitableDevice | InvalidDimensions

  datatype Outcome<+T> = Fine(value: T) | Fails(error: VulkanError)

  function FromVk(r: VkResult): VulkanError {
    if r == ErrorDeviceLost then DeviceLost else Vulkan
  }

  // ---------- Memory types ----------

  /** Bit masks are the sets of their bits. */
  ghost predicate Suits(types: seq<set<MemoryFlag>>, typeBits: set<nat>, required: set<MemoryFlag>, i: nat) {
    i < |types| && i in typeBits && required <= types[i]
  }

  function FindFrom(types: seq<set<MemoryFlag>>, typeBits: set<nat>, required: set<MemoryFlag>, i: nat): Option<nat>
    requires i <= |types|
    decreases |types| - i
  {
    if i == |types| then None
    else if i in typeBits && required <= types[i] then Some(i)
    else FindFrom(types, typeBits, required, i + 1)
  }

  function FindMemoryType(types: seq<set<MemoryFlag>>, typeBits: set<nat>, required: set<MemoryFlag>): Option<nat> {
    FindFrom(types, typeBits, required, 0)
  }

  lemma {:induction false} FindFromIsLeast(types: seq<set<MemoryFlag>>, typeBits: set<nat>, required: set<MemoryFlag>, i: nat)
    requires i <= |types|
    ensures match FindFrom(types, typeBits, required, i)
            case None => forall j: nat :: j >= i ==> !Suits(types, typeBits, required, j)
            case Some(k) => k >= i && Suits(types, typeBits, required, k)
                            && forall j: nat :: i <= j < k ==> !Suits(types, typeBits, required, j)
    decreases |types| - i
  {
    if i < |types| {
      FindFromIsLeast(types, typeBits, required, i + 1);
    }
  }

  /** The chosen memory type is the least one that suits, and none is chosen only if none suits. */
  lemma MemoryTypeIsLeast(types: seq<set<MemoryFlag>>, typeBits: set<nat>, required: set<MemoryFlag>)
    ensures match FindMemoryType(types, typeBits, required)
            case None => forall j: nat :: !Suits(types, typeBits, required, j)
            case Some(k) => Suits(types, typeBits, required, k) && forall j: nat :: j < k ==> !Suits(types, typeBits, required, j)
  {
    FindFromIsLeast(types, typeBits, required, 0);
  }

  // ---------- The render ----------

  /** How each fallible call ends, and what the device says it needs. */
  datatype Calls = Calls(
    createImage: VkResult, imageBits: set<nat>, allocateImage: VkResult, bindImage: VkResult,
    createBuffer: VkResult, bufferBits: set<nat>, allocateBuffer: VkResult, bindBuffer: VkResult,
    createPool: VkResult, allocateCommands: VkResult, begin: VkResult, end: VkResult,
    createFence: VkResult, submit: VkResult, wait: VkResult, map_: VkResult)

  function Check(r: VkResult): Option<VulkanError> {
    if r == Success then None else Some(FromVk(r))
  }

  function CheckType(t: Option<nat>): Option<VulkanError> {
    if t.Some? then None else Some(NoSuitableDevice)
  }

  const IMAGE_MEMORY: set<MemoryFlag> := {DEVICE_LOCAL}
  const BUFFER_MEMORY: set<MemoryFlag> := {HOST_VISIBLE, HOST_COHERENT}

  /** `checks` lists the fallible steps in the order they are taken, each with how it fails if it does. */
  ghost predicate Lists(checks: seq<Option<VulkanError>>, c: Calls, types: seq<set<MemoryFlag>>) {
    && |checks| == 16
    && checks[0] == Check(c.createImage)
    && checks[1] == CheckType(FindMemoryType(types, c.imageBits, IMAGE_MEMORY))
    && checks[2] == Check(c.allocateImage)
    && checks[3] == Check(c.bindImage)
    && checks[4] == Check(c.createBuffer)
    && checks[5] == CheckType(FindMemoryType(types, c.bufferBits, BUFFER_MEMORY))
    && checks[6] == Check(c.allocateBuffer)
    && checks[7] == Check(c.bindBuffer)
    && checks[8] == Check(c.createPool)
    && checks[9] == Check(c.allocateCommands)
    && checks[10] == Check(c.begin)
    && checks[11] == Check(c.end)
    && checks[12] == Check(c.createFence)
    && checks[13] == Check(c.submit)
    && checks[14] == Check(c.wait)
    && checks[15] == Check(c.map_)
  }

  ghost function Checks(c: Calls, types: seq<set<MemoryFlag>>): (checks: seq<Option<VulkanError>>)
    ensures Lists(checks, c, types)
  {
    [Check(c.createImage), CheckType(FindMemoryType(types, c.imageBits, IMAGE_MEMORY)), Check(c.allocateImage),
     Check(c.bindImage), Check(c.createBuffer), CheckType(FindMemoryType(types, c.bufferBits, BUFFER_MEMORY)),
     Check(c.allocateBuffer), Check(c.bindBuffer), Check(c.createPool), Check(c.allocateCommands), Check(c.begin),
     Check(c.end), Check(c.createFence), Check(c.submit), Check(c.wait), Check(c.map_)]
  }

  ghost function FirstFrom(checks: seq<Option<VulkanError>>, from: nat): (k: nat)
    requires from <= |checks|
    ensures from <= k <= |checks| && (k < |checks| ==> checks[k].Some?)
    decreases |checks| - from
  {
    if from == |checks| || checks[from].Some? then from else FirstFrom(checks, from + 1)
  }

  /** The first step that fails; the number of steps if none does. */
  ghost function FirstFailure(checks: seq<Option<VulkanError>>): (k: nat)
    ensures k <= |checks| && (k < |checks| ==> checks[k].Some?)
  {
    FirstFrom(checks, 0)
  }

  lemma {:induction false} NothingFailsBeforeFrom(checks: seq<Option<VulkanError>>, from: nat, j: nat)
    requires from <= |checks| && from <= j < FirstFrom(checks, from)
    ensures checks[j].None?
    decreases j - from
  {
    if from < j {
      NothingFailsBeforeFrom(checks, from + 1, j);
    }
  }

  /** Every step before the first failure succeeds. */
  lemma NothingFailsBefore(checks: seq<Option<VulkanError>>)
    ensures forall j: nat :: j < FirstFailure(checks) ==> checks[j].None?
  {
    forall j: nat | j < FirstFailure(checks) ensures checks[j].None? {
      NothingFailsBeforeFrom(checks, 0, j);
    }
  }

  /** Having passed the steps before k, step k is the first failure exactly if it fails. */
  lemma AtStep(checks: seq<Option<VulkanError>>, k: nat)
    requires k < |checks| && k <= FirstFailure(checks)
    ensures FirstFailure(checks) == k <==> checks[k].Some?
  {
    NothingFailsBefore(checks);
  }

  ghost function FirstError(checks: seq<Option<VulkanError>>): Option<VulkanError> {
    if FirstFailure(checks) < |checks| then checks[FirstFailure(checks)] else None
  }

  ghost function FirstOf3(a: Option<VulkanError>, b: Option<VulkanError>, c: Option<VulkanError>): Option<VulkanError> {
    if a.Some? then a else if b.Some? then b else c
  }

  ghost function Or(a: Option<VulkanError>, b: Option<VulkanError>): Option<VulkanError> {
    if a.Some? then a else b
  }

  lemma ThreeSteps(checks: seq<Option<VulkanError>>, k: nat)
    requires k + 3 <= |checks| && k <= FirstFailure(checks)
    ensures FirstFailure(checks) >= k + 3 <==> FirstOf3(checks[k], checks[k + 1], checks[k + 2]).None?
    ensures FirstFailure(checks) < k + 3 ==> FirstError(checks) == FirstOf3(checks[k], checks[k + 1], checks[k + 2])
  {
    AtStep(checks, k);
    if checks[k].None? {
      AtStep(checks, k + 1);
      if checks[k + 1].None? {
        AtStep(checks, k + 2);
      }
    }
  }

  /** How the steps of each part fail. */
  ghost function FenceError(c: Calls): Option<VulkanError> {
    Or(Check(c.createFence), FirstOf3(Check(c.submit), Check(c.wait), Check(c.map_)))
  }

  ghost function CommandError(c: Calls): Option<VulkanError> {
    Or(Check(c.createPool), Or(FirstOf3(Check(c.allocateCommands), Check(c.begin), Check(c.end)), FenceError(c)))
  }

  ghost function BufferError(c: Calls, types: seq<set<MemoryFlag>>): Option<VulkanError> {
    var back := FirstOf3(CheckType(FindMemoryType(types, c.bufferBits, BUFFER_MEMORY)), Check(c.allocateBuffer), Check(c.bindBuffer));
    Or(Check(c.createBuffer), Or(back, CommandError(c)))
  }

  ghost predicate Commanded(c: Calls) {
    Or(Check(c.createPool), FirstOf3(Check(c.allocateCommands), Check(c.begin), Check(c.end))).None?
  }

  ghost predicate Buffered(c: Calls, types: seq<set<MemoryFlag>>) {
    Or(Check(c.createBuffer),
       FirstOf3(CheckType(FindMemoryType(types, c.bufferBits, BUFFER_MEMORY)), Check(c.allocateBuffer), Check(c.bindBuffer))).None?
  }

  /** The fence wait is reached. */
  ghost predicate Awaited(c: Calls, types: seq<set<MemoryFlag>>) {
    Buffered(c, types) && Commanded(c) && c.createFence == Success && c.submit == Success
  }

  lemma FenceSteps(checks: seq<Option<VulkanError>>, c: Calls, types: seq<set<MemoryFlag>>)
    requires Lists(checks, c, types) && FirstFailure(checks) >= 12
    ensures FirstError(checks) == FenceError(c)
    ensures FirstFailure(checks) >= 14 <==> c.createFence == Success && c.submit == Success
    ensures FirstFailure(checks) >= 15 <==> c.createFence == Success && c.submit == Success && c.wait == Success
  {
    AtStep(checks, 12);
    if c.createFence == Success {
      AtStep(checks, 13);
      if c.submit == Success {
        AtStep(checks, 14);
        if c.wait == Success {
          AtStep(checks, 15);
        }
      }
    }
  }

  lemma CommandSteps(checks: seq<Option<VulkanError>>, c: Calls, types: seq<set<MemoryFlag>>)
    requires Lists(checks, c, types) && FirstFailure(checks) >= 8
    ensures FirstError(checks) == CommandError(c) && (FirstFailure(checks) >= 12 <==> Commanded(c))
  {
    AtStep(checks, 8);
    if c.createPool == Success {
      ThreeSteps(checks, 9);
      if FirstFailure(checks) >= 12 {
        FenceSteps(checks, c, types);
      }
    }
  }

  lemma BufferSteps(checks: seq<Option<VulkanError>>, c: Calls, types: seq<set<MemoryFlag>>)
    requires Lists(checks, c, types) && FirstFailure(checks) >= 4
    ensures FirstError(checks) == BufferError(c, types) && (FirstFailure(checks) >= 8 <==> Buffered(c, types))
  {
    AtStep(checks, 4);
    if c.createBuffer == Success {
      ThreeSteps(checks, 5);
      if FirstFailure(checks) >= 8 {
        CommandSteps(checks, c, types);
      }
    }
  }

  ghost function RenderError(c: Calls, types: seq<set<MemoryFlag>>): Option<VulkanError> {
    var back := FirstOf3(CheckType(FindMemoryType(types, c.imageBits, IMAGE_MEMORY)), Check(c.allocateImage), Check(c.bindImage));
    Or(Check(c.createImage), Or(back, BufferError(c, types)))
  }

  ghost predicate Imaged(c: Calls, types: seq<set<MemoryFlag>>) {
    Or(Check(c.createImage),
       FirstOf3(CheckType(FindMemoryType(types, c.imageBits, IMAGE_MEMORY)), Check(c.allocateImage), Check(c.bindImage))).None?
  }

  /** The parts together fail as the first failing step does. */
  lemma RenderErrorIsFirst(checks: seq<Option<VulkanError>>, c: Calls, types: seq<set<MemoryFlag>>)
    requires Lists(checks, c, types)
    ensures RenderError(c, types) == FirstError(checks)
    ensures Imaged(c, types) && Awaited(c, types) <==> FirstFailure(checks) >= 14
    ensures Imaged(c, types) && Awaited(c, types) && c.wait == Success <==> FirstFailure(checks) >= 15
  {
    AtStep(checks, 0);
    if c.createImage == Success {
      ThreeSteps(checks, 1);
      if FirstFailure(checks) >= 4 {
        BufferSteps(checks, c, types);
        if FirstFailure(checks) >= 8 {
          CommandSteps(checks, c, types);
          if FirstFailure(checks) >= 12 {
            FenceSteps(checks, c, types);
          }
        }
      }
    }
  }

  ghost function ErrorOf<T>(r: Outcome<T>): Option<VulkanError> {
    if r.Fails? then Some(r.error) else None
  }

  /** `width * height * 4` in 64 bits: the code's buffer size. */
  function BufferSize(width: u32, height: u32): u64 {
    Wrap(Wrap(width * height) * 4)
  }

  lemma PixelsFit(width: nat, height: nat)
    requires width <= 0xFFFF_FFFF && height <= 0xFFFF_FFFF
    ensures 0 <= width * height <= 0xFFFF_FFFE_0000_0001
  {
    var w, h := 0xFFFF_FFFF - width, 0xFFFF_FFFF - height;
    assert width * h >= 0;
  }

  lemma FourTimesWraps(pixels: u64)
    ensures Wrap(pixels * 4) >= 4 * pixels <==> 4 * pixels < 0x1_0000_0000_0000_0000
    ensures 4 * pixels < 0x1_0000_0000_0000_0000 ==> Wrap(pixels * 4) == 4 * pixels
  {
  }

  /** The buffer holds the whole image exactly when its byte count fits in 64 bits. */
  lemma BufferCoversImageIff(width: u32, height: u32)
    ensures BufferSize(width, height) >= 4 * (width * height) <==> 4 * (width * height) < 0x1_0000_0000_0000_0000
    ensures 4 * (width * height) < 0x1_0000_0000_0000_0000 ==> BufferSize(width, height) == 4 * (width * height)
  {
    PixelsFit(width, height);
    FourTimesWraps(width * height);
  }

  /** An object of this kind is bound to memory of the least type that suits it. */
  ghost predicate BackedByLeast(device: VkDevice, h: Handle, kind: Kind, typeBits: set<nat>, required: set<MemoryFlag>)
    reads device`backing, device`typeOf
  {
    && h.kind == kind && h in device.backing && device.backing[h] in device.typeOf
    && FindMemoryType(device.types, typeBits, required) == Some(device.typeOf[device.backing[h]])
  }

  /** Memory for a new image or buffer: find a type, allocate, bind; what fails takes the object with it. */
  method Back(
      device: VkDevice, h: Handle, typeBits: set<nat>, required: set<MemoryFlag>, allocate: VkResult, bind: VkResult)
    returns (e: Option<VulkanError>, memory: Handle)
    requires device.Valid() && device.alive && device.awaited == None && h in device.live && h !in device.backing
    requires device.commands == Unborn
    modifies device`next, device`live, device`created, device`destroyed, device`misused, device`typeOf, device`backing
    modifies device`commands
    ensures device.Valid() && device.misused == old(device.misused) && device.commands == Unborn
    ensures e == FirstOf3(CheckType(FindMemoryType(device.types, typeBits, required)), Check(allocate), Check(bind))
    ensures e.Some? ==> device.live == old(device.live) - {h} && device.backing == old(device.backing)
    ensures e.None? ==> memory.kind == MEMORY && memory !in old(device.created) && device.live == old(device.live) + {memory}
    ensures e.None? ==> BackedByLeast(device, h, h.kind, typeBits, required)
    ensures e.None? ==> device.backing == old(device.backing)[h := memory]
    ensures e.None? ==> device.typeOf[memory] < |device.types| && required <= device.types[device.typeOf[memory]]
    ensures forall m :: m in old(device.created) && m in old(device.typeOf) ==>
              m in device.typeOf && device.typeOf[m] == old(device.typeOf)[m]
  {
    MemoryTypeIsLeast(device.types, typeBits, required);
    var found := FindMemoryType(device.types, typeBits, required);
    if found.None? {
      device.Destroy(h);
      return Some(NoSuitableDevice), h;
    }
    memory := device.AllocateMemory(found.value, allocate);
    if allocate != Success {
      device.Destroy(h);
      return Some(FromVk(allocate)), h;
    }
    device.BindMemory(h, memory, typeBits, bind);
    if bind != Success {
      device.Destroy(memory);
      device.Destroy(h);
      return Some(FromVk(bind)), h;
    }
    return None, memory;
  }

  /** Image and buffer are live, and so is the memory behind each. */
  ghost predicate Drawable(device: VkDevice, image: Handle, buffer: Handle)
    reads device`live, device`backing, device`extents, device`sizes
  {
    && image in device.backing && buffer in device.backing && image in device.extents && buffer in device.sizes
    && {image, device.backing[image], buffer, device.backing[buffer]} <= device.live
  }

  /** A command buffer, recorded: begin, clear and copy between their layout transitions, end. */
  method RecordClear(device: VkDevice, pool: Handle, image: Handle, buffer: Handle, color: Color, c: Calls)
    returns (e: Option<VulkanError>)
    requires device.alive && device.commands == Unborn && pool in device.live && pool.kind == POOL
    requires Drawable(device, image, buffer) && RENDER_QUEUE <= device.queue
    modifies device`commands
    ensures e == FirstOf3(Check(c.allocateCommands), Check(c.begin), Check(c.end))
    ensures e.None? ==> device.Submittable() && device.commands.pool == pool
    ensures e.None? ==> device.commands.uses == {image, device.backing[image], buffer, device.backing[buffer]}
    ensures e.None? ==> device.Copies(image, buffer, TexelOf(color, device.channel))
  {
    device.AllocateCommandBuffer(pool, c.allocateCommands);
    if c.allocateCommands != Success {
      return Some(FromVk(c.allocateCommands));
    }
    device.Begin(c.begin);
    if c.begin != Success {
      return Some(FromVk(c.begin));
    }
    RunOneMore([], LayoutBarrier(image, Undefined, TransferDst), device.channel);
    device.Record(LayoutBarrier(image, Undefined, TransferDst));
    RunOneMore(device.commands.cmds, ClearColor(image, TransferDst, color), device.channel);
    device.Record(ClearColor(image, TransferDst, color));
    RunOneMore(device.commands.cmds, LayoutBarrier(image, TransferDst, TransferSrc), device.channel);
    device.Record(LayoutBarrier(image, TransferDst, TransferSrc));
    RunOneMore(device.commands.cmds, CopyToBuffer(image, TransferSrc, buffer), device.channel);
    device.Record(CopyToBuffer(image, TransferSrc, buffer));
    device.End(c.end);
    return Check(c.end);
  }

  method CleanupImage(device: VkDevice, image: Handle, memory: Handle)
    requires device.Valid() && device.alive && image in device.live && memory in device.live && image != memory
    modifies device`live, device`destroyed, device`misused, device`commands
    ensures device.Valid() && device.live == old(device.live) - {image, memory}
    ensures device.misused == (old(device.misused) || device.awaited.Some?)
  {
    device.Destroy(image);
    device.Destroy(memory);
  }

  method CleanupBuffer(device: VkDevice, buffer: Handle, memory: Handle)
    requires device.Valid() && device.alive && buffer in device.live && memory in device.live && buffer != memory
    modifies device`live, device`destroyed, device`misused, device`commands
    ensures device.Valid() && device.live == old(device.live) - {buffer, memory}
    ensures device.misused == (old(device.misused) || device.awaited.Some?)
  {
    device.Destroy(buffer);
    device.Destroy(memory);
  }

  /** Submit, wait, map, copy out, unmap: what is read is the memory behind the buffer copied to. */
  method SubmitAndRead(
      device: VkDevice, fence: Handle, memory: Handle, c: Calls, ghost image: Handle, ghost buffer: Handle, ghost texel: seq<u8>)
    returns (r: Outcome<seq<u8>>)
    requires device.alive && fence in device.live && fence.kind == FENCE && device.HostReadable(memory)
    requires device.awaited == None && device.mapped == None && device.Submittable()
    requires device.Copies(image, buffer, texel) && memory == device.backing[buffer]
    modifies device`awaited, device`contents, device`overrun, device`mapped
    ensures device.mapped == None
    ensures device.awaited.Some? <==> c.submit == Success && c.wait == OtherError
    ensures device.overrun == (old(device.overrun) || (c.submit == Success && c.wait == Success
                                                       && 4 * device.extents[image] > device.sizes[buffer]))
    ensures ErrorOf(r) == FirstOf3(Check(c.submit), Check(c.wait), Check(c.map_))
    ensures r.Fine? ==> |r.value| == device.sizes[buffer]
    ensures r.Fine? && 4 * device.extents[image] == device.sizes[buffer] ==> r.value == Repeat(texel, device.extents[image])
  {
    device.QueueSubmit(fence, c.submit);
    if c.submit != Success {
      return Fails(FromVk(c.submit));
    }
    device.WaitForFence(fence, image, buffer, texel, c.wait);
    if c.wait != Success {
      return Fails(FromVk(c.wait));
    }
    var data := device.MapMemory(memory, c.map_);
    if c.map_ != Success {
      return Fails(FromVk(c.map_));
    }
    device.UnmapMemory(memory);
    return Fine(data);
  }

  /** The fence's whole life; it is destroyed however the submission ended. */
  method SubmitUnderFence(
      device: VkDevice, memory: Handle, c: Calls, ghost image: Handle, ghost buffer: Handle, ghost texel: seq<u8>)
    returns (r: Outcome<seq<u8>>)
    requires device.Valid() && device.alive && device.HostReadable(memory)
    requires device.awaited == None && device.mapped == None && device.Submittable()
    requires device.Copies(image, buffer, texel) && memory == device.backing[buffer]
    modifies device`next, device`live, device`created, device`destroyed, device`misused, device`commands
    modifies device`awaited, device`contents, device`overrun, device`mapped
    ensures device.Valid() && device.live == old(device.live)
    ensures device.awaited.Some? <==> c.createFence == Success && c.submit == Success && c.wait == OtherError
    ensures device.misused == (old(device.misused) || device.awaited.Some?)
    ensures device.overrun == (old(device.overrun) || (c.createFence == Success && c.submit == Success && c.wait == Success
                                                       && 4 * device.extents[image] > device.sizes[buffer]))
    ensures ErrorOf(r) == FenceError(c)
    ensures r.Fine? ==> |r.value| == device.sizes[buffer]
    ensures r.Fine? && 4 * device.extents[image] == device.sizes[buffer] ==> r.value == Repeat(texel, device.extents[image])
  {
    var fence := device.Create(FENCE, c.createFence);
    if c.createFence != Success {
      return Fails(FromVk(c.createFence));
    }
    r := SubmitAndRead(device, fence, memory, c, image, buffer, texel);
    device.Destroy(fence);
  }

  ghost predicate Recorded(c: Calls) {
    c.allocateCommands == Success && c.begin == Success && c.end == Success
  }

  /** Record, submit and read, under a pool that stays. */
  method RecordAndSubmit(
      device: VkDevice, pool: Handle, image: Handle, buffer: Handle, memory: Handle, color: Color, c: Calls)
    returns (r: Outcome<seq<u8>>)
    requires device.Valid() && device.alive && device.commands == Unborn && RENDER_QUEUE <= device.queue
    requires pool in device.live && pool.kind == POOL
    requires Drawable(device, image, buffer) && memory == device.backing[buffer] && device.HostReadable(memory)
    requires device.awaited == None && device.mapped == None && !device.misused && !device.overrun
    modifies device`next, device`live, device`created, device`destroyed, device`misused
    modifies device`commands, device`awaited, device`contents, device`overrun, device`mapped
    ensures device.Valid() && device.live == old(device.live)
    ensures ErrorOf(r) == Or(FirstOf3(Check(c.allocateCommands), Check(c.begin), Check(c.end)), FenceError(c))
    ensures device.awaited.Some? <==> Recorded(c) && c.createFence == Success && c.submit == Success && c.wait == OtherError
    ensures device.misused <==> device.awaited.Some?
    ensures device.overrun <==>
            Recorded(c) && c.createFence == Success && c.submit == Success && c.wait == Success
            && 4 * device.extents[image] > device.sizes[buffer]
    ensures r.Fine? ==> |r.value| == device.sizes[buffer]
    ensures r.Fine? && 4 * device.extents[image] == device.sizes[buffer] ==>
              r.value == Repeat(TexelOf(color, device.channel), device.extents[image])
  {
    var recorded := RecordClear(device, pool, image, buffer, color, c);
    if recorded.Some? {
      r := Fails(recorded.value);
    } else {
      r := SubmitUnderFence(device, memory, c, image, buffer, TexelOf(color, device.channel));
    }
  }

  /** The command pool's whole life: record, submit and read under it. */
  method RenderUnderPool(device: VkDevice, image: Handle, buffer: Handle, memory: Handle, color: Color, c: Calls)
    returns (r: Outcome<seq<u8>>)
    requires device.Valid() && device.alive && device.commands == Unborn && RENDER_QUEUE <= device.queue
    requires Drawable(device, image, buffer) && memory == device.backing[buffer] && device.HostReadable(memory)
    requires device.awaited == None && device.mapped == None && !device.misused && !device.overrun
    modifies device`next, device`live, device`created, device`destroyed, device`misused
    modifies device`commands, device`awaited, device`contents, device`overrun, device`mapped
    ensures device.Valid() && device.live == old(device.live)
    ensures ErrorOf(r) == CommandError(c)
    ensures device.awaited.Some? <==> Commanded(c) && c.createFence == Success && c.submit == Success && c.wait == OtherError
    ensures device.misused <==> device.awaited.Some?
    ensures device.overrun <==>
            Commanded(c) && c.createFence == Success && c.submit == Success && c.wait == Success
            && 4 * device.extents[image] > device.sizes[buffer]
    ensures r.Fine? ==> |r.value| == device.sizes[buffer]
    ensures r.Fine? && 4 * device.extents[image] == device.sizes[buffer] ==>
              r.value == Repeat(TexelOf(color, device.channel), device.extents[image])
  {
    var pool := device.Create(POOL, c.createPool);
    if c.createPool != Success {
      return Fails(FromVk(c.createPool));
    }
    r := RecordAndSubmit(device, pool, image, buffer, memory, color, c);
    device.Destroy(pool);
  }

  /** The readback buffer with its memory, or nothing new. */
  method AcquireBuffer(device: VkDevice, size: u64, c: Calls)
    returns (e: Option<VulkanError>, buffer: Handle, memory: Handle)
    requires device.Valid() && device.alive && device.awaited == None && device.commands == Unborn
    requires forall h :: h in device.backing ==> h in device.created
    modifies device`next, device`live, device`created, device`destroyed, device`misused, device`typeOf, device`backing
    modifies device`sizes, device`commands
    ensures device.Valid() && device.misused == old(device.misused) && device.commands == Unborn
    ensures e == Or(Check(c.createBuffer),
                    FirstOf3(CheckType(FindMemoryType(device.types, c.bufferBits, BUFFER_MEMORY)), Check(c.allocateBuffer), Check(c.bindBuffer)))
    ensures e.Some? ==> device.live == old(device.live) && device.backing == old(device.backing)
    ensures e.None? ==> buffer !in old(device.created) && memory !in old(device.created) && memory != buffer
    ensures e.None? ==> device.live == old(device.live) + {buffer, memory}
    ensures e.None? ==> buffer in device.sizes && device.sizes[buffer] == size
    ensures e.None? ==> device.backing == old(device.backing)[buffer := memory]
    ensures e.None? ==> BackedByLeast(device, buffer, BUFFER, c.bufferBits, BUFFER_MEMORY) && device.HostReadable(memory)
    ensures forall m :: m in old(device.created) && m in old(device.typeOf) ==>
              m in device.typeOf && device.typeOf[m] == old(device.typeOf)[m]
  {
    buffer := device.CreateBuffer(size, c.createBuffer);
    if c.createBuffer != Success {
      return Check(c.createBuffer), buffer, buffer;
    }
    e, memory := Back(device, buffer, c.bufferBits, BUFFER_MEMORY, c.allocateBuffer, c.bindBuffer);
  }

  /** The render from the readback buffer on, given the image. */
  method RenderIntoBuffer(
      device: VkDevice, image: Handle, imageMemory: Handle, size: u64, color: Color, c: Calls)
    returns (r: Outcome<seq<u8>>, ghost readback: Handle)
    requires device.Valid() && device.alive && device.live == {image, imageMemory} && image != imageMemory
    requires device.commands == Unborn && device.backing == map[image := imageMemory] && image in device.extents
    requires device.awaited == None && device.mapped == None && !device.misused && !device.overrun
    requires BackedByLeast(device, image, IMAGE, c.imageBits, IMAGE_MEMORY) && RENDER_QUEUE <= device.queue
    modifies device`next, device`live, device`created, device`destroyed, device`misused, device`typeOf, device`backing
    modifies device`sizes, device`commands, device`awaited, device`contents, device`overrun, device`mapped
    ensures device.Valid() && device.live == {}
    ensures ErrorOf(r) == BufferError(c, device.types)
    ensures device.misused <==> Awaited(c, device.types) && c.wait == OtherError
    ensures device.overrun <==> Awaited(c, device.types) && c.wait == Success && 4 * device.extents[image] > size
    ensures r.Fine? ==> |r.value| == size
    ensures r.Fine? && 4 * device.extents[image] == size ==>
              r.value == Repeat(TexelOf(color, device.channel), device.extents[image])
    ensures BackedByLeast(device, image, IMAGE, c.imageBits, IMAGE_MEMORY)
    ensures r.Fine? ==> BackedByLeast(device, readback, BUFFER, c.bufferBits, BUFFER_MEMORY)
  {
    var failed, buffer, bufferMemory := AcquireBuffer(device, size, c);
    readback := buffer;
    if failed.Some? {
      CleanupImage(device, image, imageMemory);
      return Fails(failed.value), readback;
    }
    r := RenderUnderPool(device, image, buffer, bufferMemory, color, c);
    CleanupBuffer(device, buffer, bufferMemory);
    CleanupImage(device, image, imageMemory);
  }

  /** The whole render on a device: image, buffer, commands, fence, and their release. */
  method RenderClearInner(device: VkDevice, width: u32, height: u32, color: Color, c: Calls)
    returns (r: Outcome<seq<u8>>, ghost image: Handle, ghost buffer: Handle)
    requires device.Valid() && device.alive && device.live == {} && device.commands == Unborn
    requires device.awaited == None && device.mapped == None && !device.misused && !device.overrun
    requires device.backing == map[] && RENDER_QUEUE <= device.queue
    modifies device
    ensures device.Valid() && device.alive && device.live == {} && device.destroyed == device.created
    ensures ErrorOf(r) == RenderError(c, device.types)
    ensures device.misused <==> Imaged(c, device.types) && Awaited(c, device.types) && c.wait == OtherError
    ensures device.overrun <==>
            Imaged(c, device.types) && Awaited(c, device.types) && c.wait == Success
            && 4 * (width * height) > BufferSize(width, height)
    ensures r.Fine? ==> |r.value| == BufferSize(width, height)
    ensures r.Fine? && 4 * (width * height) == BufferSize(width, height) ==>
              r.value == Repeat(TexelOf(color, device.channel), width * height)
    ensures r.Fine? ==> BackedByLeast(device, image, IMAGE, c.imageBits, IMAGE_MEMORY)
    ensures r.Fine? ==> BackedByLeast(device, buffer, BUFFER, c.bufferBits, BUFFER_MEMORY)
  {
    var newImage := device.CreateImage(width * height, c.createImage);
    image, buffer := newImage, newImage;
    if c.createImage != Success {
      return Fails(FromVk(c.createImage)), image, buffer;
    }
    var failed, imageMemory := Back(device, newImage, c.imageBits, IMAGE_MEMORY, c.allocateImage, c.bindImage);
    if failed.Some? {
      return Fails(failed.value), image, buffer;
    }
    r, buffer := RenderIntoBuffer(device, newImage, imageMemory, BufferSize(width, height), color, c);
  }

  // ---------- The device around it ----------

  const RENDER_QUEUE: set<QueueFlag> := {GRAPHICS, TRANSFER}

  /** What the instance answers: its devices' queue families, and how its calls end. */
  datatype Instance = Instance(
    enumerate: VkResult, families: seq<seq<set<QueueFlag>>>, extensions: VkResult, createDevice: VkResult)

  ghost predicate HasRenderQueue(i: Instance) {
    i.families != [] && exists q :: 0 <= q < |i.families[0]| && {GRAPHICS, TRANSFER} <= i.families[0][q]
  }

  /** What is checked before a device exists, in order. */
  ghost function EarlyChecks(width: u32, height: u32, i: Instance): (checks: seq<Option<VulkanError>>)
    ensures |checks| == 6
  {
    [if width == 0 || height == 0 then Some(InvalidDimensions) else None,
     Check(i.enumerate),
     if i.families == [] then Some(NoSuitableDevice) else None,
     if HasRenderQueue(i) then None else Some(NoSuitableDevice),
     Check(i.extensions),
     Check(i.createDevice)]
  }

  // ---------- The steps of the whole call, as they come from outside ----------

  /** A step and how it came out: the size asked for, a Vulkan call, a search. */
  datatype Outside = SizeIs(valid: bool) | Called(result: VkResult) | Found(found: bool)

  predicate Failed(o: Outside) {
    match o
    case SizeIs(valid) => !valid
    case Called(result) => result != Success
    case Found(found) => !found
  }

  ghost predicate HasType(types: seq<set<MemoryFlag>>, typeBits: set<nat>, required: set<MemoryFlag>) {
    exists t :: Suits(types, typeBits, required, t)
  }

  ghost function EarlySteps(width: u32, height: u32, i: Instance): (s: seq<Outside>)
    ensures |s| == 6
  {
    [SizeIs(width > 0 && height > 0), Called(i.enumerate), Found(i.families != []), Found(HasRenderQueue(i)),
     Called(i.extensions), Called(i.createDevice)]
  }

  ghost predicate Spells(s: seq<Outside>, types: seq<set<MemoryFlag>>, c: Calls) {
    && |s| == 16
    && s[0] == Called(c.createImage) && s[1] == Found(HasType(types, c.imageBits, {DEVICE_LOCAL}))
    && s[2] == Called(c.allocateImage) && s[3] == Called(c.bindImage)
    && s[4] == Called(c.createBuffer)
    && s[5] == Found(HasType(types, c.bufferBits, {HOST_VISIBLE, HOST_COHERENT}))
    && s[6] == Called(c.allocateBuffer) && s[7] == Called(c.bindBuffer)
    && s[8] == Called(c.createPool) && s[9] == Called(c.allocateCommands)
    && s[10] == Called(c.begin) && s[11] == Called(c.end)
    && s[12] == Called(c.createFence) && s[13] == Called(c.submit) && s[14] == Called(c.wait) && s[15] == Called(c.map_)
  }

  ghost function LateSteps(types: seq<set<MemoryFlag>>, c: Calls): (s: seq<Outside>)
    ensures Spells(s, types, c)
  {
    [Called(c.createImage), Found(HasType(types, c.imageBits, {DEVICE_LOCAL})),
     Called(c.allocateImage), Called(c.bindImage),
     Called(c.createBuffer), Found(HasType(types, c.bufferBits, {HOST_VISIBLE, HOST_COHERENT})),
     Called(c.allocateBuffer), Called(c.bindBuffer),
     Called(c.createPool), Called(c.allocateCommands), Called(c.begin), Called(c.end),
     Called(c.createFence), Called(c.submit), Called(c.wait), Called(c.map_)]
  }

  /** All steps, in the order they are taken: before there is a device, and on it. */
  ghost function AllSteps(width: u32, height: u32, i: Instance, types: seq<set<MemoryFlag>>, c: Calls): seq<Outside> {
    EarlySteps(width, height, i) + LateSteps(types, c)
  }

  /** Step k is the first that fails, and it came out as `o`. */
  ghost predicate FirstToFail(steps: seq<Outside>, k: nat, o: Outside) {
    k < |steps| && steps[k] == o && Failed(o) && forall j :: 0 <= j < k ==> !Failed(steps[j])
  }

  ghost predicate FailsWith(steps: seq<Outside>, o: Outside) {
    exists k: nat :: FirstToFail(steps, k, o)
  }

  /** The check is None when the step does not fail, and otherwise the error the step stands for. */
  ghost predicate Judges(check: Option<VulkanError>, o: Outside) {
    match o
    case SizeIs(valid) => check == if valid then None else Some(InvalidDimensions)
    case Called(Success) => check == None
    case Called(ErrorDeviceLost) => check == Some(DeviceLost)
    case Called(OtherError) => check == Some(Vulkan)
    case Found(found) => check == if found then None else Some(NoSuitableDevice)
  }

  lemma FirstFailureIs(checks: seq<Option<VulkanError>>, k: nat)
    requires k <= |checks| && (k < |checks| ==> checks[k].Some?)
    requires forall j :: 0 <= j < k ==> checks[j].None?
    ensures FirstFailure(checks) == k
  {
    NothingFailsBefore(checks);
  }

  lemma AppendedFailure(early: seq<Option<VulkanError>>, checks: seq<Option<VulkanError>>)
    ensures FirstError(early + checks) == Or(FirstError(early), FirstError(checks))
  {
    NothingFailsBefore(early);
    NothingFailsBefore(checks);
    var k := FirstFailure(early);
    FirstFailureIs(early + checks, if k < |early| then k else |early| + FirstFailure(checks));
  }

  lemma JudgedFailure(checks: seq<Option<VulkanError>>, steps: seq<Outside>)
    requires AllJudge(checks, steps)
    ensures FirstFailure(checks) < |checks| ==> FailsWith(steps, steps[FirstFailure(checks)])
    ensures forall o :: FailsWith(steps, o) ==> FirstFailure(checks) < |checks| && o == steps[FirstFailure(checks)]
  {
    NothingFailsBefore(checks);
    var f := FirstFailure(checks);
    forall j | 0 <= j < |steps| && j <= f ensures Failed(steps[j]) <==> j == f {
      assert Judges(checks[j], steps[j]);
    }
    if f < |checks| {
      assert FirstToFail(steps, f, steps[f]);
    }
  }

  ghost predicate AllJudge(checks: seq<Option<VulkanError>>, steps: seq<Outside>) {
    |checks| == |steps| && forall j :: 0 <= j < |steps| ==> Judges(checks[j], steps[j])
  }

  lemma EarlyJudge(width: u32, height: u32, i: Instance)
    ensures AllJudge(EarlyChecks(width, height, i), EarlySteps(width, height, i))
  {
  }

  lemma CallJudges(result: VkResult)
    ensures Judges(Check(result), Called(result))
  {
  }

  lemma TypeJudges(types: seq<set<MemoryFlag>>, typeBits: set<nat>, required: set<MemoryFlag>)
    ensures Judges(CheckType(FindMemoryType(types, typeBits, required)), Found(HasType(types, typeBits, required)))
  {
    MemoryTypeIsLeast(types, typeBits, required);
  }

  lemma LateJudge(checks: seq<Option<VulkanError>>, steps: seq<Outside>, types: seq<set<MemoryFlag>>, c: Calls)
    requires Lists(checks, c, types) && Spells(steps, types, c)
    ensures AllJudge(checks, steps)
  {
    forall result ensures Judges(Check(result), Called(result)) {
      CallJudges(result);
    }
    TypeJudges(types, c.imageBits, {DEVICE_LOCAL});
    TypeJudges(types, c.bufferBits, {HOST_VISIBLE, HOST_COHERENT});
    forall j | 0 <= j < 16 ensures Judges(checks[j], steps[j]) {
      if j < 4 {
      } else if j < 8 {
      } else if j < 12 {
      }
    }
  }

  /**
   * The error is decided by the first step to fail, as it came from outside: a lost device is a Vulkan
   * call that says so, and any other failing Vulkan call is just that.
   */
  ghost predicate Explains(steps: seq<Outside>, e: Option<VulkanError>) {
    && (e == Some(DeviceLost) <==> FailsWith(steps, Called(ErrorDeviceLost)))
    && (e == Some(Vulkan) <==> FailsWith(steps, Called(OtherError)))
    && (e == Some(NoSuitableDevice) <==> FailsWith(steps, Found(false)))
    && (e == Some(InvalidDimensions) <==> FailsWith(steps, SizeIs(false)))
    && (e == None <==> forall j :: 0 <= j < |steps| ==> !Failed(steps[j]))
  }

  lemma FirstErrorIsExplained(checks: seq<Option<VulkanError>>, steps: seq<Outside>)
    requires AllJudge(checks, steps)
    ensures Explains(steps, FirstError(checks))
  {
    JudgedFailure(checks, steps);
    NothingFailsBefore(checks);
    var f := FirstFailure(checks);
    if f < |steps| {
      assert Judges(checks[f], steps[f]);
      assert FailsWith(steps, steps[f]);
    } else {
      forall j | 0 <= j < |steps| ensures !Failed(steps[j]) {
        assert Judges(checks[j], steps[j]);
      }
    }
  }

  lemma ErrorIsWhatFailed(width: u32, height: u32, i: Instance, types: seq<set<MemoryFlag>>, c: Calls)
    ensures Explains(AllSteps(width, height, i, types, c),
                     Or(FirstError(EarlyChecks(width, height, i)), FirstError(Checks(c, types))))
  {
    var early, checks := EarlyChecks(width, height, i), Checks(c, types);
    EarlyJudge(width, height, i);
    LateJudge(checks, LateSteps(types, c), types, c);
    AppendedFailure(early, checks);
    FirstErrorIsExplained(early + checks, EarlySteps(width, height, i) + LateSteps(types, c));
  }

  /** `Iterator::position`: the first family that offers all that is required. */
  method FirstFamily(families: seq<set<QueueFlag>>, required: set<QueueFlag>) returns (index: Option<nat>)
    ensures index.None? <==> forall q :: 0 <= q < |families| ==> !(required <= families[q])
    ensures index.Some? ==> index.value < |families| && required <= families[index.value]
                            && forall q :: 0 <= q < index.value ==> !(required <= families[q])
  {
    for q := 0 to |families|
      invariant forall p :: 0 <= p < q ==> !(required <= families[p])
    {
      if required <= families[q] {
        return Some(q);
      }
    }
    return None;
  }

  /** The steps before the device: which family it gets, or how the first failing step fails. */
  method ChooseQueue(instance: Instance, width: u32, height: u32) returns (r: Outcome<nat>)
    ensures ErrorOf(r) == FirstError(EarlyChecks(width, height, instance))
    ensures r.Fine? <==> FirstFailure(EarlyChecks(width, height, instance)) == 6
    ensures r.Fine? ==> width > 0 && height > 0 && instance.families != [] && r.value < |instance.families[0]|
                        && RENDER_QUEUE <= instance.families[0][r.value]
  {
    ghost var early := EarlyChecks(width, height, instance);
    AtStep(early, 0);
    if width == 0 || height == 0 {
      return Fails(InvalidDimensions);
    }
    AtStep(early, 1);
    if instance.enumerate != Success {
      return Fails(FromVk(instance.enumerate));
    }
    AtStep(early, 2);
    if instance.families == [] {
      return Fails(NoSuitableDevice);
    }
    var family := FirstFamily(instance.families[0], RENDER_QUEUE);
    AtStep(early, 3);
    if family.None? {
      return Fails(NoSuitableDevice);
    }
    AtStep(early, 4);
    if instance.extensions != Success {
      return Fails(FromVk(instance.extensions));
    }
    AtStep(early, 5);
    if instance.createDevice != Success {
      return Fails(FromVk(instance.createDevice));
    }
    return Fine(family.value);
  }

  /**
   * A device is made exactly when every earlier check passes, and is then always destroyed, last,
   * with everything created from it destroyed before, once. The error is that of the first failing
   * step of the whole call. Something is destroyed under pending work exactly when the fence wait
   * fails with the device not lost, and the copy runs past the buffer exactly when the image's byte
   * count does not fit in 64 bits; when it fits, a success is the whole image, every texel the
   * converted clear colour. Image and buffer have memory of the least type that suits them. It fails
   * with a lost device iff the first step to fail is a Vulkan call that lost it.
   */
  method RenderClearToOffscreen(
      instance: Instance, types: seq<set<MemoryFlag>>, channel: real -> u8, width: u32, height: u32, color: Color, c: Calls)
    returns (r: Outcome<seq<u8>>, ghost made: Option<VkDevice>)
    ensures made.Some? <==> FirstFailure(EarlyChecks(width, height, instance)) == 6
    ensures made.Some? ==> fresh(made.value) && made.value.Valid() && !made.value.alive
                           && made.value.live == {} && made.value.destroyed == made.value.created
                           && (r.Fine? ==>
                                 && (exists h :: BackedByLeast(made.value, h, IMAGE, c.imageBits, IMAGE_MEMORY))
                                 && (exists h :: BackedByLeast(made.value, h, BUFFER, c.bufferBits, BUFFER_MEMORY)))
                           && (made.value.misused <==> FirstFailure(Checks(c, types)) >= 14 && c.wait == OtherError)
                           && (made.value.overrun <==>
                                 FirstFailure(Checks(c, types)) >= 15 && 4 * (width * height) >= 0x1_0000_0000_0000_0000)
    ensures ErrorOf(r) == FirstError(if made.None? then EarlyChecks(width, height, instance) else Checks(c, types))
    ensures Explains(AllSteps(width, height, instance, types, c), ErrorOf(r))
    ensures r.Fine? ==> width > 0 && height > 0 && |r.value| == BufferSize(width, height)
    ensures r.Fine? && 4 * (width * height) < 0x1_0000_0000_0000_0000 ==>
              r.value == Repeat(TexelOf(color, channel), width * height)
              && FilledWith(r.value, width * height, [channel(color.r), channel(color.g), channel(color.b), channel(color.a)])
  {
    made := None;
    ErrorIsWhatFailed(width, height, instance, types, c);
    var family := ChooseQueue(instance, width, height);
    if family.Fails? {
      return Fails(family.error), made;
    }
    var device := new VkDevice(types, channel, instance.families[0][family.value]);
    made := Some(device);
    RenderErrorIsFirst(Checks(c, types), c, types);
    BufferCoversImageIff(width, height);
    ghost var image, buffer;
    r, image, buffer := RenderClearInner(device, width, height, color, c);
    device.DestroyDevice();
    assert r.Fine? ==> BackedByLeast(device, image, IMAGE, c.imageBits, IMAGE_MEMORY);
    assert r.Fine? ==> BackedByLeast(device, buffer, BUFFER, c.bufferBits, BUFFER_MEMORY);
    if r.Fine? && 4 * (width * height) < 0x1_0000_0000_0000_0000 {
      assert FilledWith(r.value, width * height, [channel(color.r), channel(color.g), channel(color.b), channel(color.a)]) by {
        RepeatedPixels(color, channel, width * height);
      }
    }
  }
}
