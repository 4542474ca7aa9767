/**
 * A Vulkan device that accepts only valid usage: each precondition is a rule of the Vulkan 1.3
 * specification for the call ('Command Buffer Lifecycle', section 6.1; 'Image Layouts', section 12.4),
 * so whatever calls it is proved to keep that rule.
 */
module VulkanDevice {
  import opened Common

  type u8 = x: nat | x < 256

  datatype VkResult = Success | ErrorDeviceLost | OtherError

  datatype MemoryFlag = DEVICE_LOCAL | HOST_VISIBLE | HOST_COHERENT

  datatype QueueFlag = GRAPHICS | COMPUTE | TRANSFER

  datatype Kind = IMAGE | BUFFER | MEMORY | POOL | FENCE

  datatype Handle = Handle(kind: Kind, number: nat)

  // ---------- What recorded commands do ----------

  datatype Color = Color(r: real, g: real, b: real, a: real)

  datatype Layout = Undefined | TransferDst | TransferSrc

  datatype Cmd =
    | LayoutBarrier(image: Handle, oldLayout: Layout, newLayout: Layout)
    | ClearColor(image: Handle, layout: Layout, color: Color)
    | CopyToBuffer(image: Handle, layout: Layout, buffer: Handle)

  /** A whole-image copy, and the texel the image was filled with, if it had a defined one. */
  datatype Copied = Copied(image: Handle, buffer: Handle, texel: Option<seq<u8>>)

  /** Layouts and contents of the images touched so far; a submission here copies once. */
  datatype World = World(layouts: map<Handle, Layout>, texels: map<Handle, seq<u8>>, copied: Option<Copied>)

  const BLANK := World(map[], map[], None)

  /** Conversion of a linear colour to one R8G8B8A8_UNORM texel, for some rounding of a channel. */
  function TexelOf(color: Color, channel: real -> u8): (t: seq<u8>)
    ensures |t| == 4
  {
    [channel(color.r), channel(color.g), channel(color.b), channel(color.a)]
  }

  predicate InLayout(w: World, image: Handle, layout: Layout) {
    image in w.layouts && w.layouts[image] == layout
  }

  /** None when a command names a layout the image is not in, or may not be in for it. */
  function RunCmd(w: World, c: Cmd, channel: real -> u8): Option<World> {
    match c
    case LayoutBarrier(image, from, to) =>
      if from == Undefined then Some(w.(layouts := w.layouts[image := to], texels := w.texels - {image}))
      else if InLayout(w, image, from) then Some(w.(layouts := w.layouts[image := to]))
      else None
    case ClearColor(image, layout, color) =>
      if layout == TransferDst && InLayout(w, image, layout)
      then Some(w.(texels := w.texels[image := TexelOf(color, channel)])) else None
    case CopyToBuffer(image, layout, buffer) =>
      if layout == TransferSrc && InLayout(w, image, layout) && w.copied.None?
      then Some(w.(copied := Some(Copied(image, buffer, if image in w.texels then Some(w.texels[image]) else None))))
      else None
  }

  function RunCmds(cmds: seq<Cmd>, channel: real -> u8): Option<World>
    decreases |cmds|
  {
    if cmds == [] then Some(BLANK)
    else
      match RunCmds(cmds[..|cmds| - 1], channel)
      case None => None
      case Some(w) => RunCmd(w, cmds[|cmds| - 1], channel)
  }

  lemma RunOneMore(cmds: seq<Cmd>, c: Cmd, channel: real -> u8)
    ensures RunCmds(cmds + [c], channel) ==
            match RunCmds(cmds, channel) case None => None case Some(w) => RunCmd(w, c, channel)
  {
    assert (cmds + [c])[..|cmds|] == cmds;
  }

  /** `pixels` copies of a texel. */
  function Repeat(texel: seq<u8>, pixels: nat): seq<u8>
    requires |texel| == 4
  {
    seq(4 * pixels, i requires 0 <= i < 4 * pixels => texel[i % 4])
  }

  /** Pixel p is these four bytes. */
  ghost predicate PixelIs(bytes: seq<u8>, p: nat, texel: seq<u8>) {
    4 * p + 4 <= |bytes| && bytes[4 * p..4 * p + 4] == texel
  }

  ghost predicate FilledWith(bytes: seq<u8>, pixels: nat, texel: seq<u8>) {
    |bytes| == 4 * pixels && forall p: nat :: p < pixels ==> PixelIs(bytes, p, texel)
  }

  /** Filled with one colour, every pixel is its red, green, blue and alpha bytes, in that order. */
  lemma RepeatedPixels(color: Color, channel: real -> u8, pixels: nat)
    ensures FilledWith(Repeat(TexelOf(color, channel), pixels), pixels,
                       [channel(color.r), channel(color.g), channel(color.b), channel(color.a)])
  {
    var bytes := Repeat(TexelOf(color, channel), pixels);
    forall p: nat | p < pixels
      ensures PixelIs(bytes, p, [channel(color.r), channel(color.g), channel(color.b), channel(color.a)])
    {
      assert bytes[4 * p] == channel(color.r) && bytes[4 * p + 1] == channel(color.g);
      assert bytes[4 * p + 2] == channel(color.b) && bytes[4 * p + 3] == channel(color.a);
    }
  }

  /** The images and buffers a command names. */
  function Named(c: Cmd): set<Handle> {
    match c
    case LayoutBarrier(image, _, _) => {image}
    case ClearColor(image, _, _) => {image}
    case CopyToBuffer(image, _, buffer) => {image, buffer}
  }

  /** What a command uses: what it names, and the memory behind. */
  function UsedBy(c: Cmd, backing: map<Handle, Handle>): set<Handle>
    requires Named(c) <= backing.Keys
  {
    match c
    case LayoutBarrier(image, _, _) => {image, backing[image]}
    case ClearColor(image, _, _) => {image, backing[image]}
    case CopyToBuffer(image, _, buffer) => {image, backing[image], buffer, backing[buffer]}
  }

  // ---------- The device ----------

  /** Life cycle of the command buffer, with its pool and all that its commands use. */
  datatype CommandBuffer =
    | Unborn
    | Initial(pool: Handle)
    | Recording(pool: Handle, cmds: seq<Cmd>, uses: set<Handle>)
    | Executable(pool: Handle, cmds: seq<Cmd>, uses: set<Handle>)
    | Invalid

  /** Destroying h frees the command buffer or makes it unusable. */
  predicate DependsOn(b: CommandBuffer, h: Handle) {
    match b
    case Unborn => false
    case Initial(pool) => h == pool
    case Recording(pool, _, uses) => h == pool || h in uses
    case Executable(pool, _, uses) => h == pool || h in uses
    case Invalid => false
  }

  class VkDevice {
    const types: seq<set<MemoryFlag>>
    const channel: real -> u8
    const queue: set<QueueFlag>        // what the device's one queue can do
    var alive: bool
    var next: nat
    var live: set<Handle>
    ghost var created: set<Handle>
    ghost var destroyed: set<Handle>
    var typeOf: map<Handle, nat>       // memory type index of each memory
    var backing: map<Handle, Handle>   // memory bound to each image and buffer
    var extents: map<Handle, nat>      // texels of each image
    var sizes: map<Handle, nat>        // bytes of each buffer
    var commands: CommandBuffer
    var awaited: Option<Handle>        // the fence of the submission that may still be running
    var contents: map<Handle, seq<u8>> // memories that a finished submission has written
    var mapped: Option<Handle>
    ghost var misused: bool            // something was destroyed while work was pending
    ghost var overrun: bool            // a copy went past the end of the buffer

    /** Every handle ever created is live or destroyed, never both. */
    ghost predicate Valid()
      reads this
    {
      && created == live + destroyed && live !! destroyed
      && (forall h :: h in created ==> h.number < next)
    }

    constructor (types: seq<set<MemoryFlag>>, channel: real -> u8, queue: set<QueueFlag>)
      ensures Valid() && alive && live == {} && created == {}
      ensures this.types == types && this.channel == channel && this.queue == queue
      ensures commands == Unborn && awaited == None && mapped == None && !misused && !overrun
      ensures typeOf == map[] && backing == map[]
    {
      this.types := types;
      this.channel := channel;
      this.queue := queue;
      alive, next, live, created, destroyed := true, 0, {}, {}, {};
      typeOf, backing, extents, sizes, contents := map[], map[], map[], map[], map[];
      commands, awaited, mapped := Unborn, None, None;
      misused, overrun := false, false;
    }

    /** vkCreate* and vkAllocateMemory: a new handle, or nothing at all. */
    method Create(kind: Kind, res: VkResult) returns (h: Handle)
      requires Valid() && alive
      modifies this`next, this`live, this`created
      ensures Valid()
      ensures res == Success ==> h.kind == kind && h !in old(created) && live == old(live) + {h} && created == old(created) + {h}
      ensures res != Success ==> live == old(live) && created == old(created)
    {
      h := Handle(kind, next);
      if res == Success {
        next := next + 1;
        live := live + {h};
        created := created + {h};
      }
    }

    method CreateImage(extent: nat, res: VkResult) returns (h: Handle)
      requires Valid() && alive
      modifies this`next, this`live, this`created, this`extents
      ensures Valid()
      ensures res == Success ==> h.kind == IMAGE && h !in old(created) && live == old(live) + {h} && created == old(created) + {h}
      ensures res == Success ==> extents == old(extents)[h := extent]
      ensures res != Success ==> live == old(live) && created == old(created) && extents == old(extents)
    {
      h := Create(IMAGE, res);
      if res == Success {
        extents := extents[h := extent];
      }
    }

    method CreateBuffer(size: nat, res: VkResult) returns (h: Handle)
      requires Valid() && alive
      modifies this`next, this`live, this`created, this`sizes
      ensures Valid()
      ensures res == Success ==> h.kind == BUFFER && h !in old(created) && live == old(live) + {h} && created == old(created) + {h}
      ensures res == Success ==> sizes == old(sizes)[h := size]
      ensures res != Success ==> live == old(live) && created == old(created) && sizes == old(sizes)
    {
      h := Create(BUFFER, res);
      if res == Success {
        sizes := sizes[h := size];
      }
    }

    method AllocateMemory(index: nat, res: VkResult) returns (h: Handle)
      requires Valid() && alive && index < |types|
      modifies this`next, this`live, this`created, this`typeOf
      ensures Valid()
      ensures res == Success ==> h.kind == MEMORY && h !in old(created) && live == old(live) + {h} && created == old(created) + {h}
      ensures res == Success ==> typeOf == old(typeOf)[h := index]
      ensures res != Success ==> live == old(live) && created == old(created) && typeOf == old(typeOf)
    {
      h := Create(MEMORY, res);
      if res == Success {
        typeOf := typeOf[h := index];
      }
    }

    /**
     * vkDestroy* and vkFreeMemory: the handle must be live. A command buffer whose pool or any used
     * object goes is gone or invalid; destroying while work is pending is misuse.
     */
    method Destroy(h: Handle)
      requires Valid() && alive && h in live
      modifies this`live, this`destroyed, this`misused, this`commands
      ensures Valid()
      ensures live == old(live) - {h} && destroyed == old(destroyed) + {h}
      ensures misused == (old(misused) || awaited.Some?)
      ensures commands == if DependsOn(old(commands), h) then Invalid else old(commands)
    {
      live := live - {h};
      destroyed := destroyed + {h};
      misused := misused || awaited.Some?;
      if DependsOn(commands, h) {
        commands := Invalid;
      }
    }

    /** vkDestroyDevice: everything created from the device must be gone. */
    method DestroyDevice()
      requires alive && live == {}
      modifies this`alive
      ensures !alive
    {
      alive := false;
    }

    /** vkBind*Memory: both live, not bound before, and the memory of a type the object supports. */
    method BindMemory(object_: Handle, memory: Handle, typeBits: set<nat>, res: VkResult)
      requires alive && object_ in live && memory in live && memory.kind == MEMORY
      requires object_ !in backing && memory in typeOf && typeOf[memory] in typeBits
      modifies this`backing
      ensures backing == if res == Success then old(backing)[object_ := memory] else old(backing)
    {
      if res == Success {
        backing := backing[object_ := memory];
      }
    }

    method AllocateCommandBuffer(pool: Handle, res: VkResult)
      requires alive && pool in live && pool.kind == POOL && commands == Unborn
      modifies this`commands
      ensures commands == if res == Success then Initial(pool) else Unborn
    {
      if res == Success {
        commands := Initial(pool);
      }
    }

    method Begin(res: VkResult)
      requires alive && commands.Initial?
      modifies this`commands
      ensures commands == if res == Success then Recording(old(commands).pool, [], {}) else old(commands)
    {
      if res == Success {
        commands := Recording(commands.pool, [], {});
      }
    }

    /**
     * vkCmd*: recording, for a queue that can do it, on live images and buffers with live memory
     * behind them, in the layouts the command names.
     */
    method Record(c: Cmd)
      requires alive && commands.Recording? && {GRAPHICS, TRANSFER} <= queue
      requires Named(c) <= backing.Keys && UsedBy(c, backing) <= live
      requires RunCmds(commands.cmds + [c], channel).Some?
      modifies this`commands
      ensures commands
           == Recording(old(commands).pool, old(commands).cmds + [c], old(commands).uses + UsedBy(c, backing))
    {
      commands := Recording(commands.pool, commands.cmds + [c], commands.uses + UsedBy(c, backing));
    }

    method End(res: VkResult)
      requires alive && commands.Recording?
      modifies this`commands
      ensures commands == if res == Success then Executable(old(commands).pool, old(commands).cmds, old(commands).uses)
                          else old(commands)
    {
      if res == Success {
        commands := Executable(commands.pool, commands.cmds, commands.uses);
      }
    }

    /** The command buffer may be submitted: recorded to its end, its pool and all it uses alive. */
    ghost predicate Submittable()
      reads this`commands, this`live
    {
      commands.Executable? && commands.pool in live && commands.uses <= live
    }

    /** vkQueueSubmit: a submittable command buffer and a live fence, with nothing running. */
    method QueueSubmit(fence: Handle, res: VkResult)
      requires alive && Submittable() && fence in live && fence.kind == FENCE && awaited == None
      modifies this`awaited
      ensures awaited == if res == Success then Some(fence) else None
    {
      if res == Success {
        awaited := Some(fence);
      }
    }

    /** Running the commands copies an image of one texel, everywhere, into a buffer with memory behind it. */
    ghost predicate Copies(image: Handle, buffer: Handle, texel: seq<u8>)
      reads this`commands, this`extents, this`sizes, this`backing
    {
      && commands.Executable? && |texel| == 4
      && image in extents && buffer in sizes && buffer in backing
      && var w := RunCmds(commands.cmds, channel);
         w.Some? && w.value.copied == Some(Copied(image, buffer, Some(texel)))
    }

    /**
     * vkWaitForFences on the fence of the submission: success means the work is done and the memory
     * behind the buffer written; on a lost device the work counts as over ('Lost Device', section
     * 5.2.3); after any other failure it may still be running.
     */
    method WaitForFence(fence: Handle, ghost image: Handle, ghost buffer: Handle, ghost texel: seq<u8>, res: VkResult)
      requires alive && fence in live && awaited == Some(fence) && Submittable() && Copies(image, buffer, texel)
      modifies this`awaited, this`contents, this`overrun
      ensures awaited == if res == OtherError then Some(fence) else None
      ensures overrun == (old(overrun) || (res == Success && 4 * extents[image] > sizes[buffer]))
      ensures res == Success ==> backing[buffer] in contents && |contents[backing[buffer]]| == sizes[buffer]
      ensures res == Success && 4 * extents[image] == sizes[buffer] ==>
                contents[backing[buffer]] == Repeat(texel, extents[image])
    {
      if res == Success {
        var copied := RunCmds(commands.cmds, channel).value.copied.value;
        var bytes: seq<u8>;
        if 4 * extents[copied.image] == sizes[copied.buffer] {
          bytes := Repeat(copied.texel.value, extents[copied.image]);
        } else {
          assert |seq(sizes[copied.buffer], _ => 0 as u8)| == sizes[copied.buffer];
          bytes :| |bytes| == sizes[copied.buffer];
          overrun := overrun || 4 * extents[copied.image] > sizes[copied.buffer];
        }
        contents := contents[backing[copied.buffer] := bytes];
      }
      awaited := if res == OtherError then awaited else None;
    }

    /** Live memory of a type the host can see, without flushes. */
    ghost predicate HostReadable(memory: Handle)
      reads this`live, this`typeOf
    {
      && memory in live && memory in typeOf && typeOf[memory] < |types|
      && {HOST_VISIBLE, HOST_COHERENT} <= types[typeOf[memory]]
    }

    /** vkMapMemory: nothing mapped already, and nothing running that may write it. */
    method MapMemory(memory: Handle, res: VkResult) returns (data: seq<u8>)
      requires alive && HostReadable(memory) && mapped == None && awaited == None
      modifies this`mapped
      ensures mapped == if res == Success then Some(memory) else None
      ensures memory in contents ==> data == contents[memory]
    {
      if res == Success {
        mapped := Some(memory);
      }
      data := if memory in contents then contents[memory] else [];
    }

    method UnmapMemory(memory: Handle)
      requires alive && memory in live && mapped == Some(memory)
      modifies this`mapped
      ensures mapped == None
    {
      mapped := None;
    }
  }
}
