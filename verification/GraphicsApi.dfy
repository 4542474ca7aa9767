/** The application-facing vocabulary (crates/graphics_api). Fields nothing reads are left out. */
module GraphicsApi {
  import opened Common

  datatype WorkloadClass = Graphics | Compute | Transfer

  datatype MemoryClass = DeviceLocal | HostVisible | HostVisibleCached | DeviceLocalHostVisible

  datatype PixelFormat = Rgba8Unorm | Bgra8Unorm | Rgba16Float | Depth32Float

  datatype ResourceKind =
    | Buffer(size: u64)
    | Image(width: u32, height: u32, depth: u32, format: PixelFormat)

  datatype ShaderStage = Vertex | Fragment | Compute

  datatype Resource = Resource(id: ObjectId, device: ObjectId, kind: ResourceKind, memory: MemoryClass)

  datatype ShaderModule = ShaderModule(id: ObjectId, device: ObjectId, stage: ShaderStage, ir: seq<bv8>)

  datatype Pipeline = Pipeline(id: ObjectId, device: ObjectId, workload: WorkloadClass, shader: ObjectId)

  datatype GraphicsOp =
    | BindPipeline(pipeline: ObjectId)
    | BindResource(binding: u32, resource: ObjectId)
    | Draw(vertexCount: u32, instanceCount: u32)
    | Dispatch(x: u32, y: u32, z: u32)
    | Copy(src: ObjectId, dst: ObjectId)
    | Barrier

  datatype CommandStream = CommandStream(
    id: ObjectId, device: ObjectId, target: WorkloadClass, ops: seq<GraphicsOp>)

  datatype QueueHandle = QueueHandle(id: ObjectId, workload: WorkloadClass)

  datatype GraphicsDevice = GraphicsDevice(id: ObjectId, gpu: ObjectId, queues: seq<QueueHandle>)

  datatype Timeline = Timeline(id: ObjectId, device: ObjectId, currentValue: u64)

  datatype Capability = GpuMemoryAlloc | GpuCommandSubmit | GpuAdmin

  /** `sher_objectmodel::CapabilitySet`, abstracted to the set of capabilities it answers yes to. */
  type CapabilitySet = set<Capability>

  function RequireCapability(caps: CapabilitySet, capability: Capability): Result<()> {
    if capability in caps then Ok(()) else Err(Security)
  }

  function BytesPerPixel(format: PixelFormat): u64 {
    match format
    case Rgba8Unorm => 4
    case Bgra8Unorm => 4
    case Rgba16Float => 8
    case Depth32Float => 4
  }

  /** The channels of a texel and the bits of each, as the format's name spells them. */
  datatype Channels = Channels(count: nat, bits: nat)

  function ChannelsOf(format: PixelFormat): Channels {
    match format
    case Rgba8Unorm => Channels(4, 8)
    case Bgra8Unorm => Channels(4, 8)
    case Rgba16Float => Channels(4, 16)
    case Depth32Float => Channels(1, 32)
  }

  /** The bytes of one texel are the bits of all its channels. */
  lemma TexelHoldsItsChannels(format: PixelFormat)
    ensures 8 * BytesPerPixel(format) == ChannelsOf(format).count * ChannelsOf(format).bits
  {
  }

  /** The bytes an object of this kind needs, with no machine width: for an image, all channels of all texels. */
  function IdealSize(kind: ResourceKind): nat {
    match kind
    case Buffer(size) => size
    case Image(width, height, depth, format) =>
      width * height * depth * (ChannelsOf(format).count * ChannelsOf(format).bits / 8)
  }

  /** What the code asks the driver for: each product is a `usize` product and wraps. */
  function ResourceSize(kind: ResourceKind): u64 {
    match kind
    case Buffer(size) => size
    case Image(width, height, depth, format) =>
      Wrap(Wrap(Wrap(width * height) * depth) * BytesPerPixel(format))
  }

  lemma ModProduct(x: nat, y: nat, m: nat)
    requires m > 0
    ensures ((x % m) * y) % m == (x * y) % m
  {
    var q := x / m;
    var r := x % m;
    assert x == q * m + r;
    assert x * y == (q * y) * m + r * y by {
      assert (q * m + r) * y == (q * m) * y + r * y;
      assert (q * m) * y == (q * y) * m;
    }
    ModShift(r * y, q * y, m);
  }

  lemma ModShift(x: nat, k: nat, m: nat)
    requires m > 0
    ensures (x + k * m) % m == x % m
  {
    var q := x / m;
    var r := x % m;
    assert x + k * m == (q + k) * m + r;
    ModUnique(x + k * m, q + k, r, m);
  }

  lemma AtLeastOneMultiple(d: int, m: nat)
    requires d >= 1
    ensures d * m >= m
  {
    assert (d - 1) * m >= 0;
    assert d * m == (d - 1) * m + m;
  }

  lemma ModUnique(x: nat, q: nat, r: nat, m: nat)
    requires m > 0 && r < m && x == q * m + r
    ensures x % m == r
  {
    var q' := x / m;
    var r' := x % m;
    assert x == m * q' + r';
    var d := q' - q;
    assert d * m == r - r' by {
      assert d * m == q' * m - q * m;
    }
    if d >= 1 {
      AtLeastOneMultiple(d, m);
    } else if d <= -1 {
      AtLeastOneMultiple(-d, m);
    }
  }

  /** The requested size is the needed size modulo 2^64, whatever order the products wrap in. */
  lemma ResourceSizeIsIdealModulo(kind: ResourceKind)
    ensures ResourceSize(kind) == Wrap(IdealSize(kind))
  {
    match kind
    case Buffer(size) =>
    case Image(width, height, depth, format) =>
      TexelHoldsItsChannels(format);
      ModProduct(width * height, depth, 0x1_0000_0000_0000_0000);
      ModProduct(width * height * depth, BytesPerPixel(format), 0x1_0000_0000_0000_0000);
  }

  /**
   * "create_resource returns something already backed by memory" holds exactly when the
   * object's byte count fits in a usize: an image past that gets a shorter allocation.
   */
  lemma BackedByItsWholeSizeIff(kind: ResourceKind)
    ensures ResourceSize(kind) >= IdealSize(kind) <==> IdealSize(kind) < 0x1_0000_0000_0000_0000
  {
    ResourceSizeIsIdealModulo(kind);
  }

  /** A 2^31 x 2^31 RGBA8 image needs 2^64 bytes and is given none. */
  lemma OversizedImageGetsNothing()
    ensures IdealSize(Image(0x8000_0000, 0x8000_0000, 1, Rgba8Unorm)) == 0x1_0000_0000_0000_0000
    ensures ResourceSize(Image(0x8000_0000, 0x8000_0000, 1, Rgba8Unorm)) == 0
  {
    assert 0x8000_0000 * 0x8000_0000 == 0x4000_0000_0000_0000;
  }
}
