/** Resource descriptors: what they may be, and exactly how many bytes they stand for. */
module Descriptors {
  import opened Outcomes
  import opened Admission

  type u32 = n: nat | n < 0x1_0000_0000

  type u64 = n: nat | n <= U64_MAX

  const COPY_BUFFER_ALIGNMENT: nat := 4
  const MAP_ALIGNMENT: nat := 8

  datatype BufferUsage = MapRead | MapWrite | CopySrc | CopyDst | Other(bit: nat) | UnknownBuffer(bit: nat)

  datatype TextureUsage = Known(bit: nat) | UnknownTexture(bit: nat)

  /** A row of the format table: size of one block, absent for opaque and planar formats. */
  datatype RawFormat = RawFormat(base: nat, srgb: bool, block: Option<u32>, blockWidth: u32, blockHeight: u32)

  type Format = f: RawFormat | f.blockWidth > 0 && f.blockHeight > 0 && (f.block.Some? ==> f.block.value > 0)
    witness RawFormat(0, false, None, 1, 1)

  datatype Dimension = D1 | D2 | D3

  datatype Extent = Extent(width: u32, height: u32, depth: u32)

  datatype BufferSpec = BufferSpec(size: u64, usage: set<BufferUsage>)

  datatype TextureSpec = TextureSpec(
    size: Extent,
    dimension: Dimension,
    mips: u32,
    samples: u32,
    format: Format,
    usage: set<TextureUsage>,
    view: Option<Format>)

  datatype Spec = BufferOf(buffer: BufferSpec) | TextureOf(texture: TextureSpec)

  datatype Limits = Limits(
    maxBufferSize: nat, max1d: u32, max2d: u32, max3d: u32, maxLayers: u32)

  datatype ResourceError =
    | Admission(error: AdmissionError)
    | InvalidDescriptor(reason: string)
    | UnsupportedFormat(format: Format)
    | ByteOverflow
    | Gpu(failure: WaitError)
    | Slot
    | UploadState
    | MapRange

  // ---------- buffers ----------

  predicate Staging(b: BufferSpec) {
    b.usage == {MapWrite, CopySrc}
  }

  function BufferBytes(b: BufferSpec, limits: Limits): Result<nat, ResourceError> {
    if b.size == 0 || b.size > limits.maxBufferSize || b.size % COPY_BUFFER_ALIGNMENT != 0
       || b.usage == {} || (exists u :: u in b.usage && u.UnknownBuffer?)
    then Err(InvalidDescriptor("buffer size/usage"))
    else if MapWrite in b.usage && !Staging(b) then Err(InvalidDescriptor("MAP_WRITE requires COPY_SRC staging"))
    else if MapRead in b.usage && b.usage != {MapRead, CopyDst}
    then Err(InvalidDescriptor("MAP_READ requires COPY_DST"))
    else if Staging(b) && b.size % MAP_ALIGNMENT != 0 then Err(InvalidDescriptor("staging map alignment"))
    else Ok(b.size)
  }

  // ---------- textures: the mathematical size ----------

  /** `n >> level`. */
  function Halved(n: nat, level: nat): nat
    decreases level
  {
    if level == 0 then n else Halved(n / 2, level - 1)
  }

  function BitLength(n: nat): nat {
    if n == 0 then 0 else 1 + BitLength(n / 2)
  }

  function AtLeastOne(n: nat): (m: nat)
    ensures 1 <= m
  {
    if n == 0 then 1 else n
  }

  function MaxMips(size: Extent, dimension: Dimension): nat {
    match dimension
    case D1 => 1
    case D2 => BitLength(Max(size.width, size.height))
    case D3 => BitLength(Max(size.width, Max(size.height, size.depth)))
  }

  function MipWidth(t: TextureSpec, level: nat): nat {
    AtLeastOne(Halved(t.size.width, level))
  }

  function MipHeight(t: TextureSpec, level: nat): nat {
    if t.dimension.D1? then 1 else AtLeastOne(Halved(t.size.height, level))
  }

  function MipDepth(t: TextureSpec, level: nat): nat {
    match t.dimension
    case D1 => 1
    case D2 => t.size.depth
    case D3 => AtLeastOne(Halved(t.size.depth, level))
  }

  function CeilDiv(a: nat, b: nat): nat
    requires b > 0
  {
    (a + b - 1) / b
  }

  /** Blocks of one mip level, times layers or depth, samples and bytes per block. */
  function LevelBytes(t: TextureSpec, level: nat): nat
    requires t.format.block.Some?
  {
    var wide := CeilDiv(MipWidth(t, level), t.format.blockWidth);
    var high := CeilDiv(MipHeight(t, level), t.format.blockHeight);
    var blocks: nat := wide * high;
    var layered: nat := blocks * MipDepth(t, level);
    var sampled: nat := layered * t.samples;
    sampled * t.format.block.value
  }

  function SumLevels(t: TextureSpec, levels: nat): nat
    requires t.format.block.Some?
  {
    if levels == 0 then 0 else SumLevels(t, levels - 1) + LevelBytes(t, levels - 1)
  }

  /** The first complaint about a texture descriptor, if any. */
  function TextureComplaint(t: TextureSpec, limits: Limits): Option<ResourceError> {
    var size := t.size;
    var extentOk :=
      match t.dimension
      case D1 => size.width <= limits.max1d && size.height == 1 && size.depth == 1 && t.samples == 1
      case D2 => size.width <= limits.max2d && size.height <= limits.max2d && size.depth <= limits.maxLayers
      case D3 => Max(size.width, Max(size.height, size.depth)) <= limits.max3d && t.samples == 1;
    if size.width == 0 || size.height == 0 || size.depth == 0
       || t.usage == {} || (exists u :: u in t.usage && u.UnknownTexture?)
       || t.mips == 0 || t.mips > MaxMips(size, t.dimension) || t.samples !in {1, 2, 4, 8, 16}
    then Some(InvalidDescriptor("texture extent/mips/samples/usage"))
    else if !extentOk || (t.samples > 1 && (t.mips != 1 || size.depth != 1))
    then Some(InvalidDescriptor("texture dimensions exceed enabled limits"))
    else if t.view.Some? && t.view.value.(srgb := false) != t.format.(srgb := false)
    then Some(InvalidDescriptor("incompatible texture view format"))
    else if t.format.block.None? then Some(UnsupportedFormat(t.format))
    else if size.width % t.format.blockWidth != 0 || size.height % t.format.blockHeight != 0
    then Some(InvalidDescriptor("compressed texture block alignment"))
    else None
  }

  /** The exact unbounded size, when 64 bits can hold it. */
  function TextureBytes(t: TextureSpec, limits: Limits): Result<nat, ResourceError> {
    var complaint := TextureComplaint(t, limits);
    if complaint.Some? then Err(complaint.value)
    else if SumLevels(t, t.mips) > U64_MAX then Err(ByteOverflow)
    else Ok(SumLevels(t, t.mips))
  }

  // ---------- textures: what these numbers are ----------

  function Pow2(n: nat): (p: nat)
    ensures p > 0
  {
    if n == 0 then 1 else 2 * Pow2(n - 1)
  }

  lemma ScaleKeeps(a: nat, b: nat, p: nat)
    ensures a <= b ==> a * p <= b * p
    ensures (a + 1) * p == a * p + p
  {
  }

  lemma ScaleReflects(a: nat, b: nat, p: nat)
    ensures a * p < b * p ==> a < b
  {
    ScaleKeeps(b, a, p);
  }

  lemma Doubling(h: nat, p: nat, m: nat, n: nat)
    requires h * p <= m < (h + 1) * p && (n == 2 * m || n == 2 * m + 1)
    ensures h * (2 * p) <= n < (h + 1) * (2 * p)
  {
    assert h * (2 * p) == 2 * (h * p);
    assert (h + 1) * (2 * p) == 2 * ((h + 1) * p);
  }

  /** Halving `level` times is dividing by two to the power of `level`, rounded down. */
  lemma {:induction false} HalvedIsQuotient(n: nat, level: nat)
    ensures Halved(n, level) * Pow2(level) <= n < (Halved(n, level) + 1) * Pow2(level)
    decreases level
  {
    if level > 0 {
      HalvedIsQuotient(n / 2, level - 1);
      Doubling(Halved(n / 2, level - 1), Pow2(level - 1), n / 2, n);
    }
  }

  /** The extent of a mip level: the quotient by two to the power of the level, or one where that is zero. */
  ghost predicate MipExtent(n: nat, level: nat, m: nat) {
    if n < Pow2(level) then m == 1 else m * Pow2(level) <= n < (m + 1) * Pow2(level)
  }

  lemma QuotientsEqual(a: nat, b: nat, n: nat, p: nat)
    requires a * p <= n < (a + 1) * p && b * p <= n < (b + 1) * p
    ensures a == b
  {
    ScaleReflects(a, b + 1, p);
    ScaleReflects(b, a + 1, p);
  }

  lemma MipExtentIs(n: nat, level: nat, m: nat)
    ensures MipExtent(n, level, m) <==> m == AtLeastOne(Halved(n, level))
  {
    var h, p := Halved(n, level), Pow2(level);
    HalvedIsQuotient(n, level);
    ScaleReflects(h, 1, p);
    ScaleReflects(1, h + 1, p);
    if n >= p && m * p <= n < (m + 1) * p {
      QuotientsEqual(h, m, n, p);
    }
  }

  lemma DivisionBounds(x: nat, b: nat)
    requires b > 0
    ensures x / b * b <= x < x / b * b + b
  {
  }

  /** So many blocks cover so many texels, and fewer do not. */
  ghost predicate BlocksCover(k: nat, a: nat, b: nat) {
    a <= k * b && (k > 0 ==> (k - 1) * b < a)
  }

  lemma CeilDivIsLeast(a: nat, b: nat, k: nat)
    requires b > 0
    ensures k == CeilDiv(a, b) <==> BlocksCover(k, a, b)
  {
    var q := CeilDiv(a, b);
    DivisionBounds(a + b - 1, b);
    if q > 0 {
      ScaleKeeps(q - 1, 0, b);
      ScaleReflects(q - 1, k, b);
    }
    if k > 0 {
      ScaleReflects(k - 1, q, b);
    }
  }

  lemma {:induction false} BitLengthBounds(n: nat, level: nat)
    ensures level < BitLength(n) <==> Pow2(level) <= n
  {
    if n > 0 && level > 0 {
      BitLengthBounds(n / 2, level - 1);
    }
  }

  /** A texture may have another level as long as some extent that shrinks is not used up; a line has one. */
  lemma MaxMipsIs(size: Extent, dimension: Dimension, level: nat)
    requires size.width > 0
    ensures level < MaxMips(size, dimension) <==>
            || level == 0
            || (!dimension.D1? && Pow2(level) <= size.width) || (!dimension.D1? && Pow2(level) <= size.height)
            || (dimension.D3? && Pow2(level) <= size.depth)
  {
    BitLengthBounds(Max(size.width, size.height), level);
    BitLengthBounds(Max(size.width, Max(size.height, size.depth)), level);
  }

  /** One mip level: its extents in texels, and the blocks that cover them. */
  datatype Level = Level(width: nat, height: nat, depth: nat, wide: nat, high: nat)

  /** Which extents shrink, and that blocks cover the texels, is all there is to a level. */
  ghost predicate LevelOf(t: TextureSpec, level: nat, l: Level) {
    && MipExtent(t.size.width, level, l.width)
    && (if t.dimension.D1? then l.height == 1 else MipExtent(t.size.height, level, l.height))
    && (match t.dimension
        case D1 => l.depth == 1
        case D2 => l.depth == t.size.depth
        case D3 => MipExtent(t.size.depth, level, l.depth))
    && BlocksCover(l.wide, l.width, t.format.blockWidth) && BlocksCover(l.high, l.height, t.format.blockHeight)
  }

  function BytesOf(t: TextureSpec, l: Level): nat
    requires t.format.block.Some?
  {
    l.wide * l.high * l.depth * t.samples * t.format.block.value
  }

  /** The one level that fits the description, and its bytes. */
  lemma LevelIs(t: TextureSpec, level: nat, l: Level)
    requires t.format.block.Some?
    ensures LevelOf(t, level, l) <==>
            l == Level(MipWidth(t, level), MipHeight(t, level), MipDepth(t, level),
                       CeilDiv(MipWidth(t, level), t.format.blockWidth),
                       CeilDiv(MipHeight(t, level), t.format.blockHeight))
    ensures LevelOf(t, level, l) ==> LevelBytes(t, level) == BytesOf(t, l)
  {
    MipExtentIs(t.size.width, level, l.width);
    MipExtentIs(t.size.height, level, l.height);
    MipExtentIs(t.size.depth, level, l.depth);
    CeilDivIsLeast(l.width, t.format.blockWidth, l.wide);
    CeilDivIsLeast(l.height, t.format.blockHeight, l.high);
  }

  function SumOf(sizes: seq<nat>): nat {
    if sizes == [] then 0 else sizes[0] + SumOf(sizes[1..])
  }

  lemma {:induction false} SumOfPush(sizes: seq<nat>, last: nat)
    ensures SumOf(sizes + [last]) == SumOf(sizes) + last
  {
    if sizes == [] {
      assert [last][1..] == [];
    } else {
      assert (sizes + [last])[1..] == sizes[1..] + [last];
      SumOfPush(sizes[1..], last);
    }
  }

  lemma {:induction false} SumLevelsIs(t: TextureSpec, levels: seq<Level>)
    requires t.format.block.Some? && forall k :: 0 <= k < |levels| ==> LevelOf(t, k, levels[k])
    ensures SumLevels(t, |levels|) == SumOf(seq(|levels|, k requires 0 <= k < |levels| => BytesOf(t, levels[k])))
  {
    var sizes := seq(|levels|, k requires 0 <= k < |levels| => BytesOf(t, levels[k]));
    if levels == [] {
    } else {
      var n := |levels| - 1;
      SumLevelsIs(t, levels[..n]);
      LevelIs(t, n, levels[n]);
      assert seq(n, k requires 0 <= k < n => BytesOf(t, levels[..n][k])) == sizes[..n];
      SumOfPush(sizes[..n], sizes[n]);
      assert sizes == sizes[..n] + [sizes[n]];
    }
  }

  /** An accepted texture has exactly these levels, one per mip, and as many bytes as they have together. */
  lemma TextureBytesMeans(t: TextureSpec, limits: Limits) returns (levels: seq<Level>)
    requires TextureComplaint(t, limits).None?
    ensures |levels| == t.mips && forall k :: 0 <= k < |levels| ==> LevelOf(t, k, levels[k])
    ensures var sum := SumOf(seq(|levels|, k requires 0 <= k < |levels| => BytesOf(t, levels[k])));
            TextureBytes(t, limits) == if sum > U64_MAX then Err(ByteOverflow) else Ok(sum)
  {
    levels := seq(t.mips, k requires 0 <= k < t.mips =>
      Level(MipWidth(t, k), MipHeight(t, k), MipDepth(t, k), CeilDiv(MipWidth(t, k), t.format.blockWidth),
            CeilDiv(MipHeight(t, k), t.format.blockHeight)));
    forall k | 0 <= k < |levels| ensures LevelOf(t, k, levels[k]) {
      LevelIs(t, k, levels[k]);
    }
    SumLevelsIs(t, levels);
  }

  /** What makes a texture acceptable. */
  lemma TextureAccepted(t: TextureSpec, limits: Limits)
    ensures TextureComplaint(t, limits).None? <==>
            && t.size.width > 0 && t.size.height > 0 && t.size.depth > 0
            && t.usage != {} && (forall u :: u in t.usage ==> u.Known?)
            && (t.samples == 1 || t.samples == 2 || t.samples == 4 || t.samples == 8 || t.samples == 16)
            && (t.mips == 1
                || (t.mips > 1 && !t.dimension.D1?
                    && (|| Pow2(t.mips - 1) <= t.size.width || Pow2(t.mips - 1) <= t.size.height
                        || (t.dimension.D3? && Pow2(t.mips - 1) <= t.size.depth))))
            && (t.dimension.D1? ==> t.size.width <= limits.max1d && t.size.height == t.size.depth == t.samples == 1)
            && (t.dimension.D2? ==> t.size.width <= limits.max2d && t.size.height <= limits.max2d
                                    && t.size.depth <= limits.maxLayers)
            && (t.dimension.D3? ==> t.size.width <= limits.max3d && t.size.height <= limits.max3d
                                    && t.size.depth <= limits.max3d && t.samples == 1)
            && (t.samples > 1 ==> t.mips == t.size.depth == 1)
            && (t.view.Some? ==> t.view.value.(srgb := true) == t.format.(srgb := true))
            && t.format.block.Some?
            && t.size.width % t.format.blockWidth == 0 && t.size.height % t.format.blockHeight == 0
  {
    if t.mips > 0 && t.size.width > 0 {
      MaxMipsIs(t.size, t.dimension, t.mips - 1);
    }
  }

  /** What makes a buffer acceptable, and that it stands for its size. */
  lemma BufferAccepted(b: BufferSpec, limits: Limits)
    ensures BufferBytes(b, limits).Ok? <==>
            && 0 < b.size <= limits.maxBufferSize && b.size % 4 == 0
            && b.usage != {} && (forall u :: u in b.usage ==> !u.UnknownBuffer?)
            && (MapWrite in b.usage ==> b.usage == {MapWrite, CopySrc} && b.size % 8 == 0)
            && (MapRead in b.usage ==> b.usage == {MapRead, CopyDst})
    ensures BufferBytes(b, limits).Ok? ==> BufferBytes(b, limits).value == b.size
  {
  }

  // ---------- textures: the checked computation ----------

  function CheckedMul(a: Option<nat>, b: nat): Option<nat> {
    if a.None? || a.value * b > U64_MAX then None else Some(a.value * b)
  }

  lemma Grows(a: nat, b: nat)
    requires 1 <= b
    ensures a <= a * b
  {
  }

  lemma ProductPositive(a: nat, b: nat)
    requires 1 <= a && 1 <= b
    ensures 1 <= a * b
  {
  }

  /** Stopping at the first overflow loses nothing: factors of at least one never shrink a product. */
  lemma CheckedStep(product: nat, checked: Option<nat>, factor: nat)
    requires 1 <= factor && checked == (if product > U64_MAX then None else Some(product))
    ensures CheckedMul(checked, factor) == (if product * factor > U64_MAX then None else Some(product * factor))
  {
    Grows(product, factor);
  }

  lemma CeilDivPositive(a: nat, b: nat)
    requires 1 <= a && 1 <= b
    ensures 1 <= CeilDiv(a, b)
  {
  }

  lemma LevelPositive(t: TextureSpec, level: nat)
    requires t.format.block.Some? && t.samples > 0 && t.size.depth > 0
    ensures 1 <= LevelBytes(t, level)
  {
    var w, h := CeilDiv(MipWidth(t, level), t.format.blockWidth), CeilDiv(MipHeight(t, level), t.format.blockHeight);
    CeilDivPositive(MipWidth(t, level), t.format.blockWidth);
    CeilDivPositive(MipHeight(t, level), t.format.blockHeight);
    ProductPositive(w, h);
    ProductPositive(w * h, MipDepth(t, level));
    ProductPositive(w * h * MipDepth(t, level), t.samples);
    ProductPositive(w * h * MipDepth(t, level) * t.samples, t.format.block.value);
  }

  lemma {:induction false} SumLevelsGrows(t: TextureSpec, low: nat, high: nat)
    requires t.format.block.Some? && low <= high
    ensures SumLevels(t, low) <= SumLevels(t, high)
    decreases high - low
  {
    if low == high {
    } else {
      SumLevelsGrows(t, low, high - 1);
    }
  }

  /** One level by the chain of checked products. */
  method CheckedLevel(t: TextureSpec, level: nat) returns (r: Option<nat>)
    requires t.format.block.Some? && t.samples > 0 && t.size.depth > 0
    ensures r == if LevelBytes(t, level) > U64_MAX then None else Some(LevelBytes(t, level))
  {
    var w, h := CeilDiv(MipWidth(t, level), t.format.blockWidth), CeilDiv(MipHeight(t, level), t.format.blockHeight);
    CeilDivPositive(MipWidth(t, level), t.format.blockWidth);
    CeilDivPositive(MipHeight(t, level), t.format.blockHeight);
    r := if w > U64_MAX then None else Some(w);
    CheckedStep(w, r, h);
    r := CheckedMul(r, h);
    CheckedStep(w * h, r, MipDepth(t, level));
    r := CheckedMul(r, MipDepth(t, level));
    CheckedStep(w * h * MipDepth(t, level), r, t.samples);
    r := CheckedMul(r, t.samples);
    CheckedStep(w * h * MipDepth(t, level) * t.samples, r, t.format.block.value);
    r := CheckedMul(r, t.format.block.value);
  }

  /** The mip loop over 64-bit checked arithmetic computes exactly the mathematical size. */
  method ComputeTextureBytes(t: TextureSpec, limits: Limits) returns (r: Result<nat, ResourceError>)
    ensures r == TextureBytes(t, limits)
  {
    var complaint := TextureComplaint(t, limits);
    if complaint.Some? {
      return Err(complaint.value);
    }
    var bytes := 0;
    for level := 0 to t.mips
      invariant bytes == SumLevels(t, level) && bytes <= U64_MAX
    {
      SumLevelsGrows(t, level + 1, t.mips);
      var levelBytes := CheckedLevel(t, level);
      if levelBytes.None? || bytes + levelBytes.value > U64_MAX {
        return Err(ByteOverflow);
      }
      bytes := bytes + levelBytes.value;
    }
    return Ok(bytes);
  }

  // ---------- specs ----------

  function SpecBytes(s: Spec, limits: Limits): Result<nat, ResourceError> {
    match s
    case BufferOf(b) => BufferBytes(b, limits)
    case TextureOf(t) => TextureBytes(t, limits)
  }

  function Normalized(s: Spec): Spec {
    match s
    case BufferOf(_) => s
    case TextureOf(t) => TextureOf(if t.view == Some(t.format) then t.(view := None) else t)
  }

  predicate Reusable(s: Spec) {
    !(s.BufferOf? && MapRead in s.buffer.usage)
  }

  predicate StagingSpec(s: Spec) {
    s.BufferOf? && Staging(s.buffer)
  }

  lemma {:induction false} SumLevelsIgnoresView(t: TextureSpec, view: Option<Format>, levels: nat)
    requires t.format.block.Some?
    ensures SumLevels(t.(view := view), levels) == SumLevels(t, levels)
  {
    if levels == 0 {
    } else {
      SumLevelsIgnoresView(t, view, levels - 1);
    }
  }

  lemma ComplaintIgnoresView(t: TextureSpec, limits: Limits)
    requires t.view == Some(t.format)
    ensures TextureComplaint(t.(view := None), limits) == TextureComplaint(t, limits)
  {
  }

  /** Normalizing never changes a descriptor's size or its complaints, and only helps reuse. */
  lemma NormalizedBytes(s: Spec, limits: Limits)
    ensures SpecBytes(Normalized(s), limits) == SpecBytes(s, limits)
    ensures Normalized(Normalized(s)) == Normalized(s)
  {
    if s.TextureOf? && s.texture.view == Some(s.texture.format) {
      ComplaintIgnoresView(s.texture, limits);
      if s.texture.format.block.Some? {
        SumLevelsIgnoresView(s.texture, None, s.texture.mips);
      }
    }
  }

  /** Two descriptors share a key exactly if they differ in nothing but a view format that says nothing new. */
  lemma SameKey(a: Spec, b: Spec)
    ensures Normalized(a) == Normalized(b) <==>
            || a == b
            || (&& a.TextureOf? && b.TextureOf? && a.texture.(view := None) == b.texture.(view := None)
                && (a.texture.view.Some? ==> a.texture.view.value == a.texture.format)
                && (b.texture.view.Some? ==> b.texture.view.value == b.texture.format))
  {
  }

  /** An accepted descriptor never stands for zero bytes. */
  lemma SpecBytesPositive(s: Spec, limits: Limits)
    requires SpecBytes(s, limits).Ok?
    ensures 1 <= SpecBytes(s, limits).value
  {
    if s.TextureOf? {
      LevelPositive(s.texture, 0);
      SumLevelsGrows(s.texture, 1, s.texture.mips);
      assert SumLevels(s.texture, 1) == SumLevels(s.texture, 0) + LevelBytes(s.texture, 0);
    }
  }
}
