/** Buffer layout rules of section 7.6.2.2 of the OpenGL 4.3 Core Profile specification
    ("Standard Uniform Block Layout"), restricted to what the kernel's blocks use: 32-bit
    scalars, vec3, vec4 and one-dimensional arrays of those. Offsets and sizes are in bytes. */
module Layout {

  datatype Basic = Float | Int | Vec3 | Vec4

  datatype GlslType = Plain(b: Basic) | ArrayOf(elem: Basic, count: nat)

  /** std140 rounds the alignment and stride of arrays up to that of a vec4; std430 does not. */
  datatype Packing = Std140 | Std430

  /** Rules (1)-(3): a scalar is aligned to N = 4 bytes, a three- or four-component vector to 4N. */
  function BasicAlign(b: Basic): nat {
    match b
    case Float => 4
    case Int => 4
    case Vec3 => 16
    case Vec4 => 16
  }

  function BasicSize(b: Basic): nat {
    match b
    case Float => 4
    case Int => 4
    case Vec3 => 12
    case Vec4 => 16
  }

  /** The smallest multiple of a that is at least n. */
  function RoundUp(n: nat, a: nat): (r: nat)
    requires a == 4 || a == 16
    ensures r >= n && r % a == 0 && r < n + a
  {
    if a == 4 then (if n % 4 == 0 then n else n + (4 - n % 4))
    else (if n % 16 == 0 then n else n + (16 - n % 16))
  }

  /** Rule (4): the base alignment of an array is that of its element, rounded up to a vec4
      under std140; the array stride equals that alignment. */
  function Align(t: GlslType, p: Packing): (a: nat)
    ensures a == 4 || a == 16
  {
    match t
    case Plain(b) => BasicAlign(b)
    case ArrayOf(e, _) => if p == Std140 then RoundUp(BasicAlign(e), 16) else BasicAlign(e)
  }

  function Size(t: GlslType, p: Packing): nat {
    match t
    case Plain(b) => BasicSize(b)
    case ArrayOf(e, n) => n * Align(t, p)
  }

  /** The offset of member i of a block: the first multiple of its alignment at or past the end
      of member i - 1 (or byte 0 for the first member). */
  function OffsetOf(ms: seq<GlslType>, p: Packing, i: nat): nat
    requires i < |ms|
  {
    RoundUp(if i == 0 then 0 else OffsetOf(ms, p, i - 1) + Size(ms[i - 1], p), Align(ms[i], p))
  }

  /** The first byte past the last member. */
  function BlockEnd(ms: seq<GlslType>, p: Packing): nat
    requires |ms| > 0
  {
    OffsetOf(ms, p, |ms| - 1) + Size(ms[|ms| - 1], p)
  }

  /** Every member starts at a multiple of its own alignment. */
  lemma MemberAligned(ms: seq<GlslType>, p: Packing, i: nat)
    requires i < |ms|
    ensures OffsetOf(ms, p, i) % Align(ms[i], p) == 0
  {
  }

  /** Every member but the first starts past the end of the member before. */
  lemma MemberFollows(ms: seq<GlslType>, p: Packing, i: nat)
    requires 0 < i < |ms|
    ensures OffsetOf(ms, p, i - 1) + Size(ms[i - 1], p) <= OffsetOf(ms, p, i)
  {
  }

  /** No two members of a block share a byte. */
  lemma {:induction false} MembersDisjoint(ms: seq<GlslType>, p: Packing, i: nat, j: nat)
    requires i < j < |ms|
    ensures OffsetOf(ms, p, i) + Size(ms[i], p) <= OffsetOf(ms, p, j)
    decreases j - i
  {
    MemberFollows(ms, p, j);
    if j > i + 1 {
      MembersDisjoint(ms, p, i, j - 1);
    }
  }

  /** Every member lies below the block's end. */
  lemma MembersWithinBlock(ms: seq<GlslType>, p: Packing, i: nat)
    requires i < |ms|
    ensures OffsetOf(ms, p, i) + Size(ms[i], p) <= BlockEnd(ms, p)
  {
    EndsBeforeLast(ms, p, i);
  }

  lemma EndsBeforeLast(ms: seq<GlslType>, p: Packing, i: nat)
    requires i < |ms|
    ensures OffsetOf(ms, p, i) + Size(ms[i], p) <= OffsetOf(ms, p, |ms| - 1) + Size(ms[|ms| - 1], p)
  {
    if i < |ms| - 1 {
      MembersDisjoint(ms, p, i, |ms| - 1);
    }
  }

  /** Byte offset of element k of an array member that starts at `base`. */
  function ElementOffset(base: nat, t: GlslType, p: Packing, k: nat): (o: nat)
    requires t.ArrayOf? && k < t.count
    ensures base <= o && o + Align(t, p) <= base + Size(t, p)
  {
    assert (k + 1) * Align(t, p) <= t.count * Align(t, p) by {
      MulMono(k + 1, t.count, Align(t, p));
    }
    base + k * Align(t, p)
  }

  lemma MulMono(a: nat, b: nat, c: nat)
    requires a <= b
    ensures a * c <= b * c
  {
  }

  // The kernel's blocks, declared in Engine/geodesicTracer.js.

  /** `uniform Camera`: four (vec3, float) pairs, then tanHalfFov, aspect, moving, _pad4. */
  const CameraBlock: seq<GlslType> := [
    Plain(Vec3), Plain(Float), Plain(Vec3), Plain(Float),
    Plain(Vec3), Plain(Float), Plain(Vec3), Plain(Float),
    Plain(Float), Plain(Float), Plain(Int), Plain(Int)]

  /** `uniform Disk`: disk_r1, disk_r2. */
  const DiskBlock: seq<GlslType> := [Plain(Float), Plain(Float)]

  /** `buffer PathsSSBO`: vec4 pathPoints[MAX_PATHS * MAX_PATHS_POINTS]; int pathPointCounts[MAX_PATHS]. */
  const PathsBlock: seq<GlslType> := [ArrayOf(Vec4, 5 * 5000), ArrayOf(Int, 5)]

  /** The std140 offsets of the camera block's four (vec3, float) pairs: each vec3 starts on a
      16-byte boundary at 0, 16, 32, 48, and its float fills the last 4 bytes of that slot. */
  lemma CameraVectorOffsets()
    ensures OffsetOf(CameraBlock, Std140, 0) == 0 && OffsetOf(CameraBlock, Std140, 1) == 12
    ensures OffsetOf(CameraBlock, Std140, 2) == 16 && OffsetOf(CameraBlock, Std140, 3) == 28
    ensures OffsetOf(CameraBlock, Std140, 4) == 32 && OffsetOf(CameraBlock, Std140, 5) == 44
    ensures OffsetOf(CameraBlock, Std140, 6) == 48 && OffsetOf(CameraBlock, Std140, 7) == 60
  {
    CameraFirstPairs();
    var cb, s := CameraBlock, Std140;
    NextOffset(cb, s, 4, 28, 32);
    NextOffset(cb, s, 5, 32, 44);
    NextOffset(cb, s, 6, 44, 48);
    NextOffset(cb, s, 7, 48, 60);
  }

  lemma CameraFirstPairs()
    ensures OffsetOf(CameraBlock, Std140, 0) == 0 && OffsetOf(CameraBlock, Std140, 1) == 12
    ensures OffsetOf(CameraBlock, Std140, 2) == 16 && OffsetOf(CameraBlock, Std140, 3) == 28
  {
    var cb, s := CameraBlock, Std140;
    assert OffsetOf(cb, s, 0) == 0;
    NextOffset(cb, s, 1, 0, 12);
    NextOffset(cb, s, 2, 12, 16);
    NextOffset(cb, s, 3, 16, 28);
  }

  /** The four scalars tanHalfFov, aspect, moving, _pad4 follow at 64, 68, 72, 76, and the block
      ends at byte 80. */
  lemma CameraScalarOffsets()
    ensures OffsetOf(CameraBlock, Std140, 8) == 64 && OffsetOf(CameraBlock, Std140, 9) == 68
    ensures OffsetOf(CameraBlock, Std140, 10) == 72 && OffsetOf(CameraBlock, Std140, 11) == 76
    ensures BlockEnd(CameraBlock, Std140) == 80
  {
    var cb, s := CameraBlock, Std140;
    CameraVectorOffsets();
    NextOffset(cb, s, 8, 60, 64);
    NextOffset(cb, s, 9, 64, 68);
    NextOffset(cb, s, 10, 68, 72);
    NextOffset(cb, s, 11, 72, 76);
  }

  /** One step of the layout: from the offset of member i - 1 to that of member i. */
  lemma NextOffset(ms: seq<GlslType>, p: Packing, i: nat, prev: nat, next: nat)
    requires 0 < i < |ms| && OffsetOf(ms, p, i - 1) == prev
    requires next == RoundUp(prev + Size(ms[i - 1], p), Align(ms[i], p))
    ensures OffsetOf(ms, p, i) == next
  {
  }

  /** The std140 layout of the disk block: two floats at 0 and 4, ending at byte 8. */
  lemma DiskBlockLayout()
    ensures OffsetOf(DiskBlock, Std140, 0) == 0 && OffsetOf(DiskBlock, Std140, 1) == 4
    ensures BlockEnd(DiskBlock, Std140) == 8
  {
    assert OffsetOf(DiskBlock, Std140, 0) == 0;
  }

  /** The std430 layout of the path buffer: the points array fills bytes [0, 400000) with a
      16-byte stride, the counts follow at 400000 with a 4-byte stride, ending at 400020.
      Under std140 the counts array would take 80 bytes instead of 20. */
  lemma PathsBlockLayout()
    ensures OffsetOf(PathsBlock, Std430, 0) == 0 && OffsetOf(PathsBlock, Std430, 1) == 400000
    ensures Align(PathsBlock[0], Std430) == 16 && Align(PathsBlock[1], Std430) == 4
    ensures BlockEnd(PathsBlock, Std430) == 400020
    ensures BlockEnd(PathsBlock, Std140) == 400080
  {
    assert OffsetOf(PathsBlock, Std430, 0) == 0;
    assert OffsetOf(PathsBlock, Std140, 0) == 0;
  }
}
