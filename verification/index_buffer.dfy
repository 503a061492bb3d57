/** The shared index buffer: two triangles per sprite slot, stored as 16-bit
    unsigned integers. */
module IndexBuffer {
  import opened Batching

  /** Storing an integer into a Uint16Array keeps it modulo 2^16. */
  function ToUint16(n: int): int
  {
    n % 0x1_0000
  }

  /** Values below 2^16 are stored unchanged. */
  lemma Uint16Small(n: int)
    requires 0 <= n < 0x1_0000
    ensures ToUint16(n) == n
  {
  }

  /** Corner of the quad each of the six indices of a sprite refers to: triangle
      TL, TR, BR followed by triangle BR, BL, TL. */
  function CornerOf(j: nat): nat
    requires j < INDICES_PER_SPRITE
  {
    [0, 1, 2, 2, 3, 0][j]
  }

  /** The entry at position `k` of the index buffer: one of the four vertices
      of sprite slot k / 6, so no index reaches into another slot's quad. */
  function IndexAt(k: nat): (r: nat)
    ensures 4 * (k / INDICES_PER_SPRITE) <= r < 4 * (k / INDICES_PER_SPRITE) + 4
  {
    4 * (k / INDICES_PER_SPRITE) + CornerOf(k % INDICES_PER_SPRITE)
  }

  lemma IndexAtSlot(i: nat, j: nat)
    requires j < INDICES_PER_SPRITE
    ensures IndexAt(i * INDICES_PER_SPRITE + j) == 4 * i + CornerOf(j)
  {
  }

  /** Builds the contents of the index buffer. Every entry addresses a vertex of
      its own sprite slot, below 4 * MAX_SPRITES, so the 16-bit store loses
      nothing. */
  method IndexData() returns (data: seq<int>)
    ensures |data| == MAX_SPRITES * INDICES_PER_SPRITE
    ensures forall k | 0 <= k < |data| :: data[k] == IndexAt(k)
    ensures forall k | 0 <= k < |data| :: 0 <= data[k] < 4 * MAX_SPRITES
  {
    var a := new int[MAX_SPRITES * INDICES_PER_SPRITE];
    for i := 0 to MAX_SPRITES
      invariant forall k | 0 <= k < i * INDICES_PER_SPRITE :: a[k] == IndexAt(k)
    {
      WriteSlot(a, i);
    }
    data := a[..];
    forall k | 0 <= k < |data| ensures 0 <= data[k] < 4 * MAX_SPRITES {
      assert k / INDICES_PER_SPRITE < MAX_SPRITES;
    }
  }

  /** Writes the six indices of sprite slot `i`: triangles (4i, 4i+1, 4i+2)
      and (4i+2, 4i+3, 4i). */
  method WriteSlot(a: array<int>, i: nat)
    requires i < MAX_SPRITES && a.Length == MAX_SPRITES * INDICES_PER_SPRITE
    modifies a
    ensures forall k | 0 <= k < a.Length ::
      a[k] == if i * INDICES_PER_SPRITE <= k < (i + 1) * INDICES_PER_SPRITE then IndexAt(k) else old(a[k])
  {
    var base := i * INDICES_PER_SPRITE;
    var first := i * 4;
    Uint16Small(first);
    Uint16Small(first + 1);
    Uint16Small(first + 2);
    Uint16Small(first + 3);
    // first triangle
    a[base + 0] := ToUint16(first + 0);
    a[base + 1] := ToUint16(first + 1);
    a[base + 2] := ToUint16(first + 2);
    // second triangle
    a[base + 3] := ToUint16(first + 2);
    a[base + 4] := ToUint16(first + 3);
    a[base + 5] := ToUint16(first + 0);
    forall k | base <= k < base + INDICES_PER_SPRITE ensures a[k] == IndexAt(k) {
      IndexAtSlot(i, k - base);
    }
  }

  /** Sprite `i` of the buffer is the index run 4i, 4i+1, 4i+2, 4i+2, 4i+3, 4i. */
  lemma {:induction false} SpriteIndices(data: seq<int>, i: nat)
    requires |data| == MAX_SPRITES * INDICES_PER_SPRITE
    requires forall k | 0 <= k < |data| :: data[k] == IndexAt(k)
    requires i < MAX_SPRITES
    ensures data[i * INDICES_PER_SPRITE .. (i + 1) * INDICES_PER_SPRITE]
         == [4 * i, 4 * i + 1, 4 * i + 2, 4 * i + 2, 4 * i + 3, 4 * i]
  {
    IndexAtSlot(i, 0);
    IndexAtSlot(i, 1);
    IndexAtSlot(i, 2);
    IndexAtSlot(i, 3);
    IndexAtSlot(i, 4);
    IndexAtSlot(i, 5);
  }
}
