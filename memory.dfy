/** The flat byte store of src/memory.h and src/memory.cpp: a zero-filled
    array of MaxSize bytes whose display region, 240 x 160 RGBA pixels at
    DisplayBufferAddress, is painted with one colour in its first half and
    another in its second half. */
module GbaMemory {

  const MaxSize: nat := 0xFFFF_FFFF
  /** `1 << 30` */
  const DisplayBufferAddress: nat := (1 as bv32 << 30) as nat
  /** 240 x 160 pixels of four bytes each. */
  const DisplayBufferSize: nat := 240 * 160 * 4
  /** The offset within the display region where the second colour starts. */
  const DisplayBufferHalf: nat := DisplayBufferSize / 2

  /** The pixel of the first half: R = 0x00, G = 0x00, B = 0xFF, A = 0x00. */
  const FirstHalfPixel: seq<bv8> := [0x00, 0x00, 0xFF, 0x00]
  /** The pixel of the second half: R = 0x00, G = 0xFF, B = 0xFF, A = 0xFF. */
  const SecondHalfPixel: seq<bv8> := [0x00, 0xFF, 0xFF, 0xFF]

  /** The display region is 153600 bytes at 0x40000000, inside the store, and
      its halves meet on a pixel boundary. */
  lemma DisplayLayout()
    ensures DisplayBufferAddress == 0x4000_0000
    ensures DisplayBufferSize == 153600 && DisplayBufferSize % 4 == 0
    ensures DisplayBufferAddress + DisplayBufferSize <= MaxSize
    ensures DisplayBufferHalf % 4 == 0
  {
  }

  predicate InDisplayBuffer(a: nat) {
    DisplayBufferAddress <= a < DisplayBufferAddress + DisplayBufferSize
  }

  /** The byte at offset k of the display region after construction. */
  function InitialDisplayByte(k: int): bv8 {
    if k < DisplayBufferHalf then FirstHalfPixel[k % 4] else SecondHalfPixel[k % 4]
  }

  /** The display region as the constructor leaves it. */
  function InitialDisplay(): (d: seq<bv8>)
    ensures |d| == DisplayBufferSize
  {
    seq(DisplayBufferSize, k => InitialDisplayByte(k))
  }

  /** Every pixel of the constructed display region, at a 4-aligned offset i,
      holds the colour of its half. */
  lemma InitialDisplayPixel(i: nat)
    requires i % 4 == 0 && i < DisplayBufferSize
    ensures i + 4 <= DisplayBufferSize
    ensures InitialDisplay()[i..i + 4] == if i < DisplayBufferHalf then FirstHalfPixel else SecondHalfPixel
  {
    var pixel := if i < DisplayBufferHalf then FirstHalfPixel else SecondHalfPixel;
    forall j | 0 <= j < 4
      ensures InitialDisplay()[i + j] == pixel[j]
    {
      assert (i + j) % 4 == j;
      assert i + j < DisplayBufferHalf <==> i < DisplayBufferHalf;
    }
  }

  /** The four byte stores of one loop iteration: R, G, B and A at a, a+1, a+2, a+3. */
  method WritePixel(m: array<bv8>, a: nat, r: bv8, g: bv8, b: bv8, alpha: bv8)
    requires a + 4 <= m.Length
    modifies m
    ensures m[a] == r && m[a + 1] == g && m[a + 2] == b && m[a + 3] == alpha
    ensures forall x :: 0 <= x < m.Length && !(a <= x < a + 4) ==> m[x] == old(m[x])
  {
    m[a] := r;
    m[a + 1] := g;
    m[a + 2] := b;
    m[a + 3] := alpha;
  }

  class Memory {
    var memory: array<bv8>

    ghost predicate Valid()
      reads this
    {
      memory.Length == MaxSize
    }

    /** Memory::Memory: the vector is value-initialised to zero; the first loop
        paints the first half of the display region pixel by pixel, the second
        loop the second half. */
    constructor ()
      ensures Valid() && fresh(memory)
      ensures forall a :: 0 <= a < MaxSize && !InDisplayBuffer(a) ==> memory[a] == 0
      ensures forall k :: 0 <= k < DisplayBufferHalf ==>
        memory[DisplayBufferAddress + k] == FirstHalfPixel[k % 4]
      ensures forall k :: DisplayBufferHalf <= k < DisplayBufferSize ==>
        memory[DisplayBufferAddress + k] == SecondHalfPixel[k % 4]
    {
      var m := new bv8[MaxSize](_ => 0);
      var i := 0;
      while i < DisplayBufferHalf
        invariant i % 4 == 0 && i <= DisplayBufferHalf
        invariant forall k :: 0 <= k < i ==> m[DisplayBufferAddress + k] == FirstHalfPixel[k % 4]
        invariant forall a :: 0 <= a < MaxSize && !(DisplayBufferAddress <= a < DisplayBufferAddress + i) ==> m[a] == 0
      {
        WritePixel(m, DisplayBufferAddress + i, 0x00, 0x00, 0xFF, 0x00);
        i := i + 4;
      }
      while i < DisplayBufferSize
        invariant i % 4 == 0 && DisplayBufferHalf <= i <= DisplayBufferSize
        invariant forall k :: 0 <= k < DisplayBufferHalf ==> m[DisplayBufferAddress + k] == FirstHalfPixel[k % 4]
        invariant forall k :: DisplayBufferHalf <= k < i ==> m[DisplayBufferAddress + k] == SecondHalfPixel[k % 4]
        invariant forall a :: 0 <= a < MaxSize && !(DisplayBufferAddress <= a < DisplayBufferAddress + i) ==> m[a] == 0
      {
        WritePixel(m, DisplayBufferAddress + i, 0x00, 0xFF, 0xFF, 0xFF);
        i := i + 4;
      }
      memory := m;
    }

    /** getDisplayBuffer: a read-only window of DisplayBufferSize bytes
        starting at DisplayBufferAddress. */
    function DisplayBuffer(): (window: seq<bv8>)
      reads this, memory
      requires Valid()
      ensures |window| == DisplayBufferSize
      ensures forall k :: 0 <= k < DisplayBufferSize ==> window[k] == memory[DisplayBufferAddress + k]
    {
      memory[DisplayBufferAddress..DisplayBufferAddress + DisplayBufferSize]
    }

    /** loadBIOS: memcpy of the image to address 0.  Bytes from |bios| on are
        untouched, so an image shorter than DisplayBufferAddress leaves the
        display region as it was. */
    method LoadBIOS(bios: seq<bv8>)
      requires Valid() && |bios| <= memory.Length
      modifies memory
      ensures Valid()
      ensures forall k :: 0 <= k < |bios| ==> memory[k] == bios[k]
      ensures forall k :: |bios| <= k < memory.Length ==> memory[k] == old(memory[k])
      ensures |bios| <= DisplayBufferAddress ==> DisplayBuffer() == old(DisplayBuffer())
    {
      forall k | 0 <= k < |bios| {
        memory[k] := bios[k];
      }
    }
  }

  /** A freshly constructed store, after a BIOS image no longer than
      DisplayBufferAddress is loaded, shows the constructed display pattern. */
  method BootDisplay(bios: seq<bv8>) returns (display: seq<bv8>)
    requires |bios| <= DisplayBufferAddress
    ensures display == InitialDisplay()
  {
    var mem := new Memory();
    mem.LoadBIOS(bios);
    display := mem.DisplayBuffer();
    assert forall k :: 0 <= k < DisplayBufferSize ==> display[k] == InitialDisplay()[k];
  }
}
