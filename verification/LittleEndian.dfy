/** How the machine lays an unsigned integer out in memory: least significant byte first. */
module LittleEndian {
  type byte = x: int | 0 <= x < 256

  function Power256(w: nat): (p: nat)
    ensures p > 0
  {
    if w == 0 then 1 else 256 * Power256(w - 1)
  }

  function ToBytes(n: nat, w: nat): (s: seq<byte>)
    ensures |s| == w
    decreases w
  {
    if w == 0 then [] else [n % 256] + ToBytes(n / 256, w - 1)
  }

  function FromBytes(s: seq<byte>): nat {
    if s == [] then 0 else s[0] + 256 * FromBytes(s[1..])
  }

  /** Storing an integer that fits and loading it again gives the integer. */
  lemma {:induction false} LoadStored(n: nat, w: nat)
    requires n < Power256(w)
    ensures FromBytes(ToBytes(n, w)) == n
    decreases w
  {
    if w > 0 {
      LoadStored(n / 256, w - 1);
      assert ToBytes(n, w)[1..] == ToBytes(n / 256, w - 1);
    }
  }

  lemma EightBytes()
    ensures Power256(8) == 0x1_0000_0000_0000_0000
  {
    assert Power256(4) == 0x1_0000_0000;
    assert Power256(8) == 256 * (256 * (256 * (256 * Power256(4))));
  }

  /** std::streamsize: the 64-bit word read as a signed integer. */
  function Signed64(n: nat): int {
    if n < 0x8000_0000_0000_0000 then n else n - 0x1_0000_0000_0000_0000
  }

  /** A size below 2^63 survives as a 64-bit word, signed or unsigned. */
  lemma LoadStoredSize(n: nat)
    requires n < 0x8000_0000_0000_0000
    ensures FromBytes(ToBytes(n, 8)) == n == Signed64(FromBytes(ToBytes(n, 8)))
  {
    EightBytes();
    LoadStored(n, 8);
  }

  /** Only the first byte matters for an integer below 256. */
  lemma FirstByte(n: nat, w: nat)
    requires n < 256 && w > 0
    ensures ToBytes(n, w)[0] == n
  {
  }
}
