/**
 * Cipher-block chaining, section 6.2 of NIST SP 800-38A, over a keyed block function that stands for AES.
 * The block function itself is a parameter; the chaining, the key/IV/alignment checks that the AES
 * library performs before encrypting, and the inverse direction are modelled.
 */
module Cbc {
  import opened Common
  import opened Text
  import opened Encoding

  /** One 128-bit block. */
  type Block = b: seq<byte> | |b| == 16 witness seq(16, _ => 0)

  /** A keyed block permutation E(key, block), such as AES under a 16-, 24- or 32-byte key. */
  type BlockCipher = (seq<byte>, Block) -> Block

  function Pow2(k: nat): (r: nat)
    ensures r >= 1
  {
    if k == 0 then 1 else 2 * Pow2(k - 1)
  }

  /** Bitwise exclusive or of the low `k` bits of `a` and `b`, least significant bit first. */
  function XorBits(a: nat, b: nat, k: nat): (r: nat)
    ensures r < Pow2(k)
  {
    if k == 0 then 0 else (if a % 2 == b % 2 then 0 else 1) + 2 * XorBits(a / 2, b / 2, k - 1)
  }

  lemma XorBitsStep(a: nat, b: nat, k: nat)
    requires k > 0
    ensures XorBits(a, b, k) == (if a % 2 == b % 2 then 0 else 1) + 2 * XorBits(a / 2, b / 2, k - 1)
  {
  }

  lemma BitPair(bit: nat, rest: nat)
    requires bit < 2
    ensures (bit + 2 * rest) % 2 == bit && (bit + 2 * rest) / 2 == rest
  {
  }

  lemma HalfBelow(a: nat, k: nat)
    requires k > 0 && a < Pow2(k)
    ensures a / 2 < Pow2(k - 1)
  {
  }

  /** Exclusive or with the same bits twice is the identity on numbers of `k` bits. */
  lemma {:induction false} XorBitsCancel(a: nat, b: nat, k: nat)
    requires a < Pow2(k)
    ensures XorBits(XorBits(a, b, k), b, k) == a
  {
    if k > 0 {
      var bit, rest := (if a % 2 == b % 2 then 0 else 1), XorBits(a / 2, b / 2, k - 1);
      XorBitsStep(a, b, k);
      BitPair(bit, rest);
      HalfBelow(a, k);
      XorBitsCancel(a / 2, b / 2, k - 1);
      XorBitsStep(bit + 2 * rest, b, k);
      assert a == a % 2 + 2 * (a / 2);
    }
  }

  function XorByte(a: byte, b: byte): (r: byte) {
    assert Pow2(8) == 256;
    XorBits(a, b, 8)
  }

  lemma XorByteCancel(a: byte, b: byte)
    ensures XorByte(XorByte(a, b), b) == a
  {
    assert Pow2(8) == 256;
    XorBitsCancel(a, b, 8);
  }

  function XorBlock(a: Block, b: Block): (r: Block) {
    seq(16, i requires 0 <= i < 16 => XorByte(a[i], b[i]))
  }

  lemma XorBlockCancel(a: Block, b: Block)
    ensures XorBlock(XorBlock(a, b), b) == a
  {
    var c := XorBlock(XorBlock(a, b), b);
    forall i | 0 <= i < 16 ensures c[i] == a[i] {
      XorByteCancel(a[i], b[i]);
    }
  }

  /** C_1 = E(P_1 xor IV), C_j = E(P_j xor C_{j-1}). */
  function CbcEncrypt(E: BlockCipher, key: seq<byte>, iv: Block, data: seq<byte>): (r: seq<byte>)
    requires |data| % 16 == 0
    ensures |r| == |data|
    decreases |data|
  {
    if data == [] then []
    else
      var c := E(key, XorBlock(data[..16], iv));
      c + CbcEncrypt(E, key, c, data[16..])
  }

  /** P_j = D(C_j) xor C_{j-1}, with C_0 = IV. */
  function CbcDecrypt(D: BlockCipher, key: seq<byte>, iv: Block, data: seq<byte>): (r: seq<byte>)
    requires |data| % 16 == 0
    ensures |r| == |data|
    decreases |data|
  {
    if data == [] then []
    else
      var c: Block := data[..16];
      XorBlock(D(key, c), iv) + CbcDecrypt(D, key, c, data[16..])
  }

  /** Decrypting with the inverse block function under the same key and IV gives the plaintext back. */
  lemma {:induction false} CbcRoundTrip(E: BlockCipher, D: BlockCipher, key: seq<byte>, iv: Block, data: seq<byte>)
    requires |data| % 16 == 0
    requires forall b: Block :: D(key, E(key, b)) == b
    ensures CbcDecrypt(D, key, iv, CbcEncrypt(E, key, iv, data)) == data
    decreases |data|
  {
    if data != [] {
      var p: Block := data[..16];
      var x := XorBlock(p, iv);
      var c := E(key, x);
      var ct := CbcEncrypt(E, key, iv, data);
      assert ct == c + CbcEncrypt(E, key, c, data[16..]);
      assert ct[..16] == c && ct[16..] == CbcEncrypt(E, key, c, data[16..]);
      XorBlockCancel(p, iv);
      CbcRoundTrip(E, D, key, c, data[16..]);
      assert data == p + data[16..];
    }
  }

  /**
   * `AES.new(key, AES.MODE_CBC, iv).encrypt(data)`: the library refuses a key that is not 16, 24 or 32 bytes,
   * an IV that is not one block, and data that is not a whole number of blocks, each with ValueError.
   */
  function AesCbcEncrypt(E: BlockCipher, key: seq<byte>, iv: seq<byte>, data: seq<byte>): (r: Result<seq<byte>>)
    ensures r.Ok? <==> (|key| == 16 || |key| == 24 || |key| == 32) && |iv| == 16 && |data| % 16 == 0
    ensures r.Ok? ==> |r.value| == |data| && r.value == CbcEncrypt(E, key, iv, data)
    ensures r.Err? ==> r.exc.kind == ValueError
  {
    if !(|key| == 16 || |key| == 24 || |key| == 32) then
      Err(Exc(ValueError, "Incorrect AES key length (" + NatToDecimal(|key|) + " bytes)"))
    else if |iv| != 16 then
      Err(Exc(ValueError, "Incorrect IV length (it must be 16 bytes long)"))
    else if |data| % 16 != 0 then
      Err(Exc(ValueError, "Data must be padded to 16 byte boundary in CBC mode"))
    else
      Ok(CbcEncrypt(E, key, iv, data))
  }
}
