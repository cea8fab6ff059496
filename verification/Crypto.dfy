/**
  The link cipher: zero padding and the two CBC modes, over an arbitrary keyed block
  permutation standing for AES (section 6.2 of NIST SP 800-38A describes CBC).
 */
module Crypto {
  import opened Wrappers
  import opened Bytes

  const AES_BLOCK_SIZE := 16
  const CHALLENGE_LENGTH := 16

  type Block = b: bytes | |b| == 16 witness seq(16, _ => 0)

  /** One key of the block cipher: encryption and decryption of a single block. */
  datatype BlockCipher = BlockCipher(encrypt: Block -> Block, decrypt: Block -> Block) {
    /** The one law of AES the protocol relies on. */
    ghost predicate IsPermutation() {
      && (forall b: Block :: decrypt(encrypt(b)) == b)
      && (forall b: Block :: encrypt(decrypt(b)) == b)
    }
  }

  function BitInvert(data: bytes): (r: bytes)
    ensures |r| == |data|
  {
    seq(|data|, i requires 0 <= i < |data| => XorByte(data[i], 0xFF))
  }

  /** Every byte is taken from 0xFF, so no bit stays. */
  lemma BitInvertFlips(data: bytes, i: nat)
    requires i < |data|
    ensures BitInvert(data)[i] == 255 - data[i]
    ensures forall k | 0 <= k < 8 :: Bit(BitInvert(data)[i], k) == 1 - Bit(data[i], k)
  {
    XorByteFlips(data[i], 0);
    forall k | 0 <= k < 8
      ensures Bit(BitInvert(data)[i], k) == 1 - Bit(data[i], k)
    {
      XorByteBit(data[i], 0xFF, k);
      OnesBit(k);
    }
  }

  lemma OnesBit(k: nat)
    requires k < 8
    ensures Bit(255, k) == 1
  {
    assert Bit(255, k) == 1 by {
      if k >= 4 {
        assert Bit(255, k) == Bit(127, k - 1) == Bit(63, k - 2) == Bit(31, k - 3) == Bit(15, k - 4);
      }
    }
  }

  lemma BitInvertTwice(data: bytes)
    ensures BitInvert(BitInvert(data)) == data
  {
    forall i | 0 <= i < |data|
      ensures BitInvert(BitInvert(data))[i] == data[i]
    {
      XorByteCancels(data[i], 0xFF);
    }
  }

  function ZeroPad(data: bytes): (r: bytes)
    ensures |r| % AES_BLOCK_SIZE == 0 && data <= r && |r| < |data| + AES_BLOCK_SIZE
    ensures forall i | |data| <= i < |r| :: r[i] == 0
  {
    data + seq((-|data|) % AES_BLOCK_SIZE, _ => 0)
  }

  /** CBC over whole blocks from the given chaining block. */
  function CbcEncrypt(cipher: BlockCipher, chain: Block, data: bytes): (r: bytes)
    requires |data| % AES_BLOCK_SIZE == 0
    ensures |r| == |data|
    decreases |data|
  {
    if data == [] then []
    else
      var c := cipher.encrypt(XorBytes(data[..16], chain));
      c + CbcEncrypt(cipher, c, data[16..])
  }

  function CbcDecrypt(cipher: BlockCipher, chain: Block, data: bytes): (r: bytes)
    requires |data| % AES_BLOCK_SIZE == 0
    ensures |r| == |data|
    decreases |data|
  {
    if data == [] then []
    else
      XorBytes(cipher.decrypt(data[..16]), chain) + CbcDecrypt(cipher, data[..16], data[16..])
  }

  /** The app's "IV reset" mode: every block is its own CBC run from the IV. */
  function PerBlockEncrypt(cipher: BlockCipher, iv: Block, data: bytes): (r: bytes)
    requires |data| % AES_BLOCK_SIZE == 0
    ensures |r| == |data|
  {
    if data == [] then []
    else CbcEncrypt(cipher, iv, data[..16]) + PerBlockEncrypt(cipher, iv, data[16..])
  }

  function PerBlockDecrypt(cipher: BlockCipher, iv: Block, data: bytes): (r: bytes)
    requires |data| % AES_BLOCK_SIZE == 0
    ensures |r| == |data|
  {
    if data == [] then []
    else CbcDecrypt(cipher, iv, data[..16]) + PerBlockDecrypt(cipher, iv, data[16..])
  }

  /** AES-128-CBC without padding, in the app's two modes. Neither keeps state between calls. */
  datatype Aes128Cbc = Aes128Cbc(cipher: BlockCipher, iv: Block, ivReset: bool) {

    function Encrypt(plaintext: bytes): (r: bytes)
      ensures |r| == |ZeroPad(plaintext)|
    {
      if ivReset then PerBlockEncrypt(cipher, iv, ZeroPad(plaintext))
      else CbcEncrypt(cipher, iv, ZeroPad(plaintext))
    }

    function Decrypt(ciphertext: bytes): Result<bytes> {
      if |ciphertext| % AES_BLOCK_SIZE != 0 then Err(ProtocolError)
      else if ivReset then Ok(PerBlockDecrypt(cipher, iv, ciphertext))
      else Ok(CbcDecrypt(cipher, iv, ciphertext))
    }
  }

  lemma {:induction false} CbcRoundTrip(cipher: BlockCipher, chain: Block, data: bytes)
    requires cipher.IsPermutation()
    requires |data| % AES_BLOCK_SIZE == 0
    ensures CbcDecrypt(cipher, chain, CbcEncrypt(cipher, chain, data)) == data
    decreases |data|
  {
    if data != [] {
      var x := XorBytes(data[..16], chain);
      var c := cipher.encrypt(x);
      var e := CbcEncrypt(cipher, chain, data);
      assert e[..16] == c && e[16..] == CbcEncrypt(cipher, c, data[16..]);
      CbcRoundTrip(cipher, c, data[16..]);
      XorBytesCancels(data[..16], chain);
      assert cipher.decrypt(c) == x;
      assert data == data[..16] + data[16..];
    }
  }

  lemma {:induction false} PerBlockRoundTrip(cipher: BlockCipher, iv: Block, data: bytes)
    requires cipher.IsPermutation()
    requires |data| % AES_BLOCK_SIZE == 0
    ensures PerBlockDecrypt(cipher, iv, PerBlockEncrypt(cipher, iv, data)) == data
    decreases |data|
  {
    if data != [] {
      var e := PerBlockEncrypt(cipher, iv, data);
      assert e[..16] == CbcEncrypt(cipher, iv, data[..16]);
      assert e[16..] == PerBlockEncrypt(cipher, iv, data[16..]);
      CbcRoundTrip(cipher, iv, data[..16]);
      PerBlockRoundTrip(cipher, iv, data[16..]);
      assert data == data[..16] + data[16..];
    }
  }

  /** Decrypting an encrypted message gives it back zero-padded, in both modes. */
  lemma DecryptEncrypt(aes: Aes128Cbc, plaintext: bytes)
    requires aes.cipher.IsPermutation()
    ensures aes.Decrypt(aes.Encrypt(plaintext)) == Ok(ZeroPad(plaintext))
  {
    CbcRoundTrip(aes.cipher, aes.iv, ZeroPad(plaintext));
    PerBlockRoundTrip(aes.cipher, aes.iv, ZeroPad(plaintext));
  }

  /** Block k of whole blocks. */
  function BlockOf(data: bytes, k: nat): (r: Block)
    requires 16 * k + 16 <= |data|
  {
    data[16 * k..16 * k + 16]
  }

  /** In CBC each block is encrypted after an exclusive or with the encrypted one before it, the first with the IV. */
  lemma {:induction false} CbcBlock(cipher: BlockCipher, iv: Block, data: bytes, k: nat)
    requires |data| % AES_BLOCK_SIZE == 0 && 16 * k + 16 <= |data|
    ensures var c := CbcEncrypt(cipher, iv, data);
            BlockOf(c, k)
            == cipher.encrypt(XorBytes(BlockOf(data, k), if k == 0 then iv else BlockOf(c, k - 1)))
    decreases |data|
  {
    var head := cipher.encrypt(XorBytes(data[..16], iv));
    var tail := CbcEncrypt(cipher, head, data[16..]);
    var c := CbcEncrypt(cipher, iv, data);
    assert c == head + tail && BlockOf(c, 0) == head && BlockOf(data, 0) == data[..16];
    if k > 0 {
      CbcBlock(cipher, head, data[16..], k - 1);
      assert BlockOf(c, k) == BlockOf(tail, k - 1) && BlockOf(data, k) == BlockOf(data[16..], k - 1);
      assert k > 1 ==> BlockOf(c, k - 1) == BlockOf(tail, k - 2);
    }
  }

  /** With the IV reset each block is encrypted after an exclusive or with the IV. */
  lemma {:induction false} PerBlockBlock(cipher: BlockCipher, iv: Block, data: bytes, k: nat)
    requires |data| % AES_BLOCK_SIZE == 0 && 16 * k + 16 <= |data|
    ensures BlockOf(PerBlockEncrypt(cipher, iv, data), k) == cipher.encrypt(XorBytes(BlockOf(data, k), iv))
    decreases |data|
  {
    var head, tail := CbcEncrypt(cipher, iv, data[..16]), PerBlockEncrypt(cipher, iv, data[16..]);
    var c := PerBlockEncrypt(cipher, iv, data);
    assert c == head + tail && BlockOf(c, 0) == head && BlockOf(data, 0) == data[..16];
    if k == 0 {
      CbcBlock(cipher, iv, data[..16], 0);
      assert BlockOf(head, 0) == head && BlockOf(data[..16], 0) == data[..16];
    } else {
      PerBlockBlock(cipher, iv, data[16..], k - 1);
      assert BlockOf(c, k) == BlockOf(tail, k - 1) && BlockOf(data, k) == BlockOf(data[16..], k - 1);
    }
  }

  /** Block k of an encrypted message, and how many blocks there are. */
  lemma EncryptedBlock(aes: Aes128Cbc, plaintext: bytes, k: nat)
    requires 16 * k < |plaintext|
    ensures var c := aes.Encrypt(plaintext);
            && |plaintext| <= |c| < |plaintext| + 16 && |c| % 16 == 0
            && BlockOf(c, k)
               == aes.cipher.encrypt(XorBytes(BlockOf(ZeroPad(plaintext), k),
                                              if k == 0 || aes.ivReset then aes.iv else BlockOf(c, k - 1)))
  {
    var padded := ZeroPad(plaintext);
    WholeBlocks(|padded|, k);
    CbcBlock(aes.cipher, aes.iv, padded, k);
    PerBlockBlock(aes.cipher, aes.iv, padded, k);
  }

  lemma WholeBlocks(n: nat, k: nat)
    requires n % 16 == 0 && 16 * k < n
    ensures 16 * k + 16 <= n
  {
  }

  /** For one block the two modes agree, both ways. */
  lemma ModesAgreeOnOneBlock(cipher: BlockCipher, iv: Block, block: Block)
    ensures Aes128Cbc(cipher, iv, true).Encrypt(block) == Aes128Cbc(cipher, iv, false).Encrypt(block)
    ensures Aes128Cbc(cipher, iv, true).Decrypt(block) == Aes128Cbc(cipher, iv, false).Decrypt(block)
  {
    assert ZeroPad(block) == block;
    assert block[..16] == block && block[16..] == [];
    var e, d := CbcEncrypt(cipher, iv, block), CbcDecrypt(cipher, iv, block);
    assert PerBlockEncrypt(cipher, iv, block) == e + [] == e;
    assert PerBlockDecrypt(cipher, iv, block) == d + [] == d;
  }

  /** The UserAuthFinalize payload for a UserAuthBegin challenge. */
  function AnswerOwnerChallenge(challenge: bytes, ownerKey: BlockCipher, linkIv: Block): Result<bytes> {
    if |challenge| != CHALLENGE_LENGTH then Err(ProtocolError)
    else
      var aes := Aes128Cbc(ownerKey, linkIv, false);
      Ok(aes.Encrypt(BitInvert(aes.Decrypt(challenge).value)))
  }

  /** The check on the other end: does the answer decrypt to the challenge with every bit flipped? */
  predicate AnswersChallenge(challenge: bytes, answer: bytes, lockKey: BlockCipher, linkIv: Block, ivReset: bool) {
    var aes := Aes128Cbc(lockKey, linkIv, ivReset);
    aes.Decrypt(challenge).Ok? && aes.Decrypt(answer).Ok?
    && aes.Decrypt(answer).value == BitInvert(aes.Decrypt(challenge).value)
  }

  /**
    The holder of the owner key always answers a 16-byte challenge, with exactly the block
    whose decryption is the bit-inverse of the decrypted challenge: no other block passes, and
    a lock running the cipher in either mode sees the same thing.
   */
  lemma OwnerAnswerIsTheOnlyOne(challenge: bytes, key: BlockCipher, iv: Block, ivReset: bool, answer: bytes)
    requires key.IsPermutation()
    requires |challenge| == CHALLENGE_LENGTH && |answer| == AES_BLOCK_SIZE
    ensures AnswerOwnerChallenge(challenge, key, iv).Ok?
    ensures AnswersChallenge(challenge, answer, key, iv, ivReset)
            <==> answer == AnswerOwnerChallenge(challenge, key, iv).value
  {
    var aes := Aes128Cbc(key, iv, false);
    ModesAgreeOnOneBlock(key, iv, challenge);
    ModesAgreeOnOneBlock(key, iv, answer);
    var want := BitInvert(aes.Decrypt(challenge).value);
    assert ZeroPad(want) == want;
    DecryptEncrypt(aes, want);
    var right := aes.Encrypt(want);
    if aes.Decrypt(answer) == Ok(want) {
      OneBlockDecryptInjective(key, iv, answer, right);
    }
  }

  /** The IV cancels out: the answer is the decrypted challenge, every byte taken from 0xFF, encrypted again. */
  lemma OwnerAnswerIs(challenge: bytes, key: BlockCipher, iv: Block)
    ensures AnswerOwnerChallenge(challenge, key, iv).Ok? <==> |challenge| == 16
    ensures |challenge| == 16 ==>
              var plain := key.decrypt(challenge);
              AnswerOwnerChallenge(challenge, key, iv)
              == Ok(key.encrypt(seq(16, i requires 0 <= i < 16 => 255 - plain[i])))
  {
    if |challenge| == 16 {
      var aes := Aes128Cbc(key, iv, false);
      var plain := key.decrypt(challenge);
      var flipped: bytes := seq(16, i requires 0 <= i < 16 => 255 - plain[i]);
      assert challenge[..16] == challenge && challenge[16..] == [];
      assert CbcDecrypt(key, iv, challenge) == XorBytes(plain, iv) + [] == XorBytes(plain, iv);
      var inverted := BitInvert(XorBytes(plain, iv));
      forall i | 0 <= i < 16
        ensures inverted[i] == XorBytes(flipped, iv)[i]
      {
        BitInvertFlips(XorBytes(plain, iv), i);
        XorByteFlips(plain[i], iv[i]);
      }
      assert inverted == XorBytes(flipped, iv);
      XorBytesCancels(flipped, iv);
      assert ZeroPad(inverted) == inverted && inverted[..16] == inverted && inverted[16..] == [];
      var c := key.encrypt(XorBytes(inverted, iv));
      assert CbcEncrypt(key, iv, inverted) == c + [] == c;
    }
  }

  lemma OneBlockDecryptInjective(key: BlockCipher, iv: Block, a: Block, b: Block)
    requires key.IsPermutation()
    requires CbcDecrypt(key, iv, a) == CbcDecrypt(key, iv, b)
    ensures a == b
  {
    assert a[..16] == a && b[..16] == b && a[16..] == [] && b[16..] == [];
    var x, y := key.decrypt(a), key.decrypt(b);
    assert CbcDecrypt(key, iv, a) == XorBytes(x, iv) + [] == XorBytes(x, iv);
    assert CbcDecrypt(key, iv, b) == XorBytes(y, iv) + [] == XorBytes(y, iv);
    XorBytesCancels(x, iv);
    XorBytesCancels(y, iv);
    assert key.encrypt(x) == a && key.encrypt(y) == b;
  }
}
