/**
  The WeChat envelope codec: CBC chaining with a zero initialisation vector (section
  6.2 of NIST SP 800-38A), PKCS#7 padding (section 6.3 of RFC 5652), and the frame of
  prefix, big-endian length, message and enterprise id. The block cipher and base64
  are parameters; nothing is used of them but that they are invertible.
 */
module WechatCodec {
  import opened Common
  import opened Utf8

  const BLOCK_SIZE: nat := 16

  type Block = b: seq<Byte> | |b| == BLOCK_SIZE witness seq(BLOCK_SIZE, _ => 0)

  const ZERO: Block := [0, 0, 0, 0, 0, 0, 0, 0, 0, 0, 0, 0, 0, 0, 0, 0]

  datatype CryptoError = Base64Error | Aes | InvalidUtf8 | InvalidLength | CorpIdMismatch

  datatype Cipher = Cipher(enc: Block -> Block, dec: Block -> Block)

  /** A block cipher under a fixed key is a permutation of the blocks. */
  ghost predicate Invertible(c: Cipher) {
    && (forall b: Block :: c.dec(c.enc(b)) == b)
    && (forall b: Block :: c.enc(c.dec(b)) == b)
  }

  // ---------------------------------------------------------------------------
  // Exclusive or
  // ---------------------------------------------------------------------------

  function XorBits(a: nat, b: nat): nat
    decreases a + b
  {
    if a == 0 && b == 0 then 0 else 2 * XorBits(a / 2, b / 2) + (a + b) % 2
  }

  function Pow2(k: nat): nat {
    if k == 0 then 1 else 2 * Pow2(k - 1)
  }

  lemma {:induction false} XorBound(a: nat, b: nat, k: nat)
    requires a < Pow2(k) && b < Pow2(k)
    ensures XorBits(a, b) < Pow2(k)
    decreases k
  {
    if k > 0 { XorBound(a / 2, b / 2, k - 1); }
  }

  lemma HalfAndParity(half: nat, a: nat, b: nat, x: nat)
    requires x == 2 * half + (a + b) % 2
    ensures x / 2 == half && (x + b) % 2 == a % 2
  {
  }

  lemma XorUnfold(a: nat, b: nat)
    ensures XorBits(a, b) == 2 * XorBits(a / 2, b / 2) + (a + b) % 2
    ensures XorBits(0, 0) == 0
  {
  }

  lemma {:induction false} XorCancel(a: nat, b: nat)
    ensures XorBits(XorBits(a, b), b) == a
    decreases a + b
  {
    hide XorBits;
    var x := XorBits(a, b);
    XorUnfold(a, b);
    XorUnfold(x, b);
    HalfAndParity(XorBits(a / 2, b / 2), a, b, x);
    if a != 0 || b != 0 {
      XorCancel(a / 2, b / 2);
    }
  }

  function XorByte(a: Byte, b: Byte): Byte {
    assert Pow2(8) == 256;
    XorBound(a, b, 8);
    XorBits(a, b)
  }

  function XorBlock(a: Block, b: Block): Block {
    seq(BLOCK_SIZE, i requires 0 <= i < BLOCK_SIZE => XorByte(a[i], b[i]))
  }

  /** Bit `k` of a number, the least significant first. */
  predicate Bit(x: nat, k: nat) {
    if k == 0 then x % 2 == 1 else Bit(x / 2, k - 1)
  }

  /** The exclusive or has a bit set exactly when one of its operands does and the other does not. */
  lemma {:induction false} XorBit(a: nat, b: nat, k: nat)
    ensures Bit(XorBits(a, b), k) == (Bit(a, k) != Bit(b, k))
    decreases k
  {
    hide XorBits;
    XorUnfold(a, b);
    var x := XorBits(a, b);
    HalfAndParity(XorBits(a / 2, b / 2), a, b, x);
    if k > 0 {
      XorBit(a / 2, b / 2, k - 1);
    }
  }

  /** Every bit of every byte of a block is the exclusive or of the two. */
  lemma XorBlockBits(a: Block, b: Block, i: nat, k: nat)
    requires i < BLOCK_SIZE
    ensures Bit(XorBlock(a, b)[i], k) == (Bit(a[i], k) != Bit(b[i], k))
  {
    hide XorBits, Bit;
    XorBit(a[i], b[i], k);
  }

  lemma XorBlockCancel(a: Block, b: Block)
    ensures XorBlock(XorBlock(a, b), b) == a
  {
    forall i | 0 <= i < BLOCK_SIZE ensures XorBlock(XorBlock(a, b), b)[i] == a[i] {
      XorCancel(a[i], b[i]);
    }
  }

  // ---------------------------------------------------------------------------
  // Cipher block chaining
  // ---------------------------------------------------------------------------

  function CbcEncrypt(c: Cipher, prev: Block, plain: seq<Byte>): (r: seq<Byte>)
    requires |plain| % BLOCK_SIZE == 0
    ensures |r| == |plain|
    decreases |plain|
  {
    if plain == [] then []
    else
      var blk := c.enc(XorBlock(plain[..BLOCK_SIZE], prev));
      blk + CbcEncrypt(c, blk, plain[BLOCK_SIZE..])
  }

  function CbcDecrypt(c: Cipher, prev: Block, cipher: seq<Byte>): (r: seq<Byte>)
    requires |cipher| % BLOCK_SIZE == 0
    ensures |r| == |cipher|
    decreases |cipher|
  {
    if cipher == [] then []
    else
      XorBlock(c.dec(cipher[..BLOCK_SIZE]), prev) + CbcDecrypt(c, cipher[..BLOCK_SIZE], cipher[BLOCK_SIZE..])
  }

  /** Block `i` of a message of whole blocks. */
  function BlockAt(s: seq<Byte>, i: nat): Block
    requires BLOCK_SIZE * (i + 1) <= |s|
  {
    s[BLOCK_SIZE * i..BLOCK_SIZE * (i + 1)]
  }

  /** The block before block `i`: the initial one at the start. */
  function Before(first: Block, s: seq<Byte>, i: nat): Block
    requires BLOCK_SIZE * i <= |s|
  {
    if i == 0 then first else BlockAt(s, i - 1)
  }

  /** `out` is `in_` exclusive-ored with `mask`, bit by bit. */
  ghost predicate IsXor(out: Block, in_: Block, mask: Block) {
    forall j: nat, k: nat :: j < BLOCK_SIZE && k < 8 ==> Bit(out[j], k) == (Bit(in_[j], k) != Bit(mask[j], k))
  }

  lemma XorBlockIsXor(a: Block, b: Block)
    ensures IsXor(XorBlock(a, b), a, b)
  {
    hide Bit, XorBlock;
    forall j: nat, k: nat | j < BLOCK_SIZE && k < 8
      ensures Bit(XorBlock(a, b)[j], k) == (Bit(a[j], k) != Bit(b[j], k))
    {
      XorBlockBits(a, b, j, k);
    }
  }

  /** Cipher block `i` is the encryption of plain block `i` exclusive-ored with the cipher block before it. */
  ghost predicate ChainedAt(c: Cipher, first: Block, plain: seq<Byte>, cipher: seq<Byte>, i: nat)
    requires |plain| == |cipher| && BLOCK_SIZE * (i + 1) <= |plain|
  {
    exists mixed: Block ::
      IsXor(mixed, BlockAt(plain, i), Before(first, cipher, i)) && BlockAt(cipher, i) == c.enc(mixed)
  }

  /** The law of cipher block chaining, block by block. */
  ghost predicate Chained(c: Cipher, first: Block, plain: seq<Byte>, cipher: seq<Byte>) {
    && |plain| == |cipher|
    && forall i: nat :: BLOCK_SIZE * (i + 1) <= |plain| ==> ChainedAt(c, first, plain, cipher, i)
  }

  lemma TailBlock(head: Block, rest: seq<Byte>, first: Block, i: nat)
    requires BLOCK_SIZE * (i + 1) <= |rest|
    ensures BlockAt(head + rest, i + 1) == BlockAt(rest, i)
    ensures Before(first, head + rest, i + 1) == Before(head, rest, i)
  {
    var all := head + rest;
    assert BlockAt(all, i + 1) == BlockAt(rest, i);
    if i == 0 {
      assert BlockAt(all, 0) == head;
    } else {
      assert BlockAt(all, i) == BlockAt(rest, i - 1);
    }
  }

  /** CBC encryption satisfies the chaining law from any initial block. */
  lemma {:induction false} CbcChains(c: Cipher, first: Block, plain: seq<Byte>)
    requires |plain| % BLOCK_SIZE == 0
    ensures Chained(c, first, plain, CbcEncrypt(c, first, plain))
    decreases |plain|
  {
    hide IsXor, XorBlock;
    if plain != [] {
      var head: Block, rest := plain[..BLOCK_SIZE], plain[BLOCK_SIZE..];
      var blk := c.enc(XorBlock(head, first));
      var tail: seq<Byte> := CbcEncrypt(c, blk, rest);
      var all: seq<Byte> := CbcEncrypt(c, first, plain);
      assert all == blk + tail && plain == head + rest;
      CbcChains(c, blk, rest);
      forall i: nat | BLOCK_SIZE * (i + 1) <= |plain| ensures ChainedAt(c, first, plain, all, i) {
        if i == 0 {
          XorBlockIsXor(head, first);
          assert BlockAt(plain, 0) == head && BlockAt(all, 0) == blk;
        } else {
          var j: nat := i - 1;
          assert ChainedAt(c, blk, rest, tail, j);
          TailBlock(head, rest, first, j);
          TailBlock(blk, tail, first, j);
          var mixed: Block :| IsXor(mixed, BlockAt(rest, j), Before(blk, tail, j)) && BlockAt(tail, j) == c.enc(mixed);
        }
      }
    }
  }

  /** Plain block `i` is the decryption of cipher block `i` exclusive-ored with the cipher block before it. */
  ghost predicate UnchainedAt(c: Cipher, first: Block, cipher: seq<Byte>, plain: seq<Byte>, i: nat)
    requires |plain| == |cipher| && BLOCK_SIZE * (i + 1) <= |plain|
  {
    IsXor(BlockAt(plain, i), c.dec(BlockAt(cipher, i)), Before(first, cipher, i))
  }

  ghost predicate Unchained(c: Cipher, first: Block, cipher: seq<Byte>, plain: seq<Byte>) {
    && |plain| == |cipher|
    && forall i: nat :: BLOCK_SIZE * (i + 1) <= |plain| ==> UnchainedAt(c, first, cipher, plain, i)
  }

  /** CBC decryption satisfies the law of section 6.2 of NIST SP 800-38A from any initial block. */
  lemma {:induction false} CbcUnchains(c: Cipher, first: Block, cipher: seq<Byte>)
    requires |cipher| % BLOCK_SIZE == 0
    ensures Unchained(c, first, cipher, CbcDecrypt(c, first, cipher))
    decreases |cipher|
  {
    hide IsXor, XorBlock;
    if cipher != [] {
      var head: Block, rest := cipher[..BLOCK_SIZE], cipher[BLOCK_SIZE..];
      var blk := XorBlock(c.dec(head), first);
      var tail: seq<Byte> := CbcDecrypt(c, head, rest);
      var all: seq<Byte> := CbcDecrypt(c, first, cipher);
      assert all == blk + tail && cipher == head + rest;
      CbcUnchains(c, head, rest);
      forall i: nat | BLOCK_SIZE * (i + 1) <= |cipher| ensures UnchainedAt(c, first, cipher, all, i) {
        if i == 0 {
          XorBlockIsXor(c.dec(head), first);
          assert BlockAt(cipher, 0) == head && BlockAt(all, 0) == blk;
        } else {
          var j: nat := i - 1;
          assert UnchainedAt(c, head, rest, tail, j);
          TailBlock(head, rest, first, j);
          TailBlock(blk, tail, first, j);
        }
      }
    }
  }

  lemma {:induction false} CbcDecryptsWhatItEncrypts(c: Cipher, prev: Block, plain: seq<Byte>)
    requires Invertible(c) && |plain| % BLOCK_SIZE == 0
    ensures CbcDecrypt(c, prev, CbcEncrypt(c, prev, plain)) == plain
    decreases |plain|
  {
    if plain != [] {
      var head: Block := plain[..BLOCK_SIZE];
      var blk := c.enc(XorBlock(head, prev));
      var rest: seq<Byte> := CbcEncrypt(c, blk, plain[BLOCK_SIZE..]);
      var all: seq<Byte> := CbcEncrypt(c, prev, plain);
      assert all[..BLOCK_SIZE] == blk && all[BLOCK_SIZE..] == rest;
      XorBlockCancel(head, prev);
      CbcDecryptsWhatItEncrypts(c, blk, plain[BLOCK_SIZE..]);
    }
  }

  lemma {:induction false} CbcEncryptsWhatItDecrypts(c: Cipher, prev: Block, cipher: seq<Byte>)
    requires Invertible(c) && |cipher| % BLOCK_SIZE == 0
    ensures CbcEncrypt(c, prev, CbcDecrypt(c, prev, cipher)) == cipher
    decreases |cipher|
  {
    if cipher != [] {
      var blk: Block := cipher[..BLOCK_SIZE];
      var head := XorBlock(c.dec(blk), prev);
      var rest: seq<Byte> := CbcDecrypt(c, blk, cipher[BLOCK_SIZE..]);
      var all: seq<Byte> := CbcDecrypt(c, prev, cipher);
      assert all[..BLOCK_SIZE] == head && all[BLOCK_SIZE..] == rest;
      XorBlockCancel(c.dec(blk), prev);
      CbcEncryptsWhatItDecrypts(c, blk, cipher[BLOCK_SIZE..]);
    }
  }

  /** The inner byte loop of both directions. */
  method XorInto(block: Block, prev: Block) returns (arr: Block)
    ensures arr == XorBlock(block, prev) && IsXor(arr, block, prev)
  {
    XorBlockIsXor(block, prev);
    arr := block;
    for i := 0 to BLOCK_SIZE
      invariant |arr| == BLOCK_SIZE
      invariant forall j :: 0 <= j < i ==> arr[j] == XorByte(block[j], prev[j])
      invariant forall j :: i <= j < BLOCK_SIZE ==> arr[j] == block[j]
    {
      arr := arr[i := XorByte(arr[i], prev[i])];
    }
  }

  /** One block of the encryption loop. */
  lemma EncryptStep(c: Cipher, prev: Block, plain: seq<Byte>, at: nat, done: seq<Byte>)
    requires at < |plain| && at % BLOCK_SIZE == 0 && |plain| % BLOCK_SIZE == 0
    ensures at + BLOCK_SIZE <= |plain|
    ensures var blk := c.enc(XorBlock(plain[at..][..BLOCK_SIZE], prev));
            (done + blk) + CbcEncrypt(c, blk, plain[at + BLOCK_SIZE..]) == done + CbcEncrypt(c, prev, plain[at..])
  {
    hide XorBlock;
    assert plain[at..][BLOCK_SIZE..] == plain[at + BLOCK_SIZE..];
  }

  /** One block of the decryption loop. */
  lemma DecryptStep(c: Cipher, prev: Block, cipher: seq<Byte>, at: nat, done: seq<Byte>)
    requires at < |cipher| && at % BLOCK_SIZE == 0 && |cipher| % BLOCK_SIZE == 0
    ensures at + BLOCK_SIZE <= |cipher|
    ensures var current: Block := cipher[at..][..BLOCK_SIZE];
            (done + XorBlock(c.dec(current), prev)) + CbcDecrypt(c, current, cipher[at + BLOCK_SIZE..])
            == done + CbcDecrypt(c, prev, cipher[at..])
  {
    hide XorBlock;
    assert cipher[at..][BLOCK_SIZE..] == cipher[at + BLOCK_SIZE..];
  }

  /** `encrypt_cbc`. */
  method EncryptCbc(c: Cipher, plaintext: seq<Byte>) returns (r: Result<seq<Byte>, CryptoError>)
    ensures |plaintext| % BLOCK_SIZE != 0 ==> r == Err(Aes)
    ensures |plaintext| % BLOCK_SIZE == 0 ==> r == Ok(CbcEncrypt(c, ZERO, plaintext))
    ensures r.Ok? ==> Chained(c, ZERO, plaintext, r.value)
  {
    if |plaintext| % BLOCK_SIZE != 0 {
      return Err(Aes);
    }
    hide XorBlock, CbcEncrypt, IsXor, Chained;
    CbcChains(c, ZERO, plaintext);
    var prev := ZERO;
    var ciphertext: seq<Byte> := [];
    var at := 0;
    assert plaintext[0..] == plaintext;
    while at < |plaintext|
      invariant 0 <= at <= |plaintext| && at % BLOCK_SIZE == 0
      invariant ciphertext + CbcEncrypt(c, prev, plaintext[at..]) == CbcEncrypt(c, ZERO, plaintext)
    {
      var rest := plaintext[at..];
      var arr := XorInto(rest[..BLOCK_SIZE], prev);
      var blk := c.enc(arr);
      EncryptStep(c, prev, plaintext, at, ciphertext);
      ciphertext, prev, at := ciphertext + blk, blk, at + BLOCK_SIZE;
    }
    assert ciphertext + [] == ciphertext;
    r := Ok(ciphertext);
  }

  // ---------------------------------------------------------------------------
  // Padding
  // ---------------------------------------------------------------------------

  function Fill(n: nat, b: Byte): (f: seq<Byte>)
    ensures |f| == n && forall i :: 0 <= i < n ==> f[i] == b
  {
    seq(n, _ => b)
  }

  function Pad(p: seq<Byte>): (q: seq<Byte>)
    ensures |q| % BLOCK_SIZE == 0 && |p| < |q| <= |p| + BLOCK_SIZE
  {
    p + Fill(BLOCK_SIZE - |p| % BLOCK_SIZE, BLOCK_SIZE - |p| % BLOCK_SIZE)
  }

  predicate EndsIn(q: seq<Byte>, from: nat, pad: Byte) {
    forall i :: from <= i < |q| ==> q[i] == pad
  }

  function LastByte(q: seq<Byte>): Byte {
    if q == [] then 0 else q[|q| - 1]
  }

  predicate PaddedBy(q: seq<Byte>, pad: Byte) {
    0 < pad <= BLOCK_SIZE && pad <= |q| && EndsIn(q, |q| - pad, pad)
  }

  function Unpad(q: seq<Byte>): Option<seq<Byte>> {
    if PaddedBy(q, LastByte(q)) then Some(q[..|q| - LastByte(q)]) else None
  }

  /** Stripping succeeds exactly on padded messages, and gives the message back. */
  lemma UnpadInvertsPad(q: seq<Byte>, p: seq<Byte>)
    requires |q| % BLOCK_SIZE == 0
    ensures Unpad(q) == Some(p) <==> q == Pad(p)
  {
    if q == Pad(p) {
      var n := BLOCK_SIZE - |p| % BLOCK_SIZE;
      assert q[|q| - 1] == n;
      assert q[..|q| - n] == p;
    }
    if Unpad(q) == Some(p) {
      var pad := q[|q| - 1];
      assert |p| == |q| - pad;
      assert BLOCK_SIZE - |p| % BLOCK_SIZE == pad;
      assert q == p + q[|q| - pad..];
      assert q[|q| - pad..] == Fill(pad, pad);
    }
  }

  function DecryptedCbc(c: Cipher, ciphertext: seq<Byte>): Result<seq<Byte>, CryptoError> {
    if |ciphertext| % BLOCK_SIZE != 0 then Err(Aes)
    else match Unpad(CbcDecrypt(c, ZERO, ciphertext))
      case None => Err(Aes)
      case Some(p) => Ok(p)
  }

  /** The chaining loop of `decrypt_cbc`. */
  method DecryptBlocks(c: Cipher, ciphertext: seq<Byte>) returns (plaintext: seq<Byte>)
    requires |ciphertext| % BLOCK_SIZE == 0
    ensures plaintext == CbcDecrypt(c, ZERO, ciphertext) && Unchained(c, ZERO, ciphertext, plaintext)
  {
    hide XorBlock, CbcDecrypt, IsXor, Unchained;
    CbcUnchains(c, ZERO, ciphertext);
    var prev := ZERO;
    plaintext := [];
    var at := 0;
    assert ciphertext[0..] == ciphertext;
    while at < |ciphertext|
      invariant 0 <= at <= |ciphertext| && at % BLOCK_SIZE == 0
      invariant plaintext + CbcDecrypt(c, prev, ciphertext[at..]) == CbcDecrypt(c, ZERO, ciphertext)
    {
      var rest := ciphertext[at..];
      var current: Block := rest[..BLOCK_SIZE];
      var arr := XorInto(c.dec(current), prev);
      DecryptStep(c, prev, ciphertext, at, plaintext);
      plaintext, prev, at := plaintext + arr, current, at + BLOCK_SIZE;
    }
    assert plaintext + [] == plaintext;
  }

  /** `decrypt_cbc`, including the loop that checks the padding bytes. */
  method DecryptCbc(c: Cipher, ciphertext: seq<Byte>) returns (r: Result<seq<Byte>, CryptoError>)
    ensures r == DecryptedCbc(c, ciphertext)
  {
    if |ciphertext| % BLOCK_SIZE != 0 {
      return Err(Aes);
    }
    var plaintext := DecryptBlocks(c, ciphertext);
    var pad := if plaintext == [] then 0 else plaintext[|plaintext| - 1];
    if pad == 0 || pad > BLOCK_SIZE || pad > |plaintext| {
      return Err(Aes);
    }
    for i := |plaintext| - pad to |plaintext|
      invariant forall j :: |plaintext| - pad <= j < i ==> plaintext[j] == pad
    {
      if plaintext[i] != pad {
        return Err(Aes);
      }
    }
    r := Ok(plaintext[..|plaintext| - pad]);
  }

  /**
    `decrypt_cbc` accepts exactly the ciphertexts that `encrypt_cbc` makes of a padded
    plaintext, and returns that plaintext, which is therefore unique.
   */
  lemma DecryptCbcAcceptsExactly(c: Cipher, ciphertext: seq<Byte>, p: seq<Byte>)
    requires Invertible(c)
    ensures DecryptedCbc(c, ciphertext) == Ok(p) <==> ciphertext == CbcEncrypt(c, ZERO, Pad(p))
  {
    if ciphertext == CbcEncrypt(c, ZERO, Pad(p)) {
      CbcDecryptsWhatItEncrypts(c, ZERO, Pad(p));
      UnpadInvertsPad(Pad(p), p);
    }
    if DecryptedCbc(c, ciphertext) == Ok(p) {
      CbcEncryptsWhatItDecrypts(c, ZERO, ciphertext);
      UnpadInvertsPad(CbcDecrypt(c, ZERO, ciphertext), p);
    }
  }

  // ---------------------------------------------------------------------------
  // The envelope
  // ---------------------------------------------------------------------------

  const LENGTH_LIMIT: nat := 0x1_0000_0000

  /** `u32::to_be_bytes`. */
  function Be32(n: nat): (b: seq<Byte>)
    requires n < LENGTH_LIMIT
    ensures |b| == 4
  {
    [n / 0x100_0000, n / 0x1_0000 % 0x100, n / 0x100 % 0x100, n % 0x100]
  }

  /** `u32::from_be_bytes`. */
  function FromBe32(b: seq<Byte>): (n: nat)
    requires |b| == 4
    ensures n < LENGTH_LIMIT
  {
    b[0] as int * 0x100_0000 + b[1] as int * 0x1_0000 + b[2] as int * 0x100 + b[3]
  }

  lemma Be32RoundTrip(n: nat, b: seq<Byte>)
    requires n < LENGTH_LIMIT && |b| == 4
    ensures FromBe32(b) == n <==> b == Be32(n)
  {
    if FromBe32(b) == n {
      assert n / 0x100_0000 == b[0];
      assert n / 0x1_0000 == b[0] as int * 0x100 + b[1];
      assert n / 0x100 == b[0] as int * 0x1_0000 + b[1] as int * 0x100 + b[2];
    }
  }

  datatype Base64 = Base64(encode: seq<Byte> -> string, decode: string -> Option<seq<Byte>>)

  ghost predicate Faithful(b64: Base64) {
    forall x: seq<Byte> :: b64.decode(b64.encode(x)) == Some(x)
  }

  /** One configured codec. The enterprise id is a Rust string, so its bytes are valid UTF-8. */
  datatype Codec = Codec(cipher: Cipher, b64: Base64, corpId: seq<Byte>)

  ghost predicate CodecOk(k: Codec) {
    Invertible(k.cipher) && Faithful(k.b64) && Valid(k.corpId)
  }

  /** The fixed sixteen bytes `0123456789abcdef`. */
  const PREFIX: seq<Byte> :=
    [0x30, 0x31, 0x32, 0x33, 0x34, 0x35, 0x36, 0x37, 0x38, 0x39, 0x61, 0x62, 0x63, 0x64, 0x65, 0x66]

  /** The plaintext frame; the length field wraps at 32 bits, as the source's cast does. */
  function Frame(prefix: seq<Byte>, msg: seq<Byte>, corpId: seq<Byte>): seq<Byte> {
    prefix + Be32(|msg| % LENGTH_LIMIT) + msg + corpId
  }

  /** The `Encrypt` field of an encrypted reply. */
  function EncryptedField(k: Codec, reply: seq<Byte>): string {
    k.b64.encode(CbcEncrypt(k.cipher, ZERO, Pad(Frame(PREFIX, reply, k.corpId))))
  }

  function Unframed(plaintext: seq<Byte>, corpId: seq<Byte>): Result<seq<Byte>, CryptoError> {
    if |plaintext| < 20 then Err(Aes)
    else
      var msgLen := FromBe32(plaintext[16..20]);
      if |plaintext| < 20 + msgLen then Err(Aes)
      else
        var msg, corp := plaintext[20..20 + msgLen], plaintext[20 + msgLen..];
        if !Valid(msg) || !Valid(corp) then Err(InvalidUtf8)
        else if corp != corpId then Err(CorpIdMismatch)
        else Ok(msg)
  }

  function Decrypted(k: Codec, field: string): Result<seq<Byte>, CryptoError> {
    match k.b64.decode(field)
    case None => Err(Base64Error)
    case Some(ciphertext) =>
      match DecryptedCbc(k.cipher, ciphertext)
      case Err(e) => Err(e)
      case Ok(plaintext) => Unframed(plaintext, k.corpId)
  }

  /** `WechatCrypto::encrypt`, up to the signature and the XML around the field. */
  method Encrypt(k: Codec, reply: seq<Byte>) returns (r: Result<string, CryptoError>)
    ensures r == Ok(EncryptedField(k, reply))
  {
    var plaintext := PREFIX;
    plaintext := plaintext + Be32(|reply| % LENGTH_LIMIT);
    plaintext := plaintext + reply;
    plaintext := plaintext + k.corpId;
    var padLen := BLOCK_SIZE - |plaintext| % BLOCK_SIZE;
    plaintext := plaintext + Fill(padLen, padLen);
    var ciphertext := EncryptCbc(k.cipher, plaintext);
    assert plaintext == Pad(Frame(PREFIX, reply, k.corpId));
    r := Ok(k.b64.encode(ciphertext.value));
  }

  /** `WechatCrypto::decrypt`. */
  method Decrypt(k: Codec, field: string) returns (r: Result<seq<Byte>, CryptoError>)
    ensures r == Decrypted(k, field)
  {
    var ciphertext := k.b64.decode(field);
    if ciphertext.None? {
      return Err(Base64Error);
    }
    var decrypted := DecryptCbc(k.cipher, ciphertext.value);
    if decrypted.Err? {
      return decrypted;
    }
    r := Unframed(decrypted.value, k.corpId);
  }

  /** The slices `Unframed` looks at are the parts `Frame` puts together. */
  lemma FrameParts(prefix: seq<Byte>, msg: seq<Byte>, corpId: seq<Byte>)
    requires |prefix| == 16 && |msg| < LENGTH_LIMIT
    ensures var plaintext := Frame(prefix, msg, corpId);
            && |plaintext| == 20 + |msg| + |corpId|
            && plaintext[..16] == prefix
            && plaintext[16..20] == Be32(|msg|)
            && plaintext[20..20 + |msg|] == msg
            && plaintext[20 + |msg|..] == corpId
  {
    hide Be32;
  }

  /** A framed valid message of this enterprise is unframed to itself. */
  lemma UnframesFrame(prefix: seq<Byte>, msg: seq<Byte>, corpId: seq<Byte>)
    requires |prefix| == 16 && |msg| < LENGTH_LIMIT && Valid(msg) && Valid(corpId)
    ensures Unframed(Frame(prefix, msg, corpId), corpId) == Ok(msg)
  {
    hide Valid, Frame, Be32, FromBe32;
    FrameParts(prefix, msg, corpId);
    Be32RoundTrip(|msg|, Be32(|msg|));
  }

  /** Whatever is unframed was such a frame. */
  lemma UnframedWasFramed(plaintext: seq<Byte>, corpId: seq<Byte>, msg: seq<Byte>)
    requires Unframed(plaintext, corpId) == Ok(msg)
    ensures |plaintext| >= 20 && |msg| < LENGTH_LIMIT && Valid(msg)
    ensures plaintext == Frame(plaintext[..16], msg, corpId)
  {
    hide Valid, Be32, FromBe32, Unframed, Frame;
    UnframedParts(plaintext, corpId, msg);
    Be32RoundTrip(|msg|, plaintext[16..20]);
    Reassemble(plaintext, |msg|);
  }

  lemma UnframedParts(plaintext: seq<Byte>, corpId: seq<Byte>, msg: seq<Byte>)
    requires Unframed(plaintext, corpId) == Ok(msg)
    ensures |plaintext| >= 20 && FromBe32(plaintext[16..20]) == |msg| && Valid(msg)
    ensures |plaintext| >= 20 + |msg|
    ensures plaintext[20..20 + |msg|] == msg && plaintext[20 + |msg|..] == corpId
  {
    hide Valid, FromBe32;
  }

  lemma Reassemble(plaintext: seq<Byte>, n: nat)
    requires n < LENGTH_LIMIT && 20 + n <= |plaintext| && plaintext[16..20] == Be32(n)
    ensures plaintext == Frame(plaintext[..16], plaintext[20..20 + n], plaintext[20 + n..])
  {
    hide Be32;
    assert |plaintext[20..20 + n]| % LENGTH_LIMIT == n;
    assert plaintext == plaintext[..16] + plaintext[16..20] + plaintext[20..20 + n] + plaintext[20 + n..];
  }

  /** `field` carries the encrypted frame of `msg` under some sixteen-byte prefix. */
  ghost predicate Carries(k: Codec, field: string, prefix: seq<Byte>, msg: seq<Byte>) {
    && |prefix| == 16
    && k.b64.decode(field) == Some(CbcEncrypt(k.cipher, ZERO, Pad(Frame(prefix, msg, k.corpId))))
  }

  lemma CarriedIsDecrypted(k: Codec, field: string, prefix: seq<Byte>, msg: seq<Byte>)
    requires CodecOk(k) && Valid(msg) && |msg| < LENGTH_LIMIT && Carries(k, field, prefix, msg)
    ensures Decrypted(k, field) == Ok(msg)
  {
    hide Valid, Frame, Unframed, DecryptedCbc, CbcEncrypt, Pad;
    DecryptCbcAcceptsExactly(k.cipher, k.b64.decode(field).value, Frame(prefix, msg, k.corpId));
    UnframesFrame(prefix, msg, k.corpId);
  }

  lemma DecryptedWasCarried(k: Codec, field: string, msg: seq<Byte>)
    requires CodecOk(k) && Decrypted(k, field) == Ok(msg)
    ensures Valid(msg) && |msg| < LENGTH_LIMIT
    ensures exists prefix :: Carries(k, field, prefix, msg)
  {
    hide Valid, Frame, Unframed, DecryptedCbc, CbcEncrypt, Pad;
    var ciphertext := k.b64.decode(field).value;
    var plaintext := DecryptedCbc(k.cipher, ciphertext).value;
    DecryptCbcAcceptsExactly(k.cipher, ciphertext, plaintext);
    UnframedWasFramed(plaintext, k.corpId, msg);
    assert Carries(k, field, plaintext[..16], msg);
  }

  /**
    `decrypt` accepts exactly the base64 of an encrypted, padded frame that carries some
    sixteen-byte prefix, this enterprise's id and a valid message shorter than 2^32 bytes.
   */
  lemma DecryptAcceptsExactly(k: Codec, field: string, msg: seq<Byte>)
    requires CodecOk(k)
    ensures Decrypted(k, field) == Ok(msg) <==>
            (Valid(msg) && |msg| < LENGTH_LIMIT && exists prefix :: Carries(k, field, prefix, msg))
  {
    hide Valid, Decrypted, Carries;
    if Decrypted(k, field) == Ok(msg) {
      DecryptedWasCarried(k, field, msg);
    }
    if Valid(msg) && |msg| < LENGTH_LIMIT && exists prefix :: Carries(k, field, prefix, msg) {
      var prefix :| Carries(k, field, prefix, msg);
      CarriedIsDecrypted(k, field, prefix, msg);
    }
  }

  /** Decrypting an encrypted reply gives the reply back if and only if its length fits the 32-bit field. */
  lemma EnvelopeRoundTrip(k: Codec, reply: seq<Byte>)
    requires CodecOk(k) && Valid(reply)
    ensures Decrypted(k, EncryptedField(k, reply)) == Ok(reply) <==> |reply| < LENGTH_LIMIT
  {
    hide Valid, Decrypted, Frame, CbcEncrypt, Pad;
    var field := EncryptedField(k, reply);
    assert Carries(k, field, PREFIX, reply);
    DecryptAcceptsExactly(k, field, reply);
  }

  // ---------------------------------------------------------------------------
  // The wire format
  // ---------------------------------------------------------------------------

  /** `plain` carries `reply` byte by byte as the envelope lays it out, padding included. */
  ghost predicate LaidOut(plain: seq<Byte>, reply: seq<Byte>, corpId: seq<Byte>) {
    var used := 20 + |reply| + |corpId|;
    var n := |reply| % 0x1_0000_0000;
    && used < |plain| <= used + 16 && |plain| % 16 == 0
    && (forall i :: 0 <= i < 10 ==> plain[i] == 0x30 + i)
    && (forall i :: 10 <= i < 16 ==> plain[i] == 0x61 + (i - 10))
    && plain[16] as int * 0x100_0000 + plain[17] as int * 0x1_0000 + plain[18] as int * 0x100 + plain[19] == n
    && plain[20..20 + |reply|] == reply
    && plain[20 + |reply|..used] == corpId
    && forall i :: used <= i < |plain| ==> plain[i] == |plain| - used
  }

  lemma LengthBytes(n: nat)
    requires n < LENGTH_LIMIT
    ensures var b := Be32(n);
            b[0] as int * 0x100_0000 + b[1] as int * 0x1_0000 + b[2] as int * 0x100 + b[3] == n
  {
    Be32RoundTrip(n, Be32(n));
  }

  lemma PaddedFrameLaidOut(reply: seq<Byte>, corpId: seq<Byte>)
    ensures LaidOut(Pad(Frame(PREFIX, reply, corpId)), reply, corpId)
  {
    hide Be32;
    var n := |reply| % LENGTH_LIMIT;
    LengthBytes(n);
    var frame, plain := Frame(PREFIX, reply, corpId), Pad(Frame(PREFIX, reply, corpId));
    assert |frame| == 20 + |reply| + |corpId|;
    assert plain[..|frame|] == frame;
    assert plain[..16] == PREFIX && plain[16..20] == Be32(n);
    assert plain[16] == Be32(n)[0] && plain[17] == Be32(n)[1] && plain[18] == Be32(n)[2] && plain[19] == Be32(n)[3];
    assert forall i :: 0 <= i < 16 ==> plain[i] == PREFIX[i];
    assert frame[20..20 + |reply|] == reply && frame[20 + |reply|..] == corpId;
  }

  /**
    What is on the wire for a reply of any length: the base64 of a ciphertext chained, from
    a zero block, over the laid-out plaintext.
   */
  lemma EncryptedFieldMeans(k: Codec, reply: seq<Byte>)
    requires CodecOk(k)
    ensures exists plain: seq<Byte>, cipher: seq<Byte> ::
              && LaidOut(plain, reply, k.corpId)
              && Chained(k.cipher, ZERO, plain, cipher)
              && EncryptedField(k, reply) == k.b64.encode(cipher)
              && k.b64.decode(EncryptedField(k, reply)) == Some(cipher)
  {
    hide LaidOut, Chained, CbcEncrypt, Pad, Frame;
    var plain := Pad(Frame(PREFIX, reply, k.corpId));
    PaddedFrameLaidOut(reply, k.corpId);
    CbcChains(k.cipher, ZERO, plain);
    assert Chained(k.cipher, ZERO, plain, CbcEncrypt(k.cipher, ZERO, plain));
  }

  lemma ForeignFrame(prefix: seq<Byte>, msg: seq<Byte>, corp: seq<Byte>, corpId: seq<Byte>)
    requires |prefix| == 16 && |msg| < LENGTH_LIMIT
    ensures Unframed(Frame(prefix, msg, corp), corpId) ==
            if !Valid(msg) || !Valid(corp) then Err(InvalidUtf8)
            else if corp != corpId then Err(CorpIdMismatch)
            else Ok(msg)
  {
    hide Valid, Frame, Be32, FromBe32;
    FrameParts(prefix, msg, corp);
    Be32RoundTrip(|msg|, Be32(|msg|));
  }

  /** A well-formed envelope is refused exactly for invalid text, or for naming another enterprise. */
  lemma DecryptDecides(k: Codec, field: string, prefix: seq<Byte>, msg: seq<Byte>, corp: seq<Byte>)
    requires CodecOk(k) && |prefix| == 16 && |msg| < LENGTH_LIMIT
    requires k.b64.decode(field) == Some(CbcEncrypt(k.cipher, ZERO, Pad(Frame(prefix, msg, corp))))
    ensures Decrypted(k, field) ==
            if !Valid(msg) || !Valid(corp) then Err(InvalidUtf8)
            else if corp != k.corpId then Err(CorpIdMismatch)
            else Ok(msg)
  {
    hide Valid, Frame, Unframed, DecryptedCbc, CbcEncrypt, Pad;
    DecryptCbcAcceptsExactly(k.cipher, k.b64.decode(field).value, Frame(prefix, msg, corp));
    ForeignFrame(prefix, msg, corp, k.corpId);
  }
}
