/** The chunked encryption of a backup archive. */
module BackupStream {

  import opened Common

  type byte = x: nat | x < 256

  const BUFFER_LEN_ENCRYPT := 239
  const TAG_LEN := 16
  const BUFFER_LEN_DECRYPT := BUFFER_LEN_ENCRYPT + TAG_LEN
  const NONCE_PREFIX_LEN := 19
  const NONCE_LEN := 24
  const U32_MAX := 0xFFFF_FFFF

  /** An authenticated cipher under one key, with a 16-byte tag. */
  datatype Aead = Aead(seal: (seq<byte>, seq<byte>) -> seq<byte>, open: (seq<byte>, seq<byte>) -> Option<seq<byte>>)
  {
    ghost predicate Lawful()
    {
      forall nonce, clear ::
        && |seal(nonce, clear)| == |clear| + TAG_LEN
        && open(nonce, seal(nonce, clear)) == Some(clear)
    }
  }

  datatype BackupError = TooLarge | WrongPassword

  // ---------------------------------------------------------------- nonces

  /** The lowest k bytes of n, most significant first. */
  function BigEndian(n: nat, k: nat): (r: seq<byte>)
    ensures |r| == k
  {
    if k == 0 then [] else BigEndian(n / 256, k - 1) + [n % 256]
  }

  function Bound(k: nat): nat
  {
    if k == 0 then 1 else 256 * Bound(k - 1)
  }

  /** Prefix, chunk position and a marker of the last chunk. */
  function Nonce(prefix: seq<byte>, position: nat, last: bool): seq<byte>
    requires position <= U32_MAX
  {
    prefix + BigEndian(position, 4) + [if last then 1 else 0]
  }

  lemma {:induction false} BigEndianInjective(m: nat, n: nat, k: nat)
    requires m < Bound(k) && n < Bound(k) && BigEndian(m, k) == BigEndian(n, k)
    ensures m == n
  {
    if k > 0 {
      var a, b := BigEndian(m, k), BigEndian(n, k);
      assert a[..k - 1] == BigEndian(m / 256, k - 1) && b[..k - 1] == BigEndian(n / 256, k - 1);
      assert a[k - 1] == m % 256 && b[k - 1] == n % 256;
      BigEndianInjective(m / 256, n / 256, k - 1);
    }
  }

  /** Two nonces under one prefix are equal only for the same position and marker. */
  lemma NonceInjective(prefix: seq<byte>, m: nat, lastM: bool, n: nat, lastN: bool)
    requires m <= U32_MAX && n <= U32_MAX && |prefix| == NONCE_PREFIX_LEN
    requires Nonce(prefix, m, lastM) == Nonce(prefix, n, lastN)
    ensures m == n && lastM == lastN
  {
    var a, b := Nonce(prefix, m, lastM), Nonce(prefix, n, lastN);
    assert a[NONCE_PREFIX_LEN..NONCE_PREFIX_LEN + 4] == BigEndian(m, 4);
    assert b[NONCE_PREFIX_LEN..NONCE_PREFIX_LEN + 4] == BigEndian(n, 4);
    assert Bound(4) == 256 * Bound(3) && Bound(3) == 256 * Bound(2) && Bound(2) == 256 * Bound(1) && Bound(1) == 256;
    BigEndianInjective(m, n, 4);
    assert a[NONCE_LEN - 1] == b[NONCE_LEN - 1];
  }

  /** The number that bytes stand for, the first one being the most significant. */
  function Number(bytes: seq<byte>): nat
  {
    if bytes == [] then 0 else 256 * Number(bytes[..|bytes| - 1]) + bytes[|bytes| - 1]
  }

  lemma {:induction false} BigEndianNumber(n: nat, k: nat)
    requires n < Bound(k)
    ensures Number(BigEndian(n, k)) == n
  {
    if k > 0 {
      BigEndianNumber(n / 256, k - 1);
      assert BigEndian(n, k)[..k - 1] == BigEndian(n / 256, k - 1);
    }
  }

  /** Byte by byte: the prefix, the position with its most significant byte first, and one for the last chunk. */
  lemma NonceBytes(prefix: seq<byte>, position: nat, last: bool)
    requires |prefix| == 19 && position <= U32_MAX
    ensures var n := Nonce(prefix, position, last);
      && |n| == 24 && n[..19] == prefix
      && position == ((n[19] as int * 256 + n[20]) * 256 + n[21]) * 256 + n[22]
      && n[23] == (if last then 1 else 0)
  {
    var n, be := Nonce(prefix, position, last), BigEndian(position, 4);
    assert n[19] == be[0] && n[20] == be[1] && n[21] == be[2] && n[22] == be[3];
    FourBounds();
    BigEndianNumber(position, 4);
    FourBytes(be);
  }

  lemma FourBounds()
    ensures Bound(4) == U32_MAX + 1
  {
    assert Bound(4) == 256 * Bound(3) && Bound(3) == 256 * Bound(2) && Bound(2) == 256 * Bound(1) && Bound(1) == 256;
  }

  lemma FourBytes(b: seq<byte>)
    requires |b| == 4
    ensures Number(b) == ((b[0] as int * 256 + b[1]) * 256 + b[2]) * 256 + b[3]
  {
    assert b[..3][..2] == b[..2] && b[..2][..1] == b[..1] && b[..1][..0] == [];
    assert Number(b[..1]) == b[0];
    assert Number(b[..2]) == 256 * Number(b[..1]) + b[1];
    assert Number(b[..3]) == 256 * Number(b[..2]) + b[2];
  }

  /** Fill the nonce in place. */
  method StreamBe32Nonce(prefix: seq<byte>, position: nat, last: bool) returns (nonce: seq<byte>)
    requires |prefix| == NONCE_PREFIX_LEN && position <= U32_MAX
    ensures nonce == Nonce(prefix, position, last) && |nonce| == NONCE_LEN
  {
    var bytes := new byte[NONCE_LEN](_ => 0);
    for i := 0 to NONCE_PREFIX_LEN
      invariant bytes[..i] == prefix[..i]
    {
      bytes[i] := prefix[i];
    }
    var be := BigEndian(position, 4);
    for i := 0 to 4
      invariant bytes[..NONCE_PREFIX_LEN] == prefix
      invariant bytes[NONCE_PREFIX_LEN..NONCE_PREFIX_LEN + i] == be[..i]
    {
      bytes[NONCE_PREFIX_LEN + i] := be[i];
    }
    bytes[NONCE_PREFIX_LEN + 4] := if last then 1 else 0;
    nonce := bytes[..];
    assert nonce[..NONCE_PREFIX_LEN] == bytes[..NONCE_PREFIX_LEN] == prefix;
    assert nonce[NONCE_PREFIX_LEN..NONCE_PREFIX_LEN + 4] == be[..4] == be;
    assert nonce == nonce[..NONCE_PREFIX_LEN] + nonce[NONCE_PREFIX_LEN..NONCE_PREFIX_LEN + 4] + [nonce[NONCE_PREFIX_LEN + 4]];
    assert nonce == prefix + be + [if last then 1 else 0];
  }

  // ---------------------------------------------------------------- encryption

  /** All positions used for the rest of a file fit the 32-bit counter. */
  predicate Fits(rest: nat, position: nat)
  {
    position + rest / BUFFER_LEN_ENCRYPT <= U32_MAX
  }

  /** The encrypted form of what is left of a file from a chunk position on. */
  function Encrypted(aead: Aead, prefix: seq<byte>, clear: seq<byte>, position: nat): seq<byte>
    requires Fits(|clear|, position)
    decreases |clear|
  {
    if |clear| < BUFFER_LEN_ENCRYPT then aead.seal(Nonce(prefix, position, true), clear)
    else aead.seal(Nonce(prefix, position, false), clear[..BUFFER_LEN_ENCRYPT])
         + Encrypted(aead, prefix, clear[BUFFER_LEN_ENCRYPT..], position + 1)
  }

  /** A full read of up to n bytes from an offset. */
  function Read(file: seq<byte>, offset: nat, n: nat): seq<byte>
    requires offset <= |file|
  {
    if offset + n <= |file| then file[offset..offset + n] else file[offset..]
  }

  /** So many full chunks are done; the rest follows on them. */
  ghost predicate Encrypting(
      aead: Aead, prefix: seq<byte>, clear: seq<byte>, position: nat, offset: nat, out: seq<byte>)
  {
    && offset == position * BUFFER_LEN_ENCRYPT <= |clear| && position <= U32_MAX
    && (Fits(|clear|, 0) <==> Fits(|clear| - offset, position))
    && (Fits(|clear|, 0) ==>
          Encrypted(aead, prefix, clear, 0) == out + Encrypted(aead, prefix, clear[offset..], position))
  }

  lemma OneMoreChunk(aead: Aead, prefix: seq<byte>, clear: seq<byte>, position: nat, offset: nat, out: seq<byte>)
    requires Encrypting(aead, prefix, clear, position, offset, out)
    requires offset + BUFFER_LEN_ENCRYPT <= |clear| && position < U32_MAX
    ensures var sealed := aead.seal(Nonce(prefix, position, false), Read(clear, offset, BUFFER_LEN_ENCRYPT));
      Encrypting(aead, prefix, clear, position + 1, offset + BUFFER_LEN_ENCRYPT, out + sealed)
  {
    assert clear[offset..][..BUFFER_LEN_ENCRYPT] == Read(clear, offset, BUFFER_LEN_ENCRYPT);
    assert clear[offset..][BUFFER_LEN_ENCRYPT..] == clear[offset + BUFFER_LEN_ENCRYPT..];
  }

  /**
   * Encrypt a file chunk by chunk. It is refused exactly when a full chunk falls on the last position
   * of the counter; otherwise no nonce is used twice.
   */
  method EncryptFile(aead: Aead, prefix: seq<byte>, clear: seq<byte>)
    returns (r: Result<seq<byte>, BackupError>, ghost nonces: seq<seq<byte>>)
    requires |prefix| == NONCE_PREFIX_LEN
    ensures r == if Fits(|clear|, 0) then Success(Encrypted(aead, prefix, clear, 0)) else Failure(TooLarge)
    ensures Distinct(nonces)
    ensures r.Success? ==> |nonces| == |clear| / BUFFER_LEN_ENCRYPT + 1
  {
    var position: nat := 0;
    var offset := 0;
    var out: seq<byte> := [];
    nonces := [];
    assert clear[0..] == clear;
    while true
      invariant Encrypting(aead, prefix, clear, position, offset, out)
      invariant |nonces| == position
      invariant forall k | 0 <= k < position :: nonces[k] == Nonce(prefix, k, false)
      decreases |clear| - offset
    {
      var buffer := Read(clear, offset, BUFFER_LEN_ENCRYPT);
      var isLast := |buffer| != BUFFER_LEN_ENCRYPT;
      if !isLast && position == U32_MAX {
        NoncesDistinct(prefix, nonces, position, false);
        return Failure(TooLarge), nonces;
      }
      var nonce := StreamBe32Nonce(prefix, position, isLast);
      nonces := nonces + [nonce];
      if isLast {
        out := out + aead.seal(nonce, buffer);
        break;
      }
      OneMoreChunk(aead, prefix, clear, position, offset, out);
      out := out + aead.seal(nonce, buffer);
      position := position + 1;
      offset := offset + BUFFER_LEN_ENCRYPT;
    }
    NoncesDistinct(prefix, nonces, position, true);
    return Success(out), nonces;
  }

  lemma NoncesDistinct(prefix: seq<byte>, nonces: seq<seq<byte>>, position: nat, ended: bool)
    requires |prefix| == NONCE_PREFIX_LEN && position <= U32_MAX
    requires |nonces| == if ended then position + 1 else position
    requires forall k | 0 <= k < position :: nonces[k] == Nonce(prefix, k, false)
    requires ended ==> nonces[position] == Nonce(prefix, position, true)
    ensures Distinct(nonces)
  {
    forall i, j | 0 <= i < j < |nonces|
      ensures nonces[i] != nonces[j]
    {
      if nonces[i] == nonces[j] {
        NonceInjective(prefix, i, ended && i == position, j, ended && j == position);
      }
    }
  }

  // ---------------------------------------------------------------- decryption

  /** The cleartext of what is left of an encrypted file from a chunk position on. */
  function Decrypted(aead: Aead, prefix: seq<byte>, file: seq<byte>, position: nat): Result<seq<byte>, BackupError>
    requires position <= U32_MAX
    decreases |file|
  {
    if |file| >= BUFFER_LEN_DECRYPT then
      if position == U32_MAX then Failure(TooLarge)
      else
        match aead.open(Nonce(prefix, position, false), file[..BUFFER_LEN_DECRYPT])
        case None => Failure(WrongPassword)
        case Some(chunk) =>
          match Decrypted(aead, prefix, file[BUFFER_LEN_DECRYPT..], position + 1)
          case Failure(e) => Failure(e)
          case Success(rest) => Success(chunk + rest)
    else if file == [] then Success([])
    else
      match aead.open(Nonce(prefix, position, true), file)
      case None => Failure(WrongPassword)
      case Some(chunk) => Success(chunk)
  }

  function Prepend(out: seq<byte>, r: Result<seq<byte>, BackupError>): Result<seq<byte>, BackupError>
  {
    match r
    case Failure(e) => Failure(e)
    case Success(rest) => Success(out + rest)
  }

  method DecryptFile(aead: Aead, prefix: seq<byte>, file: seq<byte>) returns (r: Result<seq<byte>, BackupError>)
    requires |prefix| == NONCE_PREFIX_LEN
    ensures r == Decrypted(aead, prefix, file, 0)
  {
    var position: nat := 0;
    var offset := 0;
    var out: seq<byte> := [];
    assert file[0..] == file;
    ghost var whole := Decrypted(aead, prefix, file, 0);
    assert whole.Success? ==> [] + whole.value == whole.value;
    while true
      invariant offset <= |file| && position <= U32_MAX
      invariant Decrypted(aead, prefix, file, 0) == Prepend(out, Decrypted(aead, prefix, file[offset..], position))
      decreases |file| - offset
    {
      var buffer := Read(file, offset, BUFFER_LEN_DECRYPT);
      ghost var rest := file[offset..];
      if |buffer| == BUFFER_LEN_DECRYPT {
        if position == U32_MAX {
          return Failure(TooLarge);
        }
        var nonce := StreamBe32Nonce(prefix, position, false);
        var chunk := aead.open(nonce, buffer);
        assert rest[..BUFFER_LEN_DECRYPT] == buffer;
        assert rest[BUFFER_LEN_DECRYPT..] == file[offset + BUFFER_LEN_DECRYPT..];
        if chunk.None? {
          return Failure(WrongPassword);
        }
        ghost var later := Decrypted(aead, prefix, rest[BUFFER_LEN_DECRYPT..], position + 1);
        assert later.Success? ==> out + (chunk.value + later.value) == out + chunk.value + later.value;
        out := out + chunk.value;
      } else if buffer == [] {
        break;
      } else {
        var nonce := StreamBe32Nonce(prefix, position, true);
        assert rest == buffer;
        var chunk := aead.open(nonce, buffer);
        if chunk.None? {
          return Failure(WrongPassword);
        }
        return Success(out + chunk.value);
      }
      position := position + 1;
      offset := offset + BUFFER_LEN_DECRYPT;
    }
    assert out + [] == out;
    return Success(out);
  }

  /**
   * Where everything is in an encrypted file: the k-th full chunk is sealed under its position without the
   * marker, and what is left, be it empty, under the next position with it.
   */
  ghost predicate SealedAt(aead: Aead, prefix: seq<byte>, clear: seq<byte>, file: seq<byte>, position: nat, k: nat)
  {
    && 239 * k <= |clear| && 255 * k <= |file| && position + k <= U32_MAX
    && if 239 * (k + 1) <= |clear|
       then 255 * (k + 1) <= |file| && file[255 * k..255 * (k + 1)]
              == aead.seal(Nonce(prefix, position + k, false), clear[239 * k..239 * (k + 1)])
       else file[255 * k..] == aead.seal(Nonce(prefix, position + k, true), clear[239 * k..])
  }

  lemma {:induction false} Layout(aead: Aead, prefix: seq<byte>, clear: seq<byte>, position: nat, k: nat)
    requires aead.Lawful() && Fits(|clear|, position) && 239 * k <= |clear|
    ensures SealedAt(aead, prefix, clear, Encrypted(aead, prefix, clear, position), position, k)
    decreases k
  {
    if k == 0 {
      FirstChunk(aead, prefix, clear, position);
    } else {
      var later := Encrypted(aead, prefix, clear[239..], position + 1);
      Layout(aead, prefix, clear[239..], position + 1, k - 1);
      ChunkBehind(aead, prefix, clear, later, position, k);
    }
  }

  lemma ChunkBehind(aead: Aead, prefix: seq<byte>, clear: seq<byte>, later: seq<byte>, position: nat, k: nat)
    requires aead.Lawful() && 0 < k && 239 <= |clear| && position <= U32_MAX
    requires SealedAt(aead, prefix, clear[239..], later, position + 1, k - 1)
    ensures SealedAt(aead, prefix, clear, aead.seal(Nonce(prefix, position, false), clear[..239]) + later, position, k)
  {
    NextChunk(aead.seal(Nonce(prefix, position, false), clear[..239]), later, 255, k);
    NextChunk(clear[..239], clear[239..], 239, k);
    assert clear == clear[..239] + clear[239..];
  }

  lemma NextChunk(first: seq<byte>, rest: seq<byte>, n: nat, k: nat)
    requires |first| == n && 0 < k && n * (k - 1) <= |rest|
    ensures n * k <= |first + rest| && (first + rest)[n * k..] == rest[n * (k - 1)..]
    ensures n * k <= |rest| ==>
      n * (k + 1) <= |first + rest| && (first + rest)[n * k..n * (k + 1)] == rest[n * (k - 1)..n * k]
  {
    assert n * k == n * (k - 1) + n && n * (k + 1) == n * k + n;
  }

  lemma FirstChunk(aead: Aead, prefix: seq<byte>, clear: seq<byte>, position: nat)
    requires aead.Lawful() && Fits(|clear|, position)
    ensures SealedAt(aead, prefix, clear, Encrypted(aead, prefix, clear, position), position, 0)
  {
    if |clear| >= 239 {
      var sealed := aead.seal(Nonce(prefix, position, false), clear[..239]);
      assert (sealed + Encrypted(aead, prefix, clear[239..], position + 1))[0..255] == sealed;
      assert clear[0..239] == clear[..239];
    } else {
      assert clear[0..] == clear;
    }
  }

  /** Every file that encryption accepts is recovered, whatever its length. */
  lemma {:induction false} RoundTrip(aead: Aead, prefix: seq<byte>, clear: seq<byte>, position: nat)
    requires aead.Lawful() && Fits(|clear|, position)
    ensures Decrypted(aead, prefix, Encrypted(aead, prefix, clear, position), position) == Success(clear)
    decreases |clear|
  {
    if |clear| < BUFFER_LEN_ENCRYPT {
      assert |aead.seal(Nonce(prefix, position, true), clear)| == |clear| + TAG_LEN;
    } else {
      var chunk, rest := clear[..BUFFER_LEN_ENCRYPT], clear[BUFFER_LEN_ENCRYPT..];
      var sealed := aead.seal(Nonce(prefix, position, false), chunk);
      var later := Encrypted(aead, prefix, rest, position + 1);
      assert |sealed| == BUFFER_LEN_DECRYPT;
      assert (sealed + later)[..BUFFER_LEN_DECRYPT] == sealed && (sealed + later)[BUFFER_LEN_DECRYPT..] == later;
      RoundTrip(aead, prefix, rest, position + 1);
      assert chunk + rest == clear;
    }
  }

  /**
   * A file that ends on a chunk boundary decrypts without its last chunk having been seen: cut after k full
   * chunks, it yields the cleartext up to there.
   */
  lemma {:induction false} CutAtChunkAccepted(aead: Aead, prefix: seq<byte>, clear: seq<byte>, position: nat, k: nat)
    requires aead.Lawful() && Fits(|clear|, position) && k * BUFFER_LEN_ENCRYPT <= |clear|
    ensures k * BUFFER_LEN_DECRYPT <= |Encrypted(aead, prefix, clear, position)|
    ensures Decrypted(aead, prefix, Encrypted(aead, prefix, clear, position)[..k * BUFFER_LEN_DECRYPT], position)
         == Success(clear[..k * BUFFER_LEN_ENCRYPT])
    decreases k
  {
    if k > 0 {
      var chunk, rest := clear[..BUFFER_LEN_ENCRYPT], clear[BUFFER_LEN_ENCRYPT..];
      var sealed := aead.seal(Nonce(prefix, position, false), chunk);
      var later := Encrypted(aead, prefix, rest, position + 1);
      CutAtChunkAccepted(aead, prefix, rest, position + 1, k - 1);
      var cut := (sealed + later)[..k * BUFFER_LEN_DECRYPT];
      assert |sealed| == BUFFER_LEN_DECRYPT;
      assert cut[..BUFFER_LEN_DECRYPT] == sealed;
      assert cut[BUFFER_LEN_DECRYPT..] == later[..(k - 1) * BUFFER_LEN_DECRYPT];
      assert chunk + rest[..(k - 1) * BUFFER_LEN_ENCRYPT] == clear[..k * BUFFER_LEN_ENCRYPT];
    }
  }

  /**
   * What authentication gives a reader of any file, whatever was done to it: a piece that opens under a
   * position's nonce is the one sealed there for this cleartext.
   */
  ghost predicate Unforged(aead: Aead, prefix: seq<byte>, clear: seq<byte>, file: seq<byte>, position: nat)
    requires Fits(|clear|, position)
    decreases |file|
  {
    if |file| >= BUFFER_LEN_DECRYPT then
      position < U32_MAX && aead.open(Nonce(prefix, position, false), file[..BUFFER_LEN_DECRYPT]).Some? ==>
        && |clear| >= BUFFER_LEN_ENCRYPT
        && file[..BUFFER_LEN_DECRYPT] == aead.seal(Nonce(prefix, position, false), clear[..BUFFER_LEN_ENCRYPT])
        && Unforged(aead, prefix, clear[BUFFER_LEN_ENCRYPT..], file[BUFFER_LEN_DECRYPT..], position + 1)
    else
      file != [] && aead.open(Nonce(prefix, position, true), file).Some? ==>
        |clear| < BUFFER_LEN_ENCRYPT && file == aead.seal(Nonce(prefix, position, true), clear)
  }

  /** The whole of an encrypted file, or its beginning up to the end of a full chunk. */
  predicate WholeChunks(file: seq<byte>, whole: seq<byte>)
  {
    file == whole || (file <= whole && |file| % BUFFER_LEN_DECRYPT == 0)
  }

  lemma {:induction false} EncryptedLength(aead: Aead, prefix: seq<byte>, clear: seq<byte>, position: nat)
    requires aead.Lawful() && Fits(|clear|, position)
    ensures |Encrypted(aead, prefix, clear, position)|
         == |clear| + (|clear| / BUFFER_LEN_ENCRYPT + 1) * TAG_LEN
    decreases |clear|
  {
    if |clear| >= BUFFER_LEN_ENCRYPT {
      EncryptedLength(aead, prefix, clear[BUFFER_LEN_ENCRYPT..], position + 1);
    }
  }

  /** The last chunk alone: only itself, or nothing at all. */
  lemma LastAcceptedIff(aead: Aead, prefix: seq<byte>, clear: seq<byte>, file: seq<byte>, position: nat)
    requires aead.Lawful() && Fits(|clear|, position) && Unforged(aead, prefix, clear, file, position)
    requires |file| < BUFFER_LEN_DECRYPT
    ensures Decrypted(aead, prefix, file, position).Success? <==>
            WholeChunks(file, Encrypted(aead, prefix, clear, position))
  {
    var whole := Encrypted(aead, prefix, clear, position);
    var nonce := Nonce(prefix, position, true);
    if file == [] {
      assert file <= whole;
    } else {
      SmallRemainder(|file|);
      if |clear| < BUFFER_LEN_ENCRYPT {
        assert whole == aead.seal(nonce, clear);
      } else {
        EncryptedLength(aead, prefix, clear, position);
        assert |whole| >= BUFFER_LEN_DECRYPT;
        assert aead.open(nonce, file).None?;
      }
    }
  }

  lemma SmallRemainder(n: nat)
    requires 0 < n < BUFFER_LEN_DECRYPT
    ensures n % BUFFER_LEN_DECRYPT != 0
  {
  }

  /**
   * Of all files, changed, cut or extended in any way, exactly the encrypted one and its cuts after full
   * chunks decrypt; the empty file is one of them.
   */
  lemma {:induction false} AcceptedIff(
      aead: Aead, prefix: seq<byte>, clear: seq<byte>, file: seq<byte>, position: nat)
    requires aead.Lawful() && Fits(|clear|, position) && Unforged(aead, prefix, clear, file, position)
    ensures Decrypted(aead, prefix, file, position).Success? <==>
            WholeChunks(file, Encrypted(aead, prefix, clear, position))
    decreases |file|
  {
    if |file| < BUFFER_LEN_DECRYPT {
      LastAcceptedIff(aead, prefix, clear, file, position);
    } else if |clear| < BUFFER_LEN_ENCRYPT {
      assert |Encrypted(aead, prefix, clear, position)| == |clear| + TAG_LEN;
    } else {
      var first, rest := file[..BUFFER_LEN_DECRYPT], file[BUFFER_LEN_DECRYPT..];
      var sealed := aead.seal(Nonce(prefix, position, false), clear[..BUFFER_LEN_ENCRYPT]);
      var later := Encrypted(aead, prefix, clear[BUFFER_LEN_ENCRYPT..], position + 1);
      assert file == first + rest && |sealed| == BUFFER_LEN_DECRYPT;
      if first == sealed {
        assert aead.open(Nonce(prefix, position, false), first).Some?;
        AcceptedIff(aead, prefix, clear[BUFFER_LEN_ENCRYPT..], rest, position + 1);
        ChunkInFront(sealed, rest, later);
      } else {
        assert (sealed + later)[..BUFFER_LEN_DECRYPT] == sealed;
        assert !(file <= sealed + later);
      }
    }
  }

  lemma ChunkInFront(chunk: seq<byte>, file: seq<byte>, whole: seq<byte>)
    requires |chunk| == BUFFER_LEN_DECRYPT
    ensures WholeChunks(chunk + file, chunk + whole) <==> WholeChunks(file, whole)
  {
    assert (chunk + file)[BUFFER_LEN_DECRYPT..] == file && (chunk + whole)[BUFFER_LEN_DECRYPT..] == whole;
    assert chunk + file <= chunk + whole <==> file <= whole by {
      if chunk + file <= chunk + whole {
        assert (chunk + whole)[..|chunk + file|] == chunk + file;
        assert whole[..|file|] == (chunk + whole)[..|chunk + file|][BUFFER_LEN_DECRYPT..];
      }
    }
  }

  /** Cut to its first n bytes, an encrypted file decrypts exactly when no chunk is broken. */
  lemma CutAcceptedIff(aead: Aead, prefix: seq<byte>, clear: seq<byte>, n: nat)
    requires aead.Lawful() && Fits(|clear|, 0) && n <= |Encrypted(aead, prefix, clear, 0)|
    requires Unforged(aead, prefix, clear, Encrypted(aead, prefix, clear, 0)[..n], 0)
    ensures Decrypted(aead, prefix, Encrypted(aead, prefix, clear, 0)[..n], 0).Success? <==>
            n == |Encrypted(aead, prefix, clear, 0)|
            || (n % BUFFER_LEN_DECRYPT == 0 && n / BUFFER_LEN_DECRYPT <= |clear| / BUFFER_LEN_ENCRYPT)
  {
    AcceptedIff(aead, prefix, clear, Encrypted(aead, prefix, clear, 0)[..n], 0);
    EncryptedLength(aead, prefix, clear, 0);
  }

  /** The counter bound in bytes: files below 239 * 2^32 bytes are accepted. */
  lemma AcceptedLengths(clear: seq<byte>)
    ensures Fits(|clear|, 0) <==> |clear| < BUFFER_LEN_ENCRYPT * (U32_MAX + 1)
  {
  }
}
