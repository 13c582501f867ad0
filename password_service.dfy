/**
 * Password hashing: the stored value is base64(salt ‖ PBKDF2-HMAC-SHA256(password, salt, 100000, 32)).
 * PBKDF2, the random salt and base64 are outside the model: the derivation and the
 * two base64 conversions are given to the service as functions, and the salt is passed in.
 * What is modelled is the buffer layout, the copies and the comparison loop.
 */
module PasswordHashing {
  import opened Wrappers

  newtype byte = x: int | 0 <= x < 256

  const SaltSize: nat := 16
  const HashSize: nat := 32
  const Iterations: int := 100000

  type Salt = s: seq<byte> | |s| == SaltSize witness seq(SaltSize, _ => 0 as byte)
  type DerivedKey = k: seq<byte> | |k| == HashSize witness seq(HashSize, _ => 0 as byte)

  /** `Rfc2898DeriveBytes.Pbkdf2(password, salt, iterations, SHA256, HashSize)`. */
  type Pbkdf2 = (string, Salt, int) -> DerivedKey

  /** The layout of a stored hash before encoding: the salt, then the derived key. */
  function StoredBytes(salt: Salt, key: DerivedKey): (b: seq<byte>)
    ensures |b| == SaltSize + HashSize
    ensures b[..SaltSize] == salt && b[SaltSize..] == key
  {
    salt + key
  }

  /**
   * What `VerifyPassword` computes from the decoded hash (`None` when base64 decoding failed):
   * at least 48 bytes, and bytes 16..47 equal to the key derived with bytes 0..15 as salt.
   */
  predicate Verifies(kdf: Pbkdf2, password: string, decoded: Option<seq<byte>>) {
    && decoded.Some?
    && |decoded.value| >= SaltSize + HashSize
    && decoded.value[SaltSize..SaltSize + HashSize] == kdf(password, decoded.value[..SaltSize], Iterations)
  }

  /**
   * `Array.Copy(src, srcIndex, dst, dstIndex, length)`; `ok` is false where .NET throws
   * because a range does not fit, and then nothing is written.
   */
  method ArrayCopy(src: seq<byte>, srcIndex: nat, dst: array<byte>, dstIndex: nat, length: nat) returns (ok: bool)
    modifies dst
    ensures ok <==> srcIndex + length <= |src| && dstIndex + length <= dst.Length
    ensures ok ==> dst[..] == old(dst[..dstIndex]) + src[srcIndex..srcIndex + length] + old(dst[dstIndex + length..])
    ensures !ok ==> dst[..] == old(dst[..])
  {
    ok := srcIndex + length <= |src| && dstIndex + length <= dst.Length;
    if ok {
      forall i | 0 <= i < length {
        dst[dstIndex + i] := src[srcIndex + i];
      }
      assert dst[..] == old(dst[..dstIndex]) + src[srcIndex..srcIndex + length] + old(dst[dstIndex + length..]);
    }
  }

  class PasswordService {
    const pbkdf2: Pbkdf2
    const toBase64: seq<byte> -> string
    const fromBase64: string -> Option<seq<byte>>

    constructor (pbkdf2: Pbkdf2, toBase64: seq<byte> -> string, fromBase64: string -> Option<seq<byte>>)
      ensures this.pbkdf2 == pbkdf2 && this.toBase64 == toBase64 && this.fromBase64 == fromBase64
    {
      this.pbkdf2 := pbkdf2;
      this.toBase64 := toBase64;
      this.fromBase64 := fromBase64;
    }

    /** The stored hash of `password` under `salt`. */
    function Encoded(password: string, salt: Salt): string {
      toBase64(StoredBytes(salt, pbkdf2(password, salt, Iterations)))
    }

    /** Does `password` verify against the stored `hash`? */
    predicate Matches(password: string, hash: string) {
      Verifies(pbkdf2, password, fromBase64(hash))
    }

    /** `HashPassword` with the random salt passed in. */
    method HashPassword(password: string, salt: Salt) returns (hash: string)
      ensures hash == Encoded(password, salt)
    {
      var key := pbkdf2(password, salt, Iterations);
      var hashBytes := new byte[SaltSize + HashSize];
      var ok := ArrayCopy(salt, 0, hashBytes, 0, SaltSize);
      ok := ArrayCopy(key, 0, hashBytes, SaltSize, HashSize);
      assert hashBytes[..] == StoredBytes(salt, key);
      hash := toBase64(hashBytes[..]);
    }

    /** `VerifyPassword`: every exception the .NET code catches becomes `false`. */
    method VerifyPassword(password: string, hash: string) returns (ok: bool)
      ensures ok <==> Matches(password, hash)
      ensures fromBase64(hash).None? ==> !ok
      ensures ok ==> |fromBase64(hash).value| >= SaltSize + HashSize
    {
      var decoded := fromBase64(hash);
      if decoded.None? {
        return false;  // FormatException
      }
      var hashBytes := decoded.value;
      var salt := new byte[SaltSize];
      var copied := ArrayCopy(hashBytes, 0, salt, 0, SaltSize);
      if !copied {
        return false;  // ArgumentException: fewer than 16 bytes
      }
      assert salt[..] == hashBytes[..SaltSize];
      var testHash := pbkdf2(password, salt[..], Iterations);
      for i := 0 to HashSize
        invariant i + SaltSize <= |hashBytes|
        invariant forall j :: 0 <= j < i ==> hashBytes[j + SaltSize] == testHash[j]
      {
        if i + SaltSize >= |hashBytes| {
          return false;  // IndexOutOfRangeException: fewer than 48 bytes
        }
        if hashBytes[i + SaltSize] != testHash[i] {
          if |hashBytes| >= SaltSize + HashSize {
            assert hashBytes[SaltSize..SaltSize + HashSize][i] != testHash[i];
          }
          return false;
        }
      }
      assert hashBytes[SaltSize..SaltSize + HashSize] == testHash;
      return true;
    }
  }

  /** A hash verifies against the password it was made from (PBKDF2 being deterministic). */
  lemma HashThenVerify(kdf: Pbkdf2, password: string, salt: Salt)
    ensures Verifies(kdf, password, Some(StoredBytes(salt, kdf(password, salt, Iterations))))
  {
  }

  /** Through base64: if decoding undoes encoding, `Matches(p, Encoded(p, salt))`. */
  lemma EncodedMatches(ps: PasswordService, password: string, salt: Salt)
    requires ps.fromBase64(ps.toBase64(StoredBytes(salt, ps.pbkdf2(password, salt, Iterations))))
             == Some(StoredBytes(salt, ps.pbkdf2(password, salt, Iterations)))
    ensures ps.Matches(password, ps.Encoded(password, salt))
  {
    HashThenVerify(ps.pbkdf2, password, salt);
  }

  /** Fewer than 48 decoded bytes never verify. */
  lemma ShortNeverVerifies(kdf: Pbkdf2, password: string, b: seq<byte>)
    requires |b| < SaltSize + HashSize
    ensures !Verifies(kdf, password, Some(b))
  {
  }

  /** Only bytes 0..47 are read: anything appended after them is ignored. */
  lemma {:induction false} TrailingBytesIgnored(kdf: Pbkdf2, password: string, b: seq<byte>, extra: seq<byte>)
    requires |b| == SaltSize + HashSize
    ensures Verifies(kdf, password, Some(b + extra)) == Verifies(kdf, password, Some(b))
  {
    assert (b + extra)[..SaltSize] == b[..SaltSize];
    assert (b + extra)[SaltSize..SaltSize + HashSize] == b[SaltSize..SaltSize + HashSize];
  }

  /** Verification is the byte-by-byte comparison of bytes 16..47 with the recomputed key. */
  lemma VerifiesBytewise(kdf: Pbkdf2, password: string, b: seq<byte>)
    requires |b| >= SaltSize + HashSize
    ensures Verifies(kdf, password, Some(b)) <==>
      forall i :: 0 <= i < HashSize ==> b[SaltSize + i] == kdf(password, b[..SaltSize], Iterations)[i]
  {
    var key := kdf(password, b[..SaltSize], Iterations);
    if forall i :: 0 <= i < HashSize ==> b[SaltSize + i] == key[i] {
      assert b[SaltSize..SaltSize + HashSize] == key;
    }
  }
}
