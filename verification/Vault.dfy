// The sealed-blob format over an abstract AEAD and an abstract keyed digest.
module Vaults {
  import opened Prelude

  const BLOB_VERSION: byte := 1

  // N_MIN = N_MAX = 12 for AES-GCM (section 5.1 of RFC 5116).
  const NONCE_SIZE := 12

  datatype OpenError = BlobTooShort | UnknownVersion | DecryptFailed

  // encrypt(nonce, plaintext, associated data), decrypt(nonce, ciphertext,
  // associated data), and the fingerprint digest.
  datatype Vault = Vault(
    encrypt: (Bytes, Bytes, Bytes) -> Bytes,
    decrypt: (Bytes, Bytes, Bytes) -> Option<Bytes>,
    digest: Bytes -> string)
  {
    // The AEAD law of sections 2.1 and 2.2 of RFC 5116: decryption undoes
    // encryption under the same nonce and associated data.
    ghost predicate Sound() {
      forall nonce: Bytes, p: Bytes, ad: Bytes ::
        |nonce| == NONCE_SIZE ==> decrypt(nonce, encrypt(nonce, p, ad), ad) == Some(p)
    }

    function Blob(nonce: Bytes, plaintext: Bytes): Bytes {
      [BLOB_VERSION] + nonce + encrypt(nonce, plaintext, [BLOB_VERSION])
    }

    function Open(blob: Bytes): Result<Bytes, OpenError> {
      if |blob| < 1 then Err(BlobTooShort)
      else if blob[0] != BLOB_VERSION then Err(UnknownVersion)
      else if |blob| < 1 + NONCE_SIZE then Err(BlobTooShort)
      else
        match decrypt(blob[1..1 + NONCE_SIZE], blob[1 + NONCE_SIZE..], [BLOB_VERSION])
        case None => Err(DecryptFailed)
        case Some(p) => Ok(p)
    }

    // The blob is built by appending; the nonce is the random bytes drawn.
    method Seal(nonce: Bytes, plaintext: Bytes) returns (blob: Bytes)
      requires |nonce| == NONCE_SIZE
      ensures blob == Blob(nonce, plaintext)
    {
      var ciphertext := encrypt(nonce, plaintext, [BLOB_VERSION]);
      blob := [];
      blob := blob + [BLOB_VERSION];
      blob := blob + nonce;
      blob := blob + ciphertext;
    }

    lemma OpenSeal(nonce: Bytes, p: Bytes)
      requires Sound() && |nonce| == NONCE_SIZE
      ensures Blob(nonce, p) != []
      ensures Open(Blob(nonce, p)) == Ok(p)
    {
    }

    // A blob determines its nonce and its plaintext, so sealing one key twice
    // under different nonces gives different blobs.
    lemma BlobInjective(n1: Bytes, p1: Bytes, n2: Bytes, p2: Bytes)
      requires Sound() && |n1| == NONCE_SIZE && |n2| == NONCE_SIZE
      ensures Blob(n1, p1) == Blob(n2, p2) <==> n1 == n2 && p1 == p2
    {
      OpenSeal(n1, p1);
      OpenSeal(n2, p2);
      assert Blob(n1, p1)[1..1 + NONCE_SIZE] == n1;
      assert Blob(n2, p2)[1..1 + NONCE_SIZE] == n2;
    }

    ghost predicate Framed(blob: Bytes, nonce: Bytes, ct: Bytes) {
      |nonce| == NONCE_SIZE && blob == [BLOB_VERSION] + nonce + ct
    }

    // Opening succeeds exactly on version ++ 12-byte nonce ++ accepted ciphertext,
    // and the three errors partition all other blobs.
    lemma OpenExact(blob: Bytes)
      ensures forall p :: Open(blob) == Ok(p) <==>
                exists nonce, ct :: Framed(blob, nonce, ct) && decrypt(nonce, ct, [BLOB_VERSION]) == Some(p)
      ensures Open(blob) == Err(DecryptFailed) <==>
                exists nonce, ct :: Framed(blob, nonce, ct) && decrypt(nonce, ct, [BLOB_VERSION]) == None
      ensures Open(blob) == Err(UnknownVersion) <==> blob != [] && blob[0] != BLOB_VERSION
      ensures Open(blob) == Err(BlobTooShort) <==>
                blob == [] || (blob[0] == BLOB_VERSION && |blob| < 1 + NONCE_SIZE)
    {
    }
  }

  // UTF-8 (section 3 of RFC 3629), the bytes behind a Go string.
  function Utf8Char(c: char): (b: Bytes)
    ensures b != []
  {
    var n := c as int;
    if n < 0x80 then [n as byte]
    else if n < 0x800 then [(0xC0 + n / 0x40) as byte, (0x80 + n % 0x40) as byte]
    else if n < 0x10000 then
      [(0xE0 + n / 0x1000) as byte, (0x80 + n / 0x40 % 0x40) as byte, (0x80 + n % 0x40) as byte]
    else
      [(0xF0 + n / 0x40000) as byte, (0x80 + n / 0x1000 % 0x40) as byte,
       (0x80 + n / 0x40 % 0x40) as byte, (0x80 + n % 0x40) as byte]
  }

  function Utf8(s: string): (b: Bytes)
    ensures b == [] <==> s == ""
  {
    if s == "" then [] else Utf8Char(s[0]) + Utf8(s[1..])
  }

  // The number of bytes a lead byte announces.
  function Utf8Width(lead: byte): nat {
    if lead < 0x80 then 1 else if lead < 0xE0 then 2 else if lead < 0xF0 then 3 else 4
  }

  // The scalar value behind the bytes of one character.
  function Utf8Code(b: Bytes): int {
    if |b| == 1 then b[0] as int
    else if |b| == 2 then (b[0] as int - 0xC0) * 0x40 + (b[1] as int - 0x80)
    else if |b| == 3 then (b[0] as int - 0xE0) * 0x1000 + (b[1] as int - 0x80) * 0x40 + (b[2] as int - 0x80)
    else if |b| == 4 then
      (b[0] as int - 0xF0) * 0x40000 + (b[1] as int - 0x80) * 0x1000 + (b[2] as int - 0x80) * 0x40
      + (b[3] as int - 0x80)
    else 0
  }

  lemma Utf8CharReads(c: char)
    ensures |Utf8Char(c)| == Utf8Width(Utf8Char(c)[0])
    ensures Utf8Code(Utf8Char(c)) == c as int
  {
    var n := c as int;
    Sextets(n);
    if 0x800 <= n < 0x10000 {
      var b := Utf8Char(c);
      assert b[0] as int - 0xE0 == n / 0x1000 && b[1] as int - 0x80 == n / 0x40 % 0x40
             && b[2] as int - 0x80 == n % 0x40;
    } else if 0x10000 <= n {
      var b := Utf8Char(c);
      assert b[0] as int - 0xF0 == n / 0x40000 && b[1] as int - 0x80 == n / 0x1000 % 0x40
             && b[2] as int - 0x80 == n / 0x40 % 0x40 && b[3] as int - 0x80 == n % 0x40;
    }
  }

  // A number is put together again from its base-64 digits.
  lemma Sextets(n: nat)
    ensures n == n / 0x40 * 0x40 + n % 0x40
    ensures n / 0x40 == n / 0x1000 * 0x40 + n / 0x40 % 0x40
    ensures n / 0x1000 == n / 0x40000 * 0x40 + n / 0x1000 % 0x40
  {
  }

  // The encoding of a character is no prefix of another's.
  lemma Utf8CharPrefix(c: char, x: Bytes, d: char, y: Bytes)
    requires Utf8Char(c) + x == Utf8Char(d) + y
    ensures c == d && x == y
  {
    Utf8CharReads(c);
    Utf8CharReads(d);
    SamePrefix(Utf8Char(c), x, Utf8Char(d), y);
  }

  lemma SamePrefix(m: Bytes, x: Bytes, n: Bytes, y: Bytes)
    requires m != [] && n != [] && m + x == n + y && |m| == Utf8Width(m[0]) && |n| == Utf8Width(n[0])
    ensures m == n && x == y
  {
    assert (m + x)[0] == m[0] && (n + y)[0] == n[0];
    assert m == (m + x)[..|m|] && n == (n + y)[..|n|];
    assert x == (m + x)[|m|..] && y == (n + y)[|n|..];
  }

  // Different texts have different bytes.
  lemma {:induction false} Utf8Injective(a: string, b: string)
    requires Utf8(a) == Utf8(b)
    ensures a == b
  {
    if a != "" && b != "" {
      Utf8CharPrefix(a[0], Utf8(a[1..]), b[0], Utf8(b[1..]));
      Utf8Injective(a[1..], b[1..]);
      assert a == [a[0]] + a[1..] && b == [b[0]] + b[1..];
    }
  }

  // Four bullets, U+2022.
  const MASK: Bytes := [0xE2, 0x80, 0xA2, 0xE2, 0x80, 0xA2, 0xE2, 0x80, 0xA2, 0xE2, 0x80, 0xA2]

  // The display suffix of a secret.
  function Last4(secret: Bytes): Bytes {
    if |secret| < 8 then MASK else MASK + secret[|secret| - 4..]
  }

  // It shows the last four bytes of a secret of at least eight, and nothing else: two
  // secrets look alike exactly when both are short, or neither is and they end alike.
  lemma Last4ShowsFour(a: Bytes, b: Bytes)
    ensures |a| >= 8 ==> Last4(a) == MASK + a[|a| - 4..]
    ensures Last4(a) == Last4(b) <==>
              if |a| < 8 || |b| < 8 then |a| < 8 && |b| < 8 else a[|a| - 4..] == b[|b| - 4..]
  {
    if |a| >= 8 && |b| >= 8 {
      assert Last4(a)[|MASK|..] == a[|a| - 4..] && Last4(b)[|MASK|..] == b[|b| - 4..];
    } else if |a| >= 8 || |b| >= 8 {
      assert |Last4(a)| != |Last4(b)|;
    }
  }
}
