/**
 * The placeholder security workload: a hash pass that XOR-folds a 1024-byte
 * certificate buffer filled with 'A', encryption/decryption and signature
 * verification built from hash passes, and a key generation that only burns
 * 65300 x 65300 loop iterations.  Each routine returns the trace entries of
 * the passes it ran.
 */
module Security {
  import opened Common
  import opened Actions
  import Message

  /** Size of the certificate buffer. */
  const CertBufferLen: nat := 1024
  /** Initial value of the hash accumulator. */
  const HashSeed: byte := 1
  /** Both loop bounds of the key generation. */
  const KeyGenBound: nat := 65300

  /** The accumulator after XOR-ing in the bytes of `s` in order. */
  function XorFold(acc: byte, s: seq<byte>): byte
    decreases |s|
  {
    if s == [] then acc else XorFold(acc, s[..|s| - 1]) ^ s[|s| - 1]
  }

  lemma XorTwice(a: byte, b: byte)
    ensures (a ^ b) ^ b == a
  {
  }

  /** Folding a run of equal bytes cancels them in pairs. */
  lemma {:induction false} XorFoldUniform(acc: byte, b: byte, s: seq<byte>)
    requires forall i :: 0 <= i < |s| ==> s[i] == b
    ensures XorFold(acc, s) == if |s| % 2 == 0 then acc else acc ^ b
    decreases |s|
  {
    if s != [] {
      XorFoldUniform(acc, b, s[..|s| - 1]);
      if |s| % 2 == 0 {
        XorTwice(acc, b);
      }
    }
  }

  /** 1024 is even, so the fold of the 'A' buffer leaves the seed unchanged. */
  lemma HashDigestIsSeed()
    ensures XorFold(HashSeed, Repeat(Message.FillByte, CertBufferLen)) == HashSeed
  {
    XorFoldUniform(HashSeed, Message.FillByte, Repeat(Message.FillByte, CertBufferLen));
  }

  /** One hash pass, with the digest it computed. */
  function HashActs(): seq<Action>
  {
    [HashPass(HashSeed)]
  }

  /** Encryption/decryption is one hash pass. */
  function EncryptionDecryptionActs(): seq<Action>
  {
    HashActs()
  }

  /** Signature verification is a hash pass followed by encryption/decryption. */
  function SignatureVerificationActs(): seq<Action>
  {
    HashActs() + EncryptionDecryptionActs()
  }

  /** One key generation, with the number of inner iterations it ran. */
  function KeyGenActs(): seq<Action>
  {
    [KeyGen(KeyGenBound * KeyGenBound)]
  }

  /** Fills the certificate buffer with 'A' and XOR-folds it into an accumulator that starts at 1. */
  method HashGeneration() returns (acts: seq<Action>)
    ensures acts == [HashPass(XorFold(HashSeed, Repeat(Message.FillByte, CertBufferLen)))]
    ensures acts == HashActs()
  {
    var buffer := new byte[CertBufferLen];
    var i := 0;
    while i < CertBufferLen
      invariant 0 <= i <= CertBufferLen
      invariant forall k :: 0 <= k < i ==> buffer[k] == Message.FillByte
    {
      buffer[i] := Message.FillByte;
      i := i + 1;
    }
    assert buffer[..] == Repeat(Message.FillByte, CertBufferLen);
    var hashOutput := HashSeed;
    i := 0;
    while i < CertBufferLen
      invariant 0 <= i <= CertBufferLen
      invariant hashOutput == XorFold(HashSeed, buffer[..i])
    {
      assert buffer[..i + 1][..i] == buffer[..i];
      hashOutput := hashOutput ^ buffer[i];
      i := i + 1;
    }
    assert buffer[..i] == buffer[..];
    HashDigestIsSeed();
    acts := [HashPass(hashOutput)];
  }

  method EncryptionDecryption() returns (acts: seq<Action>)
    ensures acts == EncryptionDecryptionActs()
    ensures Count(acts, HashK) == 1
  {
    acts := HashGeneration();
  }

  method SignatureVerification() returns (acts: seq<Action>)
    ensures acts == SignatureVerificationActs()
    ensures Count(acts, HashK) == 2
  {
    var first := HashGeneration();
    var second := EncryptionDecryption();
    acts := first + second;
  }

  /** Two nested loops of 65300 iterations each; the accumulated key itself is not modelled. */
  method KeyGenerationExponential() returns (acts: seq<Action>)
    ensures acts == KeyGenActs()
  {
    var a, b := KeyGenBound, KeyGenBound;
    var iterations := 0;
    var i := 0;
    while i < a
      invariant 0 <= i <= a
      invariant iterations == i * b
    {
      var j := 0;
      while j < b
        invariant 0 <= j <= b
        invariant iterations == i * b + j
      {
        iterations := iterations + 1;
        j := j + 1;
      }
      i := i + 1;
    }
    acts := [KeyGen(iterations)];
  }
}
