/**
 * pkg/report: the parts of the encrypted report sender that are not foreign
 * crypto or network calls. These are PKCS#7 padding (section 6.3 of RFC 5652),
 * the 16-byte AES key, the random-string alphabet, the configuration checks in
 * `Send` and the URL join in `send`.
 */
module Report {

  import opened Wrappers
  import opened Errs
  import opened Strings

  type byte = x: int | 0 <= x < 256

  const OpResOK: int := 0
  const OpResError: int := 1
  const OpObjTypePhishing: int := 31

  datatype ReportConfig = ReportConfig(endpoint: string, enable: bool, aesPublicKey: string)

  datatype ReportHead = ReportHead(userId: int)

  /** One payload item. The Go value is a JSON object {"url": .., "source": ..};
      its two strings are fields here. */
  datatype PayloadItem = PayloadItem(
    opRes: int, opObjType: int, url: string, source: string,
    userTimestamp: int, timestamp: int)

  // ---------------------------------------------------------------- PKCS#7 padding

  /** The padding count: how many bytes bring `n` up to the next multiple of the
      block size, a whole block when `n` already is one. */
  function PadCount(n: nat, blockSize: int): (p: int)
    requires blockSize > 0
    ensures 1 <= p <= blockSize
    ensures n + p == (n / blockSize + 1) * blockSize
    ensures n % blockSize == 0 ==> p == blockSize
  {
    blockSize - n % blockSize
  }

  /** `n` copies of the byte `b`. */
  function Fill(b: byte, n: nat): (r: seq<byte>)
    ensures |r| == n && forall i :: 0 <= i < n ==> r[i] == b
  {
    seq(n, _ => b)
  }

  /**
   * PKCS#7 padding: `p` bytes of value `p` appended, where `p` is PadCount. The
   * block size must fit in a byte, as section 6.3 of RFC 5652 requires.
   */
  function Pkcs7Pad(data: seq<byte>, blockSize: int): (r: seq<byte>)
    requires 0 < blockSize < 256
    ensures |r| == (|data| / blockSize + 1) * blockSize && |data| < |r| <= |data| + blockSize
    ensures r[..|data|] == data
    ensures forall i :: |data| <= i < |r| ==> r[i] == |r| - |data|
    ensures |data| % blockSize == 0 ==> |r| == |data| + blockSize
  {
    var p := PadCount(|data|, blockSize);
    data + Fill(p, p)
  }

  /** Removes PKCS#7 padding; None when the input is not a padded message. */
  function Pkcs7Unpad(r: seq<byte>, blockSize: int): Option<seq<byte>>
    requires 0 < blockSize < 256
  {
    if |r| == 0 then None
    else
      var p := r[|r| - 1];
      if 1 <= p <= blockSize && p <= |r| && forall i :: |r| - p <= i < |r| ==> r[i] == p
      then Some(r[..|r| - p])
      else None
  }

  /** Unpadding a padded message gives the message back. */
  lemma PadUnpad(data: seq<byte>, blockSize: int)
    requires 0 < blockSize < 256
    ensures Pkcs7Unpad(Pkcs7Pad(data, blockSize), blockSize) == Some(data)
  {
    var r := Pkcs7Pad(data, blockSize);
    assert r[|r| - 1] == |r| - |data|;
  }

  /** The UTF-8 encoding of the rune whose code is `b`: one byte below 128, two
      bytes from 128 on. */
  function Utf8OfByteRune(b: byte): (r: seq<byte>)
    ensures b < 128 ==> r == [b]
    ensures 128 <= b ==> |r| == 2 && r[0] == 0xC0 + b / 64 && r[1] == 0x80 + b % 64
  {
    if b < 128 then [b] else [0xC0 + b / 64, 0x80 + b % 64]
  }

  /** strings.Repeat on the bytes of a string. */
  function Repeat(s: seq<byte>, n: nat): (r: seq<byte>)
    ensures |r| == n * |s|
    ensures 0 < n && 0 < |s| ==> r[0] == s[0]
  {
    if n == 0 then [] else s + Repeat(s, n - 1)
  }

  /** Repeating a string gives n copies of it, one after another: byte i is
      byte i mod |s| of the string. */
  lemma {:induction false} RepeatCopies(s: seq<byte>, n: nat)
    ensures forall i :: 0 <= i < |Repeat(s, n)| ==> Repeat(s, n)[i] == s[i % |s|]
  {
    forall i | 0 <= i < |Repeat(s, n)|
      ensures Repeat(s, n)[i] == s[i % |s|]
    {
      RepeatAt(s, n, i);
    }
  }

  lemma {:induction false} RepeatAt(s: seq<byte>, n: nat, i: int)
    requires 0 <= i < |Repeat(s, n)|
    ensures Repeat(s, n)[i] == s[i % |s|]
  {
    assert n > 0 && |s| > 0;
    var rest := Repeat(s, n - 1);
    assert Repeat(s, n) == s + rest;
    if i < |s| {
      ModUnique(i, |s|, 0, i);
    } else {
      RepeatAt(s, n - 1, i - |s|);
      ModShift(i, |s|);
    }
  }

  lemma ModShift(i: int, k: int)
    requires 0 < k <= i
    ensures (i - k) % k == i % k
  {
    var q, r := (i - k) / k, (i - k) % k;
    assert i - k == q * k + r;
    assert i == (q + 1) * k + r;
    ModUnique(i, k, q + 1, r);
  }

  /** The remainder is the only r in [0, k) with a == q * k + r. */
  lemma ModUnique(a: int, k: int, q: int, r: int)
    requires 0 < k && 0 <= r < k && a == q * k + r
    ensures a % k == r
  {
    var q2, r2 := a / k, a % k;
    assert a == q2 * k + r2;
    var d := q - q2;
    assert d * k == r2 - r;
    if d >= 1 {
      MulAtLeast(d, k);
    } else if d <= -1 {
      MulAtMost(d, k);
    }
  }

  lemma MulAtMost(d: int, k: int)
    requires d <= -1 && k > 0
    ensures d * k <= -k
  {
    MulAtLeast(-d, k);
    assert d * k == -((-d) * k);
  }

  lemma {:induction false} MulAtLeast(d: int, k: int)
    requires d >= 1 && k > 0
    ensures d * k >= k
  {
    if d > 1 {
      MulAtLeast(d - 1, k);
      assert d * k == (d - 1) * k + k;
    }
  }

  /** Repeating a one-byte string fills with that byte. */
  lemma {:induction false} RepeatOne(b: byte, n: nat)
    ensures Repeat([b], n) == Fill(b, n)
  {
    if n > 0 {
      RepeatOne(b, n - 1);
      assert Fill(b, n) == [b] + Fill(b, n - 1);
    }
  }

  /**
   * pkcs7Pad as the code is written: the pad string is built from
   * string(byte(padding)), a one-rune string, so a count of 128 or more is
   * written as its two-byte UTF-8 encoding. Go panics on a zero block size.
   */
  function Pkcs7PadAsWritten(data: seq<byte>, blockSize: int): (r: seq<byte>)
    requires blockSize > 0
    ensures |data| < |r| && r[..|data|] == data
  {
    var p := PadCount(|data|, blockSize);
    data + Repeat(Utf8OfByteRune(p % 256), p)
  }

  /** Below a block size of 128 (so for AES's 16) the code pads correctly. */
  lemma PadAsWrittenAgrees(data: seq<byte>, blockSize: int)
    requires 0 < blockSize < 128
    ensures Pkcs7PadAsWritten(data, blockSize) == Pkcs7Pad(data, blockSize)
  {
    var p := PadCount(|data|, blockSize);
    assert p % 256 == p;
    assert Utf8OfByteRune(p) == [p];
    RepeatOne(p, p);
  }

  /** With a block size of 128 an empty input gets 256 bytes alternating 0xC2
      and 0x80, where PKCS#7 asks for 128 bytes of value 128. */
  lemma PadAsWrittenWrongAt128()
    ensures |Pkcs7PadAsWritten([], 128)| == 256
    ensures forall i :: 0 <= i < 256 ==>
              Pkcs7PadAsWritten([], 128)[i] == if i % 2 == 0 then 0xC2 else 0x80
    ensures |Pkcs7Pad([], 128)| == 128 && forall i :: 0 <= i < 128 ==> Pkcs7Pad([], 128)[i] == 128
  {
    var p := PadCount(0, 128);
    assert p == 128 && p % 256 == 128;
    var u := Utf8OfByteRune(128);
    assert u == [0xC2, 0x80];
    RepeatCopies(u, 128);
    assert Pkcs7PadAsWritten([], 128) == Repeat(u, 128);
  }

  // ---------------------------------------------------------------- AES inputs

  /** aesEncrypt's key: cut to 16 bytes, or right-padded with zero bytes. */
  function NormalizeKey(key: seq<byte>): (k: seq<byte>)
    ensures |k| == 16
    ensures forall i :: 0 <= i < 16 ==> k[i] == if i < |key| then key[i] else 0
  {
    if |key| > 16 then key[..16]
    else if |key| < 16 then key + Fill(0, 16 - |key|)
    else key
  }

  /** What aesEncrypt hands to AES-128-CBC: the key, the IV (the key again) and
      the padded plain text. */
  datatype CbcInput = CbcInput(key: seq<byte>, iv: seq<byte>, padded: seq<byte>)

  function AesInput(key: seq<byte>, plaintext: seq<byte>): (c: CbcInput)
    ensures |c.key| == 16 && c.iv == c.key
    ensures |c.padded| % 16 == 0 && |plaintext| < |c.padded| && c.padded[..|plaintext|] == plaintext
    ensures Pkcs7Unpad(c.padded, 16) == Some(plaintext)
  {
    PadUnpad(plaintext, 16);
    var k := NormalizeKey(key);
    CbcInput(k, k, Pkcs7Pad(plaintext, 16))
  }

  // ---------------------------------------------------------------- random string

  /** The 62-character alphabet "a".."z", "A".."Z", "0".."9" in that order, as
      ASCII codes: the k-th character. */
  function CharsetByte(k: nat): (b: byte)
    requires k < 62
  {
    if k < 26 then 'a' as int + k
    else if k < 52 then 'A' as int + (k - 26)
    else '0' as int + (k - 52)
  }

  predicate InCharset(b: int) {
    'a' as int <= b <= 'z' as int || 'A' as int <= b <= 'Z' as int || '0' as int <= b <= '9' as int
  }

  /** The alphabet holds 62 distinct letters and digits, and every ASCII letter
      or digit is one of them. */
  lemma CharsetExact(k: nat, m: nat, b: int)
    requires k < 62 && m < 62
    ensures InCharset(CharsetByte(k))
    ensures CharsetByte(k) == CharsetByte(m) ==> k == m
    ensures InCharset(b) ==> exists j :: 0 <= j < 62 && CharsetByte(j) == b
  {
    if InCharset(b) {
      if 'a' as int <= b <= 'z' as int {
        assert CharsetByte(b - 'a' as int) == b;
      } else if 'A' as int <= b <= 'Z' as int {
        assert CharsetByte(b - 'A' as int + 26) == b;
      } else {
        assert CharsetByte(b - '0' as int + 52) == b;
      }
    }
  }

  /**
   * generateRandomString: fills `length` bytes from the entropy source and maps
   * each byte to the alphabet by its remainder modulo 62; a failed read gives
   * the empty string and the read's error. The entropy source and its error are
   * parameters standing for crypto/rand. Go panics on a negative length.
   */
  method GenerateRandomString(length: int, entropy: nat -> byte, readErr: GoError)
    returns (s: seq<byte>, err: GoError)
    requires length >= 0
    ensures readErr != Nil ==> s == [] && err == readErr
    ensures readErr == Nil ==> err == Nil && |s| == length
    ensures readErr == Nil ==> forall i :: 0 <= i < length ==> s[i] == CharsetByte(entropy(i) % 62)
    ensures forall i :: 0 <= i < |s| ==> InCharset(s[i])
  {
    var bytes := new byte[length](i requires 0 <= i => entropy(i));
    if readErr != Nil {
      return [], readErr;
    }
    var i := 0;
    while i < length
      invariant 0 <= i <= length
      invariant forall j :: 0 <= j < i ==> bytes[j] == CharsetByte(entropy(j) % 62)
      invariant forall j :: i <= j < length ==> bytes[j] == entropy(j)
    {
      bytes[i] := CharsetByte(bytes[i] % 62);
      i := i + 1;
    }
    s, err := bytes[..], Nil;
    forall j | 0 <= j < |s|
      ensures InCharset(s[j])
    {
      CharsetExact(entropy(j) % 62, 0, 0);
    }
  }

  // ---------------------------------------------------------------- sending

  /** What Send does: reject the configuration, or hand everything to `send`,
      whose crypto and network steps are not part of this model. */
  datatype SendStep =
    | Rejected(err: GoError)
    | Forwarded(baseURL: string, urlPath: string, publicKey: string, head: ReportHead, payload: seq<PayloadItem>)

  const EndpointMissing: string := "endpoint is not configured"
  const KeyMissing: string := "AES public key is not configured"

  /** Reporter.Send: the endpoint is checked first, then the public key; only a
      configuration with both goes on to `send`. */
  function Send(config: ReportConfig, urlPath: string, head: ReportHead, payload: seq<PayloadItem>): (r: SendStep)
    ensures r.Rejected? <==> config.endpoint == "" || config.aesPublicKey == ""
    ensures config.endpoint == "" ==> r == Rejected(Foreign(EndpointMissing))
    ensures config.endpoint != "" && config.aesPublicKey == "" ==> r == Rejected(Foreign(KeyMissing))
    ensures r.Forwarded? ==>
              r.baseURL == config.endpoint && r.publicKey == config.aesPublicKey &&
              r.urlPath == urlPath && r.head == head && r.payload == payload
  {
    if config.endpoint == "" then Rejected(Foreign(EndpointMissing))
    else if config.aesPublicKey == "" then Rejected(Foreign(KeyMissing))
    else Forwarded(config.endpoint, urlPath, config.aesPublicKey, head, payload)
  }

  /** The URL `send` posts to: the base URL without its trailing slashes, then the
      path. */
  function FullURL(baseURL: string, urlPath: string): (u: string)
    ensures HasSuffix(u, urlPath)
    ensures var b := u[..|u| - |urlPath|];
            HasPrefix(baseURL, b) && (b == [] || b[|b| - 1] != '/') &&
            forall i :: |b| <= i < |baseURL| ==> baseURL[i] == '/'
  {
    var b := TrimRightChar(baseURL, '/');
    assert (b + urlPath)[..|b|] == b;
    b + urlPath
  }
}
