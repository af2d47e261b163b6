/**
 * The request signer of the rating portal's "weapi" endpoints: the random per-instance seed, the two-layer
 * AES-CBC/base64 encryption of the JSON payload (`params`), the RSA-encrypted seed (`encSecKey`), the
 * score/tag rule, the rating payload, and `sign` with its rate-limit retry.
 */
module Signer {
  import opened Common
  import opened Text
  import opened Json
  import opened Encoding
  import opened Cbc
  import opened Env

  const Iv := "0102030405060708"
  const AesKey := "0CoJUm6Qyw8W8jud"
  /** `iv.encode('utf-8')`: the IV's characters are ASCII digits, one byte each (see `IvBytesUtf8`). */
  const IvBytes: Block := [48, 49, 48, 50, 48, 51, 48, 52, 48, 53, 48, 54, 48, 55, 48, 56]
  /** `"0CoJUm6Qyw8W8jud".encode('utf-8')`, likewise one byte per character (see `AesKeyUtf8`). */
  const AesKeyBytes: seq<byte> := [48, 67, 111, 74, 85, 109, 54, 81, 121, 119, 56, 87, 56, 106, 117, 100]
  /** The public exponent, `int("010001", 16)`. */
  const PubKey := 0x10001
  /** The RSA modulus, `int(modulus, 16)` of the 258-digit hex text the signer holds. */
  const Modulus := 0x00e0b509f6259df8642dbc35662901477df22677ec152b5ff68ace615bb7b725_152b3ab17a876aea8a5aa76d2e417629ec4ee341f56135fccf695280104e0312_ecbda92557c93870114af6c9d05c4f7f0c3685b7a46bee255932575cce10b424_d813cfe4875d3e82047b97ddef52741d546b8e289dc6935b3ece0462db0a22b8_e7

  // ---------------------------------------------------------------------------------------------
  // The random seed
  // ---------------------------------------------------------------------------------------------

  /** `(string.ascii_letters + string.digits)[k]`: lower-case letters, then upper-case, then digits. */
  function AlphabetChar(k: nat): (c: char)
    requires k < 62
    ensures IsSeedChar(c)
  {
    if k < 26 then ('a' as int + k) as char
    else if k < 52 then ('A' as int + k - 26) as char
    else ('0' as int + k - 52) as char
  }

  /** Every letter and digit can be drawn. */
  lemma AlphabetComplete(c: char)
    requires IsSeedChar(c)
    ensures exists k :: 0 <= k < 62 && AlphabetChar(k) == c
  {
    if 'a' <= c <= 'z' {
      assert AlphabetChar(c as int - 'a' as int) == c;
    } else if 'A' <= c <= 'Z' {
      assert AlphabetChar(c as int - 'A' as int + 26) == c;
    } else {
      assert AlphabetChar(c as int - '0' as int + 52) == c;
    }
  }


  /** The string `random.choice` builds when the random source yields `rng(from)`, `rng(from + 1)`, ... */
  function RandomString(rng: nat -> nat, from: nat, length: nat): (r: string)
    ensures |r| == length
    ensures forall i :: 0 <= i < |r| ==> IsSeedChar(r[i])
  {
    var r := seq(length, i requires 0 <= i < length => AlphabetChar(rng(from + i) % 62));
    assert forall i :: 0 <= i < |r| ==> r[i] == AlphabetChar(rng(from + i) % 62);
    r
  }

  /** `_generate_random_string(length)`: one draw from the alphabet per character. */
  method GenerateRandomString(rng: nat -> nat, from: nat, length: nat) returns (s: string)
    ensures s == RandomString(rng, from, length)
  {
    s := "";
    for i := 0 to length
      invariant s == RandomString(rng, from, i)
    {
      s := s + [AlphabetChar(rng(from + i) % 62)];
    }
  }

  /** A signer as constructed: the task it rates for and its seed, fixed for the signer's lifetime. */
  datatype Signer = Signer(taskId: Json, seed: Seed)

  /** `Signer(session, task_id, logger, config)`: draws a fresh sixteen-character seed. */
  method NewSigner(world: World, taskId: Json) returns (s: Signer)
    modifies world`drawn
    ensures s == Signer(taskId, RandomString(world.rng, old(world.drawn), 16))
    ensures world.drawn == old(world.drawn) + 16
  {
    var seed := GenerateRandomString(world.rng, world.drawn, 16);
    world.drawn := world.drawn + 16;
    s := Signer(taskId, seed);
  }

  // ---------------------------------------------------------------------------------------------
  // params: two layers of AES-CBC and base64
  // ---------------------------------------------------------------------------------------------

  /**
   * `_add_to_16` before encoding: N = 16 - len % 16 copies of chr(N), so between 1 and 16 characters,
   * as in the padding of section 6.3 of RFC 5652 but counted in characters.
   */
  function PadTo16(text: string): (r: string)
    ensures |text| < |r| <= |text| + 16 && |r| % 16 == 0
    ensures r[..|text|] == text
    ensures forall i :: |text| <= i < |r| ==> r[i] as int == |r| - |text|
  {
    var n := 16 - |text| % 16;
    text + seq(n, _ => n as char)
  }

  /** Strips the padding: the last character says how many characters to drop. */
  function Unpad(r: string): (t: string)
    requires |r| > 0 && r[|r| - 1] as int <= |r|
    ensures |t| == |r| - r[|r| - 1] as int
  {
    r[..|r| - r[|r| - 1] as int]
  }

  lemma UnpadPadTo16(text: string)
    ensures Unpad(PadTo16(text)) == text
  {
  }

  /** `_add_to_16(text)`: the padded text, UTF-8 encoded. */
  function AddTo16(text: string): (r: seq<byte>)
  {
    Utf8(PadTo16(text))
  }

  /** Padding ASCII text keeps it ASCII: the pad characters are chr(1) to chr(16). */
  lemma PadAscii(text: string)
    requires IsAscii(text)
    ensures IsAscii(PadTo16(text))
  {
    var p := PadTo16(text);
    forall i | 0 <= i < |p| ensures IsAsciiChar(p[i]) {
      if i >= |text| {
        assert p[i] as int <= 16;
      } else {
        assert p[i] == p[..|text|][i];
      }
    }
  }

  /** On ASCII text the padding, done on characters, also aligns the bytes, as CBC requires. */
  lemma AddTo16Aligned(text: string)
    requires IsAscii(text)
    ensures |AddTo16(text)| == |PadTo16(text)|
    ensures |AddTo16(text)| % 16 == 0 && |text| < |AddTo16(text)| <= |text| + 16
  {
    PadAscii(text);
    Utf8OfAscii(PadTo16(text));
  }

  /** ASCII text encodes to its character codes. */
  lemma Utf8OfCodes(s: string, b: seq<byte>)
    requires IsAscii(s) && |b| == |s| && forall i :: 0 <= i < |s| ==> b[i] == s[i] as int
    ensures Utf8(s) == b
  {
    Utf8OfAscii(s);
  }

  lemma IvBytesUtf8()
    ensures Utf8(Iv) == IvBytes
  {
    assert IsAscii(Iv);
    IvCodes();
    Utf8OfCodes(Iv, IvBytes);
  }

  lemma IvCodes()
    ensures forall i :: 0 <= i < 16 ==> IvBytes[i] == Iv[i] as int
  {
  }

  lemma AesKeyUtf8()
    ensures Utf8(AesKey) == AesKeyBytes
  {
    assert IsAscii(AesKey);
    AesKeyCodes();
    Utf8OfCodes(AesKey, AesKeyBytes);
  }

  lemma AesKeyCodes()
    ensures forall i :: 0 <= i < 16 ==> AesKeyBytes[i] == AesKey[i] as int
  {
  }

  lemma SeedAscii(seed: Seed)
    ensures IsAscii(seed)
  {
    forall i | 0 <= i < |seed| ensures IsAsciiChar(seed[i]) {
      assert IsSeedChar(seed[i]);
    }
  }

  /** `_aes_encrypt(text, key)`: AES-CBC under the fixed IV, then base64. */
  function AesEncrypt(E: BlockCipher, text: string, key: string): (r: Result<string>)
    ensures r.Ok? ==> IsAscii(r.value)
  {
    match AesCbcEncrypt(E, Utf8(key), Utf8(Iv), AddTo16(text))
    case Err(e) => Err(e)
    case Ok(ct) => Ok(Base64(ct))
  }

  /** One encryption layer once the library's checks are known to pass. */
  function Layer(E: BlockCipher, key: seq<byte>, text: string): (r: string)
    requires IsAscii(text)
    ensures IsAscii(r)
  {
    AddTo16Aligned(text);
    Base64(CbcEncrypt(E, key, IvBytes, AddTo16(text)))
  }

  /** `_get_params(data)`: the JSON text encrypted under the fixed key, and the result again under the seed. */
  function GetParams(E: BlockCipher, seed: Seed, data: Json): (r: Result<string>)
  {
    match AesEncrypt(E, Dumps(data), AesKey)
    case Err(e) => Err(e)
    case Ok(inner) => AesEncrypt(E, inner, seed)
  }

  /** With an ASCII key of 16 bytes, one `_aes_encrypt` of ASCII text never fails and is one layer. */
  lemma AesEncryptLayer(E: BlockCipher, text: string, key: string)
    requires IsAscii(text) && IsAscii(key) && |key| == 16
    ensures AesEncrypt(E, text, key) == Ok(Layer(E, Utf8(key), text))
  {
    Utf8OfAscii(key);
    IvBytesUtf8();
    AddTo16Aligned(text);
  }

  /** `aes(aes(json.dumps(data), "0CoJUm6Qyw8W8jud"), random_str)`, both layers known to succeed. */
  function Params(E: BlockCipher, seed: Seed, data: Json): (r: string)
    ensures IsAscii(r)
  {
    SeedAscii(seed);
    Layer(E, Utf8(seed), Layer(E, AesKeyBytes, Dumps(data)))
  }

  /**
   * `_get_params` never fails: json.dumps writes ASCII, so the character padding aligns the bytes,
   * and base64 writes ASCII again.
   */
  lemma GetParamsLayers(E: BlockCipher, seed: Seed, data: Json)
    ensures GetParams(E, seed, data) == Ok(Params(E, seed, data))
  {
    InnerLayer(E, data);
    SeedAscii(seed);
    AesEncryptLayer(E, Layer(E, AesKeyBytes, Dumps(data)), seed);
  }

  lemma InnerLayer(E: BlockCipher, data: Json)
    ensures AesEncrypt(E, Dumps(data), AesKey) == Ok(Layer(E, AesKeyBytes, Dumps(data)))
  {
    assert IsAscii(AesKey);
    AesEncryptLayer(E, Dumps(data), AesKey);
    AesKeyUtf8();
  }

  /**
   * What the portal does with one layer: base64-decode, CBC-decrypt under the fixed IV, read the bytes
   * as ASCII and strip the padding; None when the text is not a layer of that shape.
   */
  function Unlayer(D: BlockCipher, key: seq<byte>, s: string): (r: Option<string>)
  {
    var ct := Unbase64(s);
    if |ct| == 0 || |ct| % 16 != 0 then None
    else
      var pt := CbcDecrypt(D, key, IvBytes, ct);
      if !(forall i :: 0 <= i < |pt| ==> pt[i] < 128) then None
      else StripPad(AsciiText(pt))
  }

  /** Drops the N padding characters the last character announces, N between 1 and 16. */
  function StripPad(text: string): (r: Option<string>)
  {
    if text == [] then None
    else
      var n := text[|text| - 1] as int;
      if 1 <= n <= 16 && n <= |text| then Some(text[..|text| - n]) else None
  }

  lemma StripPadTo16(text: string)
    ensures StripPad(PadTo16(text)) == Some(text)
  {
    var p := PadTo16(text);
    assert p[|p| - 1] as int == |p| - |text|;
  }

  /** One layer loses nothing: with the inverse block function, the receiver recovers the text. */
  lemma LayerRoundTrip(E: BlockCipher, D: BlockCipher, key: seq<byte>, text: string)
    requires IsAscii(text)
    requires forall b: Block :: D(key, E(key, b)) == b
    ensures Unlayer(D, key, Layer(E, key, text)) == Some(text)
  {
    var p := PadTo16(text);
    PadAscii(text);
    AddTo16Aligned(text);
    var b := AddTo16(text);
    var ct := CbcEncrypt(E, key, IvBytes, b);
    assert Layer(E, key, text) == Base64(ct);
    Base64RoundTrip(ct);
    CbcRoundTrip(E, D, key, IvBytes, b);
    AsciiTextOfUtf8(p);
    StripPadTo16(text);
  }

  /**
   * `params` can be opened again: peeling the seed layer and then the fixed-key layer gives back
   * the JSON text of the payload.
   */
  lemma ParamsRoundTrip(E: BlockCipher, D: BlockCipher, seed: Seed, data: Json)
    requires forall k: seq<byte>, b: Block :: D(k, E(k, b)) == b
    ensures Unlayer(D, Utf8(seed), Params(E, seed, data)).Some?
    ensures Unlayer(D, AesKeyBytes, Unlayer(D, Utf8(seed), Params(E, seed, data)).value) == Some(Dumps(data))
  {
    SeedAscii(seed);
    var inner := Layer(E, AesKeyBytes, Dumps(data));
    LayerRoundTrip(E, D, Utf8(seed), inner);
    LayerRoundTrip(E, D, AesKeyBytes, Dumps(data));
  }

  // ---------------------------------------------------------------------------------------------
  // encSecKey: textbook RSA of the reversed seed
  // ---------------------------------------------------------------------------------------------

  /** RSAEP, section 5.1.1 of RFC 8017: m^e mod n. */
  function RsaEp(m: nat): (c: nat)
    ensures c < Modulus
  {
    Pow(m, PubKey) % Modulus
  }

  lemma {:induction false} PowAdd(b: nat, m: nat, n: nat)
    ensures Pow(b, m + n) == Pow(b, m) * Pow(b, n)
    decreases m
  {
    if m > 0 {
      PowAdd(b, m - 1, n);
      assert Pow(b, m + n) == b * Pow(b, m - 1 + n);
    }
  }

  /** The modulus has 256 significant hex digits. */
  lemma ModulusBound()
    ensures Modulus < Pow(16, 256)
  {
    assert Pow(16, 1) == 0x10;
    PowAdd(16, 1, 1);
    assert Pow(16, 2) == 0x100;
    PowAdd(16, 2, 2);
    assert Pow(16, 4) == 0x10000;
    PowAdd(16, 4, 4);
    assert Pow(16, 8) == 0x100000000;
    PowAdd(16, 8, 8);
    assert Pow(16, 16) == 0x10000000000000000;
    PowAdd(16, 16, 16);
    assert Pow(16, 32) == 0x100000000000000000000000000000000;
    PowAdd(16, 32, 32);
    assert Pow(16, 64) == 0x10000000000000000000000000000000000000000000000000000000000000000;
    PowAdd(16, 64, 64);
    assert Pow(16, 128) == 0x100000000000000000000000000000000000000000000000000000000000000000000000000000000000000000000000000000000000000000000000000000000;
    PowAdd(16, 128, 128);
    assert Pow(16, 256) == 0x10000000000000000000000000000000000000000000000000000000000000000000000000000000000000000000000000000000000000000000000000000000000000000000000000000000000000000000000000000000000000000000000000000000000000000000000000000000000000000000000000000000000000000;
  }

  /** `_get_enc_sec_key()`: the reversed seed read as a hex number, raised to e modulo n, hex, zero-filled to 256. */
  function EncSecKey(seed: Seed): string {
    var bytes := Utf8(Reverse(seed));
    ZFill(ToHex(RsaEp(HexValue(HexOfBytes(bytes)))), 256)
  }

  /**
   * `encSecKey` is exactly 256 lower-case hex digits, and as a number it is the RSA encryption of the
   * reversed seed's bytes read big-endian.
   */
  lemma EncSecKeySpec(seed: Seed)
    ensures |EncSecKey(seed)| == 256 && IsLowerHex(EncSecKey(seed))
    ensures HexValue(EncSecKey(seed)) == RsaEp(Os2ip(Utf8(Reverse(seed))))
  {
    var bytes := Utf8(Reverse(seed));
    HexOfBytesValue(bytes);
    var c := RsaEp(HexValue(HexOfBytes(bytes)));
    ModulusBound();
    ToHexShort(c, 256);
    HexValueOfToHex(c);
    var h := ToHex(c);
    HexValueOfZeros(256 - |h|, h);
  }


  // ---------------------------------------------------------------------------------------------
  // Score, tag and the rating payload
  // ---------------------------------------------------------------------------------------------

  predicate NoBreakBefore(s: string, i: int) {
    forall j :: 0 <= j < i && j < |s| ==> s[j] != '\n'
  }

  /** `re.compile('.*[a-zA-Z].*').match(s)` succeeds: `.` stops at a line break. */
  function NamePatternMatches(s: string): bool {
    if s == [] || s[0] == '\n' then false
    else if IsAsciiLetter(s[0]) then true
    else NamePatternMatches(s[1..])
  }

  /** The pattern matches exactly when an ASCII letter occurs before the first line break. */
  lemma {:induction false} NamePatternSpec(s: string)
    ensures NamePatternMatches(s) <==> exists i :: 0 <= i < |s| && IsAsciiLetter(s[i]) && NoBreakBefore(s, i)
  {
    if s == [] {
    } else if s[0] == '\n' {
      forall i | 0 < i < |s| ensures !NoBreakBefore(s, i) {
        assert s[0] == '\n';
      }
    } else if IsAsciiLetter(s[0]) {
      assert NoBreakBefore(s, 0);
    } else {
      NamePatternSpec(s[1..]);
      if NamePatternMatches(s) {
        var i :| 0 <= i < |s[1..]| && IsAsciiLetter(s[1..][i]) && NoBreakBefore(s[1..], i);
        assert NoBreakBefore(s, i + 1) by {
          forall j | 0 <= j < i + 1 && j < |s| ensures s[j] != '\n' {
            if j > 0 {
              assert s[j] == s[1..][j - 1];
            }
          }
        }
      } else {
        forall i | 0 <= i < |s| && IsAsciiLetter(s[i]) ensures !NoBreakBefore(s, i) {
          assert i > 0;
          assert !NoBreakBefore(s[1..], i - 1);
          var j :| 0 <= j < i - 1 && j < |s| - 1 && s[1..][j] == '\n';
          assert s[j + 1] == '\n';
        }
      }
    }
  }

  /** `a + b` where the score rule concatenates the two names; anything but two strings raises TypeError. */
  function ConcatNames(a: Json, b: Json): (r: Result<string>)
    ensures r.Ok? <==> a.Str? && b.Str?
    ensures r.Ok? ==> r.value == a.s + b.s
    ensures r.Err? ==> r.exc.kind == TypeError
  {
    if a.Str? && b.Str? then Ok(a.s + b.s)
    else if a.Str? then Err(Exc(TypeError, "can only concatenate str (not \"" + TypeName(b) + "\") to str"))
    else Err(Exc(TypeError, "unsupported operand type(s) for +: '" + TypeName(a) + "' and '" + TypeName(b) + "'"))
  }

  /** `_get_score_and_tag(work)`: "4" when the names match the pattern, else "3"; the tag is score + "-A-1". */
  function ScoreAndTag(work: Json): (r: Result<(string, string)>)
    ensures r.Ok? <==> Index(work, "name").Ok? && Index(work, "authorName").Ok?
                       && Index(work, "name").value.Str? && Index(work, "authorName").value.Str?
    ensures r.Ok? ==> var (score, tag) := r.value;
      (score == "4" <==> NamePatternMatches(Index(work, "name").value.s + Index(work, "authorName").value.s))
      && (score == "4" || score == "3") && tag == score + "-A-1"
  {
    match Index(work, "name")
    case Err(e) => Err(e)
    case Ok(name) =>
      match Index(work, "authorName")
      case Err(e) => Err(e)
      case Ok(author) =>
        match ConcatNames(name, author)
        case Err(e) => Err(e)
        case Ok(names) =>
          var score := if NamePatternMatches(names) then "4" else "3";
          Ok((score, score + "-A-1"))
  }

  /** The eight payload fields every rating carries, in the order the dict literal lists them. */
  function RatingFields(taskId: Json, workId: Json, score: string, tag: string, csrf: string): seq<Field> {
    [Field("taskId", taskId), Field("workId", workId), Field("score", Str(score)), Field("tags", Str(tag)),
     Field("customTags", Str("%5B%5D")), Field("comment", Str("")), Field("syncYunCircle", Str("true")),
     Field("csrf_token", Str(csrf))]
  }

  /** The rating payload; an extra-queue rating also carries `extraResource: "true"`, added last. */
  function RatingData(taskId: Json, work: Json, score: string, tag: string, csrf: string, isExtra: bool): (r: Result<Json>)
    ensures r.Ok? <==> Index(work, "id").Ok?
    ensures r.Ok? ==> r.value.Obj?
    ensures r.Ok? && !isExtra ==> r.value.fields == RatingFields(taskId, Index(work, "id").value, score, tag, csrf)
    ensures r.Ok? && isExtra ==>
      r.value.fields == RatingFields(taskId, Index(work, "id").value, score, tag, csrf) + [Field("extraResource", Str("true"))]
  {
    match Index(work, "id")
    case Err(e) => Err(e)
    case Ok(id) =>
      var fields := RatingFields(taskId, id, score, tag, csrf);
      assert Lookup(fields, "extraResource").None?;
      Ok(Obj(if isExtra then SetItem(fields, "extraResource", Str("true")) else fields))
  }

  // ---------------------------------------------------------------------------------------------
  // sign
  // ---------------------------------------------------------------------------------------------

  /** The POST `sign` sends, or the error raised while building it (cookie, score, payload or encryption). */
  function RatingRequest(jar: map<string, string>, E: BlockCipher, s: Signer, work: Json, isExtra: bool): (r: Result<Request>)
    ensures r.Ok? <==> "__csrf" in jar && ScoreAndTag(work).Ok? && Index(work, "id").Ok?
    ensures "__csrf" !in jar ==> r == Err(CookieMissing("__csrf"))
  {
    if "__csrf" !in jar then Err(CookieMissing("__csrf"))
    else
      var csrf := jar["__csrf"];
      match ScoreAndTag(work)
      case Err(e) => Err(e)
      case Ok((score, tag)) =>
        match RatingData(s.taskId, work, score, tag, csrf, isExtra)
        case Err(e) => Err(e)
        case Ok(data) =>
          Ok(Post(SignUrl + "?csrf_token=" + csrf, data, s.seed))
  }

  /**
   * A built request posts to the rating URL with the csrf token in its query, is encrypted by the signer's
   * seed, and its payload holds the eight rating fields, plus `extraResource: "true"` exactly for the extra queue.
   */
  lemma RatingPayload(jar: map<string, string>, E: BlockCipher, s: Signer, work: Json, isExtra: bool)
    requires RatingRequest(jar, E, s, work, isExtra).Ok?
    ensures var r, csrf := RatingRequest(jar, E, s, work, isExtra).value, jar["__csrf"];
      var (score, tag) := ScoreAndTag(work).value;
      && r.Post? && r.url == SignUrl + "?csrf_token=" + csrf && r.seed == s.seed && r.payload.Obj?
      && Lookup(r.payload.fields, "taskId") == Some(s.taskId)
      && Lookup(r.payload.fields, "workId") == Some(Index(work, "id").value)
      && Lookup(r.payload.fields, "score") == Some(Str(score))
      && Lookup(r.payload.fields, "tags") == Some(Str(tag))
      && Lookup(r.payload.fields, "customTags") == Some(Str("%5B%5D"))
      && Lookup(r.payload.fields, "comment") == Some(Str(""))
      && Lookup(r.payload.fields, "syncYunCircle") == Some(Str("true"))
      && Lookup(r.payload.fields, "csrf_token") == Some(Str(csrf))
      && Lookup(r.payload.fields, "extraResource") == (if isExtra then Some(Str("true")) else None)
  {
    var csrf := jar["__csrf"];
    var (score, tag) := ScoreAndTag(work).value;
    var fields := RatingFields(s.taskId, Index(work, "id").value, score, tag, csrf);
    RatingFieldsLookup(s.taskId, Index(work, "id").value, score, tag, csrf);
    RatingFieldsNoExtra(s.taskId, Index(work, "id").value, score, tag, csrf);
    if isExtra {
      var extra := fields + [Field("extraResource", Str("true"))];
      assert extra[..|extra| - 1] == fields;
    }
  }

  lemma RatingFieldsLookup(taskId: Json, workId: Json, score: string, tag: string, csrf: string)
    ensures var fields := RatingFields(taskId, workId, score, tag, csrf);
      && Lookup(fields, "taskId") == Some(taskId)
      && Lookup(fields, "workId") == Some(workId)
      && Lookup(fields, "score") == Some(Str(score))
      && Lookup(fields, "tags") == Some(Str(tag))
      && Lookup(fields, "customTags") == Some(Str("%5B%5D"))
      && Lookup(fields, "comment") == Some(Str(""))
      && Lookup(fields, "syncYunCircle") == Some(Str("true"))
      && Lookup(fields, "csrf_token") == Some(Str(csrf))
  {
    RatingFieldsFront(taskId, workId, score, tag, csrf);
    RatingFieldsBack(taskId, workId, score, tag, csrf);
  }

  lemma RatingFieldsFront(taskId: Json, workId: Json, score: string, tag: string, csrf: string)
    ensures var fields := RatingFields(taskId, workId, score, tag, csrf);
      && Lookup(fields, "taskId") == Some(taskId)
      && Lookup(fields, "workId") == Some(workId)
      && Lookup(fields, "score") == Some(Str(score))
      && Lookup(fields, "tags") == Some(Str(tag))
  {
    var fields := RatingFields(taskId, workId, score, tag, csrf);
    LookupUnique(fields, 0);
    LookupUnique(fields, 1);
    LookupUnique(fields, 2);
    LookupUnique(fields, 3);
  }

  lemma RatingFieldsBack(taskId: Json, workId: Json, score: string, tag: string, csrf: string)
    ensures var fields := RatingFields(taskId, workId, score, tag, csrf);
      && Lookup(fields, "customTags") == Some(Str("%5B%5D"))
      && Lookup(fields, "comment") == Some(Str(""))
      && Lookup(fields, "syncYunCircle") == Some(Str("true"))
      && Lookup(fields, "csrf_token") == Some(Str(csrf))
  {
    var fields := RatingFields(taskId, workId, score, tag, csrf);
    LookupUnique(fields, 4);
    LookupUnique(fields, 5);
    LookupUnique(fields, 6);
    LookupUnique(fields, 7);
  }

  /** No rating field is named `extraResource`, so adding it appends a ninth field. */
  lemma RatingFieldsNoExtra(taskId: Json, workId: Json, score: string, tag: string, csrf: string)
    ensures Lookup(RatingFields(taskId, workId, score, tag, csrf), "extraResource") == None
  {
    var fields := RatingFields(taskId, workId, score, tag, csrf);
    forall i | 0 <= i < |fields| ensures fields[i].key != "extraResource" {
      assert fields[i].key[0] != 'e';
    }
  }

  /** The form body of a weapi POST: `params` from the payload and `encSecKey` from the seed alone. */
  function WireForm(E: BlockCipher, request: Request): (form: (string, string))
    requires request.Post?
  {
    (Params(E, request.seed, request.payload), EncSecKey(request.seed))
  }

  /**
   * The form carries what `_get_params(payload)` and `_get_enc_sec_key()` return: the second field is 256
   * lower-case hex digits whose value is the RSA encryption of the reversed seed, whatever the payload.
   */
  lemma WireFormSpec(E: BlockCipher, request: Request)
    requires request.Post?
    ensures GetParams(E, request.seed, request.payload) == Ok(WireForm(E, request).0)
    ensures |WireForm(E, request).1| == 256 && IsLowerHex(WireForm(E, request).1)
    ensures HexValue(WireForm(E, request).1) == RsaEp(Os2ip(Utf8(Reverse(request.seed))))
  {
    GetParamsLayers(E, request.seed, request.payload);
    EncSecKeySpec(request.seed);
  }

  /** How `sign` reads the portal's answer. */
  datatype Verdict = Accepted | Throttled | Refused(msg: string) | Broken(exc: Exc)

  const DefaultMsg := "未知错误"
  const RateLimitWord := "频繁"

  /**
   * `code == 200` accepts; otherwise `msg` (default "未知错误") containing "频繁" asks for a retry, and any other
   * message refuses. A reply that is not a dict with a `code`, or a `msg` that `in` cannot search, breaks.
   */
  lemma DefaultMsgNotThrottled()
    ensures !Contains(DefaultMsg, RateLimitWord)
  {
    forall i | 0 <= i <= |DefaultMsg| - |RateLimitWord| ensures !OccursAt(DefaultMsg, RateLimitWord, i) {
      assert DefaultMsg[i] != RateLimitWord[0];
    }
  }

  function Classify(reply: Reply): (v: Verdict)
    ensures v == Accepted <==> reply.Body? && Index(reply.json, "code").Ok? && PyEq(Index(reply.json, "code").value, Num(200))
    ensures v.Throttled? || v.Refused? ==> reply.Body? && reply.json.Obj? && Lookup(reply.json.fields, "code").Some?
    ensures reply.Body? && reply.json.Obj? && Lookup(reply.json.fields, "code").Some?
            && !PyEq(Lookup(reply.json.fields, "code").value, Num(200)) && Lookup(reply.json.fields, "msg").None?
            ==> v == Refused(DefaultMsg)
    ensures !reply.Body? ==> v == Broken(Decode(reply).exc)
  {
    match Decode(reply)
    case Err(e) => Broken(e)
    case Ok(body) =>
      match Index(body, "code")
      case Err(e) => Broken(e)
      case Ok(code) =>
        if PyEq(code, Num(200)) then Accepted
        else
          var msg := GetOr(body, "msg", Str(DefaultMsg)).value;
          DefaultMsgNotThrottled();
          match In(RateLimitWord, msg)
          case Err(e) => Broken(e)
          case Ok(throttled) => if throttled then Throttled else Refused(PyStr(msg))
  }

  /** What the `except` clause raises: RuntimeError("评分过程出错: ..."), unless logging `work["name"]` raises first. */
  function Rewrap(work: Json, e: Exc): (r: Exc)
    ensures Index(work, "name").Ok? ==> r == Runtime("评分过程出错: " + e.msg)
    ensures Index(work, "name").Err? ==> r == Index(work, "name").exc
  {
    match Index(work, "name")
    case Err(e2) => e2
    case Ok(_) => Runtime("评分过程出错: " + e.msg)
  }

  /** The result of a `sign` call, the events it adds to the trace, and the replies it leaves unread. */
  datatype Run = Run(outcome: Result<()>, events: seq<Event>, left: seq<Reply>)

  /** `sign(work, is_extra)` run against a cookie jar and the portal's next replies. */
  function SignRun(jar: map<string, string>, replies: seq<Reply>, E: BlockCipher, s: Signer, work: Json, isExtra: bool): (run: Run)
  {
    RateFrom(RatingRequest(jar, E, s, work, isExtra), replies, work)
  }

  /**
   * The attempts of one `sign` call once its request is known: every retry rebuilds the same request,
   * since the jar, the signer's seed and the work do not change between attempts.
   */
  function RateFrom(request: Result<Request>, replies: seq<Reply>, work: Json): (run: Run)
    decreases |replies|
  {
    match request
    case Err(e) => Run(Err(Rewrap(work, e)), [Slept(BeforeRating)], replies)
    case Ok(req) =>
      if replies == [] then
        Run(Err(Rewrap(work, Decode(Unreachable).exc)), [Slept(BeforeRating), Exchanged(req, Unreachable)], [])
      else
        var attempt := [Slept(BeforeRating), Exchanged(req, replies[0])];
        match Classify(replies[0])
        case Accepted => Run(Ok(()), attempt, replies[1..])
        case Refused(msg) => Run(Err(Rewrap(work, Runtime("评分失败: " + msg))), attempt, replies[1..])
        case Broken(e) => Run(Err(Rewrap(work, e)), attempt, replies[1..])
        case Throttled => AfterRetry(work, attempt, RateFrom(request, replies[1..], work))
  }

  /** A throttled attempt, the back-off sleep, then the retry, whose error the handler wraps once more. */
  function AfterRetry(work: Json, attempt: seq<Event>, retry: Run): (run: Run)
    ensures run.events == attempt + [Slept(RateLimitBackoff)] + retry.events && run.left == retry.left
  {
    Run(if retry.outcome.Ok? then Ok(()) else Err(Rewrap(work, retry.outcome.exc)),
        attempt + [Slept(RateLimitBackoff)] + retry.events, retry.left)
  }

  lemma SeqSnoc2<T>(s: seq<T>, a: T, b: T)
    ensures s + [a] + [b] == s + [a, b]
  {
  }

  lemma SeqAssoc<T>(a: seq<T>, b: seq<T>, c: seq<T>)
    ensures a + b + c == a + (b + c)
  {
  }

  /** A rate-limited attempt is followed by the back-off sleep and a whole new `sign` call on the remaining replies. */
  lemma RateFromThrottled(request: Result<Request>, replies: seq<Reply>, work: Json)
    requires request.Ok? && replies != [] && Classify(replies[0]).Throttled?
    ensures RateFrom(request, replies, work)
         == AfterRetry(work, [Slept(BeforeRating), Exchanged(request.value, replies[0])], RateFrom(request, replies[1..], work))
  {
  }

  /** Any other answer, or none, ends the call after one attempt. */
  lemma RateFromSettled(request: Result<Request>, replies: seq<Reply>, work: Json, reply: Reply, r: Result<()>)
    requires request.Ok? && reply == (if replies == [] then Unreachable else replies[0])
    requires !Classify(reply).Throttled?
    requires Classify(reply).Accepted? ==> r == Ok(())
    requires Classify(reply).Refused? ==> r == Err(Rewrap(work, Runtime("评分失败: " + Classify(reply).msg)))
    requires Classify(reply).Broken? ==> r == Err(Rewrap(work, Classify(reply).exc))
    ensures RateFrom(request, replies, work)
         == Run(r, [Slept(BeforeRating), Exchanged(request.value, reply)], if replies == [] then [] else replies[1..])
  {
  }

  /** `Signer.sign`: sleep, build and send the rating; on a rate-limit answer sleep again and start over. */
  method Sign(world: World, s: Signer, work: Json, isExtra: bool) returns (r: Result<()>)
    modifies world`replies, world`trace
    ensures var run := SignRun(world.cookies, old(world.replies), world.cipher, s, work, isExtra);
      r == run.outcome && world.trace == old(world.trace) + run.events && world.replies == run.left
    decreases |world.replies|
  {
    ghost var replies, trace := world.replies, world.trace;
    world.Sleep(BeforeRating);
    var request := RatingRequest(world.cookies, world.cipher, s, work, isExtra);
    assert SignRun(world.cookies, replies, world.cipher, s, work, isExtra) == RateFrom(request, replies, work);
    if request.Err? {
      return Err(Rewrap(work, request.exc));
    }
    var reply := world.Send(request.value);
    ghost var attempt := [Slept(BeforeRating), Exchanged(request.value, reply)];
    assert world.trace == trace + attempt by {
      SeqSnoc2(trace, Slept(BeforeRating), Exchanged(request.value, reply));
    }
    if replies == [] {
      assert Classify(reply) == Broken(Decode(Unreachable).exc);
    }
    match Classify(reply) {
      case Accepted =>
        r := Ok(());
        RateFromSettled(request, replies, work, reply, r);
        assert r == RateFrom(request, replies, work).outcome;
        assert world.trace == trace + RateFrom(request, replies, work).events;
        assert world.replies == RateFrom(request, replies, work).left;
      case Refused(msg) =>
        r := Err(Rewrap(work, Runtime("评分失败: " + msg)));
        RateFromSettled(request, replies, work, reply, r);
        assert r == RateFrom(request, replies, work).outcome;
        assert world.trace == trace + RateFrom(request, replies, work).events;
        assert world.replies == RateFrom(request, replies, work).left;
      case Broken(e) =>
        r := Err(Rewrap(work, e));
        RateFromSettled(request, replies, work, reply, r);
        assert r == RateFrom(request, replies, work).outcome;
        assert world.trace == trace + RateFrom(request, replies, work).events;
        assert world.replies == RateFrom(request, replies, work).left;
      case Throttled =>
        ghost var rest := world.replies;
        world.Sleep(RateLimitBackoff);
        ghost var before := world.trace;
        assert before == trace + (attempt + [Slept(RateLimitBackoff)]) by {
          SeqAssoc(trace, attempt, [Slept(RateLimitBackoff)]);
        }
        var retry := Sign(world, s, work, isExtra);
        r := if retry.Ok? then Ok(()) else Err(Rewrap(work, retry.exc));
        ghost var retryRun := RateFrom(request, rest, work);
        assert world.trace == before + retryRun.events;
        RateFromThrottled(request, replies, work);
        SeqAssoc(trace, attempt + [Slept(RateLimitBackoff)], retryRun.events);
        assert rest == replies[1..];
        assert retry == retryRun.outcome;
        assert r == RateFrom(request, replies, work).outcome;
        assert world.trace == trace + RateFrom(request, replies, work).events;
        assert world.replies == RateFrom(request, replies, work).left;
    }
  }
}
