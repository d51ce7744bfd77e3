/** land_market.py: the URL filter over a listing page, the escape encoder and
    decoder that DecodeText uses to undo the site's font obfuscation, the font
    table loader, the substitution pass of html_trans, and the cell extraction
    of TableParser. The browser, pd.read_html and the font file are inputs. */
module LandMarket {
  import opened Common

  const DomainUrl := "https://www.landchina.com"

  /** The default `prefix` of extract_all_url. */
  const WorkListPrefix := "/DesktopModule/BizframeExtendMdl/workList"

  // ----- extract_all_url -----

  /** The absolute urls of the hrefs that start with `prefix`, in document order. */
  function UrlsOf(hrefs: seq<string>, prefix: string): (urls: seq<string>)
    ensures |urls| <= |hrefs|
    ensures forall i | 0 <= i < |urls| :: StartsWith(urls[i], DomainUrl + prefix)
  {
    if hrefs == [] then []
    else
      var h := hrefs[|hrefs| - 1];
      if StartsWith(h, prefix) then
        assert (DomainUrl + h)[..|DomainUrl + prefix|] == DomainUrl + h[..|prefix|];
        UrlsOf(hrefs[..|hrefs| - 1], prefix) + [DomainUrl + h]
      else UrlsOf(hrefs[..|hrefs| - 1], prefix)
  }

  /** An url is returned exactly when it is the domain joined to a matching href. */
  lemma {:induction false} UrlsOfMembers(hrefs: seq<string>, prefix: string, u: string)
    ensures u in UrlsOf(hrefs, prefix)
      <==> exists i | 0 <= i < |hrefs| :: StartsWith(hrefs[i], prefix) && u == DomainUrl + hrefs[i]
    decreases |hrefs|
  {
    if hrefs != [] {
      var init := hrefs[..|hrefs| - 1];
      UrlsOfMembers(init, prefix, u);
      if exists i | 0 <= i < |hrefs| :: StartsWith(hrefs[i], prefix) && u == DomainUrl + hrefs[i] {
        var i :| 0 <= i < |hrefs| && StartsWith(hrefs[i], prefix) && u == DomainUrl + hrefs[i];
        if i < |init| {
          assert init[i] == hrefs[i];
        }
      }
      if exists i | 0 <= i < |init| :: StartsWith(init[i], prefix) && u == DomainUrl + init[i] {
        var i :| 0 <= i < |init| && StartsWith(init[i], prefix) && u == DomainUrl + init[i];
        assert hrefs[i] == init[i];
      }
    }
  }

  /** The filter keeps document order: the urls of a concatenation are concatenated. */
  lemma {:induction false} UrlsOfConcat(a: seq<string>, b: seq<string>, prefix: string)
    ensures UrlsOf(a + b, prefix) == UrlsOf(a, prefix) + UrlsOf(b, prefix)
    decreases |b|
  {
    if b == [] {
      assert a + b == a;
    } else {
      assert (a + b)[..|a + b| - 1] == a + b[..|b| - 1];
      UrlsOfConcat(a, b[..|b| - 1], prefix);
    }
  }

  /** `extract_all_url(tree, prefix)` over the page's href attributes. */
  method ExtractAllUrl(hrefs: seq<string>, prefix: string) returns (urlList: seq<string>)
    ensures urlList == UrlsOf(hrefs, prefix)
  {
    urlList := [];
    for i := 0 to |hrefs|
      invariant urlList == UrlsOf(hrefs[..i], prefix)
    {
      assert hrefs[..i + 1][..i] == hrefs[..i];
      var linkStr := hrefs[i];
      if StartsWith(linkStr, prefix) {
        linkStr := DomainUrl + linkStr;
        urlList := urlList + [linkStr];
      }
    }
    assert hrefs[..|hrefs|] == hrefs;
  }

  // ----- hexadecimal -----

  type Byte = b: int | 0 <= b < 256

  predicate IsAscii(s: string)
  {
    forall i | 0 <= i < |s| :: s[i] as int < 128
  }

  function HexDigit(d: nat): (c: char)
    requires d < 16
    ensures c as int < 128
  {
    if d < 10 then DigitChar(d) else (('a' as int) + d - 10) as char
  }

  function Pow16(w: nat): (p: nat)
    ensures p >= 1
  {
    if w == 0 then 1 else 16 * Pow16(w - 1)
  }

  /** The low `w` hexadecimal digits of n, lower case, most significant first. */
  function Hex(n: nat, w: nat): (h: string)
    ensures |h| == w && IsAscii(h)
  {
    if w == 0 then [] else Hex(n / 16, w - 1) + [HexDigit(n % 16)]
  }

  /** `hex(n)` with its "0x" prefix removed: the shortest lower-case rendering. */
  function MinimalHex(n: nat): (h: string)
    ensures |h| >= 1
  {
    if n < 16 then [HexDigit(n)] else MinimalHex(n / 16) + [HexDigit(n % 16)]
  }

  /** `s.zfill(w)` for a text without sign: left-padded with '0' to width w. */
  function ZFill(s: string, w: nat): (t: string)
    ensures |t| == if |s| < w then w else |s|
    ensures t[|t| - |s|..] == s
    ensures forall i | 0 <= i < |t| - |s| :: t[i] == '0'
  {
    if |s| < w then seq(w - |s|, _ => '0') + s else s
  }

  lemma {:induction false} HexOfZero(w: nat)
    ensures Hex(0, w) == seq(w, _ => '0')
  {
    if w > 0 {
      HexOfZero(w - 1);
    }
  }

  lemma SmallQuotient(d: nat)
    requires d < 16
    ensures d / 16 == 0 && d % 16 == d
  {
  }

  /** A single hexadecimal digit rendered at width w + 1: w zeros, then the digit. */
  lemma HexOfDigit(d: nat, w: nat)
    requires d < 16
    ensures Hex(d, w + 1) == seq(w, _ => '0') + [HexDigit(d)]
  {
    SmallQuotient(d);
    HexOfZero(w);
  }

  /** For a Latin-1 code point the padded `hex()` is the 4-digit rendering. */
  lemma ZFillMinimalHex(n: nat)
    requires n <= 0xff
    ensures ZFill(MinimalHex(n), 4) == Hex(n, 4)
  {
    if n < 16 {
      HexOfDigit(n, 3);
    } else {
      var q, r := n / 16, n % 16;
      assert q < 16;
      HexOfDigit(q, 2);
      assert MinimalHex(n) == [HexDigit(q), HexDigit(r)];
      assert Hex(n, 4) == Hex(q, 3) + [HexDigit(r)];
      assert ZFill(MinimalHex(n), 4) == seq(2, _ => '0') + [HexDigit(q), HexDigit(r)];
    }
  }

  // ----- cn_to_unicode -----

  /** `c.encode("unicode_escape")` for a code point above 0xff. */
  function UnicodeEscapeEncode(c: char): string
    requires c as int > 0xff
  {
    if c as int <= 0xffff then "\\u" + Hex(c as int, 4) else "\\U" + Hex(c as int, 8)
  }

  /** The escape cn_to_unicode produces for one character. */
  function EscapeChar(c: char): (e: string)
    ensures IsAscii(e)
  {
    if c as int <= 0xff then
      ZFillMinimalHex(c as int);
      "\\u" + ZFill(MinimalHex(c as int), 4)
    else UnicodeEscapeEncode(c)
  }

  /** Every character escapes to `\u` and four hexadecimal digits, or beyond the basic
      plane to `\U` and eight. */
  lemma EscapeCharForm(c: char)
    ensures c as int <= 0xffff ==> EscapeChar(c) == "\\u" + Hex(c as int, 4)
    ensures c as int > 0xffff ==> EscapeChar(c) == "\\U" + Hex(c as int, 8)
  {
    if c as int <= 0xff {
      ZFillMinimalHex(c as int);
    }
  }

  /** The bytes of an ASCII text. */
  function AsciiBytes(t: string): (b: seq<Byte>)
    requires IsAscii(t)
    ensures |b| == |t| && forall i | 0 <= i < |t| :: b[i] == t[i] as int
  {
    seq(|t|, i requires 0 <= i < |t| && IsAscii(t) => t[i] as int)
  }

  /** Each byte read as the character with that code point (ASCII under utf-8, Latin-1 in general). */
  function BytesText(b: seq<Byte>): (t: string)
    ensures |t| == |b| && forall i | 0 <= i < |b| :: t[i] as int == b[i]
  {
    seq(|b|, i requires 0 <= i < |b| => b[i] as char)
  }

  lemma AsciiBytesConcat(a: string, b: string)
    requires IsAscii(a) && IsAscii(b)
    ensures IsAscii(a + b)
    ensures AsciiBytes(a + b) == AsciiBytes(a) + AsciiBytes(b)
  {
  }

  lemma BytesTextOfAscii(t: string)
    requires IsAscii(t)
    ensures BytesText(AsciiBytes(t)) == t
  {
  }

  /** The pieces of `cn_to_unicode(s, need_str=False)`: one bytes object per character. */
  function EscapePieces(s: string): (ps: seq<seq<Byte>>)
    ensures |ps| == |s|
  {
    seq(|s|, i requires 0 <= i < |s| => AsciiBytes(EscapeChar(s[i])))
  }

  lemma PiecesExtend(s: string, i: nat)
    requires i < |s|
    ensures EscapePieces(s[..i + 1]) == EscapePieces(s[..i]) + [AsciiBytes(EscapeChar(s[i]))]
  {
    var a, b := EscapePieces(s[..i + 1]), EscapePieces(s[..i]) + [AsciiBytes(EscapeChar(s[i]))];
    forall k | 0 <= k < |a|
      ensures a[k] == b[k]
    {
      if k < i {
        assert s[..i + 1][k] == s[..i][k];
      }
    }
  }

  /** The text of `cn_to_unicode(s)`: the escapes of the characters, in order. */
  function EscapeText(s: string): (t: string)
    ensures IsAscii(t)
  {
    if s == [] then [] else
      AsciiBytesConcat(EscapeChar(s[0]), EscapeText(s[1..]));
      EscapeChar(s[0]) + EscapeText(s[1..])
  }

  /** The pieces decoded one by one and concatenated. */
  function PiecesText(ps: seq<seq<Byte>>): string
  {
    if ps == [] then [] else BytesText(ps[0]) + PiecesText(ps[1..])
  }

  /** Joining the pieces gives the escaped text. */
  lemma {:induction false} PiecesTextOfEscape(s: string)
    ensures PiecesText(EscapePieces(s)) == EscapeText(s)
    decreases |s|
  {
    if s != [] {
      assert EscapePieces(s)[1..] == EscapePieces(s[1..]);
      BytesTextOfAscii(EscapeChar(s[0]));
      PiecesTextOfEscape(s[1..]);
    }
  }

  /** Both branches of the loop body of cn_to_unicode build the piece EscapeChar describes. */
  lemma EscapeCharBranches(c: char)
    ensures c as int <= 0xff ==> (IsAscii("\\u" + ZFill(MinimalHex(c as int), 4))
      && AsciiBytes("\\u" + ZFill(MinimalHex(c as int), 4)) == AsciiBytes(EscapeChar(c)))
    ensures c as int > 0xff ==> (IsAscii(UnicodeEscapeEncode(c))
      && AsciiBytes(UnicodeEscapeEncode(c)) == AsciiBytes(EscapeChar(c)))
  {
    if c as int <= 0xff {
      var manual := "\\u" + ZFill(MinimalHex(c as int), 4);
      assert manual == EscapeChar(c);
    } else {
      assert UnicodeEscapeEncode(c) == EscapeChar(c);
    }
  }

  /** What cn_to_unicode returns: the joined str, or the list of bytes pieces. */
  datatype Escaped = Joined(text: string) | Pieces(pieces: seq<seq<Byte>>)

  /** `DecodeText.cn_to_unicode(string, need_str)`. */
  method CnToUnicode(s: string, needStr: bool) returns (r: Escaped)
    ensures needStr ==> r == Joined(EscapeText(s))
    ensures !needStr ==> r == Pieces(EscapePieces(s))
  {
    var out: seq<seq<Byte>> := [];
    for i := 0 to |s|
      invariant out == EscapePieces(s[..i])
    {
      var val := s[i] as int;
      EscapeCharBranches(s[i]);
      var res: seq<Byte>;
      if val <= 0xff {
        var hexStr := ZFill(MinimalHex(val), 4);
        res := AsciiBytes("\\u" + hexStr);
      } else {
        res := AsciiBytes(UnicodeEscapeEncode(s[i]));
      }
      PiecesExtend(s, i);
      out := out + [res];
    }
    assert s[..|s|] == s;
    if needStr {
      var outStr := "";
      for j := 0 to |out|
        invariant outStr + PiecesText(out[j..]) == PiecesText(out)
      {
        assert out[j..][1..] == out[j + 1..];
        outStr := outStr + BytesText(out[j]);
      }
      assert out[|out|..] == [];
      PiecesTextOfEscape(s);
      r := Joined(outStr);
    } else {
      r := Pieces(out);
    }
  }

  // ----- UTF-8 -----

  /** The UTF-8 encoding of one character. */
  function Utf8Char(c: char): (bs: seq<Byte>)
    ensures 1 <= |bs| <= 4
    ensures c as int < 0x80 ==> bs == [c as int]
  {
    var n := c as int;
    if n < 0x80 then [n]
    else if n < 0x800 then [0xc0 + n / 0x40, 0x80 + n % 0x40]
    else if n < 0x10000 then [0xe0 + n / 0x1000, 0x80 + (n / 0x40) % 0x40, 0x80 + n % 0x40]
    else [0xf0 + n / 0x40000, 0x80 + (n / 0x1000) % 0x40, 0x80 + (n / 0x40) % 0x40, 0x80 + n % 0x40]
  }

  /** `s.encode("utf-8")`. */
  function Utf8Encode(s: string): seq<Byte>
  {
    if s == [] then [] else Utf8Char(s[0]) + Utf8Encode(s[1..])
  }

  /** An ASCII text encodes to its own code points. */
  lemma {:induction false} Utf8EncodeAscii(t: string)
    requires IsAscii(t)
    ensures Utf8Encode(t) == AsciiBytes(t)
    decreases |t|
  {
    if t != [] {
      Utf8EncodeAscii(t[1..]);
      assert AsciiBytes(t) == [t[0] as int] + AsciiBytes(t[1..]);
    }
  }

  predicate IsContinuation(b: Byte)
  {
    0x80 <= b <= 0xbf
  }

  /** Bytes that Python's strict utf-8 decoder accepts (no overlong forms, no surrogates). */
  predicate ValidUtf8(b: seq<Byte>)
    decreases |b|
  {
    if b == [] then true
    else if b[0] < 0x80 then ValidUtf8(b[1..])
    else if 0xc2 <= b[0] <= 0xdf then
      |b| >= 2 && IsContinuation(b[1]) && ValidUtf8(b[2..])
    else if 0xe0 <= b[0] <= 0xef then
      && |b| >= 3
      && (if b[0] == 0xe0 then 0xa0 <= b[1] <= 0xbf
          else if b[0] == 0xed then 0x80 <= b[1] <= 0x9f
          else IsContinuation(b[1]))
      && IsContinuation(b[2])
      && ValidUtf8(b[3..])
    else if 0xf0 <= b[0] <= 0xf4 then
      && |b| >= 4
      && (if b[0] == 0xf0 then 0x90 <= b[1] <= 0xbf
          else if b[0] == 0xf4 then 0x80 <= b[1] <= 0x8f
          else IsContinuation(b[1]))
      && IsContinuation(b[2]) && IsContinuation(b[3])
      && ValidUtf8(b[4..])
    else false
  }

  lemma {:induction false} AsciiBytesValid(t: string)
    requires IsAscii(t)
    ensures ValidUtf8(AsciiBytes(t))
    decreases |t|
  {
    if t != [] {
      assert AsciiBytes(t)[1..] == AsciiBytes(t[1..]);
      AsciiBytesValid(t[1..]);
    }
  }

  // ----- the unicode_escape decoder -----

  const Backslash: Byte := 92

  function HexByteValue(x: Byte): (r: Option<nat>)
    ensures r.Some? ==> r.value < 16
  {
    if '0' as int <= x <= '9' as int then Some(x - '0' as int)
    else if 'a' as int <= x <= 'f' as int then Some(x - 'a' as int + 10)
    else if 'A' as int <= x <= 'F' as int then Some(x - 'A' as int + 10)
    else None
  }

  /** The value of a run of hexadecimal digits; None if one of them is not a digit. */
  function HexBytesValue(bs: seq<Byte>): (r: Option<nat>)
    ensures r.Some? ==> r.value < Pow16(|bs|)
  {
    if bs == [] then Some(0)
    else match (HexBytesValue(bs[..|bs| - 1]), HexByteValue(bs[|bs| - 1]))
      case (Some(v), Some(d)) => Some(v * 16 + d)
      case _ => None
  }

  /** Reading back the rendering of n gives n. */
  lemma {:induction false} HexBytesOfHex(n: nat, w: nat)
    requires n < Pow16(w)
    ensures HexBytesValue(AsciiBytes(Hex(n, w))) == Some(n)
    decreases w
  {
    if w > 0 {
      var h, q, d := Hex(n, w), n / 16, n % 16;
      DivMod16(n, w);
      HexBytesOfHex(q, w - 1);
      var bs := AsciiBytes(h);
      assert bs[..w - 1] == AsciiBytes(Hex(q, w - 1));
      assert bs[w - 1] == HexDigit(d) as int;
      HexDigitValue(d);
      assert HexBytesValue(bs) == Some(q * 16 + d);
    }
  }

  lemma DivMod16(n: nat, w: nat)
    requires 0 < w && n < Pow16(w)
    ensures n / 16 < Pow16(w - 1) && (n / 16) * 16 + n % 16 == n
  {
  }

  lemma HexDigitValue(d: nat)
    requires d < 16
    ensures HexByteValue(HexDigit(d) as int) == Some(d)
  {
  }

  /** `\x`, `\u` or `\U` followed by exactly w hexadecimal digits, at the head of b. */
  function HexEscape(b: seq<Byte>, w: nat): (r: Result<char>)
    requires |b| >= 2
    ensures r.Ok? ==> 2 + w <= |b|
  {
    if |b| < 2 + w then Err(UnicodeDecodeError)
    else match HexBytesValue(b[2..2 + w])
      case None => Err(UnicodeDecodeError)
      case Some(v) =>
        if v > 0x10ffff then Err(UnicodeDecodeError)
        else if 0xd800 <= v < 0xe000 then Err(Unrepresentable)
        else Ok(v as char)
  }

  predicate IsOctalByte(x: Byte)
  {
    '0' as int <= x <= '7' as int
  }

  /** An octal escape at the head of b: one to three digits; the character and where it ends. */
  function OctalEscape(b: seq<Byte>): (r: (char, nat))
    requires |b| >= 2 && IsOctalByte(b[1])
    ensures 2 <= r.1 <= |b| && r.1 <= 4
  {
    var d1 := b[1] - '0' as int;
    if |b| > 2 && IsOctalByte(b[2]) then
      var d2 := b[2] - '0' as int;
      if |b| > 3 && IsOctalByte(b[3]) then ((d1 * 64 + d2 * 8 + b[3] - '0' as int) as char, 4)
      else ((d1 * 8 + d2) as char, 3)
    else (d1 as char, 2)
  }

  /** The index of the first x in b, or |b| when there is none. */
  function FirstIndex(b: seq<Byte>, x: Byte): (k: nat)
    ensures k <= |b| && (k < |b| ==> b[k] == x)
    ensures forall j | 0 <= j < k :: b[j] != x
  {
    if b == [] || b[0] == x then 0 else 1 + FirstIndex(b[1..], x)
  }

  /** A `\N{name}` escape at the head of b, looked up in the character name database `names`. */
  function NamedEscape(b: seq<Byte>, names: string -> Option<char>): (r: Result<(char, nat)>)
    requires |b| >= 2
    ensures r.Ok? ==> 2 < r.value.1 <= |b|
  {
    if |b| == 2 || b[2] != '{' as int then Err(UnicodeDecodeError)
    else
      var k := 3 + FirstIndex(b[3..], '}' as int);
      if k >= |b| || k == 3 then Err(UnicodeDecodeError)
      else match names(BytesText(b[3..k]))
        case None => Err(UnicodeDecodeError)
        case Some(c) => Ok((c, k + 1))
  }

  /** The one-letter escapes and the characters they stand for. */
  function SimpleEscape(x: Byte): Option<char>
  {
    if x == '\\' as int then Some('\\')
    else if x == '\'' as int then Some('\'')
    else if x == '"' as int then Some('"')
    else if x == 'a' as int then Some('\U{7}')
    else if x == 'b' as int then Some('\U{8}')
    else if x == 'f' as int then Some('\U{c}')
    else if x == 'n' as int then Some('\n')
    else if x == 'r' as int then Some('\r')
    else if x == 't' as int then Some('\t')
    else if x == 'v' as int then Some('\U{b}')
    else None
  }

  function Cons(c: char, r: Result<string>): Result<string>
  {
    match r
    case Ok(s) => Ok([c] + s)
    case Err(e) => Err(e)
  }

  /** Text put in front of a decoding result. */
  function Prepend(t: string, r: Result<string>): Result<string>
  {
    match r
    case Ok(s) => Ok(t + s)
    case Err(e) => Err(e)
  }

  /** The escape at the head of b (a backslash and at least one more byte): the text it
      stands for and where the next byte starts. A line continuation stands for nothing,
      an unknown escape keeps its backslash, a malformed one raises. */
  function EscapeAt(b: seq<Byte>, names: string -> Option<char>): (r: Result<(string, nat)>)
    requires |b| >= 2 && b[0] == Backslash
    ensures r.Ok? ==> 2 <= r.value.1 <= |b|
  {
    var e := b[1];
    if e == '\n' as int then Ok(([], 2))
    else if SimpleEscape(e).Some? then Ok(([SimpleEscape(e).value], 2))
    else if IsOctalByte(e) then
      var (c, k) := OctalEscape(b);
      Ok(([c], k))
    else if e == 'x' as int || e == 'u' as int || e == 'U' as int then
      var w := if e == 'x' as int then 2 else if e == 'u' as int then 4 else 8;
      match HexEscape(b, w)
      case Err(err) => Err(err)
      case Ok(c) => Ok(([c], 2 + w))
    else if e == 'N' as int then
      match NamedEscape(b, names)
      case Err(err) => Err(err)
      case Ok((c, k)) => Ok(([c], k))
    else Ok((['\\', e as char], 2))
  }

  /** `b.decode("unicode_escape")`: bytes stand for themselves, escapes for what they name;
      the first malformed escape, or a backslash ending the input, raises. */
  function DecodeEscapes(b: seq<Byte>, names: string -> Option<char>): Result<string>
    decreases |b|
  {
    if b == [] then Ok([])
    else if b[0] != Backslash then Cons(b[0] as char, DecodeEscapes(b[1..], names))
    else if |b| == 1 then Err(UnicodeDecodeError)
    else
      match EscapeAt(b, names)
      case Err(err) => Err(err)
      case Ok((t, k)) => Prepend(t, DecodeEscapes(b[k..], names))
  }

  /** The argument of unicode_to_cn: a str or a bytes object. */
  datatype PyText = PyStr(s: string) | PyBytes(b: seq<Byte>)

  /** `DecodeText.unicode_to_cn(string)`: bytes are first decoded as utf-8 (which raises on
      malformed input) and encoded again, which gives the same bytes back. */
  function UnicodeToCn(t: PyText, names: string -> Option<char>): Result<string>
  {
    match t
    case PyBytes(b) => if ValidUtf8(b) then DecodeEscapes(b, names) else Err(UnicodeDecodeError)
    case PyStr(s) => DecodeEscapes(Utf8Encode(s), names)
  }

  /** `u` and `U` name no other kind of escape. */
  lemma HexLetter(e: Byte)
    requires e == 'u' as int || e == 'U' as int
    ensures e != '\n' as int && SimpleEscape(e).None? && !IsOctalByte(e) && e != 'x' as int
  {
  }

  /** A well-formed `\u` or `\U` escape decodes to the character its digits name. */
  lemma DecodeHexEscape(b: seq<Byte>, w: nat, c: char, names: string -> Option<char>)
    requires |b| >= 2 && b[0] == Backslash
    requires (b[1] == 'u' as int && w == 4) || (b[1] == 'U' as int && w == 8)
    requires HexEscape(b, w) == Ok(c)
    ensures DecodeEscapes(b, names) == Cons(c, DecodeEscapes(b[2 + w..], names))
  {
    HexLetter(b[1]);
    assert EscapeAt(b, names) == Ok(([c], 2 + w));
  }

  /** The escape of one character decodes to that character. */
  lemma DecodeEscapeChar(c: char, rest: seq<Byte>, names: string -> Option<char>)
    ensures DecodeEscapes(AsciiBytes(EscapeChar(c)) + rest, names) == Cons(c, DecodeEscapes(rest, names))
  {
    var n := c as int;
    var w := if n <= 0xffff then 4 else 8;
    var letter := if n <= 0xffff then 'u' else 'U';
    var b := AsciiBytes(EscapeChar(c)) + rest;
    EscapeCharForm(c);
    assert EscapeChar(c) == "\\" + [letter] + Hex(n, w);
    assert b[0] == Backslash && b[1] == letter as int;
    assert b[2..2 + w] == AsciiBytes(Hex(n, w));
    assert b[2 + w..] == rest;
    assert Pow16(4) == 0x10000 && Pow16(8) == 0x1_0000_0000;
    HexBytesOfHex(n, w);
    assert HexEscape(b, w) == Ok(c);
    DecodeHexEscape(b, w, c, names);
  }

  /** Decoding the escaped text of s gives s back. */
  lemma {:induction false} DecodeEscapeText(s: string, names: string -> Option<char>)
    ensures DecodeEscapes(AsciiBytes(EscapeText(s)), names) == Ok(s)
    decreases |s|
  {
    if s != [] {
      AsciiBytesConcat(EscapeChar(s[0]), EscapeText(s[1..]));
      DecodeEscapeChar(s[0], AsciiBytes(EscapeText(s[1..])), names);
      DecodeEscapeText(s[1..], names);
      assert [s[0]] + s[1..] == s;
    } else {
      assert AsciiBytes(EscapeText(s)) == [];
    }
  }

  /** unicode_to_cn undoes cn_to_unicode on every text. */
  lemma UnicodeToCnOfCnToUnicode(s: string, names: string -> Option<char>)
    ensures UnicodeToCn(PyStr(EscapeText(s)), names) == Ok(s)
  {
    Utf8EncodeAscii(EscapeText(s));
    DecodeEscapeText(s, names);
  }

  /** unicode_to_cn undoes each bytes piece of cn_to_unicode(s, need_str=False). */
  lemma UnicodeToCnOfPiece(c: char, names: string -> Option<char>)
    ensures UnicodeToCn(PyBytes(EscapePieces([c])[0]), names) == Ok([c])
  {
    var b := AsciiBytes(EscapeChar(c));
    assert EscapePieces([c])[0] == b;
    AsciiBytesValid(EscapeChar(c));
    assert b + [] == b;
    DecodeEscapeChar(c, [], names);
    assert DecodeEscapes([], names) == Ok([]);
    assert [c] + [] == [c];
  }

  /** ASCII text without a backslash passes through unicode_to_cn unchanged. */
  lemma {:induction false} UnicodeToCnPlain(s: string, names: string -> Option<char>)
    requires IsAscii(s) && '\\' !in s
    ensures UnicodeToCn(PyStr(s), names) == Ok(s)
    decreases |s|
  {
    Utf8EncodeAscii(s);
    if s != [] {
      assert AsciiBytes(s)[1..] == AsciiBytes(s[1..]);
      UnicodeToCnPlain(s[1..], names);
      Utf8EncodeAscii(s[1..]);
      assert [s[0]] + s[1..] == s;
    }
  }

  // ----- the font table -----

  /** `s.upper()` on ASCII text (the keys are hexadecimal renderings). */
  function UpperAscii(s: string): (t: string)
    ensures |t| == |s|
  {
    seq(|s|, i requires 0 <= i < |s| => if 'a' <= s[i] <= 'z' then (s[i] as int - 32) as char else s[i])
  }

  function UpperHexDigit(d: nat): char
    requires d < 16
  {
    if d < 10 then DigitChar(d) else (('A' as int) + d - 10) as char
  }

  /** The low `w` hexadecimal digits of n, upper case. */
  function HexUpper(n: nat, w: nat): (h: string)
    ensures |h| == w
  {
    if w == 0 then [] else HexUpper(n / 16, w - 1) + [UpperHexDigit(n % 16)]
  }

  lemma {:induction false} UpperOfHex(n: nat, w: nat)
    ensures UpperAscii(Hex(n, w)) == HexUpper(n, w)
    decreases w
  {
    if w > 0 {
      UpperOfHex(n / 16, w - 1);
      assert UpperAscii(Hex(n, w))[..w - 1] == UpperAscii(Hex(n / 16, w - 1));
    }
  }

  /** Upper-case renderings of the same width are equal only for equal numbers. */
  lemma {:induction false} HexUpperInjective(n: nat, m: nat, w: nat)
    requires n < Pow16(w) && m < Pow16(w)
    requires HexUpper(n, w) == HexUpper(m, w)
    ensures n == m
    decreases w
  {
    if w > 0 {
      assert HexUpper(n, w)[..w - 1] == HexUpper(n / 16, w - 1);
      assert HexUpper(m, w)[..w - 1] == HexUpper(m / 16, w - 1);
      HexUpperInjective(n / 16, m / 16, w - 1);
      assert UpperHexDigit(n % 16) == UpperHexDigit(m % 16);
    }
  }

  /** The key html_trans looks a character up under: `cn_to_unicode(c)[2:].upper()`. */
  function FontKey(c: char): (k: string)
    ensures k == HexUpper(c as int, if c as int <= 0xffff then 4 else 8)
  {
    UpperOfHex(c as int, 4);
    UpperOfHex(c as int, 8);
    EscapeCharForm(c);
    assert Drop(EscapeChar(c), 2) == EscapeChar(c)[2..];
    UpperAscii(Drop(EscapeChar(c), 2))
  }

  /** html_trans computes the key of a character from its escape as cn_to_unicode returns it. */
  lemma EscapedKey(c: char)
    ensures UpperAscii(Drop(EscapeText([c]), 2)) == FontKey(c)
  {
    assert EscapeText([c]) == EscapeChar(c);
  }

  /** Different characters are looked up under different keys. */
  lemma FontKeyInjective(a: char, b: char)
    requires FontKey(a) == FontKey(b)
    ensures a == b
  {
    var w := if a as int <= 0xffff then 4 else 8;
    assert Pow16(4) == 0x10000 && Pow16(8) == 0x1_0000_0000;
    assert |FontKey(b)| == w;
    HexUpperInjective(a as int, b as int, w);
  }

  /** A line of font_table.txt with a second `:`-field; `infos[1]` raises IndexError on any other. */
  predicate HasValue(line: string)
  {
    |Split(line, ':')| >= 2
  }

  /** One line of font_table.txt as a key and a value. */
  function FontEntry(line: string): (string, string)
    requires HasValue(line)
  {
    var infos := Split(line, ':');
    (Drop(Strip(infos[0]), 2), Strip(infos[1]))
  }

  /** A line `a:b` gives key a stripped with two characters dropped, and value b stripped. */
  lemma FontEntryOfPair(a: string, b: string)
    requires ':' !in a && ':' !in b
    ensures HasValue(a + [':'] + b)
    ensures FontEntry(a + [':'] + b) == (Drop(Strip(a), 2), Strip(b))
  {
    SplitAtFirst(a, b, ':');
    SplitFirst(b, ':');
    var infos := Split(a + [':'] + b, ':');
    assert infos == [a, b];
  }

  /** A line without a colon makes the loader raise. */
  lemma FontEntryNoColon(line: string)
    requires ':' !in line
    ensures !HasValue(line)
  {
    SplitFirst(line, ':');
  }

  predicate AllEntries(lines: seq<string>)
  {
    forall i | 0 <= i < |lines| :: HasValue(lines[i])
  }

  /** The entries of lines that all parse. */
  function EntriesOf(lines: seq<string>): (es: seq<(string, string)>)
    requires AllEntries(lines)
    ensures |es| == |lines|
    ensures forall i | 0 <= i < |lines| :: es[i] == FontEntry(lines[i])
  {
    seq(|lines|, i requires 0 <= i < |lines| && AllEntries(lines) => FontEntry(lines[i]))
  }

  lemma EntriesExtend(lines: seq<string>, i: nat)
    requires i < |lines| && AllEntries(lines[..i]) && HasValue(lines[i])
    ensures AllEntries(lines[..i + 1])
    ensures EntriesOf(lines[..i + 1]) == EntriesOf(lines[..i]) + [FontEntry(lines[i])]
  {
    assert lines[..i + 1][..i] == lines[..i];
  }

  /** The map after storing the entries in order: a later entry overwrites an earlier one. */
  function Loaded(m: map<string, string>, es: seq<(string, string)>): map<string, string>
  {
    if es == [] then m
    else
      var e := es[|es| - 1];
      Loaded(m, es[..|es| - 1])[e.0 := e.1]
  }

  /** The last entry with a key decides that key's value. */
  lemma {:induction false} LoadedLastWins(m: map<string, string>, es: seq<(string, string)>, j: nat)
    requires j < |es|
    requires forall i | j < i < |es| :: es[i].0 != es[j].0
    ensures es[j].0 in Loaded(m, es) && Loaded(m, es)[es[j].0] == es[j].1
    decreases |es|
  {
    if j < |es| - 1 {
      var init := es[..|es| - 1];
      assert forall i | j < i < |init| :: init[i] == es[i];
      LoadedLastWins(m, init, j);
    }
  }

  /** A key that no entry carries keeps its earlier binding, or stays absent. */
  lemma {:induction false} LoadedKeeps(m: map<string, string>, es: seq<(string, string)>, k: string)
    requires forall i | 0 <= i < |es| :: es[i].0 != k
    ensures k in Loaded(m, es) <==> k in m
    ensures k in m ==> Loaded(m, es)[k] == m[k]
    decreases |es|
  {
    if es != [] {
      LoadedKeeps(m, es[..|es| - 1], k);
    }
  }

  /** The value html_trans finds for a key: `font_map.get(key, '')`. */
  function Lookup(m: map<string, string>, key: string): string
  {
    if key in m then m[key] else ""
  }

  /** One round of html_trans: a character with a non-empty mapping is replaced everywhere. */
  function TransStep(m: map<string, string>, cur: string, c: char): string
  {
    var v := Lookup(m, FontKey(c));
    if v != "" then ReplaceChar(cur, c, v) else cur
  }

  /** The rounds for the characters of `cs`, in order, applied to the working copy `cur`. */
  function Trans(m: map<string, string>, cur: string, cs: string): string
    decreases |cs|
  {
    if cs == [] then cur else Trans(m, TransStep(m, cur, cs[0]), cs[1..])
  }

  /** Characters without a non-empty mapping leave the text as it is. */
  lemma {:induction false} TransUnmapped(m: map<string, string>, cur: string, cs: string)
    requires forall i | 0 <= i < |cs| :: Lookup(m, FontKey(cs[i])) == ""
    ensures Trans(m, cur, cs) == cur
    decreases |cs|
  {
    if cs != [] {
      assert forall i | 0 <= i < |cs[1..]| :: cs[1..][i] == cs[i + 1];
      TransUnmapped(m, cur, cs[1..]);
    }
  }

  /** With an empty font table html_trans is the identity. */
  lemma TransEmptyTable(content: string)
    ensures Trans(map[], content, content) == content
  {
    TransUnmapped(map[], content, content);
  }

  /** A character no replacement value holds, once absent, stays absent. */
  lemma {:induction false} TransKeepsAbsent(m: map<string, string>, cur: string, cs: string, c: char)
    requires c !in cur
    requires forall k | k in m :: c !in m[k]
    ensures c !in Trans(m, cur, cs)
    decreases |cs|
  {
    if cs != [] {
      TransKeepsAbsent(m, TransStep(m, cur, cs[0]), cs[1..], c);
    }
  }

  /** A mapped character is replaced at every occurrence, unless some value brings it back. */
  lemma {:induction false} TransRemovesMapped(m: map<string, string>, cur: string, cs: string, c: char)
    requires c in cs && Lookup(m, FontKey(c)) != ""
    requires forall k | k in m :: c !in m[k]
    ensures c !in Trans(m, cur, cs)
    decreases |cs|
  {
    if cs[0] == c {
      TransKeepsAbsent(m, TransStep(m, cur, c), cs[1..], c);
    } else {
      assert c in cs[1..];
      TransRemovesMapped(m, TransStep(m, cur, cs[0]), cs[1..], c);
    }
  }

  lemma TransForward(m: map<string, string>, x: char, y: char, z: char)
    requires x != y
    requires Lookup(m, FontKey(x)) == [y] && Lookup(m, FontKey(y)) == [z]
    ensures Trans(m, [x, y], [x, y]) == [z, z]
  {
    assert ReplaceChar([x, y], x, [y]) == [y, y];
    assert TransStep(m, [x, y], x) == [y, y];
    assert ReplaceChar([y, y], y, [z]) == [z, z];
    assert TransStep(m, [y, y], y) == [z, z];
    assert Trans(m, [y, y], [y]) == [z, z];
    assert [x, y][1..] == [y];
  }

  lemma TransBackward(m: map<string, string>, x: char, y: char, z: char)
    requires x != y && x != z
    requires Lookup(m, FontKey(x)) == [y] && Lookup(m, FontKey(y)) == [z]
    ensures Trans(m, [y, x], [y, x]) == [z, y]
  {
    assert ReplaceChar([y, x], y, [z]) == [z, x];
    assert TransStep(m, [y, x], y) == [z, x];
    assert ReplaceChar([z, x], x, [y]) == [z, y];
    assert TransStep(m, [z, x], x) == [z, y];
    assert Trans(m, [z, x], [x]) == [z, y];
    assert [y, x][1..] == [x];
  }

  /** The rounds run in text order and see earlier replacements: with x -> y and y -> z,
      "xy" becomes "zz" but "yx" becomes "zy". */
  lemma TransOrderMatters(m: map<string, string>, x: char, y: char, z: char)
    requires x != y && x != z
    requires Lookup(m, FontKey(x)) == [y] && Lookup(m, FontKey(y)) == [z]
    ensures Trans(m, [x, y], [x, y]) == [z, z]
    ensures Trans(m, [y, x], [y, x]) == [z, y]
  {
    TransForward(m, x, y, z);
    TransBackward(m, x, y, z);
  }

  /** The decoder object: the font table it has loaded. */
  class DecodeText {
    var fontMap: map<string, string>

    /** `DecodeText()` before `load_font_table` runs. */
    constructor ()
      ensures fontMap == map[]
    {
      fontMap := map[];
    }

    /** `load_font_table` over the lines of font_table.txt: returns the index of the line
        that raised IndexError, after the lines before it were stored. */
    method LoadFontTable(lines: seq<string>) returns (failedAt: Option<nat>)
      modifies this
      ensures failedAt.None? ==> AllEntries(lines) && fontMap == Loaded(old(fontMap), EntriesOf(lines))
      ensures failedAt.Some? ==>
        && failedAt.value < |lines|
        && !HasValue(lines[failedAt.value])
        && AllEntries(lines[..failedAt.value])
        && fontMap == Loaded(old(fontMap), EntriesOf(lines[..failedAt.value]))
    {
      for i := 0 to |lines|
        invariant AllEntries(lines[..i])
        invariant fontMap == Loaded(old(fontMap), EntriesOf(lines[..i]))
      {
        var infos := Split(lines[i], ':');
        if |infos| < 2 {
          return Some(i);
        }
        var key, value := Drop(Strip(infos[0]), 2), Strip(infos[1]);
        EntriesExtend(lines, i);
        fontMap := fontMap[key := value];
      }
      assert lines[..|lines|] == lines;
      return None;
    }

    /** `html_trans(content)`: for each character of the original text, in order, the working
        copy has every occurrence of it replaced by its non-empty font mapping. */
    method HtmlTrans(content: string) returns (contentNew: string)
      ensures contentNew == Trans(fontMap, content, content)
    {
      contentNew := content;
      for i := 0 to |content|
        invariant Trans(fontMap, contentNew, content[i..]) == Trans(fontMap, content, content)
      {
        var escaped := CnToUnicode([content[i]], true);
        EscapedKey(content[i]);
        var key := UpperAscii(Drop(escaped.text, 2));
        var newStr := if key in fontMap then fontMap[key] else "";
        if newStr != "" {
          contentNew := ReplaceChar(contentNew, content[i], newStr);
        }
        assert content[i..][1..] == content[i + 1..];
      }
    }

    /** `convert(string)`, which is html_trans. */
    method Convert(s: string) returns (r: string)
      ensures r == Trans(fontMap, s, s)
    {
      r := HtmlTrans(s);
    }
  }

  // ----- tables -----

  /** A cell as pd.read_html leaves it: missing (NaN) or text. */
  datatype Cell = NaN | Text(s: string)

  /** A parsed table: its cells by (row, column) label, and its printed form `table.__str__()`. */
  datatype Table = Table(cells: map<(int, int), Cell>, rendered: string)

  /** The two obfuscated headings a land-sale table prints. */
  const ValidityFlags: seq<string> := ["宗箹编号", "出让鹽限"]

  /** The early-return loop of is_valid_table over its flags. */
  function AllFlagsIn(flags: seq<string>, text: string): (ok: bool)
    ensures ok <==> forall i | 0 <= i < |flags| :: IsSubstring(flags[i], text)
  {
    if flags == [] then true
    else if !IsSubstring(flags[0], text) then false
    else
      assert forall i | 1 <= i < |flags| :: flags[1..][i - 1] == flags[i];
      AllFlagsIn(flags[1..], text)
  }

  /** `is_valid_table(table)`: both headings occur in the printed table. */
  function IsValidTable(t: Table): (ok: bool)
    ensures ok <==> IsSubstring("宗箹编号", t.rendered) && IsSubstring("出让鹽限", t.rendered)
  {
    assert ValidityFlags[0] == "宗箹编号" && ValidityFlags[1] == "出让鹽限" && |ValidityFlags| == 2;
    AllFlagsIn(ValidityFlags, t.rendered)
  }

  /** The keys of a land-sale record, in the order extract_table2dict builds it. */
  const ItemKeys: seq<string> := [
    "宗地编号", "宗地总面积", "宗地坐落", "出让年限", "容积率", "建筑密度", "绿化率",
    "建筑限高", "主要用途", "面积", "投资强度", "保证金", "估价报告备案号",
    "起始价", "加价幅度", "挂牌开始时间", "挂牌截止时间"]

  /** The cell each key is read from. */
  const ItemCells: seq<(int, int)> := [
    (0, 1), (0, 3), (0, 5), (1, 1), (1, 3), (1, 5), (2, 1), (2, 3), (4, 0),
    (7, 3), (8, 1), (8, 3), (8, 5), (9, 1), (9, 3), (10, 1), (10, 3)]

  /** `extract_table2dict(table)`: the 17 fields, or {} when a `loc` lookup raises. */
  function ExtractTable2Dict(t: Table): (d: seq<(string, Cell)>)
    ensures d == [] <==> exists p | p in ItemCells :: p !in t.cells
    ensures d != [] ==> Keys(d) == ItemKeys
    ensures d != [] ==> forall i | 0 <= i < |d| :: d[i].1 == t.cells[ItemCells[i]]
  {
    var c := t.cells;
    if forall p | p in ItemCells :: p in c then
      seq(|ItemKeys|, i requires 0 <= i < |ItemKeys| && ItemCells[i] in c => (ItemKeys[i], c[ItemCells[i]]))
    else []
  }

  /** `table.fillna("无")`: missing cells become the text 无. */
  function FillNa(t: Table): (u: Table)
    ensures u.cells.Keys == t.cells.Keys
    ensures forall p | p in u.cells :: u.cells[p].Text?
    ensures forall p | p in t.cells && t.cells[p].Text? :: u.cells[p] == t.cells[p]
  {
    t.(cells := map p | p in t.cells :: if t.cells[p].NaN? then Text("无") else t.cells[p])
  }

  /** `convert_text(dict_)` over a record whose values are texts. */
  function ConvertedEntries(m: map<string, string>, d: seq<(string, Cell)>): (r: seq<(string, string)>)
    requires forall i | 0 <= i < |d| :: d[i].1.Text?
    ensures |r| == |d| && Keys(r) == Keys(d)
  {
    seq(|d|, i requires 0 <= i < |d| && d[i].1.Text? => (d[i].0, Trans(m, d[i].1.s, d[i].1.s)))
  }

  lemma ConvertedExtend(m: map<string, string>, d: seq<(string, Cell)>, i: nat)
    requires i < |d| && forall j | 0 <= j < |d| :: d[j].1.Text?
    ensures ConvertedEntries(m, d[..i + 1]) == ConvertedEntries(m, d[..i]) + [(d[i].0, Trans(m, d[i].1.s, d[i].1.s))]
  {
    var a, b := ConvertedEntries(m, d[..i + 1]), ConvertedEntries(m, d[..i]) + [(d[i].0, Trans(m, d[i].1.s, d[i].1.s))];
    forall k | 0 <= k < |a|
      ensures a[k] == b[k]
    {
      if k < i {
        assert d[..i + 1][k] == d[..i][k];
      }
    }
  }

  /** The record extract keeps for one valid table, if any. */
  function ItemOf(m: map<string, string>, t: Table): Option<seq<(string, string)>>
  {
    var d := ExtractTable2Dict(FillNa(t));
    if d == [] then None else Some(ConvertedEntries(m, d))
  }

  /** `get_valid_table()`: the tables whose rendering holds both flags, in page order. */
  function ValidTables(ts: seq<Table>): (vs: seq<Table>)
    ensures |vs| <= |ts|
    ensures forall t | t in vs :: t in ts && IsValidTable(t)
    ensures forall t | t in ts :: (t in vs <==> IsValidTable(t))
  {
    if ts == [] then []
    else
      var init := ValidTables(ts[..|ts| - 1]);
      assert forall t | t in ts :: t in ts[..|ts| - 1] || t == ts[|ts| - 1];
      if IsValidTable(ts[|ts| - 1]) then init + [ts[|ts| - 1]] else init
  }

  /** The filter works table by table, so it keeps the page order: the kept tables
      of two runs of tables are those of the first run followed by those of the second. */
  lemma {:induction false} ValidTablesConcat(a: seq<Table>, b: seq<Table>)
    ensures ValidTables(a + b) == ValidTables(a) + ValidTables(b)
    decreases |b|
  {
    if b == [] {
      assert a + b == a;
    } else {
      var b' := b[..|b| - 1];
      assert (a + b)[..|a + b| - 1] == a + b';
      assert (a + b)[|a + b| - 1] == b[|b| - 1];
      ValidTablesConcat(a, b');
    }
  }

  /** One table is kept exactly when it is valid. */
  lemma ValidTablesOne(t: Table)
    ensures ValidTables([t]) == if IsValidTable(t) then [t] else []
  {
    assert [t][..0] == [];
  }

  /** The records extracted from a list of valid tables, in order. */
  function Items(m: map<string, string>, ts: seq<Table>): seq<seq<(string, string)>>
  {
    if ts == [] then []
    else
      Items(m, ts[..|ts| - 1]) +
      match ItemOf(m, ts[|ts| - 1])
      case None => []
      case Some(it) => [it]
  }

  lemma ItemsExtend(m: map<string, string>, ts: seq<Table>, i: nat)
    requires i < |ts|
    ensures Items(m, ts[..i + 1]) == Items(m, ts[..i]) + match ItemOf(m, ts[i]) case None => [] case Some(it) => [it]
  {
    assert ts[..i + 1][..i] == ts[..i];
  }

  /** A record exists exactly when all 17 cells do, and each of its values is the
      converted text of its cell after fillna. */
  lemma ItemOfShape(m: map<string, string>, t: Table)
    ensures ItemOf(m, t).None? <==> exists p | p in ItemCells :: p !in t.cells
    ensures ItemOf(m, t).Some? ==>
      var it := ItemOf(m, t).value;
      && Keys(it) == ItemKeys
      && forall i | 0 <= i < |it| ::
           var cell := FillNa(t).cells[ItemCells[i]];
           it[i].1 == Trans(m, cell.s, cell.s)
  {
  }

  /** Every extracted record has exactly the 17 keys, and there is at most one per table. */
  lemma {:induction false} ItemsShape(m: map<string, string>, ts: seq<Table>)
    ensures |Items(m, ts)| <= |ts|
    ensures forall it | it in Items(m, ts) :: Keys(it) == ItemKeys
    decreases |ts|
  {
    if ts != [] {
      ItemsShape(m, ts[..|ts| - 1]);
      ItemOfShape(m, ts[|ts| - 1]);
    }
  }

  /** A table parser for one detail page, with its decoder. */
  class TableParser {
    var url: string
    var decodeText: DecodeText

    /** `TableParser(url)`, given the decoder its constructor loads. */
    constructor (url: string, decodeText: DecodeText)
      ensures this.url == url && this.decodeText == decodeText
    {
      this.url := url;
      this.decodeText := decodeText;
    }

    /** `get_valid_table()` over the tables `by_pandas()` reads from the page. */
    method GetValidTable(tables: seq<Table>) returns (valid: seq<Table>)
      ensures valid == ValidTables(tables)
    {
      valid := [];
      for i := 0 to |tables|
        invariant valid == ValidTables(tables[..i])
      {
        assert tables[..i + 1][..i] == tables[..i];
        if IsValidTable(tables[i]) {
          valid := valid + [tables[i]];
        }
      }
      assert tables[..|tables|] == tables;
    }

    /** `convert_text(dict_)`: every value passed through the decoder. */
    method ConvertText(d: seq<(string, Cell)>) returns (newDict: seq<(string, string)>)
      requires forall i | 0 <= i < |d| :: d[i].1.Text?
      ensures newDict == ConvertedEntries(decodeText.fontMap, d)
    {
      newDict := [];
      for i := 0 to |d|
        invariant newDict == ConvertedEntries(decodeText.fontMap, d[..i])
      {
        ConvertedExtend(decodeText.fontMap, d, i);
        var v := decodeText.Convert(d[i].1.s);
        newDict := newDict + [(d[i].0, v)];
      }
      assert d[..|d|] == d;
    }

    /** `extract()`: the records of the valid tables whose cells are all present. */
    method Extract(tables: seq<Table>) returns (items: seq<seq<(string, string)>>)
      ensures items == Items(decodeText.fontMap, ValidTables(tables))
    {
      items := [];
      var valid := GetValidTable(tables);
      for i := 0 to |valid|
        invariant items == Items(decodeText.fontMap, valid[..i])
      {
        ItemsExtend(decodeText.fontMap, valid, i);
        var table := FillNa(valid[i]);
        var dict := ExtractTable2Dict(table);
        if dict == [] {
          continue;
        }
        var converted := ConvertText(dict);
        items := items + [converted];
      }
      assert valid[..|valid|] == valid;
    }
  }
}
