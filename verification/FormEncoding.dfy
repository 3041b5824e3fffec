/**
  The body of sendTx: percent-encoding (sections 2.1 and 2.3 of RFC 3986) and form
  fields. Models src/lighter_rest_client.cpp.
 */
module FormEncoding {
  import opened Wrappers
  import Text

  type Byte = b: int | 0 <= b < 256

  // ---- Encoding --------------------------------------------------------

  predicate IsUnreserved(c: char) {
    'a' <= c <= 'z' || 'A' <= c <= 'Z' || '0' <= c <= '9' || c == '-' || c == '_' || c == '.' || c == '~'
  }

  function HexDigit(n: int): (c: char)
    requires 0 <= n < 16
    ensures '0' <= c <= '9' || 'A' <= c <= 'F'
  {
    if n < 10 then '0' + n as char else 'A' + (n - 10) as char
  }

  function EncodeByte(b: Byte): string {
    if IsUnreserved(b as char) then [b as char] else ['%', HexDigit(b / 16), HexDigit(b % 16)]
  }

  function Encode(s: seq<Byte>): string {
    if s == [] then "" else EncodeByte(s[0]) + Encode(s[1..])
  }

  lemma {:induction false} EncodeConcat(a: seq<Byte>, b: seq<Byte>)
    ensures Encode(a + b) == Encode(a) + Encode(b)
  {
    if a == [] {
      assert a + b == b;
    } else {
      assert (a + b)[1..] == a[1..] + b;
      EncodeConcat(a[1..], b);
    }
  }

  method UrlEncode(s: seq<Byte>) returns (out: string)
    ensures out == Encode(s)
  {
    out := "";
    for k := 0 to |s|
      invariant out == Encode(s[..k])
    {
      EncodeConcat(s[..k], [s[k]]);
      assert s[..k + 1] == s[..k] + [s[k]];
      assert Encode([s[k]]) == EncodeByte(s[k]) + "";
      var c := s[k] as char;
      if IsUnreserved(c) {
        out := out + [c];
      } else {
        out := out + ['%', HexDigit(s[k] / 16), HexDigit(s[k] % 16)];
      }
    }
    assert s[..|s|] == s;
  }

  // ---- Decoding --------------------------------------------------------

  function HexValue(c: char): Option<int> {
    if '0' <= c <= '9' then Some((c - '0') as int)
    else if 'A' <= c <= 'F' then Some((c - 'A') as int + 10)
    else if 'a' <= c <= 'f' then Some((c - 'a') as int + 10)
    else None
  }

  /** Form decoding of a value: percent triplets, and `+` for a space. */
  function Decode(t: string): Option<seq<int>> {
    if t == "" then Some([])
    else if t[0] == '%' then
      if |t| < 3 || HexValue(t[1]).None? || HexValue(t[2]).None? then None
      else
        match Decode(t[3..])
        case None => None
        case Some(rest) => Some([HexValue(t[1]).value * 16 + HexValue(t[2]).value] + rest)
    else
      match Decode(t[1..])
      case None => None
      case Some(rest) => Some([if t[0] == '+' then 32 else t[0] as int] + rest)
  }

  lemma HexRoundTrip(n: int)
    requires 0 <= n < 16
    ensures HexValue(HexDigit(n)) == Some(n)
  {}

  lemma DecodeTriplet(n: int, rest: string)
    requires 0 <= n < 256
    ensures Decode(['%', HexDigit(n / 16), HexDigit(n % 16)] + rest)
         == match Decode(rest) case None => None case Some(tail) => Some([n] + tail)
  {
    var t := ['%', HexDigit(n / 16), HexDigit(n % 16)] + rest;
    assert t[0] == '%' && t[1] == HexDigit(n / 16) && t[2] == HexDigit(n % 16) && t[3..] == rest;
    HexRoundTrip(n / 16);
    HexRoundTrip(n % 16);
    assert n / 16 * 16 + n % 16 == n;
  }

  /** Decoding undoes encoding, on every byte string. */
  lemma {:induction false} DecodeInvertsEncode(s: seq<Byte>)
    ensures Decode(Encode(s)) == Some(s)
  {
    if s != [] {
      DecodeInvertsEncode(s[1..]);
      assert [s[0]] + s[1..] == s;
      var rest := Encode(s[1..]);
      if IsUnreserved(s[0] as char) {
        assert Encode(s)[1..] == rest;
      } else {
        DecodeTriplet(s[0], rest);
      }
    }
  }

  /**
    Letters, digits and four marks stand for themselves; every other byte becomes a percent
    sign and two capital hex digits.
   */
  lemma EveryByteIsEncoded(b: Byte)
    ensures var c := b as char;
            Encode([b]) ==
            if 'A' <= c <= 'Z' || 'a' <= c <= 'z' || '0' <= c <= '9' || c in {'-', '_', '.', '~'} then [c]
            else ['%', "0123456789ABCDEF"[b / 16], "0123456789ABCDEF"[b % 16]]
  {
    assert [b][1..] == [];
    HexDigitIs(b / 16);
    HexDigitIs(b % 16);
  }

  lemma HexDigitIs(n: int)
    requires 0 <= n < 16
    ensures HexDigit(n) == "0123456789ABCDEF"[n]
  {}

  /** The encoding uses only unreserved characters and percent signs, so no `&`, `=` or `+`. */
  lemma {:induction false} EncodeIsPlain(s: seq<Byte>)
    ensures forall c :: c in Encode(s) ==>
              'A' <= c <= 'Z' || 'a' <= c <= 'z' || '0' <= c <= '9' || c in {'-', '_', '.', '~', '%'}
    ensures '&' !in Encode(s) && '=' !in Encode(s) && '+' !in Encode(s)
  {
    if s != [] { EncodeIsPlain(s[1..]); }
  }

  // ---- The body --------------------------------------------------------

  function Body(txType: nat, txInfo: seq<Byte>): string {
    "tx_type=" + Text.Digits(txType) + "&tx_info=" + Encode(txInfo)
  }

  method BuildBody(txType: nat, txInfo: seq<Byte>) returns (body: string)
    ensures body == Body(txType, txInfo)
  {
    var encoded := UrlEncode(txInfo);
    body := "tx_type=" + Text.Digits(txType) + "&tx_info=" + encoded;
  }

  /** The pieces between separators. */
  function Split(t: string, sep: char): seq<string> {
    if t == "" then [""]
    else if t[0] == sep then [""] + Split(t[1..], sep)
    else
      var rest := Split(t[1..], sep);
      if rest == [] then [[t[0]]] else [[t[0]] + rest[0]] + rest[1..]
  }

  lemma {:induction false} SplitAtSeparator(a: string, b: string, sep: char)
    requires sep !in a
    ensures Split(a, sep) == [a]
    ensures Split(a + [sep] + b, sep) == [a] + Split(b, sep)
  {
    var t := a + [sep] + b;
    if a == "" {
      assert t[1..] == b;
    } else {
      assert t[1..] == a[1..] + [sep] + b;
      SplitAtSeparator(a[1..], b, sep);
      assert [a[0]] + a[1..] == a;
    }
  }

  datatype Field = Field(key: string, value: Option<seq<int>>)

  function ParseField(piece: string): Option<Field> {
    var parts := Split(piece, '=');
    if |parts| != 2 then None else Some(Field(parts[0], Decode(parts[1])))
  }

  function CodesOf(t: string): seq<int> {
    seq(|t|, k requires 0 <= k < |t| => t[k] as int)
  }

  lemma {:induction false} DecodePlainText(t: string)
    requires '%' !in t && '+' !in t
    ensures Decode(t) == Some(CodesOf(t))
  {
    if t != "" {
      DecodePlainText(t[1..]);
      assert [t[0] as int] + CodesOf(t[1..]) == CodesOf(t);
    } else {
      assert CodesOf(t) == [];
    }
  }

  lemma FieldIsParsed(key: string, text: string)
    requires '=' !in key && '=' !in text
    ensures ParseField(key + "=" + text) == Some(Field(key, Decode(text)))
  {
    SplitAtSeparator(key, text, '=');
    SplitAtSeparator(text, "", '=');
  }

  lemma BodySplits(txType: nat, txInfo: seq<Byte>)
    ensures Split(Body(txType, txInfo), '&') ==
            ["tx_type" + "=" + Text.Digits(txType), "tx_info" + "=" + Encode(txInfo)]
  {
    var left, right := "tx_type" + "=" + Text.Digits(txType), "tx_info" + "=" + Encode(txInfo);
    EncodeIsPlain(txInfo);
    assert Body(txType, txInfo) == left + "&" + right;
    SplitAtSeparator(left, right, '&');
    SplitAtSeparator(right, "", '&');
  }

  /** Splitting the body at `&` and `=` and decoding the values recovers both fields. */
  lemma BodyRoundTrip(txType: nat, txInfo: seq<Byte>)
    ensures var pieces := Split(Body(txType, txInfo), '&');
            && |pieces| == 2
            && ParseField(pieces[0]) == Some(Field("tx_type", Some(CodesOf(Text.Digits(txType)))))
            && ParseField(pieces[1]) == Some(Field("tx_info", Some(txInfo)))
  {
    BodySplits(txType, txInfo);
    EncodeIsPlain(txInfo);
    FieldIsParsed("tx_type", Text.Digits(txType));
    FieldIsParsed("tx_info", Encode(txInfo));
    DecodePlainText(Text.Digits(txType));
    DecodeInvertsEncode(txInfo);
  }

  /** Two submissions with the same body are the same submission. */
  lemma BodyIsInjective(txType: nat, txInfo: seq<Byte>, txType': nat, txInfo': seq<Byte>)
    requires Body(txType, txInfo) == Body(txType', txInfo')
    ensures txType == txType' && txInfo == txInfo'
  {
    BodyRoundTrip(txType, txInfo);
    BodyRoundTrip(txType', txInfo');
    var a, b := Text.Digits(txType), Text.Digits(txType');
    assert forall k :: 0 <= k < |a| ==> CodesOf(a)[k] == a[k] as int;
    assert forall k :: 0 <= k < |b| ==> CodesOf(b)[k] == b[k] as int;
    assert |CodesOf(a)| == |a| && |CodesOf(b)| == |b|;
    assert a == b;
    Text.ParseInvertsDigits(txType);
    Text.ParseInvertsDigits(txType');
  }
}
