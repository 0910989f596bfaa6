/** Reading the claims of a compact JWT without verifying it.

    A compact token is three base64url segments joined by '.' (the JWS Compact
    Serialization, section 7.1 of RFC 7515, as used by RFC 7519). Both the server
    (`decode_jwt_payload`) and the client (`get_user_info_from_token`) split the
    token on '.', insist on exactly three parts, re-pad the middle segment to a
    multiple of four characters (base64url, section 5 of RFC 4648, drops the '='
    padding) and hand it to the library's base64 and JSON decoders; any failure
    yields an empty dict. The two callers pad differently. */
module JwtClaims {
  import opened PyRuntime

  /** Number of occurrences of `c` in `s`. */
  function Count(s: string, c: char): nat {
    if s == [] then 0 else (if s[0] == c then 1 else 0) + Count(s[1..], c)
  }

  /** Python's `s.split(sep)` for a one-character separator. */
  function Split(s: string, sep: char): (parts: seq<string>)
    ensures |parts| == Count(s, sep) + 1
    ensures forall i :: 0 <= i < |parts| ==> sep !in parts[i]
  {
    if s == [] then [""]
    else
      var rest := Split(s[1..], sep);
      if s[0] == sep then [""] + rest
      else [[s[0]] + rest[0]] + rest[1..]
  }

  /** `sep.join(parts)` with a one-character separator. */
  function JoinOn(parts: seq<string>, sep: char): string
    requires parts != []
  {
    if |parts| == 1 then parts[0] else parts[0] + [sep] + JoinOn(parts[1..], sep)
  }

  /** Splitting loses nothing: joining the parts gives back the token. */
  lemma {:induction false} JoinSplit(s: string, sep: char)
    ensures JoinOn(Split(s, sep), sep) == s
  {
    if s != [] {
      var rest := Split(s[1..], sep);
      JoinSplit(s[1..], sep);
      if s[0] == sep {
        assert s == [sep] + s[1..];
      } else if |rest| == 1 {
        assert s == [s[0]] + s[1..];
      } else {
        var parts := Split(s, sep);
        assert parts[1..] == rest[1..];
        assert s == [s[0]] + s[1..];
      }
    }
  }

  /** Splitting the concatenation of dot-free segments gives back the segments:
      the other half of the round trip. */
  lemma {:induction false} SplitJoin(parts: seq<string>, sep: char)
    requires parts != []
    requires forall i :: 0 <= i < |parts| ==> sep !in parts[i]
    ensures Split(JoinOn(parts, sep), sep) == parts
  {
    if |parts| == 1 {
      NoSepSplit(parts[0], sep);
    } else {
      SplitJoin(parts[1..], sep);
      SplitPrefix(parts[0], sep, JoinOn(parts[1..], sep));
    }
  }

  lemma {:induction false} NoSepSplit(s: string, sep: char)
    requires sep !in s
    ensures Split(s, sep) == [s]
  {
    if s != [] {
      NoSepSplit(s[1..], sep);
      assert [s[0]] + s[1..] == s;
    }
  }

  lemma {:induction false} SplitPrefix(a: string, sep: char, b: string)
    requires sep !in a
    ensures Split(a + [sep] + b, sep) == [a] + Split(b, sep)
  {
    if a == [] {
      assert a + [sep] + b == [sep] + b;
      assert ([sep] + b)[1..] == b;
    } else {
      SplitPrefix(a[1..], sep, b);
      assert (a + [sep] + b)[1..] == a[1..] + [sep] + b;
      assert [a[0]] + a[1..] == a;
    }
  }

  /** A token splits into exactly three parts iff it holds exactly two dots. */
  lemma ThreePartsIffTwoDots(token: string)
    ensures |Split(token, '.')| == 3 <==> Count(token, '.') == 2
  {
  }

  /** `n` copies of `c`, Python's `c * n`. */
  function Repeat(c: char, n: nat): (r: string)
    ensures |r| == n && forall i :: 0 <= i < n ==> r[i] == c
  {
    if n == 0 then "" else [c] + Repeat(c, n - 1)
  }

  /** The payload followed by `=` characters only. */
  predicate PaddedFrom(payload: string, padded: string) {
    |payload| <= |padded| && padded[..|payload|] == payload
    && forall i :: |payload| <= i < |padded| ==> padded[i] == '='
  }

  /** Server padding: `padding = 4 - len % 4`, appended only when it is not 4.
      So 0 to 3 '=' are added, none when the length is already a multiple of 4. */
  function ServerPad(payload: string): (r: string)
    ensures PaddedFrom(payload, r)
    ensures |r| % 4 == 0
    ensures |r| - |payload| <= 3
    ensures |payload| % 4 == 0 <==> r == payload
  {
    var padding := 4 - |payload| % 4;
    if padding != 4 then payload + Repeat('=', padding) else payload
  }

  /** Client padding: `payload += '=' * (4 - len % 4)`, always 1 to 4 characters,
      so an aligned payload gets four. */
  function ClientPad(payload: string): (r: string)
    ensures PaddedFrom(payload, r)
    ensures |r| % 4 == 0
    ensures 1 <= |r| - |payload| <= 4
    ensures |payload| % 4 == 0 <==> |r| - |payload| == 4
  {
    payload + Repeat('=', 4 - |payload| % 4)
  }

  /** The two paddings agree except on aligned payloads, where the client adds
      a full block of four '='. */
  lemma PaddingsCompared(payload: string)
    ensures |payload| % 4 != 0 ==> ClientPad(payload) == ServerPad(payload)
    ensures |payload| % 4 == 0 ==> ClientPad(payload) == ServerPad(payload) + "===="
  {
    if |payload| % 4 == 0 {
      assert Repeat('=', 4) == "====";
    }
  }

  /** The library decoders: `json.loads(base64.urlsafe_b64decode(s))`, `None`
      when either raises. */
  type Decoder = string -> Option<Json>

  const EmptyDict: Json := JObj(map[])

  /** What reaches the decoder: the padded middle segment, if there are three. */
  function PayloadSegment(token: string): (r: Option<string>)
    ensures r.Some? <==> Count(token, '.') == 2
    ensures r.Some? ==> '.' !in r.value
  {
    var parts := Split(token, '.');
    if |parts| != 3 then None else Some(parts[1])
  }

  /** `decode_jwt_payload` (server): never raises; `{}` unless the token has
      three parts and the padded payload decodes. */
  function DecodeJwtPayload(token: string, decode: Decoder): (r: Json)
    ensures PayloadSegment(token).None? ==> r == EmptyDict
    ensures PayloadSegment(token).Some? ==>
              r == decode(ServerPad(PayloadSegment(token).value)).GetOr(EmptyDict)
  {
    var parts := Split(token, '.');
    if |parts| != 3 then EmptyDict
    else
      match decode(ServerPad(parts[1]))
      case None => EmptyDict
      case Some(claims) => claims
  }

  /** `get_user_info_from_token` (client): the same, with the client padding. */
  function UserInfoFromToken(token: string, decode: Decoder): (r: Json)
    ensures PayloadSegment(token).None? ==> r == EmptyDict
    ensures PayloadSegment(token).Some? ==>
              r == decode(ClientPad(PayloadSegment(token).value)).GetOr(EmptyDict)
  {
    var parts := Split(token, '.');
    if |parts| != 3 then EmptyDict
    else
      match decode(ClientPad(parts[1]))
      case None => EmptyDict
      case Some(claims) => claims
  }

  /** For a token assembled as header '.' payload '.' signature, the decoder is
      handed exactly the padded payload segment. */
  lemma {:induction false} DecodeSeesPayload(header: string, payload: string, signature: string, decode: Decoder)
    requires '.' !in header && '.' !in payload && '.' !in signature
    ensures DecodeJwtPayload(header + "." + payload + "." + signature, decode)
            == decode(ServerPad(payload)).GetOr(EmptyDict)
    ensures UserInfoFromToken(header + "." + payload + "." + signature, decode)
            == decode(ClientPad(payload)).GetOr(EmptyDict)
  {
    var parts := [header, payload, signature];
    assert parts[1..] == [payload, signature] && parts[2..] == [signature];
    assert JoinOn(parts[2..], '.') == signature;
    assert JoinOn(parts[1..], '.') == payload + "." + signature;
    assert JoinOn(parts, '.') == header + "." + (payload + "." + signature);
    assert header + "." + (payload + "." + signature) == header + "." + payload + "." + signature;
    SplitJoin(parts, '.');
  }

  /** Any token with a dot count other than two gives `{}` whatever the decoder. */
  lemma MalformedTokenIsEmpty(token: string, decode: Decoder)
    requires Count(token, '.') != 2
    ensures DecodeJwtPayload(token, decode) == EmptyDict
    ensures UserInfoFromToken(token, decode) == EmptyDict
  {
  }
}
