/** The handshake cookie: three secrets and a return path, printed with '|' between them and
    parsed back, and the path's sanitiser. Text is bytes. */
module Handshake {
  import opened Prelude

  type Byte = x: int | 0 <= x < 256

  type Text = seq<Byte>

  const BAR: Byte := 0x7c
  const SLASH: Byte := 0x2f
  const BACKSLASH: Byte := 0x5c
  const MAX_RETURN_PATH: nat := 512

  // ----- base64url without padding, section 5 of RFC 4648 -----

  type Sextet = x: int | 0 <= x < 64

  function Symbol(v: Sextet): Byte {
    if v < 26 then 'A' as int + v
    else if v < 52 then 'a' as int + v - 26
    else if v < 62 then '0' as int + v - 52
    else if v == 62 then '-' as int
    else '_' as int
  }

  function Value(c: Byte): Option<Sextet> {
    if 'A' as int <= c <= 'Z' as int then Some(c - 'A' as int)
    else if 'a' as int <= c <= 'z' as int then Some(c - 'a' as int + 26)
    else if '0' as int <= c <= '9' as int then Some(c - '0' as int + 52)
    else if c == '-' as int then Some(62)
    else if c == '_' as int then Some(63)
    else None
  }

  /** The first, second and third byte that four sextets spell. */
  function Byte0(a: Sextet, b: Sextet): Byte { a * 4 + b / 16 }

  function Byte1(b: Sextet, c: Sextet): Byte { b % 16 * 16 + c / 4 }

  function Byte2(c: Sextet, d: Sextet): Byte { c % 4 * 64 + d }

  /** The sextets of a run of bytes, zero bits filling the last one. */
  function Sextets(s: Text): seq<Sextet> {
    if |s| == 0 then []
    else if |s| == 1 then [s[0] / 4, s[0] % 4 * 16]
    else if |s| == 2 then [s[0] / 4, s[0] % 4 * 16 + s[1] / 16, s[1] % 16 * 4]
    else [s[0] / 4, s[0] % 4 * 16 + s[1] / 16, s[1] % 16 * 4 + s[2] / 64, s[2] % 64] + Sextets(s[3..])
  }

  /** The bytes in a run of sextets; bits left over are ignored, a lone sextet is an error. */
  function Bytes(v: seq<Sextet>): Option<Text> {
    if |v| == 0 then Some([])
    else if |v| == 1 then None
    else if |v| == 2 then Some([Byte0(v[0], v[1])])
    else if |v| == 3 then Some([Byte0(v[0], v[1]), Byte1(v[1], v[2])])
    else
      var rest := Bytes(v[4..]);
      if rest.None? then None
      else Some([Byte0(v[0], v[1]), Byte1(v[1], v[2]), Byte2(v[2], v[3])] + rest.value)
  }

  function Symbols(v: seq<Sextet>): Text {
    if v == [] then [] else [Symbol(v[0])] + Symbols(v[1..])
  }

  /** The sextets that a text spells; None if some byte is no symbol. */
  function Values(s: Text): Option<seq<Sextet>> {
    if s == [] then Some([])
    else
      var first, rest := Value(s[0]), Values(s[1..]);
      if first.None? || rest.None? then None else Some([first.value] + rest.value)
  }

  predicate Newline(c: Byte) {
    c == 0x0a || c == 0x0d
  }

  function WithoutNewlines(s: Text): Text {
    if s == [] then []
    else if Newline(s[0]) then WithoutNewlines(s[1..])
    else [s[0]] + WithoutNewlines(s[1..])
  }

  function Encode(s: Text): Text {
    Symbols(Sextets(s))
  }

  /** Go's decoder: line breaks are skipped wherever they stand. */
  function Decode(s: Text): Option<Text> {
    var v := Values(WithoutNewlines(s));
    if v.None? then None else Bytes(v.value)
  }

  predicate Clean(s: Text) {
    forall c :: c in s ==> UrlSafe(c)
  }

  /** A letter, a digit, '-' or '_'. */
  predicate UrlSafe(c: Byte) {
    || 'A' as int <= c <= 'Z' as int || 'a' as int <= c <= 'z' as int || '0' as int <= c <= '9' as int
    || c == '-' as int || c == '_' as int
  }

  lemma SymbolValue(v: Sextet)
    ensures Value(Symbol(v)) == Some(v)
    ensures UrlSafe(Symbol(v))
  {
  }

  lemma {:induction false} SymbolsBack(v: seq<Sextet>)
    ensures Clean(Symbols(v))
    ensures WithoutNewlines(Symbols(v)) == Symbols(v)
    ensures Values(Symbols(v)) == Some(v)
  {
    if v != [] {
      SymbolValue(v[0]);
      SymbolsBack(v[1..]);
      assert Symbols(v)[1..] == Symbols(v[1..]);
      assert v == [v[0]] + v[1..];
    }
  }

  lemma ByteBack(a: Byte)
    ensures Byte0(a / 4, a % 4 * 16) == a
  {
  }

  lemma PairBack(a: Byte, b: Byte)
    ensures Byte0(a / 4, a % 4 * 16 + b / 16) == a && Byte1(a % 4 * 16 + b / 16, b % 16 * 4) == b
  {
  }

  lemma TripleBack(a: Byte, b: Byte, c: Byte)
    ensures Byte0(a / 4, a % 4 * 16 + b / 16) == a
    ensures Byte1(a % 4 * 16 + b / 16, b % 16 * 4 + c / 64) == b
    ensures Byte2(b % 16 * 4 + c / 64, c % 64) == c
  {
  }

  lemma {:induction false} BytesSextets(s: Text)
    ensures Bytes(Sextets(s)) == Some(s)
  {
    if |s| == 1 {
      ByteBack(s[0]);
      assert s == [s[0]];
    } else if |s| == 2 {
      PairBack(s[0], s[1]);
      assert s == [s[0], s[1]];
    } else if |s| >= 3 {
      TripleBack(s[0], s[1], s[2]);
      BytesSextets(s[3..]);
      assert Sextets(s)[4..] == Sextets(s[3..]);
      assert s == [s[0], s[1], s[2]] + s[3..];
    }
  }

  /** Decoding undoes encoding, on every text; an encoded text is made of URL-safe symbols only,
      and so never contains the cookie's separator. */
  lemma DecodeUndoesEncode(s: Text)
    ensures Decode(Encode(s)) == Some(s)
    ensures (forall c :: c in Encode(s) ==> UrlSafe(c)) && BAR !in Encode(s)
  {
    SymbolsBack(Sextets(s));
    BytesSextets(s);
  }

  // ----- What the encoding is -----

  /** The symbol `c` stands for `v`: table 2 of section 5 of RFC 4648, in character codes. */
  predicate StandsFor(c: Byte, v: Sextet) {
    || (v <= 25 && c == 65 + v) || (26 <= v <= 51 && c == 97 + v - 26) || (52 <= v <= 61 && c == 48 + v - 52)
    || (v == 62 && c == 45) || (v == 63 && c == 95)
  }

  /** The `k`-th group of three bytes as one number of 24 bits, absent bytes being zero. */
  function ByteGroup(s: Text, k: nat): nat {
    65_536 * ByteAt(s, 3 * k) + 256 * ByteAt(s, 3 * k + 1) + ByteAt(s, 3 * k + 2)
  }

  function ByteAt(s: Text, i: nat): nat {
    if i < |s| then s[i] else 0
  }

  /** The `k`-th group of four sextets as such a number. */
  function SextetGroup(v: seq<Sextet>, k: nat): nat {
    262_144 * SextetAt(v, 4 * k) + 4_096 * SextetAt(v, 4 * k + 1) + 64 * SextetAt(v, 4 * k + 2) + SextetAt(v, 4 * k + 3)
  }

  function SextetAt(v: seq<Sextet>, i: nat): nat {
    if i < |v| then v[i] else 0
  }

  /** Three bytes become four sextets that spell the same number. */
  lemma {:induction false} SextetsRegroup(s: Text, k: nat)
    ensures |Sextets(s)| == (8 * |s| + 5) / 6
    ensures SextetGroup(Sextets(s), k) == ByteGroup(s, k)
  {
    if |s| >= 3 {
      SextetsRegroup(s[3..], if k > 0 then k - 1 else 0);
      if k > 0 {
        LaterGroup(Sextets(s), Sextets(s[3..]), s, k);
      }
    }
  }

  lemma LaterGroup(v: seq<Sextet>, rest: seq<Sextet>, s: Text, k: nat)
    requires |s| >= 3 && |v| >= 4 && v[4..] == rest && k > 0
    ensures SextetGroup(v, k) == SextetGroup(rest, k - 1) && ByteGroup(s, k) == ByteGroup(s[3..], k - 1)
  {
    assert forall i: nat :: i >= 4 ==> SextetAt(v, i) == SextetAt(rest, i - 4);
    assert forall i: nat :: i >= 3 ==> ByteAt(s, i) == ByteAt(s[3..], i - 3);
  }

  lemma {:induction false} SymbolsAt(v: seq<Sextet>, k: nat)
    ensures |Symbols(v)| == |v|
    ensures k < |v| ==> Symbols(v)[k] == Symbol(v[k])
  {
    if v != [] {
      SymbolsAt(v[1..], if k > 0 then k - 1 else 0);
    }
  }

  /** Encoding as the standard defines it: as many symbols as six-bit groups begun, each standing
      for a sextet, and every four of them together for the 24 bits of three bytes; bits past
      the end of the text are zero. */
  lemma EncodeIsBase64(s: Text) returns (v: seq<Sextet>)
    ensures |Encode(s)| == |v| == (8 * |s| + 5) / 6
    ensures forall i :: 0 <= i < |v| ==> StandsFor(Encode(s)[i], v[i])
    ensures forall k: nat :: SextetGroup(v, k) == ByteGroup(s, k)
  {
    v := Sextets(s);
    forall k: nat
      ensures |v| == (8 * |s| + 5) / 6 && SextetGroup(v, k) == ByteGroup(s, k)
    {
      SextetsRegroup(s, k);
    }
    SextetsRegroup(s, 0);
    SymbolsAt(v, 0);
    forall i | 0 <= i < |v|
      ensures StandsFor(Encode(s)[i], v[i])
    {
      SymbolsAt(v, i);
    }
  }

  lemma {:induction false} ValuesExactlyWhen(s: Text)
    ensures Values(s).Some? <==> Clean(s)
    ensures Values(s).Some? ==> |Values(s).value| == |s|
  {
    if s != [] {
      ValuesExactlyWhen(s[1..]);
      assert s == [s[0]] + s[1..];
      assert Clean(s) <==> UrlSafe(s[0]) && Clean(s[1..]);
    }
  }

  lemma {:induction false} BytesExactlyWhen(v: seq<Sextet>)
    ensures Bytes(v).Some? <==> |v| % 4 != 1
  {
    if |v| >= 4 {
      BytesExactlyWhen(v[4..]);
    }
  }

  lemma {:induction false} NewlinesGo(s: Text)
    ensures forall c :: c in WithoutNewlines(s) <==> c in s && c != 0x0a && c != 0x0d
  {
    if s != [] {
      NewlinesGo(s[1..]);
      assert s == [s[0]] + s[1..];
    }
  }

  /** What can be decoded: texts of URL-safe symbols and line breaks, whose symbols do not leave
      a lone one over. */
  lemma DecodableExactlyWhen(s: Text)
    ensures Decode(s).Some? <==>
      (forall c :: c in s ==> UrlSafe(c) || c == 0x0a || c == 0x0d) && |WithoutNewlines(s)| % 4 != 1
  {
    var t := WithoutNewlines(s);
    NewlinesGo(s);
    ValuesExactlyWhen(t);
    if Clean(t) {
      BytesExactlyWhen(Values(t).value);
      assert forall c :: c in s ==> c in t || c == 0x0a || c == 0x0d;
    } else {
      var c :| c in t && !UrlSafe(c);
      assert c in s;
    }
  }

  // ----- Fields -----

  function Join(parts: seq<Text>): Text {
    if parts == [] then []
    else if |parts| == 1 then parts[0]
    else parts[0] + [BAR] + Join(parts[1..])
  }

  function Split(s: Text): (parts: seq<Text>)
    ensures parts != []
  {
    if s == [] then [[]]
    else
      var rest := Split(s[1..]);
      if s[0] == BAR then [[]] + rest else [[s[0]] + rest[0]] + rest[1..]
  }

  predicate IsField(s: Text) {
    BAR !in s
  }

  lemma {:induction false} SplitField(f: Text, rest: Text)
    requires IsField(f)
    ensures Split(f) == [f]
    ensures Split(f + [BAR] + rest) == [f] + Split(rest)
  {
    if f == [] {
      assert f + [BAR] + rest == [BAR] + rest;
    } else {
      SplitField(f[1..], rest);
      assert (f + [BAR] + rest)[1..] == f[1..] + [BAR] + rest;
      assert f == [f[0]] + f[1..];
    }
  }

  lemma {:induction false} SplitUndoesJoin(parts: seq<Text>)
    requires parts != [] && forall k :: 0 <= k < |parts| ==> IsField(parts[k])
    ensures Split(Join(parts)) == parts
  {
    if |parts| == 1 {
      SplitField(parts[0], []);
    } else {
      SplitUndoesJoin(parts[1..]);
      SplitField(parts[0], Join(parts[1..]));
    }
  }

  lemma {:induction false} JoinUndoesSplit(s: Text)
    ensures Join(Split(s)) == s
    ensures forall k :: 0 <= k < |Split(s)| ==> IsField(Split(s)[k])
  {
    if s != [] {
      JoinUndoesSplit(s[1..]);
      assert s == [s[0]] + s[1..];
      if s[0] == BAR {
        JoinFirst([], Split(s[1..]));
      } else {
        JoinLonger(s[0], Split(s[1..]));
      }
    }
  }

  lemma JoinFirst(f: Text, rest: seq<Text>)
    requires rest != []
    ensures Join([f] + rest) == f + [BAR] + Join(rest)
  {
    assert ([f] + rest)[1..] == rest;
  }

  lemma JoinLonger(c: Byte, parts: seq<Text>)
    requires parts != []
    ensures Join([[c] + parts[0]] + parts[1..]) == [c] + Join(parts)
  {
    if |parts| > 1 {
      JoinFirst([c] + parts[0], parts[1..]);
      Regroup([c], parts[0], [BAR], Join(parts[1..]));
    }
  }

  lemma Regroup(a: Text, b: Text, c: Text, d: Text)
    ensures a + b + c + d == a + (b + c + d)
  {
  }

  // ----- The return path -----

  /** What url.Parse makes of a text. */
  datatype Parsed = Malformed | Url(scheme: Text, host: Text)

  predicate Control(c: Byte) {
    c < 0x20 || c == 0x7f
  }

  /** A path on this site: one leading slash, no backslash, no control character, not too
      long, and nothing that parses as an address elsewhere. */
  predicate SamePath(raw: Text, parse: Text -> Parsed) {
    && 0 < |raw| <= MAX_RETURN_PATH
    && raw[0] == SLASH && (|raw| > 1 ==> raw[1] != SLASH)
    && (forall k :: 0 <= k < |raw| ==> raw[k] != BACKSLASH && !Control(raw[k]))
    && parse(raw) == Url([], [])
  }

  function Safe(raw: Text, parse: Text -> Parsed): Text {
    if SamePath(raw, parse) then raw else [SLASH]
  }

  predicate HasPrefix(s: Text, prefix: Text) {
    prefix <= s
  }

  method SafeReturnPath(raw: Text, parse: Text -> Parsed) returns (r: Text)
    ensures r == Safe(raw, parse)
  {
    if raw == [] || |raw| > MAX_RETURN_PATH {
      return [SLASH];
    }
    if !HasPrefix(raw, [SLASH]) || HasPrefix(raw, [SLASH, SLASH]) {
      return [SLASH];
    }
    if BACKSLASH in raw {
      return [SLASH];
    }
    for k := 0 to |raw|
      invariant forall j :: 0 <= j < k ==> !Control(raw[j])
    {
      if Control(raw[k]) {
        return [SLASH];
      }
    }
    var u := parse(raw);
    if u.Malformed? || u.scheme != [] || u.host != [] {
      return [SLASH];
    }
    return raw;
  }

  /** Whatever comes in, what goes out starts with exactly one slash, has no backslash and no
      control character, and is left alone by a second pass. */
  lemma SafeIsSafe(raw: Text, parse: Text -> Parsed)
    ensures var r := Safe(raw, parse);
      && 0 < |r| <= MAX_RETURN_PATH && r[0] == SLASH && (|r| > 1 ==> r[1] != SLASH)
      && BACKSLASH !in r && (forall c :: c in r ==> !Control(c))
      && Safe(r, parse) == r
      && (r == raw || r == [SLASH])
  {
  }

  /** Which paths come back unchanged: "/" itself, and every text of 1 to 512 bytes that starts
      with a slash but not with two, has no backslash, no control character and no delete, and
      parses to neither a scheme nor a host. */
  lemma UnchangedExactlyWhen(raw: Text, parse: Text -> Parsed)
    ensures Safe(raw, parse) == raw <==>
      || raw == [0x2f]
      || (&& 1 <= |raw| <= 512 && raw[0] == 0x2f && !([0x2f, 0x2f] <= raw)
          && (forall c :: c in raw ==> 0x20 <= c && c != 0x5c && c != 0x7f)
          && parse(raw) == Url([], []))
  {
    if forall c :: c in raw ==> 0x20 <= c && c != 0x5c && c != 0x7f {
      assert forall k :: 0 <= k < |raw| ==> raw[k] in raw;
    }
    assert |raw| > 1 ==> (raw[1] == 0x2f && raw[0] == 0x2f <==> [0x2f, 0x2f] <= raw);
  }

  // ----- The cookie -----

  datatype Secrets = Secrets(state: Text, nonce: Text, verifier: Text)

  predicate Valid(hs: Secrets) {
    hs.state != [] && hs.nonce != [] && hs.verifier != []
  }

  /** The cookie that starts a login headed for `next`. */
  function Cookie(hs: Secrets, next: Text, parse: Text -> Parsed): Text {
    Join([hs.state, hs.nonce, hs.verifier, Encode(Safe(next, parse))])
  }

  function ParseCookie(raw: Text, parse: Text -> Parsed): Option<(Secrets, Text)> {
    var parts := Split(raw);
    if |parts| != 4 then None
    else
      var hs := Secrets(parts[0], parts[1], parts[2]);
      if !Valid(hs) then None
      else
        var decoded := Decode(parts[3]);
        Some((hs, Safe(if decoded.Some? then decoded.value else [], parse)))
  }

  /** The cookie in print: four fields with '|' between them, the last one URL-safe. */
  lemma CookieShape(hs: Secrets, next: Text, parse: Text -> Parsed)
    ensures Cookie(hs, next, parse) ==
      hs.state + [0x7c] + (hs.nonce + [0x7c] + (hs.verifier + [0x7c] + Encode(Safe(next, parse))))
  {
    var last := Encode(Safe(next, parse));
    JoinFirst(hs.verifier, [last]);
    JoinFirst(hs.nonce, [hs.verifier, last]);
    JoinFirst(hs.state, [hs.nonce, hs.verifier, last]);
    assert [hs.verifier] + [last] == [hs.verifier, last];
    assert [hs.nonce] + [hs.verifier, last] == [hs.nonce, hs.verifier, last];
    assert [hs.state] + [hs.nonce, hs.verifier, last] == [hs.state, hs.nonce, hs.verifier, last];
  }

  predicate Printable(hs: Secrets) {
    Valid(hs) && IsField(hs.state) && IsField(hs.nonce) && IsField(hs.verifier)
  }

  lemma CookieFields(hs: Secrets, last: Text)
    requires IsField(hs.state) && IsField(hs.nonce) && IsField(hs.verifier) && IsField(last)
    ensures Split(Join([hs.state, hs.nonce, hs.verifier, last])) == [hs.state, hs.nonce, hs.verifier, last]
  {
    SplitUndoesJoin([hs.state, hs.nonce, hs.verifier, last]);
  }

  /** A login gets back its secrets and its sanitised destination, for every destination, and
      exactly when the secrets are non-empty and free of the separator. */
  lemma CookieRoundTrip(hs: Secrets, next: Text, parse: Text -> Parsed)
    ensures ParseCookie(Cookie(hs, next, parse), parse) == Some((hs, Safe(next, parse))) <==> Printable(hs)
  {
    DecodeUndoesEncode(Safe(next, parse));
    SafeIsSafe(next, parse);
    if Printable(hs) {
      CookieFields(hs, Encode(Safe(next, parse)));
    } else {
      JoinUndoesSplit(Cookie(hs, next, parse));
    }
  }

  /** What a browser may send instead: a cookie is accepted exactly when it is three non-empty
      fields and a fourth one, and then yields those three and a safe path: the one that the
      fourth field encodes, sanitised once more, or "/" if it encodes none. */
  lemma AcceptedExactlyWhen(raw: Text, parse: Text -> Parsed)
    ensures ParseCookie(raw, parse).Some? <==>
      exists hs, last :: Printable(hs) && IsField(last) && raw == Join([hs.state, hs.nonce, hs.verifier, last])
    ensures forall hs, last :: Printable(hs) && IsField(last) && raw == Join([hs.state, hs.nonce, hs.verifier, last]) ==>
      ParseCookie(raw, parse) == Some((hs, if Decode(last).Some? then Safe(Decode(last).value, parse) else [0x2f]))
    ensures ParseCookie(raw, parse).Some? ==>
      var (hs, next) := ParseCookie(raw, parse).value;
      && Printable(hs) && next == Safe(next, parse)
      && next[0] == SLASH && (|next| > 1 ==> next[1] != SLASH) && BACKSLASH !in next
  {
    if ParseCookie(raw, parse).Some? {
      JoinUndoesSplit(raw);
      var parts := Split(raw);
      var hs := ParseCookie(raw, parse).value.0;
      assert parts == [hs.state, hs.nonce, hs.verifier, parts[3]];
      var decoded := Decode(parts[3]);
      SafeIsSafe(if decoded.Some? then decoded.value else [], parse);
    }
    forall hs, last | Printable(hs) && IsField(last) && raw == Join([hs.state, hs.nonce, hs.verifier, last])
      ensures ParseCookie(raw, parse) == Some((hs, if Decode(last).Some? then Safe(Decode(last).value, parse) else [0x2f]))
    {
      CookieFields(hs, last);
      assert Safe([], parse) == [0x2f];
    }
  }
}
