/** The encoded password hash of internal/auth/password.go: printed as
    $argon2id$v=19$m=..,t=..,p=..$salt$key with both byte strings in unpadded base64
    (sections 3.2 and 4 of RFC 4648), and scanned back. argon2 (RFC 9106) itself is any
    function of the password, salt, costs and key length. */
module PasswordText {
  import opened Wrappers
  import TimeText

  type byte = x: int | 0 <= x < 256

  // ---------------------------------------------------------------- base64

  /** Table 1 of RFC 4648. */
  function Symbol(v: nat): char
    requires v < 64
  {
    if v < 26 then 'A' + v as char
    else if v < 52 then 'a' + (v - 26) as char
    else if v < 62 then '0' + (v - 52) as char
    else if v == 62 then '+'
    else '/'
  }

  function Value(c: char): (v: Option<nat>)
    ensures v.Some? ==> v.value < 64
  {
    if 'A' <= c <= 'Z' then Some((c - 'A') as nat)
    else if 'a' <= c <= 'z' then Some((c - 'a') as nat + 26)
    else if '0' <= c <= '9' then Some((c - '0') as nat + 52)
    else if c == '+' then Some(62)
    else if c == '/' then Some(63)
    else None
  }

  lemma ValueOfSymbol(v: nat)
    requires v < 64
    ensures Value(Symbol(v)) == Some(v)
  {}

  // The four six-bit values of a group of three bytes, and back.
  function V0(b0: byte): nat { b0 / 4 }
  function V1(b0: byte, b1: byte): nat { b0 % 4 * 16 + b1 / 16 }
  function V2(b1: byte, b2: byte): nat { b1 % 16 * 4 + b2 / 64 }
  function V3(b2: byte): nat { b2 % 64 }
  function B0(v0: nat, v1: nat): byte
    requires v0 < 64
  {
    v0 * 4 + v1 / 16 % 4
  }
  function B1(v1: nat, v2: nat): byte { v1 % 16 * 16 + v2 / 4 % 16 }
  function B2(v2: nat, v3: nat): byte { v2 % 4 * 64 + v3 % 64 }

  /** A last group of one or two bytes is filled up with zero bits. */
  function Encode(b: seq<byte>): string {
    GroupValues();
    if |b| == 0 then ""
    else if |b| == 1 then [Symbol(V0(b[0])), Symbol(V1(b[0], 0))]
    else if |b| == 2 then [Symbol(V0(b[0])), Symbol(V1(b[0], b[1])), Symbol(V2(b[1], 0))]
    else [Symbol(V0(b[0])), Symbol(V1(b[0], b[1])), Symbol(V2(b[1], b[2])), Symbol(V3(b[2]))] + Encode(b[3..])
  }

  lemma GroupValues()
    ensures forall b :: V0(b) < 64 && V3(b) < 64
    ensures forall a, b :: V1(a, b) < 64 && V2(a, b) < 64
  {}

  /** Carriage returns and line feeds are skipped wherever they stand. */
  function StripNewlines(s: string): string {
    if s == "" then ""
    else if s[0] == '\r' || s[0] == '\n' then StripNewlines(s[1..])
    else [s[0]] + StripNewlines(s[1..])
  }

  function DecodeString(s: string): Option<seq<byte>> {
    DecodeGroups(StripNewlines(s))
  }

  /** Left-over low bits of a short last group are ignored; a single left-over symbol and
      anything outside the alphabet are errors. */
  function DecodeGroups(s: string): Option<seq<byte>> {
    if |s| == 0 then Some([])
    else if |s| == 1 then None
    else
      var v0, v1 := Value(s[0]), Value(s[1]);
      if v0.None? || v1.None? then None
      else
        var b0 := B0(v0.value, v1.value);
        if |s| == 2 then Some([b0])
        else
          var v2 := Value(s[2]);
          if v2.None? then None
          else
            var b1 := B1(v1.value, v2.value);
            if |s| == 3 then Some([b0, b1])
            else
              var v3 := Value(s[3]);
              if v3.None? then None
              else
                var rest := DecodeGroups(s[4..]);
                if rest.None? then None else Some([b0, b1, B2(v2.value, v3.value)] + rest.value)
  }

  /** The four values of a group carry its three bytes. */
  lemma GroupBits(b0: byte, b1: byte, b2: byte)
    ensures V0(b0) < 64 && B0(V0(b0), V1(b0, b1)) == b0
    ensures B1(V1(b0, b1), V2(b1, b2)) == b1
    ensures B2(V2(b1, b2), V3(b2)) == b2
  {
    assert V1(b0, b1) / 16 == b0 % 4 && V1(b0, b1) % 16 == b1 / 16;
    assert V2(b1, b2) / 4 == b1 % 16 && V2(b1, b2) % 4 == b2 / 64;
  }

  lemma {:induction false} DecodeGroupsEncode(b: seq<byte>)
    ensures DecodeGroups(Encode(b)) == Some(b)
  {
    hide Symbol, Value, V0, V1, V2, V3, B0, B1, B2;
    GroupValues();
    if |b| > 0 {
      var b1, b2 := if |b| > 1 then b[1] else 0, if |b| > 2 then b[2] else 0;
      GroupBits(b[0], b1, b2);
      ValueOfSymbol(V0(b[0]));
      ValueOfSymbol(V1(b[0], b1));
      ValueOfSymbol(V2(b1, b2));
      ValueOfSymbol(V3(b2));
    }
    if |b| == 1 {
      assert b == [b[0]];
    } else if |b| == 2 {
      assert b == [b[0], b[1]];
    } else if |b| >= 3 {
      DecodeGroupsEncode(b[3..]);
      assert Encode(b)[4..] == Encode(b[3..]);
      assert b == [b[0], b[1], b[2]] + b[3..];
    }
  }

  ghost predicate InAlphabet(s: string) { forall i :: 0 <= i < |s| ==> Value(s[i]).Some? }

  lemma {:induction false} EncodeInAlphabet(b: seq<byte>)
    ensures InAlphabet(Encode(b))
  {
    hide Symbol, Value, V0, V1, V2, V3;
    GroupValues();
    forall v: nat | v < 64 ensures Value(Symbol(v)).Some? { ValueOfSymbol(v); }
    if |b| >= 3 {
      EncodeInAlphabet(b[3..]);
    }
  }

  lemma {:induction false} NothingToStrip(s: string)
    requires InAlphabet(s)
    ensures StripNewlines(s) == s
  {
    if s != "" { NothingToStrip(s[1..]); }
  }

  /** Decoding what was encoded gives the bytes back, for every byte string. */
  lemma Base64RoundTrip(b: seq<byte>)
    ensures DecodeString(Encode(b)) == Some(b)
  {
    EncodeInAlphabet(b);
    hide Encode, DecodeGroups, StripNewlines;
    NothingToStrip(Encode(b));
    DecodeGroupsEncode(b);
  }

  /** Table 1 of RFC 4648, as it is printed there. */
  const BASE64 := "ABCDEFGHIJKLMNOPQRSTUVWXYZ" + "abcdefghijklmnopqrstuvwxyz" + "0123456789" + "+/"

  lemma SymbolIs(v: nat)
    requires v < 64
    ensures |BASE64| == 64 && Symbol(v) == BASE64[v]
  {
    if v < 26 {
      assert BASE64[v] == "ABCDEFGHIJKLMNOPQRSTUVWXYZ"[v];
    } else if v < 52 {
      assert BASE64[v] == "abcdefghijklmnopqrstuvwxyz"[v - 26];
    } else if v < 62 {
      assert BASE64[v] == "0123456789"[v - 52];
    }
  }

  /** Base64 as section 4 of RFC 4648 has it: each three bytes are one 24-bit number whose
      four six-bit digits pick the symbols; one or two bytes at the end are filled up with
      zero bits and print the two or three symbols they reach. */
  lemma EncodeIsBase64(a: byte, b: byte, c: byte, rest: seq<byte>)
    ensures |BASE64| == 64
    ensures var n := (a * 256 + b) * 256 + c;
            Encode([a, b, c] + rest)
            == [BASE64[n / 262144], BASE64[n / 4096 % 64], BASE64[n / 64 % 64], BASE64[n % 64]] + Encode(rest)
    ensures var n := (a * 256 + b) * 4;
            Encode([a, b]) == [BASE64[n / 4096], BASE64[n / 64 % 64], BASE64[n % 64]]
    ensures var n := a * 16; Encode([a]) == [BASE64[n / 64], BASE64[n % 64]]
    ensures Encode([]) == ""
  {
    GroupValues();
    Digits24(a, b, c);
    SymbolIs(V0(a));
    SymbolIs(V1(a, b));
    SymbolIs(V2(b, c));
    SymbolIs(V3(c));
    SymbolIs(V1(a, 0));
    SymbolIs(V2(b, 0));
    hide Symbol, V0, V1, V2, V3;
    assert ([a, b, c] + rest)[3..] == rest;
  }

  lemma Digits24(a: byte, b: byte, c: byte)
    ensures var n := (a * 256 + b) * 256 + c;
            n / 262144 == V0(a) && n / 4096 % 64 == V1(a, b) && n / 64 % 64 == V2(b, c) && n % 64 == V3(c)
    ensures var n := (a * 256 + b) * 4; n / 4096 == V0(a) && n / 64 % 64 == V1(a, b) && n % 64 == V2(b, 0)
    ensures var n := a * 16; n / 64 == V0(a) && n % 64 == V1(a, 0)
  {
    FourDigits(a / 4, a % 4, b / 16, b % 16, c / 64, c % 64);
    ThreeDigits(a / 4, a % 4, b / 16, b % 16);
    assert b == b / 16 * 16 + b % 16 && c == c / 64 * 64 + c % 64 && a == a / 4 * 4 + a % 4;
  }

  lemma FourDigits(a1: nat, a0: nat, b1: nat, b0: nat, c1: nat, c0: nat)
    requires a1 < 64 && a0 < 4 && b1 < 16 && b0 < 16 && c1 < 4 && c0 < 64
    ensures var n := ((a1 * 4 + a0) * 256 + (b1 * 16 + b0)) * 256 + (c1 * 64 + c0);
            && n / 262144 == a1 && n / 4096 % 64 == a0 * 16 + b1 && n / 64 % 64 == b0 * 4 + c1 && n % 64 == c0
  {
    var n := ((a1 * 4 + a0) * 256 + (b1 * 16 + b0)) * 256 + (c1 * 64 + c0);
    assert n == (((a1 * 64 + (a0 * 16 + b1)) * 64) + (b0 * 4 + c1)) * 64 + c0;
    assert n / 64 == (a1 * 64 + (a0 * 16 + b1)) * 64 + (b0 * 4 + c1);
    assert n / 4096 == a1 * 64 + (a0 * 16 + b1);
  }

  lemma ThreeDigits(a1: nat, a0: nat, b1: nat, b0: nat)
    requires a1 < 64 && a0 < 4 && b1 < 16 && b0 < 16
    ensures var n := ((a1 * 4 + a0) * 256 + (b1 * 16 + b0)) * 4;
            && n / 4096 == a1 && n / 64 % 64 == a0 * 16 + b1 && n % 64 == b0 * 4
  {
    var n := ((a1 * 4 + a0) * 256 + (b1 * 16 + b0)) * 4;
    assert n == (a1 * 64 + (a0 * 16 + b1)) * 64 + b0 * 4;
    assert n / 64 == a1 * 64 + (a0 * 16 + b1);
  }

  // ---------------------------------------------------------------- strings.Split

  function Split(s: string, sep: char): (parts: seq<string>)
    ensures |parts| > 0
  {
    if s == "" then [""]
    else if s[0] == sep then [""] + Split(s[1..], sep)
    else
      var rest := Split(s[1..], sep);
      [[s[0]] + rest[0]] + rest[1..]
  }

  lemma {:induction false} SplitOne(a: string, sep: char)
    requires sep !in a
    ensures Split(a, sep) == [a]
  {
    if a != "" {
      SplitOne(a[1..], sep);
      assert a == [a[0]] + a[1..];
      assert [a] + [a[1..]][1..] == [a];
    }
  }

  lemma {:induction false} SplitCons(a: string, rest: string, sep: char)
    requires sep !in a
    ensures Split(a + [sep] + rest, sep) == [a] + Split(rest, sep)
  {
    if a == "" {
      assert a + [sep] + rest == [sep] + rest;
    } else {
      SplitCons(a[1..], rest, sep);
      assert (a + [sep] + rest)[1..] == a[1..] + [sep] + rest;
      assert a == [a[0]] + a[1..];
      assert ([a[1..]] + Split(rest, sep))[1..] == Split(rest, sep);
    }
  }

  // ---------------------------------------------------------------- %d, printed and scanned

  function Decimal(n: nat): string {
    if n < 10 then [TimeText.DigitChar(n)] else Decimal(n / 10) + [TimeText.DigitChar(n % 10)]
  }

  /** The digits a scan of %d takes from the front. */
  function LeadingDigits(s: string): string {
    if s == "" || !TimeText.IsDigit(s[0]) then "" else [s[0]] + LeadingDigits(s[1..])
  }

  lemma {:induction false} LeadingDigitsAreDigits(s: string)
    ensures TimeText.AllDigits(LeadingDigits(s)) && LeadingDigits(s) <= s
  {
    if s != "" && TimeText.IsDigit(s[0]) { LeadingDigitsAreDigits(s[1..]); }
  }

  /** A non-negative number below the limit at the front of the input, and what is left.
      White space before the number is not part of the model. */
  function ScanNumber(s: string, limit: nat): Option<(nat, string)> {
    LeadingDigitsAreDigits(s);
    var digits := LeadingDigits(s);
    if digits == "" || TimeText.NumberOf(digits) >= limit then None
    else Some((TimeText.NumberOf(digits), s[|digits|..]))
  }

  function ScanLiteral(s: string, lit: string): Option<string> {
    if lit <= s then Some(s[|lit|..]) else None
  }

  lemma {:induction false} DecimalDigits(n: nat)
    ensures TimeText.AllDigits(Decimal(n)) && Decimal(n) != "" && TimeText.NumberOf(Decimal(n)) == n
  {
    if n < 10 {
      assert Decimal(n)[..0] == "";
    } else {
      DecimalDigits(n / 10);
      assert Decimal(n)[..|Decimal(n)| - 1] == Decimal(n / 10);
    }
  }

  lemma {:induction false} LeadingDigitsOf(d: string, rest: string)
    requires TimeText.AllDigits(d) && (rest == "" || !TimeText.IsDigit(rest[0]))
    ensures LeadingDigits(d + rest) == d
  {
    if d == "" {
      assert d + rest == rest;
    } else {
      assert (d + rest)[1..] == d[1..] + rest;
      LeadingDigitsOf(d[1..], rest);
    }
  }

  lemma ScanDecimal(n: nat, rest: string, limit: nat)
    requires n < limit && (rest == "" || !TimeText.IsDigit(rest[0]))
    ensures ScanNumber(Decimal(n) + rest, limit) == Some((n, rest))
  {
    DecimalDigits(n);
    LeadingDigitsOf(Decimal(n), rest);
    assert (Decimal(n) + rest)[|Decimal(n)|..] == rest;
  }

  lemma ScanOwnLiteral(lit: string, rest: string)
    ensures ScanLiteral(lit + rest, lit) == Some(rest)
  {
    assert (lit + rest)[|lit|..] == rest;
  }

  // ---------------------------------------------------------------- the encoded hash

  const VERSION: nat := 19
  const MEMORY: nat := 64 * 1024
  const ITERATIONS: nat := 3
  const PARALLELISM: nat := 4
  const KEY_LEN: nat := 32
  const U32: nat := 0x1_0000_0000
  const U8: nat := 256
  const INT_LIMIT: nat := 0x8000_0000_0000_0000

  datatype Encoded = Encoded(memory: nat, iterations: nat, parallelism: nat, salt: seq<byte>, key: seq<byte>)

  datatype Error = EmptyPassword | NotArgon2id | BadVersion | BadParams | BadSalt | BadHash | Panics

  function VersionField(v: nat): string { "v=" + Decimal(v) }

  function ParamsField(e: Encoded): string {
    "m=" + (Decimal(e.memory) + (",t=" + (Decimal(e.iterations) + (",p=" + Decimal(e.parallelism)))))
  }

  function Print(e: Encoded): string {
    "" + "$" + ("argon2id" + "$" + (VersionField(VERSION) + "$" + (ParamsField(e) + "$" +
    (Encode(e.salt) + "$" + Encode(e.key)))))
  }

  /** The version is kept in a signed word, so its scan also takes a sign. */
  function ScanVersion(s: string): Option<int> {
    var rest := ScanLiteral(s, "v=");
    if rest.None? then None
    else
      var signed := rest.value != "" && (rest.value[0] == '+' || rest.value[0] == '-');
      var v := ScanNumber(if signed then rest.value[1..] else rest.value, INT_LIMIT);
      if v.None? then None
      else
        var n: int := v.value.0;
        Some(if signed && rest.value[0] == '-' then -n else n)
  }

  function ScanParams(s: string): Option<(nat, nat, nat)> {
    var r0 := ScanLiteral(s, "m=");
    if r0.None? then None else
    var m := ScanNumber(r0.value, U32);
    if m.None? then None else
    var r1 := ScanLiteral(m.value.1, ",t=");
    if r1.None? then None else
    var t := ScanNumber(r1.value, U32);
    if t.None? then None else
    var r2 := ScanLiteral(t.value.1, ",p=");
    if r2.None? then None else
    var p := ScanNumber(r2.value, U8);
    if p.None? then None else Some((m.value.0, t.value.0, p.value.0))
  }

  function Scan(s: string): Result<Encoded, Error> {
    var parts := Split(s, '$');
    if |parts| != 6 || parts[1] != "argon2id" then Err(NotArgon2id)
    else
      var version := ScanVersion(parts[2]);
      if version != Some(VERSION) then Err(BadVersion)
      else
        var params := ScanParams(parts[3]);
        if params.None? then Err(BadParams)
        else
          var salt := DecodeString(parts[4]);
          if salt.None? then Err(BadSalt)
          else
            var key := DecodeString(parts[5]);
            if key.None? then Err(BadHash)
            else Ok(Encoded(params.value.0, params.value.1, params.value.2, salt.value, key.value))
  }

  /** Costs that fit the machine words they are kept in. */
  predicate Fits(e: Encoded) { e.memory < U32 && e.iterations < U32 && e.parallelism < U8 }

  lemma ScanVersionOfPrinted(v: nat)
    requires v < INT_LIMIT
    ensures ScanVersion(VersionField(v)) == Some(v)
  {
    ScanOwnLiteral("v=", Decimal(v));
    assert Decimal(v) + "" == Decimal(v);
    DecimalDigits(v);
    hide Decimal, ScanNumber, ScanLiteral;
    ScanDecimal(v, "", INT_LIMIT);
  }

  lemma ScanParamsOfPrinted(e: Encoded)
    requires Fits(e)
    ensures ScanParams(ParamsField(e)) == Some((e.memory, e.iterations, e.parallelism))
  {
    hide Decimal, ScanNumber, ScanLiteral;
    var p := Decimal(e.parallelism);
    var t := Decimal(e.iterations) + (",p=" + p);
    ScanOwnLiteral("m=", Decimal(e.memory) + (",t=" + t));
    ScanDecimal(e.memory, ",t=" + t, U32);
    ScanOwnLiteral(",t=", t);
    ScanDecimal(e.iterations, ",p=" + p, U32);
    ScanOwnLiteral(",p=", p);
    assert p + "" == p;
    ScanDecimal(e.parallelism, "", U8);
  }

  lemma NoDollar(e: Encoded)
    ensures '$' !in VersionField(VERSION) && '$' !in ParamsField(e) && '$' !in Encode(e.salt) && '$' !in Encode(e.key)
  {
    DigitsNoDollar(VERSION);
    DigitsNoDollar(e.memory);
    DigitsNoDollar(e.iterations);
    DigitsNoDollar(e.parallelism);
    EncodeNoDollar(e.salt);
    EncodeNoDollar(e.key);
    hide Decimal, Encode;
  }

  lemma DigitsNoDollar(n: nat)
    ensures '$' !in Decimal(n)
  {
    DecimalDigits(n);
    hide Decimal;
  }

  lemma EncodeNoDollar(b: seq<byte>)
    ensures '$' !in Encode(b)
  {
    EncodeInAlphabet(b);
    hide Encode;
  }

  /** The printed text splits into exactly six fields at its dollar signs. */
  lemma SixFields(e: Encoded)
    ensures Split(Print(e), '$')
         == ["", "argon2id", VersionField(VERSION), ParamsField(e), Encode(e.salt), Encode(e.key)]
  {
    NoDollar(e);
    hide VersionField, ParamsField, Encode, Split;
    var f5 := Encode(e.key);
    var f4 := Encode(e.salt) + "$" + f5;
    var f3 := ParamsField(e) + "$" + f4;
    var f2 := VersionField(VERSION) + "$" + f3;
    var f1 := "argon2id" + "$" + f2;
    SplitOne(f5, '$');
    SplitCons(Encode(e.salt), f5, '$');
    SplitCons(ParamsField(e), f4, '$');
    SplitCons(VersionField(VERSION), f3, '$');
    SplitCons("argon2id", f2, '$');
    SplitCons("", f1, '$');
  }

  /** Scanning what was printed gives back the costs, the salt and the key, for every
      salt and key and all costs that fit their words. */
  lemma HashTextRoundTrip(e: Encoded)
    requires Fits(e)
    ensures Scan(Print(e)) == Ok(e)
  {
    hide Print, Split, ScanVersion, ScanParams, DecodeString, VersionField, ParamsField, Encode;
    SixFields(e);
    ScanVersionOfPrinted(VERSION);
    ScanParamsOfPrinted(e);
    Base64RoundTrip(e.salt);
    Base64RoundTrip(e.key);
  }

  /** No two hashes print alike. */
  lemma PrintInjective(e: Encoded, d: Encoded)
    requires Fits(e) && Fits(d) && Print(e) == Print(d)
    ensures e == d
  {
    HashTextRoundTrip(e);
    HashTextRoundTrip(d);
  }

  // ---------------------------------------------------------------- hashing and verifying

  /** argon2.IDKey: password, salt, iterations, memory, lanes, key length. */
  type Argon = (seq<byte>, seq<byte>, nat, nat, nat, nat) -> seq<byte>

  function HashPassword(argon: Argon, pw: seq<byte>, salt: seq<byte>): Result<string, Error> {
    if pw == [] then Err(EmptyPassword)
    else Ok(Print(Encoded(MEMORY, ITERATIONS, PARALLELISM, salt,
                          argon(pw, salt, ITERATIONS, MEMORY, PARALLELISM, KEY_LEN))))
  }

  const ACCEPTED: Result<bool, Error> := Ok(true)

  /** argon2 panics when it is asked for no rounds or no lanes. */
  function VerifyPassword(argon: Argon, pw: seq<byte>, encoded: string): Result<bool, Error> {
    var e := Scan(encoded);
    if e.Err? then Err(e.error)
    else if e.value.iterations < 1 || e.value.parallelism < 1 then Err(Panics)
    else
      var got := argon(pw, e.value.salt, e.value.iterations, e.value.memory, e.value.parallelism, |e.value.key| % U32);
      Ok(got == e.value.key)
  }

  lemma PrintIs(e: Encoded)
    ensures Print(e)
         == "$argon2id$" + VersionField(VERSION) + "$" + ParamsField(e) + "$" + Encode(e.salt) + "$" + Encode(e.key)
  {
    hide VersionField, ParamsField, Encode;
  }

  /** The text a new hash is stored as, with the costs of the code. */
  lemma StoredHash(argon: Argon, pw: seq<byte>, salt: seq<byte>)
    requires pw != []
    ensures HashPassword(argon, pw, salt)
         == Ok("$argon2id$v=19$m=65536,t=3,p=4$" + Encode(salt) + "$" + Encode(argon(pw, salt, 3, 65536, 4, 32)))
  {
    hide Encode, Decimal, Print;
    PrintedCosts();
    var e := Encoded(65536, 3, 4, salt, argon(pw, salt, 3, 65536, 4, 32));
    PrintIs(e);
    assert VersionField(VERSION) == "v=19" && ParamsField(e) == "m=65536,t=3,p=4";
    hide VersionField, ParamsField;
    assert "$argon2id$" + "v=19" + "$" + "m=65536,t=3,p=4" + "$" == "$argon2id$v=19$m=65536,t=3,p=4$";
  }

  lemma PrintedCosts()
    ensures Decimal(65536) == "65536" && Decimal(3) == "3" && Decimal(4) == "4" && Decimal(19) == "19"
  {
    assert Decimal(65) == Decimal(6) + "5";
    assert Decimal(655) == Decimal(65) + "5";
    assert Decimal(6553) == Decimal(655) + "3";
  }

  /** A stored text is verified under its own costs, salt and key length, whatever they are:
      a hash stored with older costs keeps verifying. */
  lemma VerifiedByItsOwnCosts(argon: Argon, tried: seq<byte>, e: Encoded)
    requires Fits(e) && e.iterations > 0 && e.parallelism > 0 && |e.key| < U32
    ensures VerifyPassword(argon, tried, Print(e))
         == Ok(argon(tried, e.salt, e.iterations, e.memory, e.parallelism, |e.key|) == e.key)
  {
    hide Print, Scan;
    HashTextRoundTrip(e);
  }

  /** A password verifies against a hash exactly if argon2 maps both passwords to the same
      key under the hash's salt; so every password verifies against its own hash. */
  lemma VerifyAcceptsExactly(argon: Argon, pw: seq<byte>, salt: seq<byte>, tried: seq<byte>)
    requires pw != []
    requires |argon(pw, salt, ITERATIONS, MEMORY, PARALLELISM, KEY_LEN)| == KEY_LEN
    ensures HashPassword(argon, pw, salt).Ok?
    ensures VerifyPassword(argon, tried, HashPassword(argon, pw, salt).value)
         == Ok(argon(tried, salt, ITERATIONS, MEMORY, PARALLELISM, KEY_LEN)
               == argon(pw, salt, ITERATIONS, MEMORY, PARALLELISM, KEY_LEN))
    ensures VerifyPassword(argon, pw, HashPassword(argon, pw, salt).value) == Ok(true)
  {
    hide Print, Scan;
    HashTextRoundTrip(Encoded(MEMORY, ITERATIONS, PARALLELISM, salt,
                              argon(pw, salt, ITERATIONS, MEMORY, PARALLELISM, KEY_LEN)));
  }
}
