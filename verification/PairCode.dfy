/** Pair codes (randomPairCode of internal/devices/pairing.go): each byte of a random buffer
    picks one of 32 symbols by its remainder. */
module PairCode {
  type byte = x: int | 0 <= x < 256

  const CODE_LEN: nat := 10

  const ALPHABET := "ABCDEFGHJKLMNPQRSTUVWXYZ23456789"

  function SymbolOf(b: byte): char { ALPHABET[b % 32] }

  /** The code a buffer is turned into. */
  function Filled(buf: seq<byte>): (code: string)
    ensures |code| == |buf|
  {
    if buf == [] then "" else Filled(buf[..|buf| - 1]) + [SymbolOf(buf[|buf| - 1])]
  }

  lemma {:induction false} FilledAt(buf: seq<byte>, i: nat)
    requires i < |buf|
    ensures Filled(buf)[i] == SymbolOf(buf[i])
  {
    if i < |buf| - 1 {
      FilledAt(buf[..|buf| - 1], i);
    }
  }

  method RandomPairCode(buf: array<byte>) returns (code: string)
    requires buf.Length == CODE_LEN
    ensures code == Filled(buf[..]) && |code| == 10
    ensures forall i :: 0 <= i < 10 ==> code[i] == "ABCDEFGHJKLMNPQRSTUVWXYZ23456789"[buf[i] % 32]
  {
    var out := new char[buf.Length];
    for i := 0 to buf.Length
      invariant forall k :: 0 <= k < i ==> out[k] == SymbolOf(buf[k])
    {
      out[i] := ALPHABET[buf[i] % |ALPHABET|];
    }
    code := out[..];
    forall k | 0 <= k < |code| ensures code[k] == Filled(buf[..])[k] {
      FilledAt(buf[..], k);
    }
  }

  // ---------------------------------------------------------------- the alphabet

  /** The place of a symbol in the alphabet, which leaves out I, O, 0 and 1. */
  function Place(c: char): nat {
    if 'A' <= c <= 'H' then (c - 'A') as nat
    else if 'J' <= c <= 'N' then (c - 'J') as nat + 8
    else if 'P' <= c <= 'Z' then (c - 'P') as nat + 13
    else if '2' <= c <= '9' then (c - '2') as nat + 24
    else 32
  }

  lemma PlaceOfSymbol(k: nat)
    requires k < 32
    ensures |ALPHABET| == 32 && Place(ALPHABET[k]) == k
  {}

  predicate IsSymbol(c: char) { Place(c) < 32 }

  predicate OnlySymbols(code: string) { forall i :: 0 <= i < |code| ==> IsSymbol(code[i]) }

  lemma OnlySymbolsSnoc(code: string)
    requires code != ""
    ensures OnlySymbols(code) <==> OnlySymbols(code[..|code| - 1]) && IsSymbol(code[|code| - 1])
  {
    assert forall i :: 0 <= i < |code| ==> i == |code| - 1 || code[i] == code[..|code| - 1][i];
  }

  // ---------------------------------------------------------------- counting

  function Pow(b: nat, n: nat): nat { if n == 0 then 1 else Pow(b, n - 1) * b }

  function Times<T>(ss: set<seq<T>>, ts: set<T>): set<seq<T>> {
    set s, t | s in ss && t in ts :: s + [t]
  }

  lemma TimesHas<T>(ss: set<seq<T>>, ts: set<T>, x: seq<T>)
    ensures x in Times(ss, ts) <==> x != [] && x[..|x| - 1] in ss && x[|x| - 1] in ts
  {
    if x in Times(ss, ts) {
      var s, t :| s in ss && t in ts && x == s + [t];
      assert x[..|x| - 1] == s;
    }
    if x != [] {
      assert x == x[..|x| - 1] + [x[|x| - 1]];
    }
  }

  lemma SnocParts<T>(s: seq<T>, t: T, x: seq<T>)
    ensures x == s + [t] <==> x != [] && x[..|x| - 1] == s && x[|x| - 1] == t
  {
    if x != [] {
      assert x == x[..|x| - 1] + [x[|x| - 1]];
    }
  }

  lemma TimesOne<T>(ss: set<seq<T>>, s: seq<T>, t: T, x: seq<T>)
    requires s in ss
    ensures x in Times(ss, {t}) <==> x in Times(ss - {s}, {t}) || x == s + [t]
    ensures s + [t] !in Times(ss - {s}, {t})
  {
    hide Times;
    TimesHas(ss, {t}, x);
    TimesHas(ss - {s}, {t}, x);
    TimesHas(ss - {s}, {t}, s + [t]);
    SnocParts(s, t, x);
    SnocParts(s, t, s + [t]);
  }

  lemma {:induction false} CountOne<T>(ss: set<seq<T>>, t: T)
    ensures |Times(ss, {t})| == |ss|
  {
    if ss == {} {
      assert Times(ss, {t}) == {};
    } else {
      hide Times;
      var s :| s in ss;
      CountOne(ss - {s}, t);
      forall x ensures x in Times(ss, {t}) <==> x in Times(ss - {s}, {t}) || x == s + [t] {
        TimesOne(ss, s, t, x);
      }
      TimesOne(ss, s, t, s + [t]);
      assert Times(ss, {t}) == Times(ss - {s}, {t}) + {s + [t]};
    }
  }

  lemma Distribute(a: nat, m: nat)
    ensures a * (m + 1) == a * m + a
  {}

  lemma CardinalOfUnion<T>(whole: set<T>, a: set<T>, b: set<T>)
    requires forall x :: x in whole <==> x in a || x in b
    requires forall x :: x in a ==> x !in b
    ensures |whole| == |a| + |b|
  {
    assert whole == a + b;
    assert a * b == {};
  }

  lemma CountOneMore<T>(ss: set<seq<T>>, fewer: set<T>, t: T)
    requires t !in fewer
    ensures |Times(ss, fewer + {t})| == |Times(ss, fewer)| + |ss|
  {
    hide Times;
    forall x ensures x in Times(ss, fewer + {t}) <==> x in Times(ss, fewer) || x in Times(ss, {t}) {
      TimesHas(ss, fewer + {t}, x);
      TimesHas(ss, fewer, x);
      TimesHas(ss, {t}, x);
    }
    forall x | x in Times(ss, fewer) ensures x !in Times(ss, {t}) {
      TimesHas(ss, fewer, x);
      TimesHas(ss, {t}, x);
    }
    CardinalOfUnion(Times(ss, fewer + {t}), Times(ss, fewer), Times(ss, {t}));
    CountOne(ss, t);
  }

  lemma {:induction false} CountTimes<T>(ss: set<seq<T>>, ts: set<T>)
    ensures |Times(ss, ts)| == |ss| * |ts|
  {
    if ts == {} {
      assert Times(ss, ts) == {};
    } else {
      hide Times;
      var t :| t in ts;
      CountTimes(ss, ts - {t});
      CountOneMore(ss, ts - {t}, t);
      assert ts - {t} + {t} == ts;
      Distribute(|ss|, |ts - {t}|);
    }
  }

  /** The buffers of one length. */
  ghost function Buffers(n: nat): set<seq<byte>> {
    if n == 0 then {[]} else Times(Buffers(n - 1), Bytes())
  }

  ghost function Bytes(): set<byte> { BytesBelow(256) }

  ghost function BytesBelow(n: nat): set<byte>
    requires n <= 256
  {
    if n == 0 then {} else BytesBelow(n - 1) + {n - 1}
  }

  /** The codes of one length. */
  ghost function Codes(n: nat): set<string> {
    if n == 0 then {""} else Times(Codes(n - 1), Symbols())
  }

  ghost function Symbols(): set<char> { FirstSymbols(32) }

  ghost function FirstSymbols(k: nat): set<char>
    requires k <= 32
  {
    if k == 0 then {} else PlaceOfSymbol(k - 1); FirstSymbols(k - 1) + {ALPHABET[k - 1]}
  }

  /** The buffers that are turned into `code`. */
  ghost function Preimages(code: string): set<seq<byte>> {
    set buf | buf in Buffers(|code|) && Filled(buf) == code
  }

  /** The bytes that pick `c`. */
  ghost function Picking(c: char): set<byte>
    requires IsSymbol(c)
  {
    AtPlace(Place(c), 8)
  }

  /** The bytes below 32 m that pick the symbol at place k. */
  ghost function AtPlace(k: nat, m: nat): set<byte>
    requires k < 32 && m <= 8
  {
    if m == 0 then {} else AtPlace(k, m - 1) + {32 * (m - 1) + k}
  }

  lemma {:induction false} CountBytesBelow(n: nat)
    requires n <= 256
    ensures |BytesBelow(n)| == n && forall b: byte :: b in BytesBelow(n) <==> b < n
  {
    if n > 0 {
      CountBytesBelow(n - 1);
    }
  }

  lemma CountBytes()
    ensures |Bytes()| == 256 && forall b: byte :: b in Bytes()
  {
    hide BytesBelow;
    CountBytesBelow(256);
  }

  lemma SymbolOfPlace(k: nat)
    requires k < 32
    ensures forall c :: Place(c) == k ==> c == ALPHABET[k]
  {
    PlaceOfSymbol(k);
  }

  lemma {:induction false} CountFirstSymbols(k: nat)
    requires k <= 32
    ensures |FirstSymbols(k)| == k && forall c :: c in FirstSymbols(k) <==> Place(c) < k
  {
    if k > 0 {
      CountFirstSymbols(k - 1);
      PlaceOfSymbol(k - 1);
      SymbolOfPlace(k - 1);
    }
  }

  lemma CountSymbols()
    ensures |Symbols()| == 32 && forall c :: c in Symbols() <==> IsSymbol(c)
  {
    hide FirstSymbols;
    CountFirstSymbols(32);
  }

  lemma NextAtPlace(k: nat, m: nat, b: byte)
    requires k < 32 && 0 < m <= 8
    ensures b < 32 * m && b % 32 == k <==> b == 32 * (m - 1) + k || (b < 32 * (m - 1) && b % 32 == k)
  {
    assert b == b / 32 * 32 + b % 32;
    if b / 32 < m - 1 {
    } else if b / 32 > m - 1 {
    } else {
      assert b / 32 == m - 1;
    }
  }

  lemma {:induction false} CountAtPlace(k: nat, m: nat)
    requires k < 32 && m <= 8
    ensures |AtPlace(k, m)| == m
    ensures forall b: byte :: b in AtPlace(k, m) <==> b < 32 * m && b % 32 == k
  {
    if m > 0 {
      CountAtPlace(k, m - 1);
      forall b: byte ensures b in AtPlace(k, m) <==> b < 32 * m && b % 32 == k {
        NextAtPlace(k, m, b);
      }
    }
  }

  lemma CountPicking(c: char)
    requires IsSymbol(c)
    ensures |Picking(c)| == 8 && forall b :: b in Picking(c) <==> SymbolOf(b) == c
  {
    hide AtPlace;
    CountAtPlace(Place(c), 8);
    forall b: byte ensures b in Picking(c) <==> SymbolOf(b) == c {
      PlaceOfSymbol(b % 32);
      SymbolOfPlace(Place(c));
    }
  }

  lemma {:induction false} BuffersAreAll(n: nat)
    ensures |Buffers(n)| == Pow(256, n) && forall buf :: buf in Buffers(n) <==> |buf| == n
  {
    hide Times, Bytes;
    if n > 0 {
      BuffersAreAll(n - 1);
      CountBytes();
      CountTimes(Buffers(n - 1), Bytes());
      forall buf: seq<byte> ensures buf in Buffers(n) <==> |buf| == n {
        TimesHas(Buffers(n - 1), Bytes(), buf);
      }
    }
  }

  lemma {:induction false} CodesAreAll(n: nat)
    ensures |Codes(n)| == Pow(32, n)
    ensures forall code :: code in Codes(n) <==> |code| == n && OnlySymbols(code)
  {
    hide Times, Symbols, IsSymbol;
    if n > 0 {
      CodesAreAll(n - 1);
      CountSymbols();
      CountTimes(Codes(n - 1), Symbols());
      forall code: string ensures code in Codes(n) <==> |code| == n && OnlySymbols(code) {
        TimesHas(Codes(n - 1), Symbols(), code);
        if code != "" { OnlySymbolsSnoc(code); }
      }
    }
  }

  lemma PreimageSnoc(code: string, buf: seq<byte>)
    requires code != "" && IsSymbol(code[|code| - 1])
    ensures buf in Preimages(code) <==> buf in Times(Preimages(code[..|code| - 1]), Picking(code[|code| - 1]))
  {
    hide Times, Picking, IsSymbol, SymbolOf, Buffers;
    var n := |code|;
    TimesHas(Preimages(code[..n - 1]), Picking(code[n - 1]), buf);
    BuffersAreAll(n);
    BuffersAreAll(n - 1);
    CountPicking(code[n - 1]);
    if |buf| == n {
      assert Filled(buf) == Filled(buf[..n - 1]) + [SymbolOf(buf[n - 1])];
      assert code == code[..n - 1] + [code[n - 1]];
    }
  }

  lemma PreimagesOf(code: string)
    requires code != "" && IsSymbol(code[|code| - 1])
    ensures |Preimages(code)| == |Preimages(code[..|code| - 1])| * 8
  {
    hide Times, Picking, Preimages, IsSymbol;
    var init, c := code[..|code| - 1], code[|code| - 1];
    forall buf ensures buf in Preimages(code) <==> buf in Times(Preimages(init), Picking(c)) {
      PreimageSnoc(code, buf);
    }
    assert Preimages(code) == Times(Preimages(init), Picking(c));
    CountTimes(Preimages(init), Picking(c));
    CountPicking(c);
  }

  lemma {:induction false} CountPreimages(code: string)
    requires OnlySymbols(code)
    ensures |Preimages(code)| == Pow(8, |code|)
  {
    hide IsSymbol;
    if code == "" {
      assert Preimages(code) == {[]};
    } else {
      hide Preimages;
      OnlySymbolsSnoc(code);
      PreimagesOf(code);
      CountPreimages(code[..|code| - 1]);
    }
  }

  /** Pair codes are exactly uniform: of the 256^n buffers of any length n, exactly 8^n are
      turned into each of the 32^n codes. */
  lemma ExactlyUniform(n: nat, code: string)
    requires code in Codes(n)
    ensures |Preimages(code)| == Pow(8, n)
    ensures |Buffers(n)| == Pow(256, n) && |Codes(n)| == Pow(32, n)
  {
    hide Codes, Buffers, Preimages, Pow;
    BuffersAreAll(n);
    CodesAreAll(n);
    CountPreimages(code);
  }

  /** What is issued is a code, whatever the buffer. */
  lemma IssuedIsCode(buf: seq<byte>)
    ensures Filled(buf) in Codes(|buf|)
  {
    CodesAreAll(|buf|);
    forall i | 0 <= i < |buf| ensures IsSymbol(Filled(buf)[i]) {
      FilledAt(buf, i);
      PlaceOfSymbol(buf[i] % 32);
    }
  }
}
