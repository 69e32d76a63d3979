/** Account slugs (slugify of internal/auth/service.go). A name is taken after
    strings.ToLower, as its sequence of characters. */
module Slug {
  predicate Kept(c: char) { 'a' <= c <= 'z' || '0' <= c <= '9' }

  predicate Separator(c: char) { c == ' ' || c == '-' || c == '_' }

  // ---------------------------------------------------------------- the code

  /** What the loop still writes for `name` when it last wrote `prev`. */
  function Written(name: string, prev: char): string {
    if name == "" then ""
    else if Kept(name[0]) then [name[0]] + Written(name[1..], name[0])
    else if Separator(name[0]) && prev != '-' then "-" + Written(name[1..], '-')
    else Written(name[1..], prev)
  }

  function TrimLeft(s: string): string {
    if s != "" && s[0] == '-' then TrimLeft(s[1..]) else s
  }

  function TrimRight(s: string): string {
    if s != "" && s[|s| - 1] == '-' then TrimRight(s[..|s| - 1]) else s
  }

  function Trim(s: string): string { TrimRight(TrimLeft(s)) }

  function Base(name: string): string { Trim(Written(name, '-')) }

  /** The part of the slug before the id suffix. */
  function Stem(name: string, id: string): string {
    if Base(name) == "" && |id| >= 8 then "acct-" + id[..8] else Base(name)
  }

  function SlugOf(name: string, id: string): string {
    if |id| >= 6 then Stem(name, id) + "-" + id[..6] else Stem(name, id)
  }

  method Slugify(name: string, id: string) returns (slug: string)
    ensures slug == SlugOf(name, id)
  {
    var b, prev := "", '-';
    for i := 0 to |name|
      invariant b + Written(name[i..], prev) == Written(name, '-')
    {
      var c := name[i];
      assert name[i..][0] == c && name[i..][1..] == name[i + 1..];
      ghost var was := b;
      if Kept(c) {
        b, prev := b + [c], c;
        assert b + Written(name[i + 1..], c) == was + ([c] + Written(name[i + 1..], c));
      } else if Separator(c) {
        if prev != '-' {
          b, prev := b + "-", '-';
          assert b + Written(name[i + 1..], '-') == was + ("-" + Written(name[i + 1..], '-'));
        }
      }
    }
    assert b == Written(name, '-') by {
      assert name[|name|..] == "";
      assert b + "" == b;
    }
    slug := Trim(b);
    if slug == "" && |id| >= 8 {
      slug := "acct-" + id[..8];
    }
    if |id| >= 6 {
      slug := slug + "-" + id[..6];
    }
  }

  // ---------------------------------------------------------------- what it means

  /** The name cut at its separators, each piece without the characters that are dropped. */
  function Pieces(name: string): (ps: seq<string>)
    ensures ps != []
  {
    if name == "" then [""]
    else
      var rest := Pieces(name[1..]);
      if Kept(name[0]) then [[name[0]] + rest[0]] + rest[1..]
      else if Separator(name[0]) then [""] + rest
      else rest
  }

  function NonEmpty(ps: seq<string>): seq<string> {
    if ps == [] then [] else if ps[0] == "" then NonEmpty(ps[1..]) else [ps[0]] + NonEmpty(ps[1..])
  }

  function Join(ws: seq<string>): string {
    if ws == [] then "" else if |ws| == 1 then ws[0] else ws[0] + "-" + Join(ws[1..])
  }

  predicate Word(w: string) { w != "" && forall i :: 0 <= i < |w| ==> Kept(w[i]) }

  predicate AllWords(ws: seq<string>) { forall i :: 0 <= i < |ws| ==> Word(ws[i]) }

  /** s matches [a-z0-9]+(-[a-z0-9]+)*. */
  ghost predicate Canonical(s: string) { exists ws: seq<string> :: ws != [] && AllWords(ws) && s == Join(ws) }

  /** The words after the piece being read, each with its hyphen. */
  function Following(ps: seq<string>): string {
    if NonEmpty(ps) == [] then "" else "-" + Join(NonEmpty(ps))
  }

  lemma {:induction false} TrimRightConcat(a: string, b: string)
    ensures TrimRight(a + b) == if TrimRight(b) == "" then TrimRight(a) else a + TrimRight(b)
  {
    if b == "" {
      assert a + b == a;
    } else if b[|b| - 1] == '-' {
      assert (a + b)[..|a + b| - 1] == a + b[..|b| - 1];
      TrimRightConcat(a, b[..|b| - 1]);
    }
  }

  lemma {:induction false} NonEmptyJoin(ps: seq<string>)
    ensures Join(NonEmpty(ps)) == "" <==> NonEmpty(ps) == []
    ensures forall i :: 0 <= i < |NonEmpty(ps)| ==> NonEmpty(ps)[i] != ""
  {
    if ps != [] {
      NonEmptyJoin(ps[1..]);
    }
  }

  lemma JoinCons(w: string, ps: seq<string>)
    ensures Join([w] + NonEmpty(ps)) == w + Following(ps)
  {
    assert ([w] + NonEmpty(ps))[1..] == NonEmpty(ps);
    if NonEmpty(ps) == [] {
      assert [w] + NonEmpty(ps) == [w];
    }
  }

  /** After a kept character the loop finishes the word and writes the following ones. */
  lemma {:induction false} WrittenInWord(name: string, x: string, prev: char)
    requires x != "" && x[|x| - 1] != '-' && prev != '-'
    ensures TrimRight(x + Written(name, prev)) == x + Pieces(name)[0] + Following(Pieces(name)[1..])
    decreases |name|
  {
    TrimmedAway();
    TrimRightWord(x);
    assert Following([]) == "";
    hide TrimRight, Join, NonEmpty, Following;
    var ps := Pieces(name);
    if name == "" {
      assert x + "" == x;
    } else {
      var rest := Pieces(name[1..]);
      if Kept(name[0]) {
        var c := [name[0]];
        Reassociate(x, c, Written(name[1..], name[0]));
        WrittenInWord(name[1..], x + c, name[0]);
        Reassociate(x, c, rest[0]);
        assert ps[1..] == rest[1..];
      } else if Separator(name[0]) {
        assert x + Written(name, prev) == x + ("-" + Written(name[1..], '-'));
        WrittenBetween(name[1..]);
        AfterHyphen(x, Written(name[1..], '-'), rest);
        assert ps[1..] == rest;
      } else {
        WrittenInWord(name[1..], x, prev);
      }
    }
  }

  lemma Reassociate(x: string, y: string, z: string)
    ensures x + (y + z) == x + y + z
  {}

  lemma AfterHyphen(x: string, written: string, rest: seq<string>)
    requires x != "" && x[|x| - 1] != '-' && TrimRight(written) == Join(NonEmpty(rest))
    ensures TrimRight(x + ("-" + written)) == x + Following(rest)
  {
    TrimmedAway();
    TrimRightWord(x);
    hide TrimRight, Join;
    TrimRightConcat(x, "-" + written);
    TrimRightConcat("-", written);
    NonEmptyJoin(rest);
    hide NonEmpty;
  }

  lemma TrimmedAway()
    ensures TrimRight("") == "" && TrimRight("-") == ""
  {}

  lemma TrimRightWord(x: string)
    requires x != "" && x[|x| - 1] != '-'
    ensures TrimRight(x) == x
  {}

  /** Before a word the loop writes the words that follow. */
  lemma {:induction false} WrittenBetween(name: string)
    ensures TrimRight(Written(name, '-')) == Join(NonEmpty(Pieces(name)))
    decreases |name|
  {
    TrimmedAway();
    assert Join([]) == "";
    hide TrimRight, Following, Join;
    if name != "" {
      var rest := Pieces(name[1..]);
      if Kept(name[0]) {
        WrittenInWord(name[1..], [name[0]], name[0]);
        assert Pieces(name)[1..] == rest[1..];
        JoinCons(Pieces(name)[0], rest[1..]);
      } else {
        WrittenBetween(name[1..]);
        if Separator(name[0]) { assert Pieces(name)[1..] == rest; }
      }
    }
  }

  lemma {:induction false} NoLeadingHyphen(name: string)
    ensures TrimLeft(Written(name, '-')) == Written(name, '-')
  {
    if name != "" && !Kept(name[0]) {
      NoLeadingHyphen(name[1..]);
    }
  }

  /** The loop and the trim compute the words of the name joined by single hyphens: the
      name cut at its separators, characters that are neither letters, digits nor
      separators dropped, empty words dropped. */
  lemma BaseIsJoinedWords(name: string)
    ensures Base(name) == Join(NonEmpty(Pieces(name)))
  {
    NoLeadingHyphen(name);
    WrittenBetween(name);
  }

  lemma PiecesFromKept(c: char, s: string)
    requires Kept(c)
    ensures Pieces([c] + s) == [[c] + Pieces(s)[0]] + Pieces(s)[1..]
  {
    assert ([c] + s)[1..] == s;
  }

  lemma {:induction false} PiecesAfterWord(w: string, s: string)
    requires forall i :: 0 <= i < |w| ==> Kept(w[i])
    ensures Pieces(w + s) == [w + Pieces(s)[0]] + Pieces(s)[1..]
  {
    hide Pieces, Kept;
    var p, tail := Pieces(s)[0], Pieces(s)[1..];
    if w == "" {
      assert w + s == s && w + p == p;
    } else {
      PiecesAfterWord(w[1..], s);
      PiecesFromKept(w[0], w[1..] + s);
      assert [w[0]] + (w[1..] + s) == w + s;
      assert ([w[1..] + p] + tail)[1..] == tail;
      assert [w[0]] + (w[1..] + p) == w + p;
    }
  }

  lemma PiecesOfThree(w: string, c: char, v: string)
    requires (forall i :: 0 <= i < |w| ==> Kept(w[i])) && (forall i :: 0 <= i < |v| ==> Kept(v[i]))
    ensures Pieces(w + [c] + v)
         == if Kept(c) then [w + [c] + v] else if Separator(c) then [w, v] else [w + v]
  {
    hide Kept, Separator;
    PiecesAfterWord(v, "");
    assert v + "" == v && Pieces(v) == [v];
    assert ([c] + v)[1..] == v;
    assert w + [c] + v == w + ([c] + v);
    PiecesAfterWord(w, [c] + v);
    assert w + "" == w;
  }

  /** What one character does between two runs of letters and digits: a letter or a digit
      stays, a space, a hyphen or an underscore becomes a hyphen, anything else is dropped. */
  lemma OneCharacter(w: string, c: char, v: string)
    requires w != "" && (forall i :: 0 <= i < |w| ==> 'a' <= w[i] <= 'z' || '0' <= w[i] <= '9')
    requires v != "" && (forall i :: 0 <= i < |v| ==> 'a' <= v[i] <= 'z' || '0' <= v[i] <= '9')
    ensures Base(w + [c] + v)
         == if 'a' <= c <= 'z' || '0' <= c <= '9' then w + [c] + v
            else if c in {' ', '-', '_'} then w + "-" + v
            else w + v
  {
    hide Base, Join, NonEmpty, Pieces;
    BaseIsJoinedWords(w + [c] + v);
    PiecesOfThree(w, c, v);
    OneWord(w + [c] + v);
    OneWord(w + v);
    TwoWords(w, v);
  }

  lemma OneWord(w: string)
    requires w != ""
    ensures Join(NonEmpty([w])) == w
  {
    assert [w][1..] == [] && NonEmpty([]) == [];
  }

  lemma TwoWords(w: string, v: string)
    requires w != "" && v != ""
    ensures Join(NonEmpty([w, v])) == w + "-" + v
  {
    assert [w, v][1..] == [v] && [v][1..] == [] && NonEmpty([]) == [];
    assert NonEmpty([w, v]) == [w, v];
  }

  lemma {:induction false} PiecesAreKept(name: string)
    ensures forall i, j :: 0 <= i < |Pieces(name)| && 0 <= j < |Pieces(name)[i]| ==> Kept(Pieces(name)[i][j])
  {
    if name != "" {
      PiecesAreKept(name[1..]);
    }
  }

  lemma {:induction false} NonEmptyWords(ps: seq<string>)
    requires forall i, j :: 0 <= i < |ps| && 0 <= j < |ps[i]| ==> Kept(ps[i][j])
    ensures AllWords(NonEmpty(ps))
  {
    if ps != [] {
      forall i, j | 0 <= i < |ps[1..]| && 0 <= j < |ps[1..][i]| ensures Kept(ps[1..][i][j]) {
        assert ps[1..][i] == ps[i + 1];
      }
      NonEmptyWords(ps[1..]);
    }
  }

  /** A base is empty or canonical. */
  lemma BaseCanonical(name: string)
    ensures Base(name) == "" || Canonical(Base(name))
  {
    BaseIsJoinedWords(name);
    PiecesAreKept(name);
    NonEmptyWords(Pieces(name));
    NonEmptyJoin(Pieces(name));
  }

  // ---------------------------------------------------------------- fixed points

  lemma {:induction false} PiecesOfWord(w: string, s: string)
    requires forall i :: 0 <= i < |w| ==> Kept(w[i])
    ensures Pieces(w) == [w] && Pieces(w + "-" + s) == [w] + Pieces(s)
  {
    if w == "" {
      assert w + "-" + s == "-" + s;
      assert Pieces("-" + s) == [""] + Pieces(s) by { assert ("-" + s)[1..] == s; }
    } else {
      PiecesOfWord(w[1..], s);
      assert (w + "-" + s)[1..] == w[1..] + "-" + s;
      assert w == [w[0]] + w[1..];
      assert [w[1..]][1..] == [] && ([w[1..]] + Pieces(s))[1..] == Pieces(s);
    }
  }

  lemma {:induction false} PiecesOfJoin(ws: seq<string>)
    requires ws != [] && AllWords(ws)
    ensures Pieces(Join(ws)) == ws && NonEmpty(ws) == ws
  {
    assert Word(ws[0]) && ws == [ws[0]] + ws[1..];
    if |ws| == 1 {
      PiecesOfWord(ws[0], "");
      assert NonEmpty(ws[1..]) == [];
    } else {
      PiecesOfJoin(ws[1..]);
      PiecesOfWord(ws[0], Join(ws[1..]));
    }
  }

  /** The fixed points of the normalisation are exactly the empty text and the canonical
      ones; so normalising twice is normalising once. */
  lemma FixedPoints(name: string)
    ensures Base(name) == name <==> name == "" || Canonical(name)
    ensures Base(Base(name)) == Base(name)
  {
    CanonicalIsFixed(name);
    CanonicalIsFixed(Base(name));
    BaseCanonical(name);
  }

  lemma CanonicalIsFixed(s: string)
    ensures s == "" || Canonical(s) ==> Base(s) == s
  {
    BaseIsJoinedWords(s);
    if s == "" {
      assert NonEmpty([""]) == [];
    } else if Canonical(s) {
      var ws: seq<string> :| ws != [] && AllWords(ws) && s == Join(ws);
      PiecesOfJoin(ws);
    }
  }

  // ---------------------------------------------------------------- slugs

  lemma {:induction false} JoinSnoc(ws: seq<string>, w: string)
    requires ws != []
    ensures Join(ws + [w]) == Join(ws) + "-" + w
  {
    if |ws| > 1 {
      JoinSnoc(ws[1..], w);
      assert (ws + [w])[1..] == ws[1..] + [w];
    } else {
      assert (ws + [w])[1..] == [w];
    }
  }

  lemma CanonicalSnoc(s: string, w: string)
    requires Canonical(s) && Word(w)
    ensures Canonical(s + "-" + w)
  {
    var ws: seq<string> :| ws != [] && AllWords(ws) && s == Join(ws);
    JoinSnoc(ws, w);
    assert AllWords(ws + [w]);
  }

  lemma CanonicalStart(s: string)
    requires Canonical(s)
    ensures s != "" && Kept(s[0])
  {
    var ws: seq<string> :| ws != [] && AllWords(ws) && s == Join(ws);
    assert Word(ws[0]);
  }

  lemma WordIsCanonical(w: string)
    requires Word(w)
    ensures Canonical(w)
  {
    assert AllWords([w]) && Join([w]) == w;
  }

  /** A slug is canonical exactly if the name leaves a base or the id is long enough to
      stand in for it, for every name and every id that starts with letters and digits. */
  lemma SlugCanonicalIff(name: string, id: string)
    requires forall i :: 0 <= i < |id| && i < 8 ==> Kept(id[i])
    ensures Canonical(SlugOf(name, id)) <==> Base(name) != "" || |id| >= 8
  {
    hide Base, Canonical;
    BaseCanonical(name);
    if Base(name) == "" && |id| >= 8 {
      WordIsCanonical("acct");
      CanonicalSnoc("acct", id[..8]);
      assert "acct" + "-" + id[..8] == "acct-" + id[..8];
    }
    if Canonical(Stem(name, id)) && |id| >= 6 {
      CanonicalSnoc(Stem(name, id), id[..6]);
    }
    if Base(name) == "" && |id| < 8 && Canonical(SlugOf(name, id)) {
      CanonicalStart(SlugOf(name, id));
    }
  }

  /** Two accounts' slugs are equal exactly if their ids share six characters and their
      names share a base; a name without a base counts as "acct-" and eight characters of
      its id. Ids that share their first characters do not keep slugs apart. */
  lemma SlugsEqualIff(name: string, id: string, name': string, id': string)
    requires |id| >= 8 && |id'| >= 8
    ensures SlugOf(name, id) == SlugOf(name', id') <==>
              && id[..6] == id'[..6]
              && (if Base(name) != "" then
                    (if Base(name') != "" then Base(name) == Base(name') else Base(name) == "acct-" + id'[..8])
                  else
                    (if Base(name') != "" then Base(name') == "acct-" + id[..8] else id[..8] == id'[..8]))
  {
    hide Base;
    var s, s' := SlugOf(name, id), SlugOf(name', id');
    assert s[..|s| - 7] == Stem(name, id) && s[|s| - 6..] == id[..6];
    assert s'[..|s'| - 7] == Stem(name', id') && s'[|s'| - 6..] == id'[..6];
    assert ("acct-" + id[..8])[5..] == id[..8] && ("acct-" + id'[..8])[5..] == id'[..8];
  }
}
