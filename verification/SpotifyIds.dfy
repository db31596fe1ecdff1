/** Base-62 text of numbers. */
module Base62 {
  import opened Quotients
  import opened BigEndian
  import opened Words

  const ID_LENGTH: nat := 22

  predicate IsDigit(c: char) {
    '0' <= c <= '9' || 'a' <= c <= 'z' || 'A' <= c <= 'Z'
  }

  function DigitOf(c: char): (d: nat)
    requires IsDigit(c)
    ensures d < 62
  {
    if c <= '9' then c as int - '0' as int
    else if 'a' <= c then c as int - 'a' as int + 10
    else c as int - 'A' as int + 36
  }

  function CharOf(d: nat): (c: char)
    requires d < 62
    ensures IsDigit(c) && DigitOf(c) == d
  {
    if d < 10 then ('0' as int + d) as char
    else if d < 36 then ('a' as int + d - 10) as char
    else ('A' as int + d - 36) as char
  }

  const ALPHABET: string := "0123456789" + "abcdefghijklmnopqrstuvwxyz" + "ABCDEFGHIJKLMNOPQRSTUVWXYZ"

  /** The digits are those of the alphabet, each in its place. */
  lemma DigitsAre(d: nat)
    requires d < 62
    ensures |ALPHABET| == 62 && CharOf(d) == ALPHABET[d] && DigitOf(ALPHABET[d]) == d
  {
    if d < 10 {
      assert d in {0, 1, 2, 3, 4, 5, 6, 7, 8, 9};
    } else if d < 36 {
      SmallLetters(d - 10);
    } else {
      CapitalLetters(d - 36);
    }
  }

  lemma SmallLetters(d: nat)
    requires d < 26
    ensures "abcdefghijklmnopqrstuvwxyz"[d] == CharOf(d + 10)
  {
    assert d in {0, 1, 2, 3, 4, 5, 6, 7, 8, 9, 10, 11, 12, 13, 14, 15, 16, 17, 18, 19, 20, 21, 22, 23, 24, 25};
  }

  lemma CapitalLetters(d: nat)
    requires d < 26
    ensures "ABCDEFGHIJKLMNOPQRSTUVWXYZ"[d] == CharOf(d + 36)
  {
    assert d in {0, 1, 2, 3, 4, 5, 6, 7, 8, 9, 10, 11, 12, 13, 14, 15, 16, 17, 18, 19, 20, 21, 22, 23, 24, 25};
  }

  predicate AllDigits(s: string) {
    forall i :: 0 <= i < |s| ==> IsDigit(s[i])
  }

  function Parse(s: string): (digits: seq<nat>)
    requires AllDigits(s)
    ensures |digits| == |s| && Digits(62, digits)
    ensures forall i :: 0 <= i < |s| ==> digits[i] == DigitOf(s[i])
  {
    if s == [] then [] else Parse(s[..|s|-1]) + [DigitOf(s[|s|-1])]
  }

  function Print(digits: seq<nat>): (s: string)
    requires Digits(62, digits)
    ensures |s| == |digits| && AllDigits(s)
    ensures forall i :: 0 <= i < |s| ==> s[i] == CharOf(digits[i])
  {
    if digits == [] then [] else Print(digits[..|digits|-1]) + [CharOf(digits[|digits|-1])]
  }

  lemma ParsePrint(digits: seq<nat>)
    requires Digits(62, digits)
    ensures Parse(Print(digits)) == digits
  {}

  lemma PrintParse(s: string)
    requires AllDigits(s)
    ensures Print(Parse(s)) == s
  {
    forall i | 0 <= i < |s| ensures Print(Parse(s))[i] == s[i] {
      SameChar(CharOf(DigitOf(s[i])), s[i]);
    }
  }

  lemma SameChar(a: char, b: char)
    requires IsDigit(a) && IsDigit(b) && DigitOf(a) == DigitOf(b)
    ensures a == b
  {}

  lemma OnlyDigits(c: char)
    ensures IsDigit(c) <==> c in ALPHABET
  {
    hide CharOf, DigitOf;
    if IsDigit(c) {
      DigitsAre(DigitOf(c));
      SameChar(CharOf(DigitOf(c)), c);
    } else if c in ALPHABET {
      assert |ALPHABET| == 62 by { DigitsAre(0); }
      var i :| 0 <= i < |ALPHABET| && ALPHABET[i] == c;
      DigitsAre(i);
    }
  }

  /** The digits of a number, as few as there can be. */
  function Shortest(value: nat): (digits: seq<nat>)
    ensures digits != [] && Digits(62, digits)
  {
    if value < 62 then [value] else Shortest(value / 62) + [value % 62]
  }

  function Zeros(n: nat): (zeros: seq<nat>)
    ensures |zeros| == n && forall i :: 0 <= i < n ==> zeros[i] == 0
  {
    if n == 0 then [] else Zeros(n - 1) + [0]
  }

  lemma {:induction false} ShortestFits(value: nat, n: nat)
    requires value < Pow(62, n) && n > 0
    ensures |Shortest(value)| <= n && Zeros(n - |Shortest(value)|) + Shortest(value) == Spell(62, value, n)
    decreases n
  {
    if value < 62 {
      SpellSmall(value, n);
    } else {
      ShortestFits(value / 62, n - 1);
      assert Quotient(value, 62) == value / 62 && Rest(value, 62) == value % 62;
      var short := Shortest(value / 62);
      assert Zeros(n - 1 - |short|) + (short + [value % 62]) == (Zeros(n - 1 - |short|) + short) + [value % 62];
    }
  }

  lemma SpellSmall(value: nat, n: nat)
    requires value < 62 && n > 0
    ensures Zeros(n - 1) + [value] == Spell(62, value, n)
  {
    SpellZero(n - 1);
    assert Quotient(value, 62) == 0 && Rest(value, 62) == value;
  }

  lemma {:induction false} SpellZero(n: nat)
    ensures Spell(62, 0, n) == Zeros(n)
  {
    if n > 0 {
      SpellZero(n - 1);
    }
  }

  lemma {:induction false} ValuePadded(base: nat, n: nat, digits: seq<nat>)
    ensures Value(base, Zeros(n) + digits) == Value(base, digits)
    decreases n
  {
    hide Times;
    if n == 0 {
      assert Zeros(0) + digits == digits;
    } else {
      ValuePadded(base, n - 1, [0] + digits);
      assert Zeros(n) + digits == Zeros(n - 1) + ([0] + digits);
      ValueJoin(base, [0], digits);
      assert [0][..0] == [];
      OneTimes(base);
      OneTimes(Pow(base, |digits|));
    }
  }

  /** 62^22 is more than 2^128, so 22 digits are enough for 16 bytes. */
  lemma EnoughDigits()
    ensures Pow(256, 16) == TWO_128 && TWO_128 <= Pow(62, ID_LENGTH)
  {
    BytePowers();
    DigitPowers();
  }

  lemma BytePowers()
    ensures Pow(256, 16) == TWO_128
  {
    assert Pow(256, 2) == 65536;
    assert Pow(256, 4) == 0x1_0000_0000;
    assert Pow(256, 6) == 0x1_0000_0000_0000;
    assert Pow(256, 8) == 0x1_0000_0000_0000_0000;
    assert Pow(256, 10) == 0x1_0000_0000_0000_0000_0000;
    assert Pow(256, 12) == 0x1_0000_0000_0000_0000_0000_0000;
    assert Pow(256, 14) == 0x1_0000_0000_0000_0000_0000_0000_0000;
  }

  lemma DigitPowers()
    ensures Pow(62, 22) == 2707803647802660400290261537185326956544
  {
    assert Pow(62, 2) == 3844;
    assert Pow(62, 4) == 14776336;
    assert Pow(62, 6) == 56800235584;
    assert Pow(62, 8) == 218340105584896;
    assert Pow(62, 10) == 839299365868340224;
    assert Pow(62, 12) == 3226266762397899821056;
    assert Pow(62, 14) == 12401769434657526912139264;
    assert Pow(62, 16) == 47672401706823533450263330816;
    assert Pow(62, 18) == 183252712161029662582812243656704;
    assert Pow(62, 20) == 704423425546998022968330264616370176;
  }
}

/** Spotify ids and their uris. */
module SpotifyIds {
  import opened Quotients
  import opened BigEndian
  import opened Words
  import opened Base62

  const GID_LENGTH: nat := 16
  const SCHEME: string := "spotify:"

  datatype SpotifyId = SpotifyId(typ: string, gid: seq<nat>)

  /** Parsing fails on malformed text, and panics on a number too big for 16 bytes. */
  datatype Parsed = Parsed(id: SpotifyId) | Malformed | Panics

  predicate Gid(gid: seq<nat>) {
    |gid| == GID_LENGTH && Digits(256, gid)
  }

  /** The text of a gid: its number in base 62, padded with zeros. */
  function GidToBase62(gid: seq<nat>): string
    requires Gid(gid) && |Shortest(Value(256, gid))| <= ID_LENGTH
  {
    var short := Shortest(Value(256, gid));
    Print(Zeros(ID_LENGTH - |short|) + short)
  }

  /** Text without the sign it may begin with. */
  function Unsigned(id: string): string {
    if id != "" && (id[0] == '+' || id[0] == '-') then id[1..] else id
  }

  /** A sign is accepted and makes no difference: the bytes are those of the absolute
      value. */
  function FromBase62(typ: string, id: string): Parsed {
    var digits := Unsigned(id);
    if digits == "" || !AllDigits(digits) then Malformed
    else
      var value := Value(62, Parse(digits));
      if value >= TWO_128 then Panics else Parsed(SpotifyId(typ, Spell(256, value, GID_LENGTH)))
  }

  predicate IsWord(typ: string) {
    typ != "" && forall i :: 0 <= i < |typ| ==> 'a' <= typ[i] <= 'z'
  }

  /** The first colon from i on. */
  function Colon(s: string, i: nat): (at: nat)
    requires i <= |s|
    ensures i <= at <= |s|
    decreases |s| - i
  {
    if i == |s| || s[i] == ':' then i else Colon(s, i + 1)
  }

  /** The uri is "spotify:", a word of small letters, a colon, and 21 or 22 digits. */
  function FromUri(uri: string): Parsed {
    if !(SCHEME <= uri) then Malformed
    else
      var rest := uri[|SCHEME|..];
      var at := Colon(rest, 0);
      if at == |rest| || !IsWord(rest[..at]) then Malformed
      else
        var id := rest[at + 1..];
        if !(|id| == 21 || |id| == 22) || !AllDigits(id) then Malformed else FromBase62(rest[..at], id)
  }

  function ToUri(id: SpotifyId): string
    requires Gid(id.gid) && |Shortest(Value(256, id.gid))| <= ID_LENGTH
  {
    SCHEME + id.typ + ":" + GidToBase62(id.gid)
  }

  /** Every gid prints to exactly 22 digits, those of its number. */
  lemma GidPrints(gid: seq<nat>)
    requires Gid(gid)
    ensures Value(256, gid) < TWO_128 && |Shortest(Value(256, gid))| <= ID_LENGTH
    ensures GidToBase62(gid) == Print(Spell(62, Value(256, gid), ID_LENGTH))
  {
    hide Pow, Value, Spell, Shortest, Print;
    EnoughDigits();
    ValueBound(256, gid);
    ShortestFits(Value(256, gid), ID_LENGTH);
  }

  /** Digits padded with zeros to 22, or without what is before the last 22. */
  function Canonical(digits: string): string {
    if |digits| <= ID_LENGTH then Print(Zeros(ID_LENGTH - |digits|)) + digits else digits[|digits| - ID_LENGTH..]
  }

  /** Text of any length parses if and only if it is digits after an optional sign and
      their number fits, and then to the gid that prints as the digits made 22. */
  lemma Base62RoundTrip(typ: string, id: string)
    ensures var digits := Unsigned(id); var parsed := FromBase62(typ, id);
      if digits == "" || !AllDigits(digits) then parsed.Malformed?
      else if Value(62, Parse(digits)) >= TWO_128 then parsed.Panics?
      else
        && parsed.Parsed? && parsed.id.typ == typ && Gid(parsed.id.gid)
        && |Shortest(Value(256, parsed.id.gid))| <= ID_LENGTH
        && GidToBase62(parsed.id.gid) == Canonical(digits)
  {
    hide Pow, Value, Spell, Shortest, Print, Parse, Canonical, AllDigits;
    var text := Unsigned(id);
    if text != "" && AllDigits(text) {
      var value := Value(62, Parse(text));
      if value < TWO_128 {
        EnoughDigits();
        var gid := Spell(256, value, GID_LENGTH);
        ValueSpell(256, value, GID_LENGTH);
        GidPrints(gid);
        CanonicalSpells(text);
      }
    }
  }

  lemma CanonicalSpells(text: string)
    requires AllDigits(text)
    ensures Canonical(text) == Print(Spell(62, Value(62, Parse(text)), ID_LENGTH))
  {
    hide Pow, Value, Spell, Print, Parse;
    var digits := Parse(text);
    PrintParse(text);
    if |text| <= ID_LENGTH {
      var zeros := Zeros(ID_LENGTH - |text|);
      ValuePadded(62, ID_LENGTH - |text|, digits);
      SpellValue(62, zeros + digits);
      PrintJoins(zeros, digits);
    } else {
      var k := |text| - ID_LENGTH;
      SpellValue(62, digits);
      SpellShorter(62, Value(62, digits), ID_LENGTH, |text|);
      PrintDrop(digits, k);
    }
  }

  lemma PrintDrop(digits: seq<nat>, k: nat)
    requires Digits(62, digits) && k <= |digits|
    ensures Print(digits[k..]) == Print(digits)[k..]
  {
    hide CharOf;
  }

  lemma {:induction false} SpellShorter(base: nat, value: nat, n: nat, m: nat)
    requires base > 0 && n <= m
    ensures Spell(base, value, n) == Spell(base, value, m)[m - n..]
    decreases n
  {
    hide Quotient, Rest;
    if n > 0 {
      SpellShorter(base, Quotient(value, base), n - 1, m - 1);
    }
  }

  lemma PrintJoins(a: seq<nat>, b: seq<nat>)
    requires Digits(62, a) && Digits(62, b)
    ensures Print(a + b) == Print(a) + Print(b)
  {
    hide CharOf;
  }

  /** A gid's text parses back to it. */
  lemma GidRoundTrip(typ: string, gid: seq<nat>)
    requires Gid(gid)
    ensures |Shortest(Value(256, gid))| <= ID_LENGTH
    ensures |GidToBase62(gid)| == ID_LENGTH && AllDigits(GidToBase62(gid))
    ensures FromBase62(typ, GidToBase62(gid)) == Parsed(SpotifyId(typ, gid))
  {
    hide Pow, Value, Spell, Shortest, Print, Parse;
    var value := Value(256, gid);
    GidPrints(gid);
    EnoughDigits();
    ParsePrint(Spell(62, value, ID_LENGTH));
    ValueSpell(62, value, ID_LENGTH);
    SpellValue(256, gid);
  }

  lemma {:induction false} ColonIs(s: string, i: nat, at: nat)
    requires i <= at < |s| && s[at] == ':' && forall k :: i <= k < at ==> s[k] != ':'
    ensures Colon(s, i) == at
    decreases at - i
  {
    if i < at {
      ColonIs(s, i + 1, at);
    }
  }

  lemma {:induction false} ColonFirst(s: string, i: nat)
    requires i <= |s|
    ensures var at := Colon(s, i); forall k :: i <= k < at ==> s[k] != ':'
    ensures Colon(s, i) < |s| ==> s[Colon(s, i)] == ':'
    decreases |s| - i
  {
    if i < |s| && s[i] != ':' {
      ColonFirst(s, i + 1);
    }
  }

  /** A uri parses back to its id if and only if the type is a word of small letters;
      the unknown type, which is empty, does not. */
  lemma UriRoundTrip(id: SpotifyId)
    requires Gid(id.gid)
    ensures |Shortest(Value(256, id.gid))| <= ID_LENGTH
    ensures FromUri(ToUri(id)) == Parsed(id) <==> IsWord(id.typ)
  {
    hide Value, Spell, Shortest, Print, Parse, GidToBase62, FromBase62;
    GidRoundTrip(id.typ, id.gid);
    var text := GidToBase62(id.gid);
    var uri := ToUri(id);
    var rest := uri[|SCHEME|..];
    assert rest == id.typ + ":" + text;
    if IsWord(id.typ) {
      ColonIs(rest, 0, |id.typ|);
      assert rest[..|id.typ|] == id.typ && rest[|id.typ| + 1..] == text;
    } else if FromUri(uri) == Parsed(id) {
      TypeIsWord(uri);
    }
  }

  lemma TypeIsWord(uri: string)
    requires FromUri(uri).Parsed?
    ensures IsWord(FromUri(uri).id.typ)
  {
    hide AllDigits, Value, Parse, Spell;
  }

  /** A uri that parses prints as itself with its digits padded to 22. */
  lemma UriPrints(uri: string) returns (digits: string)
    requires FromUri(uri).Parsed?
    ensures AllDigits(digits) && 21 <= |digits| <= 22
    ensures Gid(FromUri(uri).id.gid) && |Shortest(Value(256, FromUri(uri).id.gid))| <= ID_LENGTH
    ensures uri == SCHEME + FromUri(uri).id.typ + ":" + digits
    ensures ToUri(FromUri(uri).id) == SCHEME + FromUri(uri).id.typ + ":" + Canonical(digits)
  {
    hide Value, Spell, Shortest, Print, Parse, GidToBase62;
    var rest := uri[|SCHEME|..];
    ColonFirst(rest, 0);
    var at := Colon(rest, 0);
    digits := rest[at + 1..];
    Base62RoundTrip(rest[..at], digits);
    assert uri == SCHEME + rest[..at] + ":" + digits;
  }
}
