/** The text layer of the catalog's cursors: URL-safe base64 without padding, as section 5 of
    RFC 4648 has it. */
module Base64Url {
  import opened Wrappers

  type Byte = n: int | 0 <= n < 256
  type Sextet = n: int | 0 <= n < 64

  // ---------------------------------------------------------------- the alphabet

  function Letter(d: Sextet): char {
    if d < 26 then ('A' as int + d) as char
    else if d < 52 then ('a' as int + d - 26) as char
    else if d < 62 then ('0' as int + d - 52) as char
    else if d == 62 then '-' else '_'
  }

  /** Reading also accepts the two letters of the ordinary alphabet, which the translation of the
      URL-safe letters leaves untouched. */
  function Value(c: char): Option<Sextet> {
    if 'A' <= c <= 'Z' then Some(c as int - 'A' as int)
    else if 'a' <= c <= 'z' then Some(c as int - 'a' as int + 26)
    else if '0' <= c <= '9' then Some(c as int - '0' as int + 52)
    else if c == '-' || c == '+' then Some(62)
    else if c == '_' || c == '/' then Some(63)
    else None
  }

  lemma LetterValue(d: Sextet)
    ensures Value(Letter(d)) == Some(d) && Letter(d) != '=' && Letter(d) != '+' && Letter(d) != '/'
  {
  }

  // ---------------------------------------------------------------- writing

  function Sextets(bytes: seq<Byte>): seq<Sextet> {
    if bytes == [] then []
    else if |bytes| == 1 then [bytes[0] / 4, bytes[0] % 4 * 16]
    else if |bytes| == 2 then [bytes[0] / 4, bytes[0] % 4 * 16 + bytes[1] / 16, bytes[1] % 16 * 4]
    else [bytes[0] / 4, bytes[0] % 4 * 16 + bytes[1] / 16, bytes[1] % 16 * 4 + bytes[2] / 64, bytes[2] % 64] + Sextets(bytes[3..])
  }

  function Letters(sextets: seq<Sextet>): (text: string)
    ensures |text| == |sextets| && forall i :: 0 <= i < |text| ==> text[i] == Letter(sextets[i])
  {
    seq(|sextets|, i requires 0 <= i < |sextets| => Letter(sextets[i]))
  }

  /** The padding is stripped from what the encoder writes. */
  function EncodeText(bytes: seq<Byte>): string {
    Letters(Sextets(bytes))
  }

  // ---------------------------------------------------------------- reading

  function Bytes(sextets: seq<Sextet>): Option<seq<Byte>> {
    if sextets == [] then Some([])
    else if |sextets| == 1 then None
    else
      var a: Byte := (sextets[0] as int) * 4 + sextets[1] as int / 16;
      if |sextets| == 2 then Some([a])
      else
        var b: Byte := (sextets[1] as int) % 16 * 16 + sextets[2] as int / 4;
        if |sextets| == 3 then Some([a, b])
        else
          var c: Byte := (sextets[2] as int) % 4 * 64 + sextets[3] as int;
          match Bytes(sextets[4..])
          case None => None
          case Some(rest) => Some([a, b, c] + rest)
  }

  function Values(text: string): Option<seq<Sextet>> {
    if text == [] then Some([])
    else match (Value(text[0]), Values(text[1..]))
      case (Some(d), Some(rest)) => Some([d] + rest)
      case _ => None
  }

  /** The letters before the trailing padding signs. */
  function Stripped(text: string): string {
    if text != [] && text[|text| - 1] == '=' then Stripped(text[..|text| - 1]) else text
  }

  /** How many padding signs a group of letters takes. */
  function Padding(letters: nat): nat {
    if letters % 4 == 2 then 2 else if letters % 4 == 3 then 1 else 0
  }

  /** Missing padding is added before decoding; padding that is there may be complete or not. */
  function DecodeText(text: string): Option<seq<Byte>> {
    var data := Stripped(text);
    if |data| % 4 == 1 || |text| > |data| + Padding(|data|) then None
    else match Values(data)
      case None => None
      case Some(sextets) => Bytes(sextets)
  }

  // ---------------------------------------------------------------- the round trip

  lemma GroupRoundTrip(a: Byte, b: Byte, c: Byte)
    ensures a / 4 * 4 + (a % 4 * 16 + b / 16) / 16 == a
    ensures (a % 4 * 16 + b / 16) % 16 * 16 + (b % 16 * 4 + c / 64) / 4 == b
    ensures (b % 16 * 4 + c / 64) % 4 * 64 + c % 64 == c
  {
  }

  lemma {:induction false} SextetsRoundTrip(bytes: seq<Byte>)
    ensures Bytes(Sextets(bytes)) == Some(bytes)
  {
    if |bytes| >= 3 {
      SextetsRoundTrip(bytes[3..]);
      assert Sextets(bytes)[4..] == Sextets(bytes[3..]);
      GroupRoundTrip(bytes[0], bytes[1], bytes[2]);
      assert bytes == [bytes[0], bytes[1], bytes[2]] + bytes[3..];
    } else if |bytes| == 2 {
      GroupRoundTrip(bytes[0], bytes[1], 0);
      assert bytes == [bytes[0], bytes[1]];
    } else if |bytes| == 1 {
      GroupRoundTrip(bytes[0], 0, 0);
      assert bytes == [bytes[0]];
    }
  }

  lemma {:induction false} SextetsFillGroups(bytes: seq<Byte>)
    ensures |Sextets(bytes)| % 4 != 1
  {
    if |bytes| >= 3 {
      SextetsFillGroups(bytes[3..]);
    }
  }

  lemma {:induction false} LettersRoundTrip(sextets: seq<Sextet>)
    ensures Values(Letters(sextets)) == Some(sextets)
  {
    if sextets != [] {
      LetterValue(sextets[0]);
      assert Letters(sextets)[1..] == Letters(sextets[1..]);
      LettersRoundTrip(sextets[1..]);
      assert [sextets[0]] + sextets[1..] == sextets;
    }
  }

  /** Every byte string survives, and the text has no padding and no letter that a URL would
      escape. */
  lemma {:induction false} RoundTrip(bytes: seq<Byte>)
    ensures DecodeText(EncodeText(bytes)) == Some(bytes)
    ensures forall c :: c in EncodeText(bytes) ==> c != '=' && c != '+' && c != '/'
  {
    var sextets := Sextets(bytes);
    forall i | 0 <= i < |sextets| ensures Letter(sextets[i]) != '=' && Letter(sextets[i]) != '+' && Letter(sextets[i]) != '/' {
      LetterValue(sextets[i]);
    }
    assert Stripped(EncodeText(bytes)) == EncodeText(bytes);
    SextetsRoundTrip(bytes);
    SextetsFillGroups(bytes);
    LettersRoundTrip(sextets);
  }

  /** Text that is given back with all or part of its padding still decodes. */
  lemma {:induction false} PaddedTextDecodes(bytes: seq<Byte>, signs: nat)
    ensures var text := EncodeText(bytes);
            DecodeText(text + seq(signs, _ => '=')) == if signs <= Padding(|text|) then Some(bytes) else None
  {
    RoundTrip(bytes);
    StrippedPadding(EncodeText(bytes), signs);
    assert Stripped(EncodeText(bytes)) == EncodeText(bytes);
  }

  lemma {:induction false} StrippedPadding(text: string, signs: nat)
    ensures Stripped(text + seq(signs, _ => '=')) == Stripped(text)
  {
    var padded := text + seq(signs, _ => '=');
    if signs == 0 {
      assert padded == text;
    } else {
      assert padded[..|padded| - 1] == text + seq(signs - 1, _ => '=');
      StrippedPadding(text, signs - 1);
    }
  }
}
