/** Base58 with leading zeros kept, as used by the Base58Check address text. */
module Base58 {
  import opened Records

  // ---------------------------------------------------------------- positional notation

  /** The number that big-endian digits denote. */
  function Value(base: nat, ds: seq<nat>): nat {
    if ds == [] then 0 else Value(base, ds[..|ds| - 1]) * base + ds[|ds| - 1]
  }

  /** The shortest big-endian digits of a number. */
  function Digits(base: nat, n: nat): seq<nat>
    requires base >= 2
  {
    if n == 0 then []
    else
      QuotientShrinks(base, n);
      Digits(base, n / base) + [n % base]
  }

  function Zeros(ds: seq<nat>): (z: nat)
    ensures z <= |ds|
  {
    if ds != [] && ds[0] == 0 then 1 + Zeros(ds[1..]) else 0
  }

  function Repeat<T>(x: T, n: nat): seq<T> {
    seq(n, _ => x)
  }

  predicate Within(base: nat, ds: seq<nat>) {
    forall i :: 0 <= i < |ds| ==> ds[i] < base
  }

  lemma {:induction false} MultipleStep(a: nat, b: nat, c: nat)
    requires a < b
    ensures a * c + c <= b * c
    decreases b
  {
    assert b * c == (b - 1) * c + c;
    if a + 1 < b {
      MultipleStep(a, b - 1, c);
    }
  }

  lemma QuotientAndRemainder(base: nat, q: nat, d: nat)
    requires d < base
    ensures (q * base + d) / base == q && (q * base + d) % base == d
  {
    var n := q * base + d;
    assert n == n / base * base + n % base;
    if q < n / base {
      MultipleStep(q, n / base, base);
    } else if n / base < q {
      MultipleStep(n / base, q, base);
    }
  }

  lemma QuotientShrinks(base: nat, n: nat)
    requires base >= 2 && n > 0
    ensures n / base < n && n == n / base * base + n % base && n % base < base
  {
    var q := n / base;
    assert n == q * base + n % base;
    assert q * base == q * (base - 1) + q;
    assert q * (base - 1) >= q;
  }

  lemma {:induction false} DigitsDenote(base: nat, n: nat)
    requires base >= 2
    ensures Value(base, Digits(base, n)) == n
    ensures Within(base, Digits(base, n))
    ensures n > 0 ==> Digits(base, n) != [] && Digits(base, n)[0] != 0
  {
    if n > 0 {
      QuotientShrinks(base, n);
      DigitsDenote(base, n / base);
      var ds := Digits(base, n);
      assert ds[..|ds| - 1] == Digits(base, n / base);
      if n / base == 0 {
        assert 0 * base == 0;
      }
    }
  }

  /** Writing one more digit after a number appends it. */
  lemma DigitsAppend(base: nat, v: nat, d: nat)
    requires base >= 2 && d < base && (v > 0 || d > 0)
    ensures v * base + d > 0
    ensures Digits(base, v * base + d) == Digits(base, v) + [d]
  {
    QuotientAndRemainder(base, v, d);
    MultipleStep(0, base, v);
  }

  lemma ValueStep(base: nat, ds: seq<nat>)
    requires ds != []
    ensures Value(base, ds) == Value(base, ds[..|ds| - 1]) * base + ds[|ds| - 1]
  {
  }

  lemma NoDigits(base: nat)
    requires base >= 2
    ensures Value(base, []) == 0 && Digits(base, 0) == []
  {
  }

  lemma {:induction false} DigitsOfValue(base: nat, ds: seq<nat>)
    requires base >= 2 && Within(base, ds)
    requires ds != [] ==> ds[0] != 0
    ensures Digits(base, Value(base, ds)) == ds
    ensures ds != [] ==> Value(base, ds) > 0
  {
    hide Value, Digits;
    NoDigits(base);
    if ds != [] {
      var init, d := ds[..|ds| - 1], ds[|ds| - 1];
      DigitsOfValue(base, init);
      ValueStep(base, ds);
      DigitsAppend(base, Value(base, init), d);
      assert ds == init + [d];
    }
  }

  lemma {:induction false} ZerosAddNothing(base: nat, z: nat, ds: seq<nat>)
    ensures Value(base, Repeat(0, z) + ds) == Value(base, ds)
    decreases z + |ds|
  {
    var all := Repeat(0, z) + ds;
    if ds != [] {
      assert all[..|all| - 1] == Repeat(0, z) + ds[..|ds| - 1];
      ZerosAddNothing(base, z, ds[..|ds| - 1]);
    } else if z > 0 {
      assert all[..|all| - 1] == Repeat(0, z - 1) + ds;
      ZerosAddNothing(base, z - 1, ds);
      assert Value(base, all[..|all| - 1]) == 0;
      assert 0 * base == 0;
    }
  }

  lemma {:induction false} ZerosSplit(ds: seq<nat>)
    ensures ds == Repeat(0, Zeros(ds)) + ds[Zeros(ds)..]
    ensures ds[Zeros(ds)..] != [] ==> ds[Zeros(ds)..][0] != 0
  {
    if ds != [] && ds[0] == 0 {
      ZerosSplit(ds[1..]);
      var z := Zeros(ds[1..]);
      assert Zeros(ds) == z + 1;
      hide *;
      OneMoreZero(ds, z);
    }
  }

  lemma OneMoreZero(ds: seq<nat>, z: nat)
    requires ds != [] && ds[0] == 0 && z < |ds| && ds[1..] == Repeat(0, z) + ds[1..][z..]
    ensures ds == Repeat(0, z + 1) + ds[z + 1..] && ds[1..][z..] == ds[z + 1..]
  {
    assert ds[1..][z..] == ds[z + 1..];
    assert Repeat(0, z + 1) == [0] + Repeat(0, z);
    assert ds == [0] + ds[1..];
    assert [0] + (Repeat(0, z) + ds[z + 1..]) == [0] + Repeat(0, z) + ds[z + 1..];
  }

  lemma {:induction false} ZerosOf(z: nat, ds: seq<nat>)
    requires ds != [] ==> ds[0] != 0
    ensures Zeros(Repeat(0, z) + ds) == z
  {
    if z > 0 {
      var all := Repeat(0, z) + ds;
      assert all[1..] == Repeat(0, z - 1) + ds;
      ZerosOf(z - 1, ds);
    } else {
      assert Repeat(0, 0) + ds == ds;
    }
  }

  /** Changing base while keeping one leading zero digit for each leading zero digit. */
  function Recode(from: nat, to: nat, ds: seq<nat>): seq<nat>
    requires to >= 2
  {
    Repeat(0, Zeros(ds)) + Digits(to, Value(from, ds))
  }

  /** Recoding back returns the digits, leading zeros included; between any two bases. */
  lemma RecodeRoundTrip(from: nat, to: nat, ds: seq<nat>)
    requires from >= 2 && to >= 2 && Within(from, ds)
    ensures Recode(to, from, Recode(from, to, ds)) == ds
    ensures Within(to, Recode(from, to, ds))
    ensures ds != [] ==> Recode(from, to, ds) != []
  {
    var z, n := Zeros(ds), Value(from, ds);
    var rest, out := ds[z..], Digits(to, n);
    ZerosSplit(ds);
    ZerosAddNothing(from, z, rest);
    DigitsOfValue(from, rest);
    DigitsDenote(to, n);
    ZerosOf(z, out);
    ZerosAddNothing(to, z, out);
  }

  // ---------------------------------------------------------------- the alphabet

  const ALPHABET: string :=
    "123456789" + "ABCDEFGH" + "JKLMN" + "PQRSTUVWXYZ" + "abcdefghijk" + "mnopqrstuvwxyz"

  function CharOf(d: nat): char
    requires d < 58
  {
    if d < 9 then '1' + d as char
    else if d < 17 then 'A' + (d - 9) as char
    else if d < 22 then 'J' + (d - 17) as char
    else if d < 33 then 'P' + (d - 22) as char
    else if d < 44 then 'a' + (d - 33) as char
    else 'm' + (d - 44) as char
  }

  /** The decode table: the digit of a character, or -1. */
  function DigitOf(c: char): (d: int)
    ensures -1 <= d < 58 && (d >= 0 ==> CharOf(d) == c)
  {
    if '1' <= c <= '9' then (c - '1') as int
    else if 'A' <= c <= 'H' then (c - 'A') as int + 9
    else if 'J' <= c <= 'N' then (c - 'J') as int + 17
    else if 'P' <= c <= 'Z' then (c - 'P') as int + 22
    else if 'a' <= c <= 'k' then (c - 'a') as int + 33
    else if 'm' <= c <= 'z' then (c - 'm') as int + 44
    else -1
  }

  /** `run` holds consecutive characters starting at `first`. */
  ghost predicate Consecutive(first: char, run: string) {
    forall i :: 0 <= i < |run| ==> run[i] as int == first as int + i
  }

  lemma AlphabetRuns()
    ensures Consecutive('1', "123456789") && Consecutive('A', "ABCDEFGH") && Consecutive('J', "JKLMN")
    ensures Consecutive('P', "PQRSTUVWXYZ") && Consecutive('a', "abcdefghijk") && Consecutive('m', "mnopqrstuvwxyz")
  {
  }

  lemma AlphabetIsCharOf(d: nat)
    requires d < 58
    ensures |ALPHABET| == 58 && ALPHABET[d] == CharOf(d) && DigitOf(CharOf(d)) == d
  {
    AlphabetRuns();
  }

  function Spell(ds: seq<nat>): (text: string)
    requires Within(58, ds)
    ensures |text| == |ds|
  {
    seq(|ds|, i requires 0 <= i < |ds| => CharOf(ds[i]))
  }

  predicate Spelled(text: string) {
    forall i :: 0 <= i < |text| ==> DigitOf(text[i]) >= 0
  }

  function Unspell(text: string): (ds: seq<nat>)
    requires Spelled(text)
    ensures Within(58, ds)
  {
    seq(|text|, i requires 0 <= i < |text| => DigitOf(text[i]))
  }

  // ---------------------------------------------------------------- text of bytes

  function Encode(bytes: seq<Byte>): string {
    RecodeRoundTrip(256, 58, bytes);
    Spell(Recode(256, 58, bytes))
  }

  function Decode(text: string): Result<seq<Byte>> {
    if text == "" || !Spelled(text) then Err(InvalidAddress)
    else
      RecodeRoundTrip(58, 256, Unspell(text));
      Ok(AsBytes(Recode(58, 256, Unspell(text))))
  }

  function AsBytes(ds: seq<nat>): (bytes: seq<Byte>)
    requires Within(256, ds)
    ensures |bytes| == |ds| && forall i :: 0 <= i < |ds| ==> bytes[i] == ds[i]
  {
    seq(|ds|, i requires 0 <= i < |ds| => ds[i] as Byte)
  }

  lemma SpellUnspell(ds: seq<nat>, text: string)
    ensures Within(58, ds) ==> Spelled(Spell(ds)) && Unspell(Spell(ds)) == ds
    ensures Spelled(text) ==> Spell(Unspell(text)) == text
  {
    if Within(58, ds) {
      forall i | 0 <= i < |ds|
        ensures DigitOf(Spell(ds)[i]) == ds[i]
      {
        AlphabetIsCharOf(ds[i]);
      }
    }
  }

  /** Decoding the text of a non-empty byte string returns it, leading zero bytes included. */
  lemma DecodeEncoded(bytes: seq<Byte>)
    ensures bytes != [] ==> Decode(Encode(bytes)) == Ok(bytes)
    ensures bytes == [] ==> Encode(bytes) == ""
  {
    var ds := Recode(256, 58, bytes);
    RecodeRoundTrip(256, 58, bytes);
    SpellUnspell(ds, "");
    if bytes != [] {
      assert Unspell(Encode(bytes)) == ds;
      assert AsBytes(Recode(58, 256, ds)) == bytes;
    }
  }

  /** Every accepted text is the text of the bytes it decodes to, so bytes have one spelling. */
  lemma EncodeDecoded(text: string)
    requires Decode(text).Ok?
    ensures Encode(Decode(text).value) == text
  {
    var ds := Unspell(text);
    RecodeRoundTrip(58, 256, ds);
    SpellUnspell([], text);
    assert Decode(text).value == Recode(58, 256, ds);
  }

  // ---------------------------------------------------------------- the loops

  /** Swaps from both ends until the indices meet. */
  method ReverseBytes(data: array<char>)
    modifies data
    ensures forall i :: 0 <= i < data.Length ==> data[i] == old(data[data.Length - 1 - i])
  {
    var left, right := 0, data.Length - 1;
    while left < right
      invariant 0 <= left <= data.Length && right == data.Length - 1 - left && left <= right + 1
      invariant forall i :: 0 <= i < left || right < i < data.Length ==> data[i] == old(data[data.Length - 1 - i])
      invariant forall i :: left <= i <= right ==> data[i] == old(data[i])
    {
      data[left], data[right] := data[right], data[left];
      left, right := left + 1, right - 1;
    }
  }

  /** `text` spells the digits backwards. */
  ghost predicate SpellsBackwards(text: string, ds: seq<nat>) {
    |text| == |ds| && Within(58, ds) && forall i :: 0 <= i < |ds| ==> text[i] == CharOf(ds[|ds| - 1 - i])
  }

  lemma PrependDigit(text: string, d: nat, ds: seq<nat>)
    requires d < 58 && SpellsBackwards(text, ds)
    ensures SpellsBackwards(text + [ALPHABET[d]], [d] + ds)
  {
    AlphabetIsCharOf(d);
  }

  /** The division loop of encoding: the digits of a number, last digit first. */
  method WriteNumber(number: nat) returns (encoded: string)
    ensures SpellsBackwards(encoded, Digits(58, number))
  {
    var value := number;
    ghost var low: seq<nat> := [];
    encoded := "";
    while value > 0
      invariant Digits(58, value) + low == Digits(58, number) && SpellsBackwards(encoded, low)
    {
      var mod := value % 58;
      QuotientShrinks(58, value);
      PrependDigit(encoded, mod, low);
      assert Digits(58, value) == Digits(58, value / 58) + [mod];
      low := [mod] + low;
      encoded := encoded + [ALPHABET[mod]];
      value := value / 58;
    }
  }

  /** The loop that appends one '1' for each leading zero byte. */
  method WriteZeros(input: seq<Byte>, number: string, ghost ds: seq<nat>) returns (encoded: string)
    requires SpellsBackwards(number, ds)
    ensures SpellsBackwards(encoded, Repeat(0, Zeros(input)) + ds)
  {
    hide SpellsBackwards;
    encoded := number;
    var z := 0;
    assert Repeat(0, 0) + ds == ds && input[0..] == input;
    while z < |input| && input[z] == 0
      invariant 0 <= z <= |input| && Zeros(input) == z + Zeros(input[z..])
      invariant SpellsBackwards(encoded, Repeat(0, z) + ds)
    {
      PrependDigit(encoded, 0, Repeat(0, z) + ds);
      assert Repeat(0, z + 1) + ds == [0] + (Repeat(0, z) + ds);
      assert input[z..][1..] == input[z + 1..];
      encoded := encoded + [ALPHABET[0]];
      z := z + 1;
    }
  }

  method Base58Encode(input: seq<Byte>) returns (text: string)
    ensures text == Encode(input)
  {
    if |input| == 0 {
      return "";
    }
    var number := WriteNumber(Value(256, input));
    var encoded := WriteZeros(input, number, Digits(58, Value(256, input)));
    var buffer := new char[|encoded|](i requires 0 <= i < |encoded| => encoded[i]);
    ReverseBytes(buffer);
    text := buffer[..];
    RecodeRoundTrip(256, 58, input);
    assert text == Spell(Recode(256, 58, input));
  }

  lemma NothingSpelled()
    ensures Unspell("") == []
  {
  }

  /** Reading one more character. */
  lemma UnspellStep(text: string, i: nat)
    requires i < |text| && Spelled(text[..i]) && DigitOf(text[i]) >= 0
    ensures Spelled(text[..i + 1])
    ensures Value(58, Unspell(text[..i + 1])) == Value(58, Unspell(text[..i])) * 58 + DigitOf(text[i])
  {
    assert text[..i + 1] == text[..i] + [text[i]];
    var ds := Unspell(text[..i + 1]);
    assert ds[..i] == Unspell(text[..i]) && ds[i] == DigitOf(text[i]);
    hide Unspell, DigitOf;
    ValueStep(58, ds);
  }

  /** The digit loop of decoding: the number the text denotes, unless a character is not in the alphabet. */
  method ReadNumber(input: string) returns (r: Result<nat>)
    ensures Spelled(input) ==> r == Ok(Value(58, Unspell(input)))
    ensures !Spelled(input) ==> r == Err(InvalidAddress)
  {
    hide Value, Unspell, DigitOf;
    NoDigits(58);
    assert Unspell(input[..0]) == [] by {
      NothingSpelled();
    }
    var value: nat := 0;
    var i := 0;
    while i < |input|
      invariant 0 <= i <= |input| && Spelled(input[..i]) && value == Value(58, Unspell(input[..i]))
    {
      var index := DigitOf(input[i]);
      if index < 0 {
        return Err(InvalidAddress);
      }
      UnspellStep(input, i);
      value := value * 58 + index;
      i := i + 1;
    }
    assert input[..i] == input;
    r := Ok(value);
  }

  method LeadingOnes(input: string) returns (n: nat)
    requires Spelled(input)
    ensures n == Zeros(Unspell(input))
  {
    n := 0;
    ghost var ds := Unspell(input);
    assert ds[0..] == ds;
    while n < |input| && input[n] == ALPHABET[0]
      invariant 0 <= n <= |input| && Zeros(ds) == n + Zeros(ds[n..])
    {
      assert ds[n..][1..] == ds[n + 1..];
      n := n + 1;
    }
    if n < |input| {
      AlphabetIsCharOf(ds[n]);
      AlphabetIsCharOf(0);
    }
  }

  method Base58Decode(input: string) returns (r: Result<seq<Byte>>)
    ensures r == Decode(input)
  {
    if input == "" {
      return Err(InvalidAddress);
    }
    var value := ReadNumber(input);
    if value.Err? {
      return Err(value.error);
    }
    var leadingZeros := LeadingOnes(input);
    RecodeRoundTrip(58, 256, Unspell(input));
    r := Ok(AsBytes(Repeat(0, leadingZeros) + Digits(256, value.value)));
  }
}
