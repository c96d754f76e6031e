/** Decimal user ids in messages and in the topics that frame them. */
module UserIds {
  import opened Bytes
  import opened Wrappers

  const USER_PREFIX: seq<Byte> := [117, 115, 101, 114, 95]  // user_

  const DIGIT_ZERO: Byte := 48

  predicate IsDigit(b: Byte) {
    DIGIT_ZERO <= b < DIGIT_ZERO + 10
  }

  /** The decimal text of a number. */
  function Decimal(n: nat): (s: seq<Byte>)
    ensures s != [] && forall i | 0 <= i < |s| :: IsDigit(s[i])
    ensures s[0] == DIGIT_ZERO ==> |s| == 1
    ensures n > 0 ==> s[0] != DIGIT_ZERO
  {
    if n < 10 then [DIGIT_ZERO + n] else Decimal(n / 10) + [DIGIT_ZERO + n % 10]
  }

  /** The number a text of decimal digits stands for; there is none for any other text. */
  function DecimalValue(s: seq<Byte>): (v: Option<nat>)
    ensures v.Some? <==> s != [] && forall i | 0 <= i < |s| :: IsDigit(s[i])
  {
    if s == [] || !IsDigit(s[|s| - 1]) then None
    else if |s| == 1 then Some(s[0] - DIGIT_ZERO)
    else
      match DecimalValue(s[..|s| - 1])
      case None => None
      case Some(v) => Some(10 * v + (s[|s| - 1] - DIGIT_ZERO))
  }

  /** Parsing an unsigned 64-bit number: digits only, and in range. */
  function ParseUint(s: seq<Byte>): Option<UInt64> {
    match DecimalValue(s)
    case Some(v) => if v < 0x1_0000_0000_0000_0000 then Some(v) else None
    case None => None
  }

  lemma {:induction false} DecimalValueOfDecimal(n: nat)
    ensures DecimalValue(Decimal(n)) == Some(n)
  {
    if n >= 10 {
      DecimalValueOfDecimal(n / 10);
      var s := Decimal(n);
      assert s[..|s| - 1] == Decimal(n / 10);
    }
  }

  lemma {:induction false} DecimalOfDecimalValue(s: seq<Byte>)
    requires DecimalValue(s).Some?
    ensures Decimal(DecimalValue(s).value) == s <==> |s| == 1 || s[0] != DIGIT_ZERO
  {
    if |s| > 1 {
      var t := s[..|s| - 1];
      DecimalOfDecimalValue(t);
      var v, d := DecimalValue(t).value, s[|s| - 1] - DIGIT_ZERO;
      assert (10 * v + d) / 10 == v && (10 * v + d) % 10 == d;
      assert s == t + [DIGIT_ZERO + d];
      if v == 0 && s[0] != DIGIT_ZERO {
        assert false;
      }
    }
  }

  /** Printing then parsing is the identity on all of uint64; parsing then printing on texts without a leading zero. */
  lemma ParseOfDecimal(n: UInt64, s: seq<Byte>)
    ensures ParseUint(Decimal(n)) == Some(n)
    ensures ParseUint(s) == Some(n) ==> (Decimal(n) == s <==> |s| == 1 || s[0] != DIGIT_ZERO)
  {
    DecimalValueOfDecimal(n);
    if ParseUint(s) == Some(n) {
      DecimalOfDecimalValue(s);
    }
  }

  /** A decoded value, an error that is returned, or a slice or parse failure that panics. */
  datatype Decoded<+T> = Value(value: T) | Error | Panic

  /** The user id in a plain user text; the first five bytes are skipped without being looked at. */
  function UserStrToID(user: seq<Byte>): Decoded<UInt64> {
    if |user| < 5 then Panic
    else
      match ParseUint(user[5..])
      case Some(id) => Value(id)
      case None => Panic
  }

  /** The prefix is not looked at; everything after it has to be decimal digits in the range of 64 bits. */
  lemma UserStrToIDIsExact(user: seq<Byte>, id: UInt64)
    ensures UserStrToID(user) == Value(id) <==>
      |user| > 5 && (forall i | 5 <= i < |user| :: 48 <= user[i] <= 57) && DecimalValue(user[5..]) == Some(id)
    ensures UserStrToID(user) != Error
  {
    if |user| > 5 {
      assert forall i | 5 <= i < |user| :: user[i] == user[5..][i - 5];
      assert forall i | 0 <= i < |user[5..]| :: user[5..][i] == user[i + 5];
    }
  }

  function MarshalUserSpec(u: UInt64): seq<Byte> {
    [QUOTE] + USER_PREFIX + Decimal(u) + [QUOTE]
  }

  method MarshalUser(u: UInt64) returns (data: seq<Byte>)
    ensures data == MarshalUserSpec(u)
  {
    var idBytes := Decimal(u);
    var result := new Byte[|idBytes| + 7](_ => NUL);
    Copy(result, 0, [QUOTE] + USER_PREFIX);
    Copy(result, 6, idBytes);
    result[result.Length - 1] := QUOTE;
    data := result[..];
  }

  /** The last byte is dropped without being looked at; a text that ends right after the prefix panics. */
  function UnmarshalUser(data: seq<Byte>): Decoded<UInt64> {
    if !([QUOTE] + USER_PREFIX <= data) then Error
    else if |data| == 6 then Panic
    else
      match ParseUint(data[6..|data| - 1])
      case Some(id) => Value(id)
      case None => Error
  }

  lemma StartsWith(data: seq<Byte>, prefix: seq<Byte>)
    ensures prefix <= data <==> |data| >= |prefix| && data[..|prefix|] == prefix
  {
    if |data| >= |prefix| && data[..|prefix|] == prefix {
      assert data == data[..|prefix|] + data[|prefix|..];
    }
  }

  /**
    What does not start like a quoted user text is an error. After that start, a text with nothing more panics; the
    digits between it and the last byte have to be a number in the range of 64 bits, and anything else is an error.
   */
  lemma UnmarshalUserIsExact(data: seq<Byte>, id: UInt64)
    ensures UnmarshalUser(data) == Panic <==> data == [34, 117, 115, 101, 114, 95]
    ensures UnmarshalUser(data) == Value(id) <==>
      && |data| > 7 && data[..6] == [34, 117, 115, 101, 114, 95]
      && (forall i | 6 <= i < |data| - 1 :: 48 <= data[i] <= 57) && DecimalValue(data[6..|data| - 1]) == Some(id)
  {
    var prefix := [QUOTE] + USER_PREFIX;
    assert prefix == [34, 117, 115, 101, 114, 95];
    StartsWith(data, prefix);
    assert |data| == 6 ==> data[..6] == data;
    if |data| > 6 {
      var digits := data[6..|data| - 1];
      assert forall i | 0 <= i < |digits| :: digits[i] == data[i + 6];
      assert forall i | 6 <= i < |data| - 1 :: data[i] == digits[i - 6];
    }
  }

  lemma UnmarshalUserOfMarshal(u: UInt64)
    ensures UnmarshalUser(MarshalUserSpec(u)) == Value(u)
  {
    var data := MarshalUserSpec(u);
    assert data[6..|data| - 1] == Decimal(u);
    ParseOfDecimal(u, []);
  }

  /** The text a user is known by, in a topic and in the user field of a message. */
  function UserText(u: UInt64): seq<Byte> {
    USER_PREFIX + Decimal(u)
  }

  lemma UserStrToIDOfText(u: UInt64)
    ensures UserStrToID(UserText(u)) == Value(u)
  {
    assert UserText(u)[5..] == Decimal(u);
    ParseOfDecimal(u, []);
  }

  /** User 42 is known as user_42, and with the token 7 as user_42.7 in a topic. */
  lemma TextsOfUser42()
    ensures UserText(42) == [117, 115, 101, 114, 95, 52, 50]
    ensures Topic(42, [55]) == [117, 115, 101, 114, 95, 52, 50, 46, 55]
    ensures MarshalUserSpec(42) == [34, 117, 115, 101, 114, 95, 52, 50, 34]
  {
    assert Decimal(42) == [52, 50];
  }

  /** What Subscribe asks for, after the leading command byte. */
  function Topic(u: UInt64, token: seq<Byte>): seq<Byte> {
    UserText(u) + [DOT] + token
  }

  /** A message as the gate publishes it: topic, NUL, payload, NUL. */
  function Frame(u: UInt64, token: seq<Byte>, payload: seq<Byte>): seq<Byte> {
    Topic(u, token) + [NUL] + payload + [NUL]
  }

  /** Where the topic of a received message ends, minus one. */
  function DotIndex(msg: seq<Byte>, token: seq<Byte>): int {
    IndexByte(msg, DOT) + |token|
  }

  /** The slice handed to the JSON decoder; None where the slice bounds are out of range. */
  function Payload(msg: seq<Byte>, token: seq<Byte>): Option<seq<Byte>> {
    var dotIndex := DotIndex(msg, token);
    if dotIndex + 2 <= |msg| - 1 then Some(msg[dotIndex + 2..|msg| - 1]) else None
  }

  /** The user text taken from the topic when a reject names no user; None where the bounds are out of range. */
  function TopicUser(msg: seq<Byte>, token: seq<Byte>): Option<seq<Byte>> {
    var end := DotIndex(msg, token) - |token|;
    if end >= 0 then Some(msg[..end]) else None
  }

  lemma NoDotInUserText(u: UInt64)
    ensures DOT !in UserText(u)
  {
    assert forall i | 0 <= i < |Decimal(u)| :: IsDigit(Decimal(u)[i]);
  }

  /** The first dot of a framed message is the one after the user text. */
  lemma FirstDot(text: seq<Byte>, rest: seq<Byte>)
    requires DOT !in text
    ensures IndexByte(text + [DOT] + rest, DOT) == |text|
  {
    IndexByteIs(text + [DOT] + rest, DOT, |text|) by {
      assert (text + [DOT] + rest)[..|text|] == text;
    }
  }

  /**
    Whatever a message holds: its user is what comes before its first dot, and there is none without a dot. The payload
    lies between the byte after the token's length and the last byte; a message that is too short has none.
   */
  lemma SlicesAreExact(text: seq<Byte>, rest: seq<Byte>, token: seq<Byte>)
    requires DOT !in text
    ensures var msg := text + [DOT] + rest;
      && TopicUser(msg, token) == Some(text)
      && (Payload(msg, token).None? <==> |rest| < |token| + 2)
      && (Payload(msg, token).Some? ==>
            rest[|token| + 1..] == Payload(msg, token).value + [rest[|rest| - 1]])
    ensures TopicUser(text, token) == None
  {
    var msg := text + [DOT] + rest;
    FirstDot(text, rest);
    assert msg[..|text|] == text;
    if |rest| >= |token| + 2 {
      assert msg[|text| + |token| + 2..|msg| - 1] == rest[|token| + 1..|rest| - 1];
    }
  }

  lemma SliceFrame(text: seq<Byte>, token: seq<Byte>, payload: seq<Byte>)
    requires DOT !in text
    ensures var msg := text + [DOT] + token + [NUL] + payload + [NUL];
      Payload(msg, token) == Some(payload) && TopicUser(msg, token) == Some(text)
  {
    var msg := text + [DOT] + token + [NUL] + payload + [NUL];
    assert msg == text + [DOT] + (token + [NUL] + payload + [NUL]);
    FirstDot(text, token + [NUL] + payload + [NUL]);
    var dotIndex := |text| + |token|;
    assert msg[dotIndex + 2..|msg| - 1] == payload;
    assert msg[..|text|] == text;
  }

  /** The index arithmetic recovers the payload, the user text and the user id, whatever token and payload hold. */
  lemma FrameRoundTrip(u: UInt64, token: seq<Byte>, payload: seq<Byte>)
    ensures Payload(Frame(u, token, payload), token) == Some(payload)
    ensures TopicUser(Frame(u, token, payload), token) == Some(UserText(u))
    ensures UserStrToID(UserText(u)) == Value(u)
  {
    NoDotInUserText(u);
    SliceFrame(UserText(u), token, payload);
    UserStrToIDOfText(u);
  }

  /** Two texts without dots that are each followed by a dot at the head of one message are one text. */
  lemma TextBeforeDotIsUnique(t: seq<Byte>, t': seq<Byte>, rest: seq<Byte>, rest': seq<Byte>)
    requires DOT !in t && DOT !in t' && t + [DOT] + rest == t' + [DOT] + rest'
    ensures t == t'
  {
    FirstDot(t, rest);
    FirstDot(t', rest');
    assert t == (t + [DOT] + rest)[..|t|];
    assert t' == (t' + [DOT] + rest')[..|t'|];
  }

  /** A topic prefix selects the messages of its own user and of no other. */
  lemma TopicSelectsItsUser(u: UInt64, v: UInt64, token: seq<Byte>, payload: seq<Byte>)
    ensures Topic(u, token) <= Frame(v, token, payload) <==> u == v
  {
    var msg := Frame(v, token, payload);
    if Topic(u, token) <= msg {
      var rest := msg[|Topic(u, token)|..];
      assert msg == UserText(u) + [DOT] + (token + rest);
      assert msg == UserText(v) + [DOT] + (token + [NUL] + payload + [NUL]);
      NoDotInUserText(u);
      NoDotInUserText(v);
      TextBeforeDotIsUnique(UserText(u), UserText(v), token + rest, token + [NUL] + payload + [NUL]);
      UserStrToIDOfText(u);
      UserStrToIDOfText(v);
    }
  }
}
