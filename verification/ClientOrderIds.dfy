/** Text and JSON forms of a client order id, a 32-byte buffer that is padded with NUL bytes. */
module ClientOrderIds {
  import opened Bytes
  import opened Identifiers
  import opened Wrappers

  /** The text of an id: up to the first NUL, or all 32 bytes when there is none or it comes first. */
  function String(co: ClientOrderId): seq<Byte> {
    var indexEmpty := IndexByte(co, NUL);
    if indexEmpty > 0 then co[..indexEmpty] else co
  }

  /** An id is printed whole if it has no NUL or starts with one, and up to its first NUL otherwise. */
  lemma StringIsExact(co: ClientOrderId)
    ensures NUL !in co || co[0] == NUL ==> String(co) == co
    ensures NUL in co && co[0] != NUL ==>
      |String(co)| < 32 && String(co) <= co && NUL !in String(co) && co[|String(co)|] == NUL
  {
    if NUL in co && co[0] != NUL {
      var i := IndexByte(co, NUL);
      assert i > 0;
    } else if co[0] == NUL {
      IndexByteIs(co, NUL, 0);
    }
  }

  function StrToTypeSpec(val: seq<Byte>): Option<ClientOrderId> {
    if |val| > 32 then None else Some(val + Zeros(32 - |val|))
  }

  method StrToType(val: seq<Byte>) returns (r: Option<ClientOrderId>)
    ensures r == StrToTypeSpec(val)
    ensures r.None? <==> |val| > 32
    ensures r.Some? ==> r.value[..|val|] == val && forall i | |val| <= i < 32 :: r.value[i] == NUL
  {
    var result := new Byte[32](_ => NUL);
    if |val| > 32 {
      return None;
    }
    Copy(result, 0, val);
    assert result[..] == val + Zeros(32 - |val|);
    return Some(result[..]);
  }

  /** Where the id's text ends, for the JSON form. */
  function TextLength(co: ClientOrderId): (n: nat)
    ensures n <= 32 && NUL !in co[..n] && (n < 32 ==> co[n] == NUL)
  {
    var indexEmpty := IndexByte(co, NUL);
    if indexEmpty == -1 then 32 else indexEmpty
  }

  function MarshalSpec(co: ClientOrderId): Option<seq<Byte>> {
    if TextLength(co) == 0 then None else Some([QUOTE] + co[..TextLength(co)] + [QUOTE])
  }

  method MarshalJSON(co: ClientOrderId) returns (data: Option<seq<Byte>>)
    ensures data == MarshalSpec(co)
  {
    var indexEmpty := IndexByte(co, NUL);
    if indexEmpty == -1 {
      indexEmpty := |co|;
    }
    if indexEmpty == 0 {
      return None;
    }
    var result := new Byte[indexEmpty + 2](_ => NUL);
    result[0] := QUOTE;
    Copy(result, 1, co);
    result[indexEmpty + 1] := QUOTE;
    assert result[..] == [QUOTE] + co[..indexEmpty] + [QUOTE];
    return Some(result[..]);
  }

  /** The receiver after decoding `data`; None is the error, which leaves the receiver alone. */
  function UnmarshalSpec(receiver: ClientOrderId, data: seq<Byte>): Option<ClientOrderId> {
    if |data| < 3 || |data| > 34 then None else Some(Overlay(receiver, 0, data[1..|data| - 1]))
  }

  method UnmarshalJSON(receiver: array<Byte>, data: seq<Byte>) returns (ok: bool)
    requires receiver.Length == 32
    modifies receiver
    ensures ok == UnmarshalSpec(old(receiver[..]), data).Some?
    ensures receiver[..] == if ok then UnmarshalSpec(old(receiver[..]), data).value else old(receiver[..])
  {
    if |data| < 3 {
      return false;
    }
    if |data| > 34 {
      return false;
    }
    Copy(receiver, 0, data[1..|data| - 1]);
    return true;
  }

  /** Everything from the first NUL on is NUL. */
  predicate Padded(co: ClientOrderId) {
    co[TextLength(co)..] == Zeros(32 - TextLength(co))
  }

  /**
    The text that comes back is the text that went in exactly when that text fits, is not empty and
    holds no NUL; the one other case is a full 32 bytes that start with NUL, which is returned whole.
   */
  lemma StringOfStrToType(val: seq<Byte>)
    ensures StrToTypeSpec(val).Some? && String(StrToTypeSpec(val).value) == val
      <==> |val| <= 32 && ((val != [] && NUL !in val) || (|val| == 32 && val[0] == NUL))
  {
    if |val| <= 32 {
      var co := val + Zeros(32 - |val|);
      var i := IndexByte(co, NUL);
      if NUL in val {
        IndexByteIs(co, NUL, IndexByte(val, NUL)) by {
          assert co[..IndexByte(val, NUL)] == val[..IndexByte(val, NUL)];
        }
        assert i < |val|;
      } else if |val| < 32 {
        IndexByteIs(co, NUL, |val|) by {
          assert co[..|val|] == val;
        }
        assert co[..|val|] == val;
      } else {
        assert co == val;
      }
    }
  }

  /** The empty text is one that does not come back: it is printed as 32 NUL bytes. */
  lemma EmptyTextIsNotPreserved()
    ensures StrToTypeSpec([]) == Some(Zeros(32)) && String(Zeros(32)) == Zeros(32) && Zeros(32) != []
  {
    assert [] + Zeros(32) == Zeros(32);
    IndexByteIs(Zeros(32), NUL, 0);
  }

  lemma StrToTypeOfString(co: ClientOrderId)
    ensures StrToTypeSpec(String(co)) == Some(co) <==> Padded(co) || co[0] == NUL
  {
    var n := TextLength(co);
    if co[0] == NUL {
      IndexByteIs(co, NUL, 0);
      assert co + Zeros(0) == co;
    } else {
      assert n > 0 && String(co) == co[..n];
      var back := co[..n] + Zeros(32 - n);
      assert back[n..] == Zeros(32 - n);
      if Padded(co) {
        assert co == co[..n] + co[n..];
      }
    }
  }

  /**
    Encoding fails exactly on an id that starts with NUL. Decoding what was encoded gives the id back
    exactly when the receiver already holds the bytes that follow the id's text.
   */
  lemma UnmarshalOfMarshal(co: ClientOrderId, receiver: ClientOrderId)
    ensures MarshalSpec(co).Some? <==> co[0] != NUL
    ensures MarshalSpec(co).Some? ==>
      (UnmarshalSpec(receiver, MarshalSpec(co).value) == Some(co) <==> receiver[TextLength(co)..] == co[TextLength(co)..])
  {
    var n := TextLength(co);
    if n > 0 {
      assert co[0] == co[..n][0];
      var data := MarshalSpec(co).value;
      assert data[1..|data| - 1] == co[..n];
      var back := UnmarshalSpec(receiver, data).value;
      assert back == co[..n] + receiver[n..];
      assert back[n..] == receiver[n..];
      assert co == co[..n] + co[n..];
    }
  }

  /** With the zeroed receiver that the JSON decoder supplies, the round trip holds for every padded id. */
  lemma UnmarshalIntoZeroed(co: ClientOrderId)
    requires co[0] != NUL
    ensures MarshalSpec(co).Some?
    ensures UnmarshalSpec(Zeros(32), MarshalSpec(co).value) == Some(co) <==> Padded(co)
  {
    UnmarshalOfMarshal(co, Zeros(32));
    assert Zeros(32)[TextLength(co)..] == Zeros(32 - TextLength(co));
  }
}
