/** The hand-written protobuf encoder for jj's `Checkout` message, and a decoder that undoes it. */
module CheckoutProto {
  import opened Results
  import opened OperationStore

  const OPERATION_ID_FIELD: nat := 2
  const WORKSPACE_NAME_FIELD: nat := 3
  const LENGTH_DELIMITED: nat := 2

  // ---- varints ----

  /** Base-128, least significant group first, high bit on every byte but the last. */
  function Varint(n: nat): (b: Bytes)
    ensures b != []
  {
    if n < 128 then [n] else [n % 128 + 128] + Varint(n / 128)
  }

  /** Reads one varint off the front. */
  function ReadVarint(b: Bytes): Option<(nat, Bytes)> {
    if b == [] then None
    else if b[0] < 128 then Some((b[0], b[1..]))
    else match ReadVarint(b[1..])
      case None => None
      case Some((high, rest)) => Some((b[0] - 128 + 128 * high, rest))
  }

  lemma {:induction false} VarintRoundTrip(n: nat, rest: Bytes)
    ensures ReadVarint(Varint(n) + rest) == Some((n, rest))
  {
    var b := Varint(n) + rest;
    if n < 128 {
      assert b == [n] + rest;
      assert b[1..] == rest;
    } else {
      VarintRoundTrip(n / 128, rest);
      assert b[1..] == Varint(n / 128) + rest;
    }
  }

  /** The number that groups of seven bits stand for, the least significant group first. */
  function GroupsValue(b: Bytes): nat {
    if b == [] then 0 else GroupsValue(b[..|b| - 1]) + b[|b| - 1] % 128 * Power128(|b| - 1)
  }

  lemma {:induction false} GroupsValueCons(x: Byte, b: Bytes)
    ensures GroupsValue([x] + b) == x % 128 + 128 * GroupsValue(b)
  {
    var whole := [x] + b;
    if b == [] {
      assert whole == [x] && [x][..0] == [];
      assert Power128(0) == 1;
    } else {
      var front, last := b[..|b| - 1], b[|b| - 1] % 128;
      GroupsValueCons(x, front);
      assert whole[..|whole| - 1] == [x] + front;
      assert Power128(|b|) == 128 * Power128(|b| - 1);
      assert last * (128 * Power128(|b| - 1)) == 128 * (last * Power128(|b| - 1));
    }
  }

  /** A varint stands for its number. */
  lemma {:induction false} VarintValue(n: nat)
    ensures GroupsValue(Varint(n)) == n
  {
    if n < 128 {
      GroupsValueCons(n, []);
      assert [n] + [] == [n];
    } else {
      VarintValue(n / 128);
      GroupsValueCons(n % 128 + 128, Varint(n / 128));
    }
  }

  function Power128(k: nat): nat {
    if k == 0 then 1 else 128 * Power128(k - 1)
  }

  /** A number below 128^k takes at most k bytes, and the last byte is zero only for zero itself. */
  lemma {:induction false} VarintCanonical(n: nat, k: nat)
    requires n < Power128(k) && k > 0
    ensures |Varint(n)| <= k
    ensures forall i | 0 <= i < |Varint(n)| - 1 :: Varint(n)[i] >= 128
    ensures Varint(n)[|Varint(n)| - 1] < 128
    ensures Varint(n)[|Varint(n)| - 1] == 0 <==> n == 0
  {
    if n >= 128 {
      assert Power128(k) == 128 * Power128(k - 1);
      assert Power128(0) == 1;
      assert k - 1 != 0;
      VarintCanonical(n / 128, k - 1);
      forall i | 0 <= i < |Varint(n)| - 1 ensures Varint(n)[i] >= 128 {
        if i > 0 {
          assert Varint(n)[i] == Varint(n / 128)[i - 1];
        }
      }
    }
  }

  /** Every u64 takes at most ten bytes. */
  lemma VarintAtMostTenBytes(n: nat)
    requires n < U64_LIMIT
    ensures 1 <= |Varint(n)| <= 10
  {
    assert Power128(2) == 16384;
    assert Power128(4) == 16384 * 16384 by {
      assert Power128(4) == 128 * (128 * Power128(2));
    }
    assert Power128(8) == Power128(4) * Power128(4) by {
      assert Power128(8) == 128 * (128 * (128 * (128 * Power128(4))));
    }
    assert Power128(10) == 128 * (128 * Power128(8));
    VarintCanonical(n, 10);
  }

  /** The loop of the program: seven bits at a time into the buffer. */
  method WriteVarint(n0: nat, out0: Bytes) returns (out: Bytes)
    requires n0 < U64_LIMIT
    ensures out == out0 + Varint(n0)
  {
    var n := n0;
    out := out0;
    while n >= 0x80
      invariant out + Varint(n) == out0 + Varint(n0)
      decreases n
    {
      // The low byte with its top bit set keeps the low seven bits of n.
      assert out + Varint(n) == out + [n % 128 + 128] + Varint(n / 128);
      out := out + [n % 128 + 128];
      n := n / 128;
    }
    out := out + [n];
  }

  // ---- length-delimited fields ----

  function Field(number: nat, payload: Bytes): Bytes {
    Varint(8 * number + LENGTH_DELIMITED) + Varint(|payload|) + payload
  }

  /** Reads one length-delimited field off the front: its number, its payload, the rest. */
  function ReadField(b: Bytes): Option<(nat, Bytes, Bytes)> {
    match ReadVarint(b)
    case None => None
    case Some((tag, afterTag)) =>
      if tag % 8 != LENGTH_DELIMITED then None
      else match ReadVarint(afterTag)
        case None => None
        case Some((len, body)) => if len > |body| then None else Some((tag / 8, body[..len], body[len..]))
  }

  lemma FieldRoundTrip(number: nat, payload: Bytes, rest: Bytes)
    ensures ReadField(Field(number, payload) + rest) == Some((number, payload, rest))
  {
    var tag := 8 * number + LENGTH_DELIMITED;
    var body := payload + rest;
    assert Field(number, payload) + rest == Varint(tag) + (Varint(|payload|) + body);
    VarintRoundTrip(tag, Varint(|payload|) + body);
    VarintRoundTrip(|payload|, body);
    assert body[..|payload|] == payload && body[|payload|..] == rest;
    assert tag % 8 == LENGTH_DELIMITED && tag / 8 == number;
  }

  method PushLenDelimitedField(number: nat, payload: Bytes, out0: Bytes) returns (out: Bytes)
    requires 0 < number < 190 && |payload| < U64_LIMIT
    ensures out == out0 + Field(number, payload)
  {
    var tag := 8 * number + LENGTH_DELIMITED;
    out := WriteVarint(tag, out0);
    out := WriteVarint(|payload|, out);
    out := out + payload;
    assert out == out0 + (Varint(tag) + Varint(|payload|) + payload);
  }

  // ---- the message ----

  function Checkout(operationId: Bytes, workspaceName: Bytes): Bytes {
    Field(OPERATION_ID_FIELD, operationId) + Field(WORKSPACE_NAME_FIELD, workspaceName)
  }

  /** Reads the two fields in order; whatever follows is returned unread. */
  function ReadCheckout(b: Bytes): Option<(Bytes, Bytes, Bytes)> {
    match ReadField(b)
    case None => None
    case Some((first, operationId, afterFirst)) =>
      match ReadField(afterFirst)
      case None => None
      case Some((second, name, rest)) =>
        if first == OPERATION_ID_FIELD && second == WORKSPACE_NAME_FIELD then Some((operationId, name, rest)) else None
  }

  method EncodeCheckoutProto(operationId: Bytes, workspaceName: Bytes) returns (out: Bytes)
    requires operationId != [] && workspaceName != []
    requires |operationId| < U64_LIMIT && |workspaceName| < U64_LIMIT
    ensures out == Checkout(operationId, workspaceName)
    ensures out == [0x12] + Varint(|operationId|) + operationId + [0x1a] + Varint(|workspaceName|) + workspaceName
    ensures forall rest: Bytes :: ReadCheckout(out + rest) == Some((operationId, workspaceName, rest))
  {
    out := PushLenDelimitedField(OPERATION_ID_FIELD, operationId, []);
    out := PushLenDelimitedField(WORKSPACE_NAME_FIELD, workspaceName, out);
    assert out == Checkout(operationId, workspaceName);
    forall rest: Bytes ensures ReadCheckout(out + rest) == Some((operationId, workspaceName, rest)) {
      CheckoutRoundTrip(operationId, workspaceName, rest);
      assert out == Checkout(operationId, workspaceName);
    }
  }

  /** Operation id and workspace name come back, whatever bytes follow. */
  lemma CheckoutRoundTrip(operationId: Bytes, workspaceName: Bytes, rest: Bytes)
    ensures ReadCheckout(Checkout(operationId, workspaceName) + rest) == Some((operationId, workspaceName, rest))
  {
    var second := Field(WORKSPACE_NAME_FIELD, workspaceName) + rest;
    assert Checkout(operationId, workspaceName) + rest == Field(OPERATION_ID_FIELD, operationId) + second;
    FieldRoundTrip(OPERATION_ID_FIELD, operationId, second);
    FieldRoundTrip(WORKSPACE_NAME_FIELD, workspaceName, rest);
  }
}
