/** Operation files: ids, their hex file names, and the parent links their content decodes to. */
module OperationStore {
  import opened Results
  import opened Paths

  type Byte = x: int | 0 <= x < 256
  type Bytes = seq<Byte>

  /** One past the largest u64. */
  const U64_LIMIT: nat := 0x1_0000_0000_0000_0000

  /** What the protobuf decoder yields of an operation file. */
  datatype Operation = Operation(parents: seq<Bytes>, view: Bytes)

  /** The protobuf decoder of jj-lib; nothing here depends on how it works. */
  type Decoder = Bytes -> Option<Operation>

  const OPERATION_ID_BYTES: nat := 64
  const OPERATION_ID_HEX_CHARS: nat := 128

  const OP_PREFIX: string := "op_store/operations/"
  const VIEW_PREFIX: string := "op_store/views/"
  const HEAD_PREFIX: string := "op_heads/heads/"

  // ---- hex ----

  function HexDigit(n: int): (c: char)
    requires 0 <= n < 16
    ensures '0' <= c <= '9' || 'a' <= c <= 'f'
  {
    if n < 10 then '0' + n as char else 'a' + (n - 10) as char
  }

  function HexEncode(b: Bytes): (s: string)
    ensures |s| == 2 * |b|
    ensures forall c | c in s :: '0' <= c <= '9' || 'a' <= c <= 'f'
  {
    if b == [] then []
    else [HexDigit(b[0] / 16), HexDigit(b[0] % 16)] + HexEncode(b[1..])
  }

  /** The number that a hex digit stands for. */
  function HexValue(c: char): (v: nat)
    requires '0' <= c <= '9' || 'a' <= c <= 'f'
    ensures v < 16
  {
    if c <= '9' then c as int - '0' as int else 10 + c as int - 'a' as int
  }

  /** Two digits for each byte, in order, the high half first. */
  lemma {:induction false} HexEncodeDigits(b: Bytes, i: nat)
    requires i < |b|
    ensures var s := HexEncode(b);
            && s[2 * i] in s && s[2 * i + 1] in s
            && 16 * HexValue(s[2 * i]) + HexValue(s[2 * i + 1]) == b[i]
  {
    var s := HexEncode(b);
    if i > 0 {
      HexEncodeDigits(b[1..], i - 1);
      assert s[2 * i] == HexEncode(b[1..])[2 * (i - 1)] && s[2 * i + 1] == HexEncode(b[1..])[2 * (i - 1) + 1];
    }
  }

  lemma {:induction false} HexEncodeInjective(a: Bytes, b: Bytes)
    requires HexEncode(a) == HexEncode(b)
    ensures a == b
  {
    if a != [] && b != [] {
      var s, t := HexEncode(a), HexEncode(b);
      assert s[0] == t[0] && s[1] == t[1];
      assert s[2..] == HexEncode(a[1..]) && t[2..] == HexEncode(b[1..]);
      HexEncodeInjective(a[1..], b[1..]);
      assert a[0] == b[0];
      assert a == [a[0]] + a[1..] && b == [b[0]] + b[1..];
    }
  }

  predicate IsHexDigit(c: char) {
    '0' <= c <= '9' || 'a' <= c <= 'f' || 'A' <= c <= 'F'
  }

  predicate HexIdValid(s: string) {
    |s| == OPERATION_ID_HEX_CHARS && forall c | c in s :: IsHexDigit(c)
  }

  predicate AllZero(b: Bytes) {
    forall x | x in b :: x == 0
  }

  function OpPath(id: Bytes): Path {
    OP_PREFIX + HexEncode(id)
  }

  function ViewPath(id: Bytes): Path {
    VIEW_PREFIX + HexEncode(id)
  }

  lemma OpPathInjective(a: Bytes, b: Bytes)
    requires OpPath(a) == OpPath(b)
    ensures a == b
  {
    assert OpPath(a)[|OP_PREFIX|..] == HexEncode(a);
    assert OpPath(b)[|OP_PREFIX|..] == HexEncode(b);
    HexEncodeInjective(a, b);
  }

  // ---- kinds of paths the protocol reasons about ----

  predicate IsOp(p: Path) {
    OP_PREFIX <= p
  }

  predicate IsView(p: Path) {
    VIEW_PREFIX <= p
  }

  predicate IsHead(p: Path) {
    HEAD_PREFIX <= p
  }

  lemma KindsAreDisjoint(p: Path)
    ensures !(IsOp(p) && IsView(p)) && !(IsOp(p) && IsHead(p)) && !(IsView(p) && IsHead(p))
  {
    if IsOp(p) {
      assert p[9] == 'o';
    }
    if IsView(p) {
      assert p[9] == 'v' && p[3] == 's';
    }
    if IsHead(p) {
      assert p[3] == 'h';
    }
  }

  function HeadOp(h: Path): (p: Path)
    requires IsHead(h)
    ensures IsOp(p)
  {
    OP_PREFIX + h[|HEAD_PREFIX|..]
  }

  function HeadPath(op: Path): (h: Path)
    requires IsOp(op)
    ensures IsHead(h) && HeadOp(h) == op
  {
    var h := HEAD_PREFIX + op[|OP_PREFIX|..];
    assert h[|HEAD_PREFIX|..] == op[|OP_PREFIX|..];
    h
  }

  lemma HeadOpInjective(a: Path, b: Path)
    requires IsHead(a) && IsHead(b) && HeadOp(a) == HeadOp(b)
    ensures a == b
  {
    assert HeadOp(a)[|OP_PREFIX|..] == a[|HEAD_PREFIX|..];
    assert HeadOp(b)[|OP_PREFIX|..] == b[|HEAD_PREFIX|..];
    assert a == HEAD_PREFIX + a[|HEAD_PREFIX|..] && b == HEAD_PREFIX + b[|HEAD_PREFIX|..];
  }

  // ---- parents ----

  predicate Sound(op: Operation) {
    forall id | id in op.parents :: |id| == OPERATION_ID_BYTES
  }

  /** The operation in `content`, when it decodes and every parent id has the right length. */
  function Parse(decode: Decoder, content: Bytes): Option<Operation> {
    match decode(content)
    case None => None
    case Some(op) => if Sound(op) then Some(op) else None
  }

  /** The files an operation names as parents; the all-zero root operation is not a file. */
  function ParentsOf(op: Operation): (r: set<Path>)
    ensures forall q | q in r :: IsOp(q)
  {
    set id | id in op.parents && !AllZero(id) :: OpPath(id)
  }

  function ParentsIn(decode: Decoder, content: Bytes): (r: set<Path>)
    ensures forall q | q in r :: IsOp(q)
  {
    var op := Parse(decode, content);
    if op.Some? then ParentsOf(op.value) else {}
  }

  predicate Parses(files: map<Path, Bytes>, decode: Decoder, p: Path) {
    p in files && Parse(decode, files[p]).Some?
  }

  function ParentPaths(files: map<Path, Bytes>, decode: Decoder, p: Path): (r: set<Path>)
    ensures forall q | q in r :: IsOp(q)
  {
    if p in files then ParentsIn(decode, files[p]) else {}
  }

  lemma ZeroByIndex(id: Bytes)
    ensures AllZero(id) <==> forall i | 0 <= i < |id| :: id[i] == 0
  {
    if AllZero(id) {
      assert forall i | 0 <= i < |id| :: id[i] in id;
    }
  }

  /** The parent files of an operation on disk: it decodes, every parent id in it has 64 bytes, and each id
      with a byte other than zero stands for the file with its hex digits as name. */
  lemma ParentFiles(files: map<Path, Bytes>, decode: Decoder, p: Path, q: Path)
    ensures Parses(files, decode, p) <==>
              p in files && decode(files[p]).Some? && forall id | id in decode(files[p]).value.parents :: |id| == 64
    ensures q in ParentPaths(files, decode, p) <==>
              && Parses(files, decode, p)
              && exists id | id in decode(files[p]).value.parents ::
                   q == "op_store/operations/" + HexEncode(id) && exists i | 0 <= i < |id| :: id[i] != 0
  {
    if Parses(files, decode, p) {
      var op := decode(files[p]).value;
      forall id: Bytes ensures AllZero(id) <==> forall i | 0 <= i < |id| :: id[i] == 0 {
        ZeroByIndex(id);
      }
      assert ParentPaths(files, decode, p) == ParentsOf(op);
    }
  }

  /** An operation file is named by 128 hex digits in either case. */
  lemma OperationNames(s: string)
    ensures HexIdValid(s) <==> |s| == 128 && forall c | c in s :: c in "0123456789abcdefABCDEF"
  {
    forall c | c in s ensures IsHexDigit(c) <==> c in "0123456789abcdefABCDEF" {
      HexAlphabet(c);
    }
  }

  lemma HexAlphabet(c: char)
    ensures IsHexDigit(c) <==> c in "0123456789abcdefABCDEF"
  {
  }

  /** A head marker and the operation that it stands for have the same name, in two directories. */
  lemma HeadNamesOperation(name: string)
    ensures IsHead("op_heads/heads/" + name) && IsOp("op_store/operations/" + name)
    ensures HeadOp("op_heads/heads/" + name) == "op_store/operations/" + name
    ensures HeadPath("op_store/operations/" + name) == "op_heads/heads/" + name
  {
    var h, op := "op_heads/heads/" + name, "op_store/operations/" + name;
    assert h[|HEAD_PREFIX|..] == name && op[|OP_PREFIX|..] == name;
  }
}
