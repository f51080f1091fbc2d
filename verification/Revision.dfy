/** The bytes that the manifest revision hashes, and why they determine the rows. */
module Revision {
  import opened Paths
  import opened OperationStore
  import opened Toposort

  /** A manifest row with the hash as the 64 hex characters that are sent. */
  datatype Row = Row(path: Path, size: nat, sha256: string)

  const SHA256_HEX_CHARS: nat := 64

  predicate IsAscii(s: string) {
    forall c | c in s :: c < 128 as char
  }

  /** What the scan guarantees of a row: a safe, hence ASCII and NUL-free path, a 64-bit size, a hex hash. */
  predicate RowOk(r: Row) {
    && r.path != "" && IsAscii(r.path) && '\0' !in r.path
    && r.size < U64_LIMIT
    && |r.sha256| == SHA256_HEX_CHARS && IsAscii(r.sha256)
  }

  function AsciiBytes(s: string): (b: Bytes)
    requires IsAscii(s)
    ensures |b| == |s| && forall i | 0 <= i < |s| :: b[i] == s[i] as int
  {
    if s == [] then []
    else
      assert s[0] in s;
      assert forall c | c in s[1..] :: c in s;
      [s[0] as int] + AsciiBytes(s[1..])
  }

  lemma AsciiBytesInjective(s: string, t: string)
    requires IsAscii(s) && IsAscii(t) && AsciiBytes(s) == AsciiBytes(t)
    ensures s == t
  {
    forall i | 0 <= i < |s| ensures s[i] == t[i] {
      assert AsciiBytes(s)[i] == AsciiBytes(t)[i];
    }
  }

  /** `n` in `width` bytes, most significant first. */
  function BigEndian(n: nat, width: nat): (b: Bytes)
    ensures |b| == width
  {
    if width == 0 then [] else BigEndian(n / 256, width - 1) + [n % 256]
  }

  lemma {:induction false} BigEndianInjective(m: nat, n: nat, width: nat, limit: nat)
    requires m < limit && n < limit && limit == Power256(width)
    requires BigEndian(m, width) == BigEndian(n, width)
    ensures m == n
    decreases width
  {
    if width > 0 {
      var a, b := BigEndian(m / 256, width - 1), BigEndian(n / 256, width - 1);
      assert BigEndian(m, width)[width - 1] == m % 256 && BigEndian(n, width)[width - 1] == n % 256;
      assert BigEndian(m, width)[..width - 1] == a && BigEndian(n, width)[..width - 1] == b;
      assert limit == 256 * Power256(width - 1);
      BigEndianInjective(m / 256, n / 256, width - 1, Power256(width - 1));
    }
  }

  function Power256(width: nat): nat {
    if width == 0 then 1 else 256 * Power256(width - 1)
  }

  /** Path, NUL, size in eight bytes, NUL, hash, NUL. */
  function RowBytes(r: Row): Bytes
    requires RowOk(r)
  {
    AsciiBytes(r.path) + [0] + BigEndian(r.size, 8) + [0] + AsciiBytes(r.sha256) + [0]
  }

  /** The number that bytes stand for, most significant first. */
  function BytesValue(b: Bytes): nat {
    if b == [] then 0 else b[0] * Power256(|b| - 1) + BytesValue(b[1..])
  }

  lemma {:induction false} BytesValueAppend(b: Bytes, x: Byte)
    ensures BytesValue(b + [x]) == 256 * BytesValue(b) + x
  {
    var whole := b + [x];
    if b == [] {
      assert whole == [x] && whole[1..] == [];
      assert Power256(0) == 1;
    } else {
      BytesValueAppend(b[1..], x);
      assert whole[1..] == b[1..] + [x];
      assert Power256(|b|) == 256 * Power256(|b| - 1);
      assert b[0] * (256 * Power256(|b| - 1)) == 256 * (b[0] * Power256(|b| - 1));
    }
  }

  lemma {:induction false} BigEndianValue(n: nat, width: nat)
    requires n < Power256(width)
    ensures BytesValue(BigEndian(n, width)) == n
    decreases width
  {
    if width > 0 {
      assert Power256(width) == 256 * Power256(width - 1);
      BigEndianValue(n / 256, width - 1);
      BytesValueAppend(BigEndian(n / 256, width - 1), n % 256);
    } else {
      assert Power256(0) == 1;
    }
  }

  lemma EightBytesSuffice()
    ensures Power256(8) == U64_LIMIT
  {
    assert Power256(2) == 0x1_0000;
    assert Power256(4) == 0x1_0000_0000;
    assert Power256(6) == 0x1_0000_0000_0000;
  }

  /** A row's bytes, place by place: the characters of the path, a zero, the size in eight bytes, a zero, the
      64 characters of the hash, a zero. */
  lemma RowLayout(r: Row)
    requires RowOk(r)
    ensures var b, n := RowBytes(r), |r.path|;
            && |b| == n + 75
            && (forall i | 0 <= i < n :: b[i] == r.path[i] as int)
            && b[n] == 0 && BytesValue(b[n + 1..n + 9]) == r.size && b[n + 9] == 0
            && (forall i | 0 <= i < 64 :: b[n + 10 + i] == r.sha256[i] as int)
            && b[n + 74] == 0
  {
    var b, n := RowBytes(r), |r.path|;
    assert b[n + 1..n + 9] == BigEndian(r.size, 8);
    EightBytesSuffice();
    BigEndianValue(r.size, 8);
  }

  ghost predicate RowsOk(rows: seq<Row>) {
    forall r | r in rows :: RowOk(r)
  }

  ghost function PreImage(rows: seq<Row>): Bytes
    requires RowsOk(rows)
  {
    if rows == [] then [] else RowBytes(rows[0]) + PreImage(rows[1..])
  }

  lemma PreImageCons(r: Row, rows: seq<Row>)
    requires RowOk(r) && RowsOk(rows)
    ensures RowsOk([r] + rows) && PreImage([r] + rows) == RowBytes(r) + PreImage(rows)
  {
    assert ([r] + rows)[1..] == rows;
  }

  lemma {:induction false} PreImageAppend(rows: seq<Row>, r: Row)
    requires RowsOk(rows) && RowOk(r)
    ensures RowsOk(rows + [r]) && PreImage(rows + [r]) == PreImage(rows) + RowBytes(r)
  {
    if rows == [] {
      assert rows + [r] == [r];
    } else {
      PreImageAppend(rows[1..], r);
      assert rows + [r] == [rows[0]] + (rows[1..] + [r]);
      PreImageCons(rows[0], rows[1..] + [r]);
    }
  }

  // ---- sorting the rows ----

  ghost predicate PathsDistinct(rows: seq<Row>) {
    forall i, j | 0 <= i < j < |rows| :: rows[i].path != rows[j].path
  }

  function PathsOf(rows: seq<Row>): set<Path> {
    set r | r in rows :: r.path
  }

  function ByPath(rows: seq<Row>): (m: map<Path, Row>)
    requires PathsDistinct(rows)
    ensures m.Keys == PathsOf(rows)
    ensures forall r | r in rows :: m[r.path] == r
    ensures forall p | p in m :: m[p] in rows && m[p].path == p
  {
    map r | r in rows :: r.path := r
  }

  /** The rows in path order, as `sort_by` leaves them. */
  function SortRows(rows: seq<Row>): (r: seq<Row>)
    requires PathsDistinct(rows)
  {
    var paths := Sorted(PathsOf(rows));
    var rowAt := ByPath(rows);
    assert Elems(paths) == PathsOf(rows) by { SortedCorrect(PathsOf(rows)); }
    seq(|paths|, i requires 0 <= i < |paths| => assert paths[i] in Elems(paths); rowAt[paths[i]])
  }

  lemma SortRowsPermutes(rows: seq<Row>)
    requires PathsDistinct(rows)
    ensures Elems(SortRows(rows)) == Elems(rows)
    ensures multiset(SortRows(rows)) == multiset(rows)
    ensures forall i, j | 0 <= i < j < |SortRows(rows)| :: Less(SortRows(rows)[i].path, SortRows(rows)[j].path)
  {
    var paths, out := Sorted(PathsOf(rows)), SortRows(rows);
    SortedCorrect(PathsOf(rows));
    forall i | 0 <= i < |out| ensures out[i] in rows && out[i].path == paths[i] {
      assert paths[i] in Elems(paths);
    }
    forall r | r in rows ensures r in out {
      assert r.path in Elems(paths);
      var i :| 0 <= i < |paths| && paths[i] == r.path;
      assert out[i] == r;
    }
    DistinctMultisets(out, rows);
  }

  // ---- decoding ----

  lemma FirstNulAt(p: Bytes, x: Bytes)
    requires 0 !in p
    ensures var u := p + [0] + x; u[|p|] == 0 && forall i | 0 <= i < |p| :: u[i] != 0
  {
    var u := p + [0] + x;
    forall i | 0 <= i < |p| ensures u[i] != 0 {
      assert u[i] == p[i];
    }
  }

  lemma FirstNul(p: Bytes, x: Bytes, q: Bytes, y: Bytes)
    requires 0 !in p && 0 !in q && p + [0] + x == q + [0] + y
    ensures p == q && x == y
  {
    FirstNulAt(p, x);
    FirstNulAt(q, y);
    var u := p + [0] + x;
    assert |p| == |q|;
    assert u[..|p|] == p && u[..|q|] == q;
    assert u[|p| + 1..] == x && u[|q| + 1..] == y;
  }

  lemma RowDecodes(r: Row, s: Bytes, q: Row, t: Bytes)
    requires RowOk(r) && RowOk(q) && RowBytes(r) + s == RowBytes(q) + t
    ensures r == q && s == t
  {
    PathBytesNulFree(r);
    PathBytesNulFree(q);
    RowSplits(r, s);
    RowSplits(q, t);
    FirstNul(AsciiBytes(r.path), RowTail(r) + s, AsciiBytes(q.path), RowTail(q) + t);
    AsciiBytesInjective(r.path, q.path);
    TailDecodes(r, s, q, t);
  }

  /** What follows the path and its NUL. */
  function RowTail(r: Row): (tail: Bytes)
    requires RowOk(r)
  {
    BigEndian(r.size, 8) + [0] + AsciiBytes(r.sha256) + [0]
  }

  lemma RowSplits(r: Row, s: Bytes)
    requires RowOk(r)
    ensures RowBytes(r) + s == AsciiBytes(r.path) + [0] + (RowTail(r) + s)
  {
    assert RowBytes(r) == AsciiBytes(r.path) + [0] + RowTail(r);
  }

  lemma TailDecodes(r: Row, s: Bytes, q: Row, t: Bytes)
    requires RowOk(r) && RowOk(q) && RowTail(r) + s == RowTail(q) + t
    ensures r.size == q.size && r.sha256 == q.sha256 && s == t
  {
    var x, y := RowTail(r) + s, RowTail(q) + t;
    assert x[..8] == BigEndian(r.size, 8) && y[..8] == BigEndian(q.size, 8);
    BigEndianInjective(r.size, q.size, 8, U64_LIMIT);
    assert x[9..73] == AsciiBytes(r.sha256) && y[9..73] == AsciiBytes(q.sha256);
    AsciiBytesInjective(r.sha256, q.sha256);
    assert x[74..] == s && y[74..] == t;
  }

  lemma PathBytesNulFree(r: Row)
    requires RowOk(r)
    ensures 0 !in AsciiBytes(r.path)
  {
    var b := AsciiBytes(r.path);
    forall i | 0 <= i < |b| ensures b[i] != 0 {
      assert r.path[i] in r.path;
    }
  }

  lemma {:induction false} PreImageDecodes(xs: seq<Row>, ys: seq<Row>)
    requires RowsOk(xs) && RowsOk(ys) && PreImage(xs) == PreImage(ys)
    ensures xs == ys
  {
    if xs != [] && ys != [] {
      RowDecodes(xs[0], PreImage(xs[1..]), ys[0], PreImage(ys[1..]));
      PreImageDecodes(xs[1..], ys[1..]);
      assert xs == [xs[0]] + xs[1..] && ys == [ys[0]] + ys[1..];
    }
  }

  ghost predicate Hashable(rows: seq<Row>) {
    RowsOk(rows) && PathsDistinct(rows)
  }

  ghost function RevisionInput(rows: seq<Row>): Bytes
    requires Hashable(rows)
  {
    SortRowsPermutes(rows);
    assert RowsOk(SortRows(rows)) by {
      forall r | r in SortRows(rows) ensures RowOk(r) {
        assert r in Elems(SortRows(rows));
      }
    }
    PreImage(SortRows(rows))
  }

  /** Two manifests hash the same bytes if and only if their rows are the same up to order. */
  lemma RevisionDetermined(a: seq<Row>, b: seq<Row>)
    requires Hashable(a) && Hashable(b)
    ensures RevisionInput(a) == RevisionInput(b) <==> multiset(a) == multiset(b)
  {
    SortRowsPermutes(a);
    SortRowsPermutes(b);
    if multiset(a) == multiset(b) {
      DistinctMultisets(a, b);
      assert forall r :: r in a <==> r in Elems(a);
      assert forall r :: r in b <==> r in Elems(b);
      assert PathsOf(a) == PathsOf(b);
      assert ByPath(a) == ByPath(b);
      assert SortRows(a) == SortRows(b);
    }
    if RevisionInput(a) == RevisionInput(b) {
      forall r | r in SortRows(a) ensures RowOk(r) {
        assert r in Elems(SortRows(a));
      }
      forall r | r in SortRows(b) ensures RowOk(r) {
        assert r in Elems(SortRows(b));
      }
      PreImageDecodes(SortRows(a), SortRows(b));
    }
  }

  // ---- the loop of the program ----

  /** Feeds one row: six updates. */
  method FeedRow(fed0: Bytes, e: Row) returns (fed: Bytes)
    requires RowOk(e)
    ensures fed == fed0 + RowBytes(e)
  {
    fed := fed0 + AsciiBytes(e.path);
    fed := fed + [0];
    fed := fed + BigEndian(e.size, 8);
    fed := fed + [0];
    fed := fed + AsciiBytes(e.sha256);
    fed := fed + [0];
  }

  /** Feeds the rows to the hasher one after the other; the result is everything it was fed. */
  method FeedHasher(rows: seq<Row>) returns (fed: Bytes)
    requires Hashable(rows)
    ensures fed == RevisionInput(rows)
  {
    SortRowsPermutes(rows);
    var sorted := SortRows(rows);
    forall r | r in sorted ensures RowOk(r) {
      assert r in Elems(sorted);
    }
    fed := [];
    for i := 0 to |sorted|
      invariant RowsOk(sorted[..i]) && fed == PreImage(sorted[..i])
    {
      PreImageAppend(sorted[..i], sorted[i]);
      assert sorted[..i + 1] == sorted[..i] + [sorted[i]];
      fed := FeedRow(fed, sorted[i]);
    }
    assert sorted[..|sorted|] == sorted;
  }
}
