/** Which relative paths may be placed under `mirror/`, and what becomes of white space around them. */
module MirrorPath {
  import opened Results
  import opened Paths

  /** A path below the root, segment by segment. */
  type Rel = seq<string>

  const MAX_JJ_REL_PATH_BYTES: nat := 4096

  function Slash(rel: Rel): Path {
    if rel == [] then "" else if |rel| == 1 then rel[0] else Slash(rel[..|rel| - 1]) + "/" + rel[|rel| - 1]
  }

  predicate IsName(name: string) {
    name != "" && '/' !in name
  }

  predicate SafeChar(c: char) {
    'a' <= c <= 'z' || 'A' <= c <= 'Z' || '0' <= c <= '9' || c == '_' || c == '-' || c == '.'
  }

  predicate SafeSegment(seg: string) {
    seg != "" && seg != "." && seg != ".." && forall c | c in seg :: SafeChar(c)
  }

  predicate SafeRel(rel: Rel) {
    rel != [] && |Slash(rel)| <= MAX_JJ_REL_PATH_BYTES && forall s | s in rel :: SafeSegment(s)
  }

  // ---- splitting and joining ----

  /** Splits at every slash; there is one segment more than there are slashes. */
  function Split(s: string): (r: Rel)
    ensures r != []
  {
    if s == "" then [""]
    else
      var front := Split(s[..|s| - 1]);
      if s[|s| - 1] == '/' then front + [""]
      else front[..|front| - 1] + [front[|front| - 1] + [s[|s| - 1]]]
  }

  lemma {:induction false} SplitSlash(s: string)
    ensures Slash(Split(s)) == s
  {
    if s != "" {
      var front := Split(s[..|s| - 1]);
      SplitSlash(s[..|s| - 1]);
      assert s == s[..|s| - 1] + [s[|s| - 1]];
      if s[|s| - 1] == '/' {
        assert (front + [""])[..|front|] == front;
      } else {
        var last := front[|front| - 1];
        var r := front[..|front| - 1] + [last + [s[|s| - 1]]];
        assert r[..|r| - 1] == front[..|front| - 1];
      }
    }
  }

  lemma {:induction false} SplitOneSegment(s: string)
    requires '/' !in s
    ensures Split(s) == [s]
  {
    if s != "" {
      SplitOneSegment(s[..|s| - 1]);
      assert s == s[..|s| - 1] + [s[|s| - 1]];
    }
  }

  lemma {:induction false} SplitAppend(a: string, x: string)
    requires '/' !in x
    ensures Split(a + "/" + x) == Split(a) + [x]
    decreases |x|
  {
    var s := a + "/" + x;
    if x == "" {
      assert s[..|s| - 1] == a;
    } else {
      var front := x[..|x| - 1];
      assert s[..|s| - 1] == a + "/" + front;
      SplitAppend(a, front);
      assert x == front + [x[|x| - 1]];
    }
  }

  /** Joining segments and splitting the path gives the segments back. */
  lemma {:induction false} SlashSplit(rel: Rel)
    requires rel != [] && forall s | s in rel :: '/' !in s
    ensures Split(Slash(rel)) == rel
    decreases |rel|
  {
    if |rel| == 1 {
      SplitOneSegment(rel[0]);
    } else {
      var front, last := rel[..|rel| - 1], rel[|rel| - 1];
      SlashSplit(front);
      SplitAppend(Slash(front), last);
      assert rel == front + [last];
    }
  }

  /** Different files never share a slash path. */
  lemma SlashInjective(a: Rel, b: Rel)
    requires a != [] && b != [] && (forall s | s in a :: IsName(s)) && (forall s | s in b :: IsName(s))
    requires Slash(a) == Slash(b)
    ensures a == b
  {
    SlashSplit(a);
    SlashSplit(b);
  }

  lemma {:induction false} SlashPrefix(rel: Rel, k: nat)
    requires 1 <= k <= |rel|
    ensures Slash(rel[..k]) <= Slash(rel)
    ensures k < |rel| ==> Slash(rel[..k]) + "/" <= Slash(rel)
    decreases |rel|
  {
    if k == |rel| {
      assert rel[..k] == rel;
    } else {
      var front := rel[..|rel| - 1];
      SlashPrefix(front, k);
      assert front[..k] == rel[..k];
    }
  }

  /** The segments after one more character. */
  function Grow(r: Rel, c: char): Rel
    requires r != []
  {
    if c == '/' then r + [""] else r[..|r| - 1] + [r[|r| - 1] + [c]]
  }

  lemma GrowJoined(x: Rel, y: Rel, c: char)
    requires y != []
    ensures Grow(x + y, c) == x + Grow(y, c)
  {
    assert (x + y)[|x + y| - 1] == y[|y| - 1];
    assert (x + y)[..|x + y| - 1] == x + y[..|y| - 1];
  }

  lemma SplitNext(s: string, c: char)
    ensures Split(s + [c]) == Grow(Split(s), c)
  {
    assert (s + [c])[..|s + [c]| - 1] == s;
  }

  lemma SplitJoinNext(a: string, t: string, c: char)
    requires Split(a + "/" + t) == Split(a) + Split(t)
    ensures Split(a + "/" + t + [c]) == Split(a) + Split(t + [c])
  {
    SplitNext(t, c);
    SplitNext(a + "/" + t, c);
    GrowJoined(Split(a), Split(t), c);
  }

  lemma {:induction false} SplitJoin(a: string, t: string)
    ensures Split(a + "/" + t) == Split(a) + Split(t)
    decreases |t|
  {
    if t == "" {
      SplitAppend(a, "");
    } else {
      var front := t[..|t| - 1];
      assert t == front + [t[|t| - 1]];
      SplitJoin(a, front);
      SplitJoinNext(a, front, t[|t| - 1]);
      assert a + "/" + t == a + "/" + front + [t[|t| - 1]];
    }
  }

  predicate Slashless(rel: Rel) {
    rel != [] && forall s | s in rel :: '/' !in s
  }

  lemma SamePathSameSegments(rel: Rel, other: Rel)
    requires Slashless(rel) && Slashless(other)
    ensures Slash(rel) == Slash(other) <==> rel == other
  {
    SlashSplit(rel);
    SlashSplit(other);
  }

  lemma ContinuesSegments(rel: Rel, dir: Rel, t: string)
    requires Slashless(rel) && Slashless(dir) && Slash(rel) == Slash(dir) + "/" + t
    ensures rel == dir + Split(t)
  {
    SplitJoin(Slash(dir), t);
    SlashSplit(rel);
    SlashSplit(dir);
  }

  lemma PrefixRest(d: string, p: string) returns (t: string)
    requires d <= p
    ensures p == d + t
  {
    t := p[|d|..];
  }

  lemma BeginsAsJoined(rel: Rel, dir: Rel)
    requires Slashless(rel) && Slashless(dir) && Slash(dir) + "/" <= Slash(rel)
    ensures |dir| < |rel| && rel[..|dir|] == dir
  {
    var t := PrefixRest(Slash(dir) + "/", Slash(rel));
    ContinuesSegments(rel, dir, t);
  }

  /** A path begins with another one and a slash exactly if its segments continue the other's. */
  lemma BeginsWithSegments(rel: Rel, dir: Rel)
    requires Slashless(rel) && Slashless(dir)
    ensures Slash(dir) + "/" <= Slash(rel) <==> |dir| < |rel| && rel[..|dir|] == dir
  {
    if |dir| < |rel| && rel[..|dir|] == dir {
      SlashPrefix(rel, |dir|);
    } else if Slash(dir) + "/" <= Slash(rel) {
      BeginsAsJoined(rel, dir);
    }
  }

  lemma SlashOfTwo(a: string, b: string)
    ensures Slash([a, b]) == a + "/" + b
  {
    assert [a, b][..1] == [a];
  }

  lemma SlashOfThree(a: string, b: string, c: string)
    ensures Slash([a, b, c]) == a + "/" + b + "/" + c
  {
    assert [a, b, c][..2] == [a, b];
    SlashOfTwo(a, b);
  }

  /** Every character of a path is a slash or belongs to a segment; a slash at either end makes an empty
      segment there. */
  lemma {:induction false} SplitCovers(s: string)
    ensures forall c | c in s :: c == '/' || exists seg | seg in Split(s) :: c in seg
    ensures s != "" && s[0] == '/' ==> Split(s)[0] == ""
    ensures s != "" && s[|s| - 1] == '/' ==> "" in Split(s)
  {
    if s != "" {
      var front, last := s[..|s| - 1], s[|s| - 1];
      SplitCovers(front);
      var before, after := Split(front), Split(s);
      forall c | c in s ensures c == '/' || exists seg | seg in after :: c in seg {
        if c in front && c != '/' {
          var seg :| seg in before && c in seg;
          var k :| 0 <= k < |before| && before[k] == seg;
          assert c in after[k];
        } else if c == last && c != '/' {
          assert c in after[|after| - 1];
        }
      }
      if last == '/' {
        assert after[|after| - 1] == "";
      }
    }
  }

  lemma {:induction false} SplitIsSlashless(s: string)
    ensures Slashless(Split(s))
  {
    if s != "" {
      var front, c := s[..|s| - 1], s[|s| - 1];
      SplitIsSlashless(front);
      var r := Split(front);
      assert r[|r| - 1] in r;
      forall seg | seg in Split(s) ensures '/' !in seg {
        if seg !in r && c != '/' {
          assert seg == r[|r| - 1] + [c];
        }
      }
    }
  }

  /** The segments have no characters but those of the path. */
  lemma {:induction false} SplitWithin(s: string, seg: string, c: char)
    requires seg in Split(s) && c in seg
    ensures c in s
  {
    if s != "" {
      var front := s[..|s| - 1];
      var r := Split(front);
      assert s == front + [s[|s| - 1]];
      if seg in r {
        SplitWithin(front, seg, c);
      } else if s[|s| - 1] != '/' && c != s[|s| - 1] {
        assert seg == r[|r| - 1] + [s[|s| - 1]];
        assert r[|r| - 1] in r && c in r[|r| - 1];
        SplitWithin(front, r[|r| - 1], c);
      }
    }
  }

  // ---- parse_safe_mirror_rel ----

  predicate IsWhite(c: char) {
    var n := c as int;
    || 0x9 <= n <= 0xD || n == 0x20 || n == 0x85 || n == 0xA0 || n == 0x1680 || 0x2000 <= n <= 0x200A
    || n == 0x2028 || n == 0x2029 || n == 0x202F || n == 0x205F || n == 0x3000
  }

  const WHITE_SPACE: set<int> := {
    0x9, 0xA, 0xB, 0xC, 0xD, 0x20, 0x85, 0xA0, 0x1680, 0x2000, 0x2001, 0x2002, 0x2003, 0x2004, 0x2005, 0x2006, 0x2007, 0x2008,
    0x2009, 0x200A, 0x2028, 0x2029, 0x202F, 0x205F, 0x3000
  }

  /** White space is the 25 characters with the Unicode property of that name. */
  lemma WhiteSpaceListed(c: char)
    ensures IsWhite(c) <==> c as int in WHITE_SPACE
  {
  }

  function TrimStart(s: string): string {
    if s != "" && IsWhite(s[0]) then TrimStart(s[1..]) else s
  }

  function TrimEnd(s: string): string {
    if s != "" && IsWhite(s[|s| - 1]) then TrimEnd(s[..|s| - 1]) else s
  }

  function Trim(s: string): string {
    TrimEnd(TrimStart(s))
  }

  /** The mirror path that a client-supplied path stands for, if it is acceptable. */
  function ParseSafeMirrorRel(raw: string): (p: Option<Path>)
    ensures p.Some? ==> SafePath(p.value)
  {
    var rel := Trim(raw);
    SplitSlash(rel);
    if rel == "" || |rel| > MAX_JJ_REL_PATH_BYTES then None
    else if forall seg | seg in Split(rel) :: SafeSegment(seg) then Some(rel)
    else None
  }

  /** A path that stands for itself. */
  predicate SafePath(p: Path) {
    SafeRel(Split(p))
  }

  /** A path that the rule accepts, if need be after trimming. */
  predicate Acceptable(p: Path) {
    ParseSafeMirrorRel(p).Some?
  }

  lemma SafeIsInk(seg: string)
    requires SafeSegment(seg)
    ensures '/' !in seg && '\\' !in seg && forall c | c in seg :: !IsWhite(c)
  {
  }

  /** A path put together from safe segments is a safe path. */
  lemma SafeJoin(rel: Rel)
    requires SafeRel(rel)
    ensures SafePath(Slash(rel))
  {
    forall s | s in rel ensures '/' !in s {
      SafeIsInk(s);
    }
    SlashSplit(rel);
  }

  /** Every character of a safe path is a slash or a safe character, and neither end is a slash. */
  lemma SafePathChars(p: Path)
    requires SafePath(p)
    ensures p != "" && p[0] != '/' && p[|p| - 1] != '/'
    ensures forall c | c in p :: c == '/' || SafeChar(c)
  {
    SplitCovers(p);
    assert Split(p)[0] in Split(p);
    forall c | c in p && c != '/' ensures SafeChar(c) {
      var seg :| seg in Split(p) && c in seg;
      assert SafeSegment(seg);
    }
  }

  lemma SafeIsTrimmed(p: Path)
    requires SafePath(p)
    ensures Trim(p) == p
  {
    SafePathChars(p);
    assert p[0] in p && p[|p| - 1] in p;
  }

  /** The rule accepts what is safe after trimming. An accepted path is stored under its own name if and
      only if trimming leaves it alone; otherwise it ends up under another one. */
  lemma StoredAsItself(p: Path)
    ensures SafePath(p) <==> Acceptable(p) && Trim(p) == p
    ensures Acceptable(p) <==> SafePath(Trim(p))
    ensures Acceptable(p) ==> (ParseSafeMirrorRel(p).value == p <==> SafePath(p))
  {
    SplitSlash(p);
    SplitSlash(Trim(p));
    if SafePath(p) {
      SafeIsTrimmed(p);
      SafePathChars(p);
    }
    if SafePath(Trim(p)) {
      SafePathChars(Trim(p));
    }
  }

  /** A safe name with a blank behind it is accepted and stored without the blank. */
  lemma BlankIsDropped(name: string)
    requires SafeSegment(name) && |name| <= MAX_JJ_REL_PATH_BYTES
    ensures ParseSafeMirrorRel(name + " ") == Some(name)
  {
    var raw := name + [' '];
    assert raw[0] in name && raw[..|raw| - 1] == name;
    SafeJoin([name]);
    SafeIsTrimmed(name);
    SafeIsInk(name);
    assert TrimStart(raw) == raw && TrimStart(name) == name;
    assert TrimEnd(raw) == TrimEnd(name);
    StoredAsItself(raw);
  }

  lemma TrimKeepsInk(s: string, c: char)
    requires c in s && !IsWhite(c)
    ensures c in Trim(s)
  {
    TrimStartKeepsInk(s, c);
    TrimEndKeepsInk(TrimStart(s), c);
  }

  lemma {:induction false} TrimStartKeepsInk(s: string, c: char)
    requires c in s && !IsWhite(c)
    ensures c in TrimStart(s)
  {
    if IsWhite(s[0]) {
      assert s == [s[0]] + s[1..];
      TrimStartKeepsInk(s[1..], c);
    }
  }

  lemma {:induction false} TrimEndKeepsInk(s: string, c: char)
    requires c in s && !IsWhite(c)
    ensures c in TrimEnd(s)
  {
    if IsWhite(s[|s| - 1]) {
      assert s == s[..|s| - 1] + [s[|s| - 1]];
      TrimEndKeepsInk(s[..|s| - 1], c);
    }
  }

  /** One odd character is enough for a path to be refused. */
  lemma OddCharRefused(p: Path, c: char)
    requires c in p && c != '/' && !SafeChar(c) && !IsWhite(c)
    ensures !Acceptable(p)
  {
    TrimKeepsInk(p, c);
    StoredAsItself(p);
    if Acceptable(p) {
      SafePathChars(Trim(p));
    }
  }

  const CAPITALS: string := "ABCDEFGHIJKLMNOPQRSTUVWXYZ"
  const SMALLS: string := "abcdefghijklmnopqrstuvwxyz"
  const OTHERS: string := "0123456789._-"

  lemma Capital(c: char)
    ensures 'A' <= c <= 'Z' <==> c in CAPITALS
  {
  }

  lemma Small(c: char)
    ensures 'a' <= c <= 'z' <==> c in SMALLS
  {
  }

  lemma SafeAlphabet(c: char)
    ensures SafeChar(c) <==> c in CAPITALS || c in SMALLS || c in OTHERS
  {
    Capital(c);
    Small(c);
  }

  /** `rel` are the segments of an acceptable path: none is empty or a dot entry, and all characters are letters,
      digits, dots, underscores and hyphens. */
  predicate PlainSegments(rel: Rel) {
    rel != [] && forall s | s in rel :: s != "" && s != "." && s != ".." && forall c | c in s :: c in CAPITALS || c in SMALLS || c in OTHERS
  }

  /** A safe path is a join of such segments with at most 4096 characters in all. */
  lemma SafePathIsJoin(p: Path)
    ensures SafePath(p) <==> |p| <= 4096 && exists rel :: PlainSegments(rel) && Slash(rel) == p
  {
    SplitSlash(p);
    if SafePath(p) {
      SafeSegmentsArePlain(Split(p));
      assert PlainSegments(Split(p)) && Slash(Split(p)) == p;
    }
    if rel :| PlainSegments(rel) && Slash(rel) == p {
      if |p| <= 4096 {
        SafeSegmentsArePlain(rel);
        SafeJoin(rel);
      }
    }
  }

  lemma SafeSegmentsArePlain(rel: Rel)
    requires rel != []
    ensures PlainSegments(rel) <==> forall s | s in rel :: SafeSegment(s)
  {
    forall s, c | s in rel && c in s ensures SafeChar(c) <==> c in CAPITALS || c in SMALLS || c in OTHERS {
      SafeAlphabet(c);
    }
  }
}
