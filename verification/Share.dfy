/**
  Paths and names of the shared folder (crates/rivetlink-sdk/src/share.rs and the naming in
  crates/rivetlink-agent/src/console/shared_folder.rs).
 */
module Share {
  import opened Common

  const FILE_CHUNK_BYTES := 192 * 1024
  const MAX_FILE_BYTES := 8 * 1024 * 1024 * 1024
  const MAX_PATH_BYTES := 1024
  const MAX_PATH_DEPTH := 32
  const MAX_COMPONENT_BYTES := 255
  const PART_SUFFIX := ".rivetlink-part"
  const MAX_CANDIDATES := 10_000

  /** The file system's own limit on one name, in bytes. */
  const NAME_MAX := 255

  // ---- relative paths ----

  /** Lengths count UTF-8 bytes. */
  function Bytes(s: string): nat {
    if s == [] then 0
    else
      var c := s[0] as int;
      (if c < 0x80 then 1 else if c < 0x800 then 2 else if c < 0x10000 then 3 else 4) + Bytes(s[1..])
  }

  predicate Control(c: char) {
    (c as int) < 0x20 || 0x7F <= c as int <= 0x9F
  }

  function Slash(s: string): (i: nat)
    ensures i <= |s| && '/' !in s[..i] && (i < |s| ==> s[i] == '/')
  {
    if s == [] || s[0] == '/' then 0
    else
      var i := Slash(s[1..]);
      assert s[..i + 1] == [s[0]] + s[1..][..i];
      i + 1
  }

  function Split(s: string): (parts: seq<string>)
    ensures parts != [] && forall p | p in parts :: '/' !in p
    decreases |s|
  {
    var i := Slash(s);
    if i == |s| then [s[..i]] else [s[..i]] + Split(s[i + 1..])
  }

  function Join(parts: seq<string>): string {
    if parts == [] then "" else if |parts| == 1 then parts[0] else parts[0] + "/" + Join(parts[1..])
  }

  /** Splitting loses nothing, and any list of names comes back. */
  lemma {:induction false} JoinOfSplit(s: string)
    ensures Join(Split(s)) == s
    decreases |s|
  {
    var i := Slash(s);
    if i == |s| {
      assert s[..i] == s;
    } else {
      var rest := s[i + 1..];
      var parts := Split(rest);
      JoinOfSplit(rest);
      assert Split(s) == [s[..i]] + parts && ([s[..i]] + parts)[1..] == parts;
      assert Join([s[..i]] + parts) == s[..i] + "/" + Join(parts);
      assert s == s[..i] + "/" + rest;
    }
  }

  lemma SlashOf(a: string, b: string)
    requires '/' !in a
    ensures Slash(a + "/" + b) == |a|
  {
    var s := a + "/" + b;
    assert s[|a|] == '/' && s[..|a|] == a;
  }

  lemma {:induction false} SplitOfJoin(parts: seq<string>)
    requires parts != [] && forall p | p in parts :: '/' !in p
    ensures Split(Join(parts)) == parts
  {
    assert parts[0] in parts;
    if |parts| == 1 {
      assert Slash(parts[0]) == |parts[0]| && parts[0][..|parts[0]|] == parts[0];
    } else {
      SplitOfJoin(parts[1..]);
      SlashOf(parts[0], Join(parts[1..]));
      var s := Join(parts);
      assert s[..|parts[0]|] == parts[0] && s[|parts[0]| + 1..] == Join(parts[1..]);
    }
  }

  predicate ValidComponent(part: string) {
    && part != "" && part != "." && part != ".." && Bytes(part) <= MAX_COMPONENT_BYTES
    && forall c | c in part :: !Control(c) && c != '\\' && c != ':'
  }

  function RelativeComponents(path: string): Option<seq<string>> {
    if path == "" || Bytes(path) > MAX_PATH_BYTES || path[0] == '/' then None
    else
      var components := Split(path);
      if |components| > MAX_PATH_DEPTH then None
      else if forall p | p in components :: ValidComponent(p) then Some(components)
      else None
  }

  /** Accepted paths are exactly the printed forms of short lists of valid names, so the names
      a request works with say all of its path and none of them leads up or away. */
  lemma AcceptedPaths(path: string, components: seq<string>)
    ensures RelativeComponents(path) == Some(components) <==>
              && path == Join(components) && 0 < |components| <= MAX_PATH_DEPTH && Bytes(path) <= MAX_PATH_BYTES
              && forall p | p in components :: ValidComponent(p) && '/' !in p
  {
    if RelativeComponents(path) == Some(components) {
      JoinOfSplit(path);
    } else if path == Join(components) && components != [] && forall p | p in components :: ValidComponent(p) && '/' !in p {
      SplitOfJoin(components);
      assert components[0] in components && path[0] == components[0][0];
    }
  }

  // ---- names ----

  predicate EndsWith(s: string, suffix: string) {
    |suffix| <= |s| && s[|s| - |suffix|..] == suffix
  }

  predicate IsPartName(name: string) {
    EndsWith(name, PART_SUFFIX)
  }

  function Decimal(n: nat): (s: string)
    ensures s != []
  {
    (if n < 10 then [] else Decimal(n / 10)) + [('0' as int + n % 10) as char]
  }

  function PartName(name: string, id: nat): (part: string)
    ensures IsPartName(part)
  {
    "." + name + "." + Decimal(id) + PART_SUFFIX
  }

  // ---- lengths of names ----

  lemma {:induction false} BytesOfConcat(a: string, b: string)
    ensures Bytes(a + b) == Bytes(a) + Bytes(b)
  {
    if a == [] {
      assert a + b == b;
    } else {
      BytesOfConcat(a[1..], b);
      assert (a + b)[1..] == a[1..] + b;
    }
  }

  lemma {:induction false} AsciiBytes(s: string)
    requires forall c | c in s :: (c as int) < 0x80
    ensures Bytes(s) == |s|
  {
    if s != [] {
      assert s[0] in s && forall c | c in s[1..] :: c in s;
      AsciiBytes(s[1..]);
    }
  }

  lemma {:induction false} DecimalIsDigits(n: nat)
    ensures forall c | c in Decimal(n) :: '0' <= c <= '9'
  {
    if n >= 10 {
      DecimalIsDigits(n / 10);
    }
  }

  lemma DecimalBytes(n: nat)
    ensures Bytes(Decimal(n)) == |Decimal(n)| && (n < MAX_CANDIDATES ==> |Decimal(n)| <= 4)
  {
    DecimalIsDigits(n);
    AsciiBytes(Decimal(n));
    if n < MAX_CANDIDATES {
      assert |Decimal(n / 10 / 10 / 10)| == 1;
      assert |Decimal(n / 10 / 10)| <= 2;
      assert |Decimal(n / 10)| <= 3;
    }
  }

  /** The position of the last dot, or the length when there is none. */
  function LastDot(name: string): (d: nat)
    ensures d <= |name| && (d < |name| ==> name[d] == '.') && forall i | d < i < |name| :: name[i] != '.'
    ensures d == |name| ==> '.' !in name
  {
    if name == [] then 0
    else if Last(name) == '.' then |name| - 1
    else
      var d := LastDot(name[..|name| - 1]);
      if d == |name| - 1 then |name| else d
  }

  /** The name itself, then `stem (1).ext`, `stem (2).ext` and so on. */
  function Candidate(name: string, n: nat): string {
    var d := LastDot(name);
    if n == 0 then name
    else if 0 < d < |name| then name[..d] + " (" + Decimal(n) + ")." + name[d + 1..]
    else name + " (" + Decimal(n) + ")"
  }

  /** A number takes its digits, two brackets and a space. */
  lemma CandidateBytes(name: string, n: nat)
    requires n > 0
    ensures Bytes(Candidate(name, n)) == Bytes(name) + 3 + |Decimal(n)|
  {
    var d := LastDot(name);
    DecimalBytes(n);
    AsciiBytes(" (");
    if 0 < d < |name| {
      AsciiBytes(").");
      AsciiBytes(".");
      assert name == name[..d] + "." + name[d + 1..];
      BytesOfConcat(name[..d] + ".", name[d + 1..]);
      BytesOfConcat(name[..d], ".");
      BytesOfConcat(name[..d] + " (" + Decimal(n) + ").", name[d + 1..]);
      BytesOfConcat(name[..d] + " (" + Decimal(n), ").");
      BytesOfConcat(name[..d] + " (", Decimal(n));
      BytesOfConcat(name[..d], " (");
    } else {
      AsciiBytes(")");
      BytesOfConcat(name + " (" + Decimal(n), ")");
      BytesOfConcat(name + " (", Decimal(n));
      BytesOfConcat(name, " (");
    }
  }

  lemma PartNameBytes(name: string, id: nat)
    ensures Bytes(PartName(name, id)) == Bytes(name) + 17 + |Decimal(id)| && (Bytes(PartName(name, id)) <= NAME_MAX ==> Numberable(name))
  {
    DecimalBytes(id);
    AsciiBytes(".");
    assert forall c | c in PART_SUFFIX :: (c as int) < 0x80;
    AsciiBytes(PART_SUFFIX);
    BytesOfConcat("." + name + "." + Decimal(id), PART_SUFFIX);
    BytesOfConcat("." + name + ".", Decimal(id));
    BytesOfConcat("." + name, ".");
    BytesOfConcat(".", name);
  }

  /** Leaves room for the shortest part name. */
  predicate Numberable(name: string) {
    Bytes(name) + 18 <= NAME_MAX
  }

  /** Every candidate is shorter than any part name, so a name whose part file could be made
      can be numbered. */
  lemma NumberedFits(name: string, n: nat)
    requires Numberable(name) && n < MAX_CANDIDATES
    ensures Bytes(Candidate(name, n)) <= NAME_MAX
  {
    if n > 0 {
      CandidateBytes(name, n);
      DecimalBytes(n);
    }
  }

  lemma LastDotIs(s: string, d: nat)
    requires d < |s| && s[d] == '.' && forall i | d < i < |s| :: s[i] != '.'
    ensures LastDot(s) == d
  {
  }

  /** A part name is told by what follows its last dot. */
  lemma PartNameByExtension(s: string)
    ensures IsPartName(s) <==> s[LastDot(s)..] == PART_SUFFIX
  {
    assert PART_SUFFIX[0] == '.' && forall j | 0 < j < |PART_SUFFIX| :: PART_SUFFIX[j] != '.';
    if IsPartName(s) {
      var k := |s| - |PART_SUFFIX|;
      assert forall j | 0 <= j < |PART_SUFFIX| :: s[k + j] == PART_SUFFIX[j];
      assert forall i | k <= i < |s| :: s[i] == PART_SUFFIX[i - k];
      LastDotIs(s, k);
    }
  }

  /** No candidate for a final name looks like a part file. */
  lemma CandidateIsNoPart(name: string, n: nat)
    requires !IsPartName(name)
    ensures !IsPartName(Candidate(name, n))
  {
    var c, d := Candidate(name, n), LastDot(name);
    PartNameByExtension(name);
    PartNameByExtension(c);
    if n > 0 {
      if 0 < d < |name| {
        var k := |c| - (|name| - d);
        assert c[k..] == name[d..];
        assert forall i | k <= i < |c| :: c[i] == c[k..][i - k] == name[d..][i - k];
        LastDotIs(c, k);
      } else {
        assert Last(c) == ')' && Last(PART_SUFFIX) == 't';
      }
    }
  }
}
