/** The part of CPython 3.12's posix `pathlib` that chargraph.py relies on for
    naming its outputs: parsing a path string, `parent`, `name`, `stem`,
    `suffix`, `/` with one component, `with_suffix` and `str()`, plus `str()`
    of a non-negative int. */
module Paths {
  import opened Errors

  /** A pure posix path: its anchor ("", "/" or "//") and its components. */
  datatype PurePath = PurePath(root: string, parts: seq<string>)

  /** A component as pathlib stores it: never empty, never ".", no separator. */
  predicate IsComponent(c: string) {
    c != "" && c != "." && '/' !in c
  }

  predicate Normal(p: PurePath) {
    && (p.root == "" || p.root == "/" || p.root == "//")
    && forall k :: 0 <= k < |p.parts| ==> IsComponent(p.parts[k])
  }

  // ---------------------------------------------------------------------------
  // Parsing and printing

  /** `s.split('/')`. */
  function Split(s: string): (r: seq<string>)
    ensures |r| >= 1
    ensures forall k :: 0 <= k < |r| ==> '/' !in r[k]
    decreases |s|
  {
    if s == [] then [""]
    else
      var rest := Split(s[1..]);
      if s[0] == '/' then [""] + rest
      else [[s[0]] + rest[0]] + rest[1..]
  }

  /** Drops the empty and "." pieces, as pathlib does when it parses. */
  function Keep(pieces: seq<string>): (r: seq<string>)
    ensures forall k :: 0 <= k < |r| ==> r[k] in pieces && r[k] != "" && r[k] != "."
  {
    if pieces == [] then []
    else (if pieces[0] != "" && pieces[0] != "." then [pieces[0]] else []) + Keep(pieces[1..])
  }

  /** posixpath.splitroot: exactly two leading slashes are kept, one or three or more become one. */
  function RootOf(s: string): (root: string)
    ensures root == "" || root == "/" || root == "//"
    ensures |root| <= |s| && s[..|root|] == root
  {
    if |s| == 0 || s[0] != '/' then ""
    else if |s| >= 2 && s[1] == '/' && !(|s| >= 3 && s[2] == '/') then "//"
    else "/"
  }

  function Parse(s: string): (p: PurePath)
    ensures Normal(p)
  {
    var root := RootOf(s);
    var pieces := Split(s[|root|..]);
    PurePath(root, Keep(pieces))
  }

  /** `"/".join(parts)`. */
  function JoinParts(parts: seq<string>): string {
    if parts == [] then ""
    else if |parts| == 1 then parts[0]
    else parts[0] + "/" + JoinParts(parts[1..])
  }

  /** `str(path)`: the anchor followed by the components, or "." for the empty relative path. */
  function Render(p: PurePath): string {
    if p.root == "" && p.parts == [] then "." else p.root + JoinParts(p.parts)
  }

  function Name(p: PurePath): string {
    if p.parts == [] then "" else p.parts[|p.parts| - 1]
  }

  /** `path.parent`: the anchor and the path itself have no parent but themselves. */
  function Parent(p: PurePath): PurePath {
    if p.parts == [] then p else PurePath(p.root, p.parts[..|p.parts| - 1])
  }

  /** `path / name` for a name that is one component. */
  function Child(p: PurePath, name: string): PurePath {
    PurePath(p.root, p.parts + [name])
  }

  // ---------------------------------------------------------------------------
  // stem and suffix

  /** `s.rfind(c)`: the last index holding c, or -1. */
  function RFind(s: string, c: char): (i: int)
    ensures -1 <= i < |s|
    ensures i >= 0 ==> s[i] == c
    ensures i == -1 ==> c !in s
    ensures forall k :: i < k < |s| ==> s[k] != c
  {
    if s == [] then -1
    else if s[|s| - 1] == c then |s| - 1
    else RFind(s[..|s| - 1], c)
  }

  /** A final dot that is neither the first nor the last character starts the suffix. */
  predicate HasSuffix(name: string) {
    var i := RFind(name, '.');
    0 < i < |name| - 1
  }

  function Suffix(name: string): string {
    if HasSuffix(name) then name[RFind(name, '.')..] else ""
  }

  function Stem(name: string): string {
    if HasSuffix(name) then name[..RFind(name, '.')] else name
  }

  /** The suffixes `with_suffix` accepts: no separator, and either empty or
      a dot followed by at least one character. */
  predicate ValidSuffix(suffix: string) {
    '/' !in suffix && (suffix == "" || (suffix[0] == '.' && suffix != "."))
  }

  /** `path.with_suffix(suffix)`: a ValueError for an invalid suffix or a
      path with an empty name; otherwise the name's stem takes the new suffix. */
  function WithSuffix(path: string, suffix: string): (r: Result<string>)
    ensures r.Err? <==> !ValidSuffix(suffix) || Name(Parse(path)) == ""
    ensures r.Err? ==> r.error == ValueError
  {
    var p := Parse(path);
    var name := Name(p);
    if !ValidSuffix(suffix) || name == "" then Err(ValueError)
    else Ok(Render(Child(Parent(p), Stem(name) + suffix)))
  }

  // ---------------------------------------------------------------------------
  // Decimal digits

  function Digit(d: nat): (c: char)
    requires d < 10
    ensures '0' <= c <= '9'
  {
    (('0' as int) + d) as char
  }

  /** `str(n)` for a non-negative int. */
  function NatToString(n: nat): (s: string)
    ensures |s| >= 1
    ensures forall k :: 0 <= k < |s| ==> '0' <= s[k] <= '9'
  {
    if n < 10 then [Digit(n)] else NatToString(n / 10) + [Digit(n % 10)]
  }

  predicate AllDigits(s: string) {
    forall k :: 0 <= k < |s| ==> '0' <= s[k] <= '9'
  }

  /** `int(s)` for a non-empty string of digits. */
  function ParseNat(s: string): nat
    requires |s| >= 1 && AllDigits(s)
  {
    var d := (s[|s| - 1] as int) - ('0' as int);
    if |s| == 1 then d else ParseNat(s[..|s| - 1]) * 10 + d
  }

  lemma {:induction false} ParseNatOfNatToString(n: nat)
    ensures ParseNat(NatToString(n)) == n
  {
    if n >= 10 {
      var s := NatToString(n / 10);
      var t := s + [Digit(n % 10)];
      assert t[..|t| - 1] == s;
      ParseNatOfNatToString(n / 10);
    }
  }

  /** Distinct iteration numbers print differently. */
  lemma NatToStringInjective(a: nat, b: nat)
    requires NatToString(a) == NatToString(b)
    ensures a == b
  {
    ParseNatOfNatToString(a);
    ParseNatOfNatToString(b);
  }

  // ---------------------------------------------------------------------------
  // get_output_filename

  /** The file name that get_output_filename puts in the parent directory. */
  function IterationName(name: string, iteration: nat): string {
    Stem(name) + "_" + NatToString(iteration) + Suffix(name)
  }

  /** `str(path.parent / f"{path.stem}_{iteration}{path.suffix}")` for `path = Path(base)`. */
  function OutputFilename(base: string, iteration: nat): (r: string) {
    var path := Parse(base);
    Render(Child(Parent(path), IterationName(Name(path), iteration)))
  }

  /** What `str()` of a directory puts in front of a name joined onto it. */
  function DirPrefix(dir: PurePath): string {
    dir.root + (if dir.parts == [] then "" else JoinParts(dir.parts) + "/")
  }

  lemma {:induction false} JoinPartsSnoc(parts: seq<string>, x: string)
    ensures JoinParts(parts + [x]) == if parts == [] then x else JoinParts(parts) + "/" + x
  {
    if |parts| >= 2 {
      assert (parts + [x])[1..] == parts[1..] + [x];
      JoinPartsSnoc(parts[1..], x);
    } else if |parts| == 1 {
      assert (parts + [x])[1..] == [x];
    }
  }

  lemma RenderChild(dir: PurePath, name: string)
    requires name != ""
    ensures Render(Child(dir, name)) == DirPrefix(dir) + name
  {
    JoinPartsSnoc(dir.parts, name);
  }

  /** The output name is the base's directory, then the base's stem, an
      underscore, the iteration number in decimal and the base's suffix. */
  lemma OutputFilenameShape(base: string, iteration: nat)
    ensures OutputFilename(base, iteration)
         == DirPrefix(Parent(Parse(base))) + Stem(Name(Parse(base))) + "_"
            + NatToString(iteration) + Suffix(Name(Parse(base)))
  {
    var p := Parse(base);
    var n := Name(p);
    var m := IterationName(n, iteration);
    assert OutputFilename(base, iteration) == Render(Child(Parent(p), m));
    RenderChild(Parent(p), m);
    ConcatRegroup(DirPrefix(Parent(p)), Stem(n), NatToString(iteration), Suffix(n));
  }

  lemma ConcatRegroup(dir: string, st: string, d: string, suf: string)
    ensures dir + (st + "_" + d + suf) == dir + st + "_" + d + suf
  {
  }

  /** Distinct iterations never share an output file. */
  lemma OutputFilenamesDistinct(base: string, i: nat, j: nat)
    requires i != j
    ensures OutputFilename(base, i) != OutputFilename(base, j)
  {
    var n := Name(Parse(base));
    var front := DirPrefix(Parent(Parse(base))) + Stem(n) + "_";
    var di, dj := NatToString(i), NatToString(j);
    var suf := Suffix(n);
    OutputFilenameShape(base, i);
    OutputFilenameShape(base, j);
    if OutputFilename(base, i) == OutputFilename(base, j) {
      assert front + di + suf == front + dj + suf;
      assert |di| == |dj|;
      assert di == (front + di + suf)[|front|..|front| + |di|];
      assert dj == (front + dj + suf)[|front|..|front| + |dj|];
      NatToStringInjective(i, j);
    }
  }

  // ---------------------------------------------------------------------------
  // Parsing a printed path gives the path back

  lemma {:induction false} SplitPlain(a: string)
    requires '/' !in a
    ensures Split(a) == [a]
    decreases |a|
  {
    if a != [] {
      SplitPlain(a[1..]);
      assert [a[0]] + a[1..] == a;
    }
  }

  lemma {:induction false} SplitCons(a: string, b: string)
    requires '/' !in a
    ensures Split(a + "/" + b) == [a] + Split(b)
    decreases |a|
  {
    if a == [] {
      assert a + "/" + b == "/" + b;
      assert ("/" + b)[1..] == b;
    } else {
      var s := a + "/" + b;
      assert s[1..] == a[1..] + "/" + b;
      SplitCons(a[1..], b);
      assert [a[0]] + a[1..] == a;
    }
  }

  lemma {:induction false} SplitJoinParts(parts: seq<string>)
    requires parts != []
    requires forall k :: 0 <= k < |parts| ==> IsComponent(parts[k])
    ensures Split(JoinParts(parts)) == parts
  {
    if |parts| == 1 {
      SplitPlain(parts[0]);
    } else {
      SplitJoinParts(parts[1..]);
      SplitCons(parts[0], JoinParts(parts[1..]));
      assert [parts[0]] + parts[1..] == parts;
    }
  }

  lemma {:induction false} KeepComponents(parts: seq<string>)
    requires forall k :: 0 <= k < |parts| ==> IsComponent(parts[k])
    ensures Keep(parts) == parts
  {
    if parts != [] {
      KeepComponents(parts[1..]);
      assert [parts[0]] + parts[1..] == parts;
    }
  }

  lemma JoinPartsHead(parts: seq<string>)
    requires parts != [] && IsComponent(parts[0])
    ensures |JoinParts(parts)| >= 1 && JoinParts(parts)[0] == parts[0][0]
  {
  }

  /** `Path(str(p)) == p` for every path pathlib can produce. */
  lemma ParseRender(p: PurePath)
    requires Normal(p)
    ensures Parse(Render(p)) == p
  {
    var s := Render(p);
    if p.parts == [] {
      if p.root == "" {
        assert s == ".";
        assert Split(".") == ["."] by { SplitPlain("."); }
        assert RootOf(s) == "" && s[|RootOf(s)|..] == ".";
        assert Keep(["."]) == [];
      } else {
        assert s == p.root;
        assert RootOf(s) == p.root;
        assert s[|p.root|..] == "";
        assert Keep(Split("")) == [];
      }
    } else {
      var j := JoinParts(p.parts);
      JoinPartsHead(p.parts);
      assert s == p.root + j;
      assert RootOf(s) == p.root;
      assert s[|p.root|..] == j;
      SplitJoinParts(p.parts);
      KeepComponents(p.parts);
    }
  }

  lemma ComponentSlices(n: string)
    requires '/' !in n
    ensures '/' !in Stem(n) && '/' !in Suffix(n)
  {
    if HasSuffix(n) {
      var i := RFind(n, '.');
      assert forall k :: 0 <= k < i ==> Stem(n)[k] == n[k];
      assert forall k :: 0 <= k < |n| - i ==> Suffix(n)[k] == n[i + k];
    }
  }

  lemma IterationNameIsComponent(n: string, iteration: nat)
    requires n == "" || IsComponent(n)
    ensures IsComponent(IterationName(n, iteration))
  {
    ComponentSlices(n);
    var st, d, suf := Stem(n), NatToString(iteration), Suffix(n);
    var r := IterationName(n, iteration);
    assert r == st + "_" + d + suf;
    assert r[|st|] == '_';
    forall k | 0 <= k < |r|
      ensures r[k] != '/'
    {
      if k < |st| {
        assert r[k] == st[k];
      } else if k == |st| {
      } else if k < |st| + 1 + |d| {
        assert r[k] == d[k - |st| - 1];
      } else {
        assert r[k] == suf[k - |st| - 1 - |d|];
      }
    }
  }

  /** Parsing the output name gives back the base's directory, with the new name under it. */
  lemma OutputFilenameParsesBack(base: string, iteration: nat)
    ensures Parse(OutputFilename(base, iteration))
         == Child(Parent(Parse(base)), IterationName(Name(Parse(base)), iteration))
    ensures Parent(Parse(OutputFilename(base, iteration))) == Parent(Parse(base))
    ensures Name(Parse(OutputFilename(base, iteration))) == IterationName(Name(Parse(base)), iteration)
  {
    var p := Parse(base);
    var n := Name(p);
    assert n == "" || IsComponent(n);
    IterationNameIsComponent(n, iteration);
    var c := Child(Parent(p), IterationName(n, iteration));
    assert Normal(c);
    ParseRender(c);
    assert c.parts[..|c.parts| - 1] == Parent(p).parts;
  }

  // ---------------------------------------------------------------------------
  // The suffix survives unless the base name ends with a dot

  predicate EndsWithDot(name: string) {
    name != [] && name[|name| - 1] == '.'
  }

  lemma NoDotInDigits(d: string)
    requires AllDigits(d)
    ensures '.' !in d
  {
    forall k | 0 <= k < |d|
      ensures d[k] != '.'
    {
    }
  }

  /** rfind is determined by its characterisation. */
  lemma RFindUnique(s: string, c: char, i: int)
    requires -1 <= i < |s|
    requires i >= 0 ==> s[i] == c
    requires forall k :: i < k < |s| ==> s[k] != c
    ensures RFind(s, c) == i
  {
  }

  /** rfind in a name with a tail that holds no dot. */
  lemma RFindBeforeTail(a: string, t: string)
    requires '.' !in t
    ensures RFind(a + t, '.') == RFind(a, '.')
  {
    var s := a + t;
    var j := RFind(a, '.');
    forall k | j < k < |s|
      ensures s[k] != '.'
    {
      if k < |a| {
        assert s[k] == a[k];
      } else {
        assert s[k] == t[k - |a|];
      }
    }
    if j >= 0 {
      assert s[j] == a[j];
    }
    RFindUnique(s, '.', j);
  }

  lemma SuffixHasNoLaterDot(n: string)
    requires HasSuffix(n)
    ensures Suffix(n) != [] && Suffix(n)[0] == '.' && '.' !in Suffix(n)[1..] && |Suffix(n)| >= 2
  {
    var i := RFind(n, '.');
    var t := Suffix(n)[1..];
    forall k | 0 <= k < |t|
      ensures t[k] != '.'
    {
      assert t[k] == n[i + 1 + k];
    }
  }

  /** A name with a suffix: the new name's last dot is the one that starts that suffix. */
  lemma IterationNameKeepsSuffix(n: string, iteration: nat)
    requires HasSuffix(n)
    ensures HasSuffix(IterationName(n, iteration))
    ensures Suffix(IterationName(n, iteration)) == Suffix(n)
    ensures Stem(IterationName(n, iteration)) == Stem(n) + "_" + NatToString(iteration)
  {
    var d := NatToString(iteration);
    var front := Stem(n) + "_" + d;
    var suf := Suffix(n);
    var r := IterationName(n, iteration);
    SuffixHasNoLaterDot(n);
    assert r == front + suf;
    forall k | |front| < k < |r|
      ensures r[k] != '.'
    {
      assert r[k] == suf[1..][k - |front| - 1];
    }
    assert r[|front|] == suf[0];
    RFindUnique(r, '.', |front|);
    assert r[|front|..] == suf;
    assert r[..|front|] == front;
  }

  /** A name without a suffix: the new name's dots are the old name's. */
  lemma IterationNameWithoutSuffix(n: string, iteration: nat)
    requires !HasSuffix(n)
    ensures IterationName(n, iteration) == n + ("_" + NatToString(iteration))
    ensures RFind(IterationName(n, iteration), '.') == RFind(n, '.')
  {
    var d := NatToString(iteration);
    NoDotInDigits(d);
    forall k | 0 <= k < |"_" + d|
      ensures ("_" + d)[k] != '.'
    {
      if k > 0 {
        assert ("_" + d)[k] == d[k - 1];
      }
    }
    RFindBeforeTail(n, "_" + d);
  }

  /** The new name keeps the base's suffix, and its stem is the base's stem
      with "_<iteration>" appended, exactly when the base's name does not end
      with a dot; a name such as "book." becomes "book._0", whose suffix is "._0". */
  lemma IterationNameSuffix(n: string, iteration: nat)
    requires n == "" || IsComponent(n)
    ensures Suffix(IterationName(n, iteration)) == Suffix(n) <==> !EndsWithDot(n)
    ensures !EndsWithDot(n) ==> Stem(IterationName(n, iteration)) == Stem(n) + "_" + NatToString(iteration)
  {
    var r := IterationName(n, iteration);
    if HasSuffix(n) {
      IterationNameKeepsSuffix(n, iteration);
    } else {
      IterationNameWithoutSuffix(n, iteration);
      var i := RFind(n, '.');
      if EndsWithDot(n) {
        assert i == |n| - 1;
        assert n != ".";
        assert HasSuffix(r);
      } else {
        assert i != |n| - 1 || i == -1;
        assert !HasSuffix(r);
      }
    }
  }

  // ---------------------------------------------------------------------------
  // The debug log and the image beside an output file

  lemma StemNotEmpty(n: string)
    requires n != ""
    ensures Stem(n) != ""
  {
  }

  lemma StemSuffixJoin(n: string)
    ensures Stem(n) + Suffix(n) == n
  {
    if HasSuffix(n) {
      var i := RFind(n, '.');
      assert n[..i] + n[i..] == n;
    }
  }

  lemma PrefixCancel(f: string, a: string, b: string)
    ensures f + a == f + b ==> a == b
  {
    assert a == (f + a)[|f|..];
    assert b == (f + b)[|f|..];
  }

  /** A non-empty stem followed by a suffix whose only dot starts it: the
      result has exactly that stem and that suffix. */
  lemma AppendSuffix(s: string, t: string)
    requires s != "" && |t| >= 2 && t[0] == '.' && '.' !in t[1..]
    ensures HasSuffix(s + t) && Suffix(s + t) == t && Stem(s + t) == s
  {
    var r := s + t;
    forall k | |s| < k < |r|
      ensures r[k] != '.'
    {
      assert r[k] == t[1..][k - |s| - 1];
    }
    RFindUnique(r, '.', |s|);
    assert r[|s|..] == t;
    assert r[..|s|] == s;
  }

  /** `with_suffix` with a suffix longer than a dot, on a path with a name,
      keeps the directory and gives the name the stem with the new suffix. */
  lemma WithSuffixParsesBack(path: string, suffix: string)
    requires |suffix| >= 2 && ValidSuffix(suffix)
    requires Name(Parse(path)) != ""
    ensures WithSuffix(path, suffix).Ok?
    ensures Parse(WithSuffix(path, suffix).value) == Child(Parent(Parse(path)), Stem(Name(Parse(path))) + suffix)
  {
    var p := Parse(path);
    var n := Name(p);
    assert IsComponent(n);
    ComponentSlices(n);
    StemNotEmpty(n);
    var c := Child(Parent(p), Stem(n) + suffix);
    assert IsComponent(Stem(n) + suffix);
    assert Normal(c);
    ParseRender(c);
  }

  /** The image name derived from iteration i's name is iteration j's name
      only for j == i and a base whose suffix is ".png". */
  lemma ImageNameIsIterationName(n: string, i: nat, j: nat)
    requires n == "" || IsComponent(n)
    ensures Stem(IterationName(n, i)) + ".png" == IterationName(n, j) <==> i == j && Suffix(n) == ".png"
  {
    var ni, nj := IterationName(n, i), IterationName(n, j);
    IterationNameIsComponent(n, i);
    StemNotEmpty(ni);
    var x := Stem(ni) + ".png";
    AppendSuffix(Stem(ni), ".png");
    if HasSuffix(n) {
      IterationNameKeepsSuffix(n, i);
      IterationNameKeepsSuffix(n, j);
      var front := Stem(n) + "_";
      var di, dj := NatToString(i), NatToString(j);
      PrefixCancel(front, di, dj);
      ParseNatOfNatToString(i);
      ParseNatOfNatToString(j);
      StemSuffixJoin(ni);
    } else {
      IterationNameWithoutSuffix(n, j);
      var d := NatToString(j);
      assert nj[|nj| - 1] == d[|d| - 1];
      assert x[|x| - 1] == 'g';
    }
  }

  /** A stamped name ends with the iteration's last digit; so does its stem
      when the base has a suffix. */
  lemma IterationNameEnds(n: string, iteration: nat)
    requires n == "" || IsComponent(n)
    ensures var r := IterationName(n, iteration);
      && (HasSuffix(n) ==> Stem(r) != "" && '0' <= Stem(r)[|Stem(r)| - 1] <= '9')
      && (!HasSuffix(n) ==> r != "" && '0' <= r[|r| - 1] <= '9')
  {
    var d := NatToString(iteration);
    if HasSuffix(n) {
      IterationNameKeepsSuffix(n, iteration);
      var t := Stem(n) + "_" + d;
      assert t[|t| - 1] == d[|d| - 1];
    } else {
      IterationNameWithoutSuffix(n, iteration);
      var r := n + ("_" + d);
      assert r[|r| - 1] == d[|d| - 1];
    }
  }

  /** The debug log's name derived from iteration i's name is no iteration's name. */
  lemma DebugNameIsNoIterationName(n: string, i: nat, j: nat)
    requires n == "" || IsComponent(n)
    ensures Stem(IterationName(n, i)) + ".debug.txt" != IterationName(n, j)
  {
    IterationNameIsComponent(n, i);
    var st := Stem(IterationName(n, i));
    StemNotEmpty(IterationName(n, i));
    var x := st + ".debug.txt";
    assert x == (st + ".debug") + ".txt";
    AppendSuffix(st + ".debug", ".txt");
    assert x[|x| - 1] == 't';
    assert Stem(x)[|Stem(x)| - 1] == 'g';
    IterationNameEnds(n, j);
  }

  /** The two suffixes chargraph.py asks for are valid. */
  lemma ConstantSuffixes()
    ensures ValidSuffix(".png") && ValidSuffix(".debug.txt")
  {
    assert '/' !in ".png" by { assert forall k :: 0 <= k < |".png"| ==> ".png"[k] != '/'; }
    assert '/' !in ".debug.txt" by { assert forall k :: 0 <= k < |".debug.txt"| ==> ".debug.txt"[k] != '/'; }
  }

  /** `with_suffix` on an output name: the base's directory, and the stamped
      name's stem with the new suffix. */
  lemma RenamedOutput(base: string, i: nat, suffix: string)
    requires |suffix| >= 2 && ValidSuffix(suffix)
    ensures WithSuffix(OutputFilename(base, i), suffix).Ok?
    ensures Parse(WithSuffix(OutputFilename(base, i), suffix).value)
         == Child(Parent(Parse(base)), Stem(IterationName(Name(Parse(base)), i)) + suffix)
  {
    OutputFilenameParsesBack(base, i);
    WithSuffixParsesBack(OutputFilename(base, i), suffix);
  }

  /** The image beside iteration i's output is the output file of no other
      iteration, and is iteration i's own output file exactly when the
      base's suffix is ".png". */
  lemma ImageIsOutput(base: string, i: nat, j: nat)
    ensures ImageFilename(OutputFilename(base, i)) == Ok(OutputFilename(base, j))
        <==> i == j && Suffix(Name(Parse(base))) == ".png"
  {
    var n := Name(Parse(base));
    assert n == "" || IsComponent(n);
    RenamedOutput(base, i, ".png");
    OutputFilenameParsesBack(base, i);
    OutputFilenameParsesBack(base, j);
    ImageNameIsIterationName(n, i, j);
    var a, b := Parse(ImageFilename(OutputFilename(base, i)).value), Parse(OutputFilename(base, j));
    assert a.parts[|a.parts| - 1] == Stem(IterationName(n, i)) + ".png";
    assert b.parts[|b.parts| - 1] == IterationName(n, j);
  }

  /** The debug log beside an output file is no iteration's output file. */
  lemma DebugIsNoOutput(base: string, i: nat, j: nat)
    ensures WithSuffix(OutputFilename(base, i), ".debug.txt") != Ok(OutputFilename(base, j))
  {
    var n := Name(Parse(base));
    assert n == "" || IsComponent(n);
    RenamedOutput(base, i, ".debug.txt");
    OutputFilenameParsesBack(base, j);
    DebugNameIsNoIterationName(n, i, j);
    var a, b := Parse(WithSuffix(OutputFilename(base, i), ".debug.txt").value), Parse(OutputFilename(base, j));
    assert a.parts[|a.parts| - 1] == Stem(IterationName(n, i)) + ".debug.txt";
    assert b.parts[|b.parts| - 1] == IterationName(n, j);
  }

  /** The image file written beside an output snapshot. */
  function ImageFilename(output: string): Result<string> {
    WithSuffix(output, ".png")
  }
}
