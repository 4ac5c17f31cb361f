/** The four formats of image names, their printer and their parser. */
module ImageNames {
  import opened Options
  import opened Strings

  datatype Name =
    | Newer(os: string, major: string, minor: string, patch: string, variant: string, arch: string, build: string)
    | Standard(os: string, major: string, minor: string, variant: string, arch: string, build: string)
    | Alternative(os: string, major: string, minor: string, arch: string, build: string)
    | Simple(os: string, major: string, minor: string)

  // ---- character classes -------------------------------------------------------------------------

  predicate Letter(c: char)
  {
    'a' <= c <= 'z'
  }

  predicate Digit(c: char)
  {
    '0' <= c <= '9'
  }

  predicate Word(s: string)
  {
    s != "" && forall i :: 0 <= i < |s| ==> Letter(s[i])
  }

  predicate Digits(s: string)
  {
    s != "" && forall i :: 0 <= i < |s| ==> Digit(s[i])
  }

  predicate Mixed(s: string)
  {
    s != "" && forall i :: 0 <= i < |s| ==> Letter(s[i]) || Digit(s[i])
  }

  predicate NoHyphen(s: string)
  {
    forall i :: 0 <= i < |s| ==> s[i] != '-'
  }

  // ---- hyphens -----------------------------------------------------------------------------------

  function Join(fields: seq<string>): string
    requires fields != []
  {
    if |fields| == 1 then fields[0] else fields[0] + "-" + Join(fields[1..])
  }

  function Split(s: string): (r: seq<string>)
    ensures r != []
    decreases |s|
  {
    var h := Find(s, '-', 0);
    if h == |s| then [s] else [s[..h]] + Split(s[h + 1..])
  }

  lemma {:induction false} SplitJoin(fields: seq<string>)
    requires fields != [] && forall k :: 0 <= k < |fields| ==> NoHyphen(fields[k])
    ensures Split(Join(fields)) == fields
  {
    var s, f := Join(fields), fields[0];
    assert NoHyphen(f);
    if |fields| == 1 {
      assert Find(s, '-', 0) == |s|;
    } else {
      assert s[|f|] == '-' && s[..|f|] == f && s[|f| + 1..] == Join(fields[1..]);
      assert forall j :: 0 <= j < |f| ==> s[j] == f[j];
      assert Find(s, '-', 0) == |f|;
      SplitJoin(fields[1..]);
    }
  }

  lemma {:induction false} JoinSplit(s: string)
    ensures Join(Split(s)) == s
    decreases |s|
  {
    var h := Find(s, '-', 0);
    if h < |s| {
      JoinSplit(s[h + 1..]);
      assert Split(s)[1..] == Split(s[h + 1..]);
      assert s == s[..h] + "-" + s[h + 1..];
    }
  }

  // ---- formats -----------------------------------------------------------------------------------

  predicate WellFormed(n: Name)
  {
    && Word(n.os) && Digits(n.major) && Digits(n.minor)
    && (n.Newer? ==> Digits(n.patch))
    && (n.Newer? || n.Standard? ==> Word(n.variant))
    && (!n.Simple? ==> Mixed(n.arch) && Digits(n.build))
  }

  function Fields(n: Name): (r: seq<string>)
    ensures r != []
  {
    match n
    case Newer(os, major, minor, patch, variant, arch, build) => ["ibm", os, major, minor, patch, variant, arch, build]
    case Standard(os, major, minor, variant, arch, build) => ["ibm", os, major, minor, variant, arch, build]
    case Alternative(os, major, minor, arch, build) => ["ibm", os, major, minor, arch, build]
    case Simple(os, major, minor) => [os, major, minor]
  }

  /** What each pattern matches: its fields joined by hyphens. */
  function Print(n: Name): string
  {
    Join(Fields(n))
  }

  /** parseImageName: the patterns are tried in turn; none of their character classes has a hyphen. */
  function Parse(name: string): Option<Name>
  {
    var f := Split(name);
    if |f| == 8 && f[0] == "ibm" && WellFormed(Newer(f[1], f[2], f[3], f[4], f[5], f[6], f[7])) then
      Some(Newer(f[1], f[2], f[3], f[4], f[5], f[6], f[7]))
    else if |f| == 7 && f[0] == "ibm" && WellFormed(Standard(f[1], f[2], f[3], f[4], f[5], f[6])) then
      Some(Standard(f[1], f[2], f[3], f[4], f[5], f[6]))
    else if |f| == 6 && f[0] == "ibm" && WellFormed(Alternative(f[1], f[2], f[3], f[4], f[5])) then
      Some(Alternative(f[1], f[2], f[3], f[4], f[5]))
    else if |f| == 3 && WellFormed(Simple(f[0], f[1], f[2])) then
      Some(Simple(f[0], f[1], f[2]))
    else None
  }

  lemma FieldsHaveNoHyphen(n: Name)
    requires WellFormed(n)
    ensures forall k :: 0 <= k < |Fields(n)| ==> NoHyphen(Fields(n)[k])
  {
  }

  /** Parsing undoes printing in every format. */
  lemma ParsePrint(n: Name)
    requires WellFormed(n)
    ensures Parse(Print(n)) == Some(n)
  {
    FieldsHaveNoHyphen(n);
    SplitJoin(Fields(n));
  }

  /** Whatever is parsed is a well-formed name that prints back as it was. */
  lemma PrintParse(name: string)
    requires Parse(name).Some?
    ensures WellFormed(Parse(name).value) && Print(Parse(name).value) == name
  {
    JoinSplit(name);
    assert Fields(Parse(name).value) == Split(name);
  }

  /** The formats are pairwise disjoint, and within one the fields are determined by the name. */
  lemma FormatsAreDisjoint(a: Name, b: Name)
    requires WellFormed(a) && WellFormed(b) && Print(a) == Print(b)
    ensures a == b
  {
    ParsePrint(a);
    ParsePrint(b);
  }

  // ---- components --------------------------------------------------------------------------------

  datatype Components = Components(os: string, major: string, minor: string, patch: string, variant: string, arch: string, build: string)

  /** The parsed components with the defaults of the shorter formats. */
  function Parts(n: Name): Components
  {
    match n
    case Newer(os, major, minor, patch, variant, arch, build) => Components(os, major, minor, patch, variant, arch, build)
    case Standard(os, major, minor, variant, arch, build) => Components(os, major, minor, "", variant, arch, build)
    case Alternative(os, major, minor, arch, build) => Components(os, major, minor, "", "minimal", arch, build)
    case Simple(os, major, minor) => Components(os, major, minor, "", "minimal", "amd64", "1")
  }

  function Dash(a: string, b: string): string
  {
    a + "-" + b
  }

  /** The four formats, written out. */
  function Text(n: Name): string
  {
    match n
    case Newer(os, major, minor, patch, variant, arch, build) =>
      Dash("ibm", Dash(os, Dash(major, Dash(minor, Dash(patch, Dash(variant, Dash(arch, build)))))))
    case Standard(os, major, minor, variant, arch, build) =>
      Dash("ibm", Dash(os, Dash(major, Dash(minor, Dash(variant, Dash(arch, build))))))
    case Alternative(os, major, minor, arch, build) =>
      Dash("ibm", Dash(os, Dash(major, Dash(minor, Dash(arch, build)))))
    case Simple(os, major, minor) => Dash(os, Dash(major, minor))
  }

  lemma JoinMore(fields: seq<string>)
    requires |fields| > 1
    ensures Join(fields) == Dash(fields[0], Join(fields[1..]))
  {
  }

  lemma JoinFrom(fields: seq<string>, i: nat)
    requires i + 1 < |fields|
    ensures Join(fields[i..]) == Dash(fields[i], Join(fields[i + 1..]))
  {
    JoinMore(fields[i..]);
    assert fields[i..][1..] == fields[i + 1..];
  }

  lemma JoinLast(fields: seq<string>)
    requires fields != []
    ensures Join(fields[|fields| - 1..]) == fields[|fields| - 1]
  {
  }

  lemma PrintIsText(n: Name)
    ensures Print(n) == Text(n)
  {
    var f := Fields(n);
    assert f[0..] == f;
    JoinLast(f);
    JoinFrom(f, 0);
    JoinFrom(f, 1);
    if !n.Simple? {
      JoinFrom(f, 2);
      JoinFrom(f, 3);
      JoinFrom(f, 4);
      if n.Newer? || n.Standard? {
        JoinFrom(f, 5);
        if n.Newer? {
          JoinFrom(f, 6);
        }
      }
    }
  }

  // Components that a format does not have are read as its defaults.
  function PatchOf(n: Name): string { if n.Newer? then n.patch else "" }
  function VariantOf(n: Name): string { if n.Newer? || n.Standard? then n.variant else "minimal" }
  function ArchOf(n: Name): string { if n.Simple? then "amd64" else n.arch }
  function BuildOf(n: Name): string { if n.Simple? then "1" else n.build }

  /** A name in one of the four formats is read component by component. */
  lemma ReadsComponents(n: Name)
    requires WellFormed(n)
    ensures Parse(Text(n)).Some?
    ensures var p := Parts(Parse(Text(n)).value);
            && p.os == n.os && p.major == n.major && p.minor == n.minor && p.patch == PatchOf(n)
            && p.variant == VariantOf(n) && p.arch == ArchOf(n) && p.build == BuildOf(n)
  {
    PrintIsText(n);
    ParsePrint(n);
  }
}
