/** Choosing an image by selector: usable images are filtered by name components and the best version wins. */
module ImageChoice {
  import opened Options
  import opened ImageNames
  import opened Sorting

  datatype Selector = Selector(os: string, major: string, minor: string, arch: string, variant: string)

  /** An image as the service lists it. */
  datatype CloudImage = CloudImage(id: Option<string>, name: Option<string>, status: Option<string>, created: Option<nat>)

  /** An image as the resolver keeps it; a missing creation time is the zero time. */
  datatype Image = Image(id: string, name: string, created: nat)

  // ---- what the selector accepts -----------------------------------------------------------------

  predicate Matches(sel: Selector, name: string)
  {
    var n := Parse(name);
    n.Some? &&
    var p := Parts(n.value);
    && p.os == sel.os && p.major == sel.major
    && (sel.minor != "" ==> p.minor == sel.minor)
    && p.arch == (if sel.arch == "" then "amd64" else sel.arch)
    && (sel.variant != "" ==> p.variant == sel.variant)
  }

  predicate Usable(c: CloudImage)
  {
    c.id.Some? && c.name.Some? && (c.status == Some("available") || c.status == Some("deprecated"))
  }

  function Info(c: CloudImage): Image
    requires Usable(c)
  {
    Image(c.id.value, c.name.value, if c.created.Some? then c.created.value else 0)
  }

  predicate Good(sel: Selector, c: CloudImage)
  {
    Usable(c) && Matches(sel, c.name.value)
  }

  // ---- the order ---------------------------------------------------------------------------------

  const MAX_INT := 0x7fff_ffff_ffff_ffff

  function Decimal(s: string): nat
    requires forall i :: 0 <= i < |s| ==> Digit(s[i])
  {
    if s == "" then 0
    else
      assert Digit(s[|s| - 1]);
      10 * Decimal(s[..|s| - 1]) + ((s[|s| - 1] as int) - ('0' as int))
  }

  /** strconv.Atoi with its error ignored, on the components a name can have: out of range gives the largest int. */
  function Atoi(s: string): int
  {
    if !Digits(s) then 0 else if Decimal(s) > MAX_INT then MAX_INT else Decimal(s)
  }

  /** The comparison handed to the sort. */
  predicate Before(sel: Selector, a: Image, b: Image)
  {
    var n1, n2 := Parse(a.name), Parse(b.name);
    if n1.None? || n2.None? then a.created > b.created
    else
      var p1, p2 := Parts(n1.value), Parts(n2.value);
      if sel.minor == "" && Atoi(p1.minor) != Atoi(p2.minor) then Atoi(p1.minor) > Atoi(p2.minor)
      else if Atoi(p1.patch) != Atoi(p2.patch) then Atoi(p1.patch) > Atoi(p2.patch)
      else if Atoi(p1.build) != Atoi(p2.build) then Atoi(p1.build) > Atoi(p2.build)
      else a.created > b.created
  }

  /** What a version is worth: minor when the selector leaves it open, patch, build, creation time. */
  datatype Rank = Rank(minor: int, patch: int, build: int, created: int)

  function RankOf(sel: Selector, image: Image): Rank
  {
    var n := Parse(image.name);
    if n.None? then Rank(0, 0, 0, image.created)
    else
      var p := Parts(n.value);
      Rank(if sel.minor == "" then Atoi(p.minor) else 0, Atoi(p.patch), Atoi(p.build), image.created)
  }

  predicate RankLe(a: Rank, b: Rank)
  {
    a.minor < b.minor || (a.minor == b.minor &&
      (a.patch < b.patch || (a.patch == b.patch &&
        (a.build < b.build || (a.build == b.build && a.created <= b.created)))))
  }

  /** Higher ranks first. */
  function BestFirst(sel: Selector): Order<Image>
  {
    (a: Image, b: Image) => RankLe(RankOf(sel, b), RankOf(sel, a))
  }

  lemma BestFirstOrders(sel: Selector)
    ensures TotalPreorder(BestFirst(sel))
  {
  }

  /** On names that parse, and on names that do not, the comparison is the strict part of a total order by rank. */
  lemma BeforeIsByRank(sel: Selector, a: Image, b: Image)
    requires Parse(a.name).Some? <==> Parse(b.name).Some?
    ensures Before(sel, a, b) <==> !RankLe(RankOf(sel, a), RankOf(sel, b))
  {
  }

  // ---- by the text of the names ----------------------------------------------------------------------

  /** A selector accepts a name if and only if it is in one of the four formats with components it asks for. */
  lemma MatchesIff(sel: Selector, name: string)
    ensures Matches(sel, name) <==> exists n :: WellFormed(n) && Text(n) == name && Accepts(sel, n)
  {
    if Parse(name).Some? {
      PrintParse(name);
      PrintIsText(Parse(name).value);
      ReadsComponents(Parse(name).value);
    }
    forall n | WellFormed(n) && Text(n) == name ensures Parse(name) == Some(n) {
      PrintIsText(n);
      ParsePrint(n);
    }
  }

  predicate Accepts(sel: Selector, n: Name)
  {
    && n.os == sel.os && n.major == sel.major && (sel.minor == "" || sel.minor == n.minor)
    && ArchOf(n) == (if sel.arch == "" then "amd64" else sel.arch) && (sel.variant == "" || sel.variant == VariantOf(n))
  }

  /** A listed image can be chosen if and only if it has an ID, an accepted name, and is available or deprecated. */
  lemma GoodIff(sel: Selector, c: CloudImage)
    ensures Good(sel, c) <==>
            && c.id != None && c.name != None && (c.status == Some("available") || c.status == Some("deprecated"))
            && exists n :: WellFormed(n) && c.name == Some(Text(n)) && Accepts(sel, n)
  {
    if c.name.Some? {
      MatchesIff(sel, c.name.value);
    }
  }

  /** Of two names, the one with the higher minor if that is left open, then patch, then build, then the newer image, comes first. */
  lemma BeforeIff(sel: Selector, n: Name, m: Name, a: Image, b: Image)
    requires WellFormed(n) && WellFormed(m) && a.name == Text(n) && b.name == Text(m)
    ensures var minor := (Atoi(n.minor), Atoi(m.minor));
            var patch := (Atoi(PatchOf(n)), Atoi(PatchOf(m)));
            var build := (Atoi(BuildOf(n)), Atoi(BuildOf(m)));
            Before(sel, a, b) <==>
              || (sel.minor == "" && minor.0 > minor.1)
              || ((sel.minor != "" || minor.0 == minor.1) &&
                   (patch.0 > patch.1 || (patch.0 == patch.1 &&
                     (build.0 > build.1 || (build.0 == build.1 && a.created > b.created)))))
  {
    ReadsComponents(n);
    ReadsComponents(m);
  }

  function Pow10(n: nat): nat
  {
    if n == 0 then 1 else 10 * Pow10(n - 1)
  }

  lemma {:induction false} DecimalBounds(s: string)
    requires forall i :: 0 <= i < |s| ==> Digit(s[i])
    ensures Decimal(s) < Pow10(|s|)
    ensures s != "" && s[0] != '0' ==> Pow10(|s| - 1) <= Decimal(s)
  {
    if s != "" {
      var front := s[..|s| - 1];
      assert Digit(s[|s| - 1]);
      DecimalBounds(front);
      if |s| > 1 {
        assert front[0] == s[0];
      }
    }
  }

  /** Numbers are compared as numbers: a longer one without leading zeros is larger. */
  lemma LongerIsLarger(s: string, t: string)
    requires Digits(s) && Digits(t) && s[0] != '0' && |s| > |t|
    ensures Decimal(s) > Decimal(t)
  {
    DecimalBounds(s);
    DecimalBounds(t);
    PowGrows(|t|, |s| - 1);
  }

  lemma {:induction false} PowGrows(m: nat, n: nat)
    requires m <= n
    ensures Pow10(m) <= Pow10(n)
  {
    if m < n {
      PowGrows(m, n - 1);
    }
  }

  /** Among equally long ones the first difference decides. */
  lemma {:induction false} FirstDifferenceDecides(s: string, t: string, i: nat)
    requires Digits(s) && Digits(t) && |s| == |t| && i < |s| && s[..i] == t[..i] && s[i] > t[i]
    ensures Decimal(s) > Decimal(t)
  {
    var n := |s| - 1;
    assert Digit(s[n]) && Digit(t[n]) && Digit(s[i]) && Digit(t[i]);
    if i == n {
      assert s[..n] == t[..n];
    } else {
      assert s[..n][..i] == s[..i] && t[..n][..i] == t[..i];
      FirstDifferenceDecides(s[..n], t[..n], i);
    }
  }

  // ---- the loops ---------------------------------------------------------------------------------

  predicate NewestFirst(a: Image, b: Image)
  {
    a.created >= b.created
  }

  /** The usable images of a listing, in its order. */
  function Infos(images: seq<CloudImage>): seq<Image>
  {
    if images == [] then []
    else
      var last := images[|images| - 1];
      Infos(images[..|images| - 1]) + if Usable(last) then [Info(last)] else []
  }

  lemma {:induction false} InfosAre(images: seq<CloudImage>)
    ensures forall c :: c in images && Usable(c) ==> Info(c) in Infos(images)
    ensures forall image :: image in Infos(images) ==> exists c :: c in images && Usable(c) && Info(c) == image
  {
    if images != [] {
      InfosAre(images[..|images| - 1]);
      assert images == images[..|images| - 1] + [images[|images| - 1]];
    }
  }

  /** listImagesByVisibility without a name filter: the usable images, each as often as listed, newest first. */
  method ListImages(images: seq<CloudImage>) returns (r: seq<Image>)
    ensures Sorted(NewestFirst, r) && multiset(r) == multiset(Infos(images))
    ensures forall c :: c in images && Usable(c) ==> Info(c) in r
    ensures forall image :: image in r ==> exists c :: c in images && Usable(c) && Info(c) == image
  {
    var result: seq<Image> := [];
    for i := 0 to |images|
      invariant result == Infos(images[..i])
    {
      assert images[..i + 1][..i] == images[..i];
      if Usable(images[i]) {
        result := result + [Info(images[i])];
      }
    }
    assert images[..|images|] == images;
    InfosAre(images);
    SortSorts(NewestFirst, result);
    r := Sort(NewestFirst, result);
    SameMembers(result, r);
  }

  lemma SameMembers(a: seq<Image>, b: seq<Image>)
    requires multiset(a) == multiset(b)
    ensures forall x :: x in a <==> x in b
  {
    forall x ensures x in a <==> x in b {
      assert x in a <==> x in multiset(a);
    }
  }

  /** Exactly the matching images are kept, each as often as it is listed. */
  method FilterImages(images: seq<Image>, sel: Selector) returns (candidates: seq<Image>)
    ensures forall x :: multiset(candidates)[x] == if Matches(sel, x.name) then multiset(images)[x] else 0
  {
    candidates := [];
    for i := 0 to |images|
      invariant forall x :: multiset(candidates)[x] == if Matches(sel, x.name) then multiset(images[..i])[x] else 0
    {
      assert images[..i + 1] == images[..i] + [images[i]];
      if Matches(sel, images[i].name) {
        candidates := candidates + [images[i]];
      }
    }
    assert images[..|images|] == images;
  }

  /** A permutation; where every name parses, no image is left behind one it should come before. */
  method SortByVersion(images: seq<Image>, sel: Selector) returns (sorted: seq<Image>)
    ensures multiset(sorted) == multiset(images)
    ensures (forall i :: 0 <= i < |images| ==> Parse(images[i].name).Some?) ==>
              forall i, j :: 0 <= i < j < |sorted| ==> !Before(sel, sorted[j], sorted[i])
    ensures (forall i :: 0 <= i < |images| ==> Parse(images[i].name).None?) ==>
              forall i, j :: 0 <= i < j < |sorted| ==> !Before(sel, sorted[j], sorted[i])
  {
    BestFirstOrders(sel);
    SortSorts(BestFirst(sel), images);
    sorted := Sort(BestFirst(sel), images);
    SameMembers(images, sorted);
    if (forall i :: 0 <= i < |images| ==> Parse(images[i].name).Some?) || (forall i :: 0 <= i < |images| ==> Parse(images[i].name).None?) {
      forall i, j | 0 <= i < j < |sorted| ensures !Before(sel, sorted[j], sorted[i]) {
        assert sorted[i] in images && sorted[j] in images;
        assert BestFirst(sel)(sorted[i], sorted[j]);
        BeforeIsByRank(sel, sorted[j], sorted[i]);
      }
    }
  }

  /** With names of both kinds the comparison can go in circles, so no order of the three is a sorted one. */
  lemma MixedNamesCycle(sel: Selector, a: Image, b: Image, c: Image)
    requires sel.minor == "" && Parse(a.name).None? && Parse(b.name).Some? && Parse(c.name).Some?
    requires Atoi(Parts(Parse(b.name).value).minor) > Atoi(Parts(Parse(c.name).value).minor)
    requires c.created > a.created > b.created
    ensures Before(sel, a, b) && Before(sel, b, c) && Before(sel, c, a)
  {
  }

  lemma Digit3And4()
    ensures Atoi("4") == 4 && Atoi("3") == 3
  {
    assert "4"[..0] == "" && "3"[..0] == "";
    assert Decimal("4") == 4 && Decimal("3") == 3;
  }

  lemma NoName()
    ensures Parse("").None?
  {
    assert Split("") == [""];
  }

  /** Three such images. */
  lemma MixedNamesWitness() returns (sel: Selector, a: Image, b: Image, c: Image)
    ensures Before(sel, a, b) && Before(sel, b, c) && Before(sel, c, a)
  {
    var high, low := Simple("u", "2", "4"), Simple("u", "2", "3");
    ParsePrint(high);
    ParsePrint(low);
    sel := Selector("u", "2", "", "", "");
    a, b, c := Image("", "", 2), Image("", Print(high), 1), Image("", Print(low), 3);
    NoName();
    Digit3And4();
    MixedNamesCycle(sel, a, b, c);
  }

  // ---- the choice --------------------------------------------------------------------------------

  datatype Error = NilSelector | ListFailed(reason: string) | NoMatch

  ghost predicate SomeGood(sel: Selector, listing: seq<CloudImage>)
  {
    exists c :: c in listing && Good(sel, c)
  }

  /** `id` belongs to a matching usable image of the listing than which no other is better. */
  ghost predicate Best(sel: Selector, listing: seq<CloudImage>, id: string)
  {
    exists c :: c in listing && Good(sel, c) && c.id == Some(id) && Unbeaten(sel, listing, c)
  }

  ghost predicate Unbeaten(sel: Selector, listing: seq<CloudImage>, c: CloudImage)
    requires Good(sel, c)
  {
    forall d :: d in listing && Good(sel, d) ==> !Before(sel, Info(d), Info(c))
  }

  /** The best of the images listed under one visibility, if any matches. */
  method Choose(listing: seq<CloudImage>, sel: Selector) returns (id: Option<string>)
    ensures id.Some? <==> SomeGood(sel, listing)
    ensures id.Some? ==> Best(sel, listing, id.value)
  {
    var images := ListImages(listing);
    var candidates := FilterImages(images, sel);
    CandidatesAreGood(sel, listing, images, candidates);
    if |candidates| == 0 {
      return None;
    }
    var sorted := SortByVersion(candidates, sel);
    SameMembers(candidates, sorted);
    assert |sorted| == |multiset(sorted)| == |candidates|;
    FirstIsBest(sel, listing, candidates, sorted);
    return Some(sorted[0].id);
  }

  lemma CandidatesAreGood(sel: Selector, listing: seq<CloudImage>, images: seq<Image>, candidates: seq<Image>)
    requires forall c :: c in listing && Usable(c) ==> Info(c) in images
    requires forall image :: image in images ==> exists c :: c in listing && Usable(c) && Info(c) == image
    requires forall x :: multiset(candidates)[x] == if Matches(sel, x.name) then multiset(images)[x] else 0
    ensures forall c :: c in listing && Good(sel, c) ==> Info(c) in candidates
    ensures forall x :: x in candidates ==> exists c :: c in listing && Good(sel, c) && Info(c) == x
    ensures forall i :: 0 <= i < |candidates| ==> Parse(candidates[i].name).Some?
  {
    forall c | c in listing && Good(sel, c) ensures Info(c) in candidates {
      assert Info(c) in multiset(images);
      assert Info(c) in multiset(candidates);
    }
    forall x | x in candidates ensures Matches(sel, x.name) && exists c :: c in listing && Good(sel, c) && Info(c) == x {
      assert x in multiset(candidates);
      assert x in multiset(images);
      assert x in images;
      var c :| c in listing && Usable(c) && Info(c) == x;
      assert Good(sel, c);
    }
  }

  lemma FirstIsBest(sel: Selector, listing: seq<CloudImage>, candidates: seq<Image>, sorted: seq<Image>)
    requires forall c :: c in listing && Good(sel, c) ==> Info(c) in candidates
    requires forall x :: x in candidates ==> exists c :: c in listing && Good(sel, c) && Info(c) == x
    requires sorted != [] && forall x :: x in candidates <==> x in sorted
    requires forall i, j :: 0 <= i < j < |sorted| ==> !Before(sel, sorted[j], sorted[i])
    ensures Best(sel, listing, sorted[0].id)
  {
    assert sorted[0] in candidates;
    var c :| c in listing && Good(sel, c) && Info(c) == sorted[0];
    forall d | d in listing && Good(sel, d) ensures !Before(sel, Info(d), Info(c)) {
      assert Info(d) in sorted;
      var j :| 0 <= j < |sorted| && sorted[j] == Info(d);
    }
    assert Unbeaten(sel, listing, c);
  }

  /** Private images count only when no public one matches; a failed listing is an error when it is needed. */
  method ResolveImageBySelector(selector: Option<Selector>, publicOnes: Result<seq<CloudImage>, string>,
                                privateOnes: Result<seq<CloudImage>, string>) returns (r: Result<string, Error>)
    ensures selector.None? ==> r == Err(NilSelector)
    ensures selector.Some? && publicOnes.Err? ==> r == Err(ListFailed(publicOnes.error))
    ensures selector.Some? && publicOnes.Ok? && SomeGood(selector.value, publicOnes.value) ==>
              r.Ok? && Best(selector.value, publicOnes.value, r.value)
    ensures selector.Some? && publicOnes.Ok? && !SomeGood(selector.value, publicOnes.value) ==>
              if privateOnes.Err? then r == Err(ListFailed(privateOnes.error))
              else if SomeGood(selector.value, privateOnes.value) then
                r.Ok? && Best(selector.value, privateOnes.value, r.value)
              else r == Err(NoMatch)
  {
    if selector.None? {
      return Err(NilSelector);
    }
    var sel := selector.value;
    if publicOnes.Err? {
      return Err(ListFailed(publicOnes.error));
    }
    var id := Choose(publicOnes.value, sel);
    if id.None? {
      if privateOnes.Err? {
        return Err(ListFailed(privateOnes.error));
      }
      id := Choose(privateOnes.value, sel);
    }
    if id.None? {
      return Err(NoMatch);
    }
    return Ok(id.value);
  }

  /** Two listings of the same images, in whatever order, lead to choices of the same rank. */
  lemma OrderDoesNotMatter(sel: Selector, listing: seq<CloudImage>, again: seq<CloudImage>, c: CloudImage, d: CloudImage)
    requires forall x :: x in listing <==> x in again
    requires c in listing && Good(sel, c) && Unbeaten(sel, listing, c)
    requires d in again && Good(sel, d) && Unbeaten(sel, again, d)
    ensures RankOf(sel, Info(c)) == RankOf(sel, Info(d))
  {
    BeforeIsByRank(sel, Info(d), Info(c));
    BeforeIsByRank(sel, Info(c), Info(d));
  }
}
