/** Ownership tags: what the launcher attaches, how tags are printed, and what may be a tag. */
module Ownership {
  import opened Options
  import opened Sorting
  import opened Strings

  type Tags = map<string, string>

  const CORE_PREFIX := "karpenter.sh."
  const IBM_PREFIX := "karpenter-ibm.sh."
  const MANAGED := CORE_PREFIX + "managed"
  const PROVIDER := IBM_PREFIX + "provider"
  const CLUSTER_UID := IBM_PREFIX + "cluster-uid"
  const CLAIM_UID := IBM_PREFIX + "nodeclaim-uid"
  const CLASS_UID := IBM_PREFIX + "nodeclass-uid"

  function VpcTags(clusterUid: string, claimUid: string, classUid: string): Tags
  {
    map[MANAGED := "true", PROVIDER := "vpc", CLUSTER_UID := clusterUid, CLAIM_UID := claimUid, CLASS_UID := classUid]
  }

  /** Lower case as far as it can matter here: the Kelvin sign and the dotted capital I also become ASCII letters. */
  function Lower(c: char): char
  {
    if 'A' <= c <= 'Z' then (c as int + 32) as char
    else if c == '\U{212A}' then 'k'
    else if c == '\U{0130}' then 'i'
    else c
  }

  function ToLower(s: string): string
  {
    seq(|s|, i requires 0 <= i < |s| => Lower(s[i]))
  }

  predicate ReservedTag(key: string)
  {
    var k := ToLower(key);
    || k == "managed-by"
    || "karpenter.sh/" <= k || "karpenter-ibm.sh/" <= k || CORE_PREFIX <= k || IBM_PREFIX <= k
  }

  /** The same letter in either case, or a character that folds to it. */
  predicate Folds(c: char, p: char)
  {
    || c == p
    || ('a' <= p <= 'z' && c as int + 32 == p as int)
    || (p == 'k' && c == '\U{212A}') || (p == 'i' && c == '\U{0130}')
  }

  predicate FoldsTo(key: string, p: string)
  {
    |key| >= |p| && forall i :: 0 <= i < |p| ==> Folds(key[i], p[i])
  }

  lemma LowerFolds(c: char, p: char)
    requires !('A' <= p <= 'Z') && p != '\U{212A}' && p != '\U{0130}'
    ensures Lower(c) == p <==> Folds(c, p)
  {
  }

  lemma PrefixFolds(key: string, p: string)
    requires forall i :: 0 <= i < |p| ==> !('A' <= p[i] <= 'Z') && p[i] != '\U{212A}' && p[i] != '\U{0130}'
    ensures p <= ToLower(key) <==> FoldsTo(key, p)
    ensures ToLower(key) == p <==> |key| == |p| && FoldsTo(key, p)
  {
    forall i | 0 <= i < |p| && i < |key| ensures ToLower(key)[i] == p[i] <==> Folds(key[i], p[i]) { LowerFolds(key[i], p[i]); }
    if FoldsTo(key, p) {
      assert forall i :: 0 <= i < |p| ==> ToLower(key)[i] == p[i];
    }
    if p <= ToLower(key) {
      assert forall i :: 0 <= i < |p| ==> ToLower(key)[i] == p[i];
    }
  }

  /** A key is reserved if and only if, in whatever letters, it is managed-by or begins with one of the four prefixes. */
  lemma ReservedIff(key: string)
    ensures ReservedTag(key) <==>
            || (|key| == |"managed-by"| && FoldsTo(key, "managed-by"))
            || FoldsTo(key, "karpenter.sh/") || FoldsTo(key, "karpenter-ibm.sh/")
            || FoldsTo(key, "karpenter.sh.") || FoldsTo(key, "karpenter-ibm.sh.")
  {
    PrefixFolds(key, "managed-by");
    PrefixFolds(key, "karpenter.sh/");
    PrefixFolds(key, "karpenter-ibm.sh/");
    PrefixFolds(key, "karpenter.sh.");
    PrefixFolds(key, "karpenter-ibm.sh.");
  }

  predicate IsLower(c: char)
  {
    'a' <= c <= 'z' || c == '-' || c == '.'
  }

  /** Lower-case prefixes are found whatever follows them. */
  lemma PrefixReserved(p: string, key: string)
    requires p == CORE_PREFIX || p == IBM_PREFIX
    requires p <= key && (forall i :: 0 <= i < |p| ==> IsLower(p[i]))
    ensures ReservedTag(key)
  {
    forall i | 0 <= i < |p| ensures ToLower(key)[i] == p[i] {
      assert key[i] == p[i];
    }
    assert p <= ToLower(key);
  }

  predicate OwnKey(key: string)
  {
    key == MANAGED || key == PROVIDER || key == CLUSTER_UID || key == CLAIM_UID || key == CLASS_UID
  }

  lemma OwnKeysReserved(key: string)
    requires OwnKey(key)
    ensures ReservedTag(key)
  {
    if key == MANAGED {
      PrefixReserved(CORE_PREFIX, key);
    } else {
      PrefixReserved(IBM_PREFIX, key);
    }
  }

  function UserTags(user: Tags): Tags
  {
    map key | key in user && !ReservedTag(key) :: user[key]
  }

  /** The user tags accepted when `left` are still to come. */
  function Kept(user: Tags, left: set<string>): Tags
  {
    map key | key in user && key !in left && !ReservedTag(key) :: user[key]
  }

  lemma KeptGrows(user: Tags, left: set<string>, key: string)
    requires key in left && key in user
    ensures Kept(user, left - {key}) == if ReservedTag(key) then Kept(user, left) else Kept(user, left)[key := user[key]]
  {
  }

  /** The launcher's loop: user tags are added to its own unless their key is reserved. */
  method MergeTags(own: Tags, user: Tags) returns (tags: Tags)
    ensures tags == own + UserTags(user)
  {
    tags := own;
    var left := user.Keys;
    while left != {}
      invariant left <= user.Keys
      invariant tags == own + Kept(user, left)
      decreases left
    {
      var key :| key in left;
      KeptGrows(user, left, key);
      if !ReservedTag(key) {
        tags := tags[key := user[key]];
      }
      left := left - {key};
    }
    assert Kept(user, {}) == UserTags(user);
  }

  /** No user tag replaces or imitates an ownership tag, in any spelling the service may fold together. */
  lemma ReservedCannotBeOverridden(clusterUid: string, claimUid: string, classUid: string, user: Tags, key: string)
    ensures var own := VpcTags(clusterUid, claimUid, classUid);
            var tags := own + UserTags(user);
            && (key in own ==> key in tags && tags[key] == own[key])
            && (key in tags && ReservedTag(key) ==> key in own)
            && (key in user && !ReservedTag(key) ==> key in tags && tags[key] == user[key])
  {
    if key in VpcTags(clusterUid, claimUid, classUid) {
      OwnKeysReserved(key);
    }
  }

  // ---- the tag alphabet --------------------------------------------------------------------------

  predicate Allowed(c: char)
  {
    'a' <= c <= 'z' || 'A' <= c <= 'Z' || '0' <= c <= '9' || c in " _-.:"
  }

  ghost predicate ValidTag(tag: string)
  {
    1 <= |tag| <= 128 && forall i :: 0 <= i < |tag| ==> Allowed(tag[i])
  }

  method ValidateTag(tag: string) returns (ok: bool)
    ensures ok <==> ValidTag(tag)
  {
    if |tag| == 0 || |tag| > 128 {
      return false;
    }
    for i := 0 to |tag|
      invariant forall j :: 0 <= j < i ==> Allowed(tag[j])
    {
      if !Allowed(tag[i]) {
        return false;
      }
    }
    return true;
  }

  // ---- printing and parsing one tag --------------------------------------------------------------

  function Print(key: string, value: string): string
  {
    key + ":" + value
  }

  /** A split at the first colon, as strings.SplitN with a limit of two gives it. */
  function Parse(name: string): Option<(string, string)>
  {
    var c := Find(name, ':', 0);
    if c == |name| then None else Some((name[..c], name[c + 1..]))
  }

  lemma ParsePrint(key: string, value: string)
    requires ':' !in key
    ensures Parse(Print(key, value)) == Some((key, value))
  {
    var s := Print(key, value);
    assert s[|key|] == ':' && forall j :: 0 <= j < |key| ==> s[j] == key[j];
    assert Find(s, ':', 0) == |key|;
    assert s[..|key|] == key && s[|key| + 1..] == value;
  }

  lemma PrintParse(name: string)
    requires Parse(name).Some?
    ensures var p := Parse(name).value; ':' !in p.0 && Print(p.0, p.1) == name
  {
    var p := Parse(name).value;
    assert name == p.0 + [name[|p.0|]] + p.1;
  }

  // ---- order -----------------------------------------------------------------------------------

  /** The order of sort.Strings. */
  predicate Le(a: string, b: string)
  {
    a == "" || (b != "" && (a[0] < b[0] || (a[0] == b[0] && Le(a[1..], b[1..]))))
  }

  /** A prefix comes first; otherwise the first difference decides. */
  lemma {:induction false} LeIff(a: string, b: string)
    ensures Le(a, b) <==> a <= b || exists i :: 0 <= i < |a| && i < |b| && a[..i] == b[..i] && a[i] < b[i]
  {
    if a != "" && b != "" && a[0] == b[0] {
      LeIff(a[1..], b[1..]);
      assert a == [a[0]] + a[1..] && b == [b[0]] + b[1..];
      if i :| 0 <= i < |a[1..]| && i < |b[1..]| && a[1..][..i] == b[1..][..i] && a[1..][i] < b[1..][i] {
        assert a[..i + 1] == [a[0]] + a[1..][..i] && b[..i + 1] == [b[0]] + b[1..][..i];
        assert a[i + 1] < b[i + 1];
      }
      if i :| 0 <= i < |a| && i < |b| && a[..i] == b[..i] && a[i] < b[i] {
        assert i > 0 && a[1..][..i - 1] == a[..i][1..] && b[1..][..i - 1] == b[..i][1..];
        assert a[1..][i - 1] < b[1..][i - 1];
      }
    } else if a != "" && b != "" {
      assert a[..0] == b[..0];
      assert forall i :: 0 < i && i < |a| && i < |b| ==> a[..i][0] == a[0] && b[..i][0] == b[0];
    }
  }

  lemma LeTotal(a: string, b: string)
    ensures Le(a, b) || Le(b, a)
    ensures Le(a, b) && Le(b, a) ==> a == b
  {
    if a != "" && b != "" && a[0] == b[0] {
      LeTotal(a[1..], b[1..]);
      assert a == [a[0]] + a[1..] && b == [b[0]] + b[1..];
    }
  }

  lemma LeTransitive(a: string, b: string, c: string)
    requires Le(a, b) && Le(b, c)
    ensures Le(a, c)
  {
    if a != "" && b != "" && c != "" && a[0] == b[0] == c[0] {
      LeTransitive(a[1..], b[1..], c[1..]);
    }
  }

  lemma LeOrders()
    ensures TotalPreorder(Le) && Antisymmetric(Le)
  {
    forall a, b ensures (Le(a, b) || Le(b, a)) && (Le(a, b) && Le(b, a) ==> a == b) { LeTotal(a, b); }
    forall a, b, c | Le(a, b) && Le(b, c) ensures Le(a, c) { LeTransitive(a, b, c); }
  }

  /** Whatever order the map is walked in, FormatTags has one possible result. */
  lemma FormatIsDeterministic(tags: Tags, first: seq<string>, second: seq<string>)
    requires Sorted(Le, first) && multiset(first) == multiset(Printed(tags, tags.Keys))
    requires Sorted(Le, second) && multiset(second) == multiset(Printed(tags, tags.Keys))
    ensures first == second
  {
    LeOrders();
    SortedUnique(Le, first, second);
  }

  // ---- FormatTags --------------------------------------------------------------------------------

  ghost predicate Printable(key: string, value: string)
  {
    key != "" && ':' !in key && ValidTag(Print(key, value))
  }

  function Printed(tags: Tags, keys: set<string>): set<string>
    requires keys <= tags.Keys
  {
    set key | key in keys :: Print(key, tags[key])
  }

  /** Every tag once, in order; an error exactly when some tag cannot be printed. */
  method FormatTags(tags: Tags) returns (r: Result<seq<string>, string>)
    ensures r.Ok? <==> forall key :: key in tags ==> Printable(key, tags[key])
    ensures r.Ok? ==> Sorted(Le, r.value) && multiset(r.value) == multiset(Printed(tags, tags.Keys))
  {
    var formatted: seq<string> := [];
    var left := tags.Keys;
    while left != {}
      invariant left <= tags.Keys
      invariant forall key :: key in tags.Keys - left ==> Printable(key, tags[key])
      invariant multiset(formatted) == multiset(Printed(tags, tags.Keys - left))
      decreases left
    {
      var key :| key in left;
      if key == "" || ':' in key {
        return Err("cloud tag keys must be nonempty and must not contain colons");
      }
      var tag := Print(key, tags[key]);
      var ok := ValidateTag(tag);
      if !ok {
        return Err("invalid cloud tag");
      }
      PrintedGrows(tags, tags.Keys - left, key);
      formatted := formatted + [tag];
      left := left - {key};
      assert tags.Keys - left == (tags.Keys - (left + {key})) + {key};
    }
    LeOrders();
    SortSorts(Le, formatted);
    assert tags.Keys - left == tags.Keys;
    return Ok(Sort(Le, formatted));
  }

  lemma PrintedGrows(tags: Tags, done: set<string>, key: string)
    requires done <= tags.Keys && key in tags && key !in done && ':' !in key
    requires forall k :: k in done ==> ':' !in k
    ensures multiset(Printed(tags, done + {key})) == multiset(Printed(tags, done)) + multiset{Print(key, tags[key])}
  {
    var tag := Print(key, tags[key]);
    assert tag !in Printed(tags, done) by {
      if tag in Printed(tags, done) {
        var k :| k in done && Print(k, tags[k]) == tag;
        ParsePrint(k, tags[k]);
        ParsePrint(key, tags[key]);
        assert false;
      }
    }
    assert Printed(tags, done + {key}) == Printed(tags, done) + {tag};
  }
}
