/** Reading ownership tags back page by page, and what the orphan collector concludes from them. */
module TagListing {
  import opened Options
  import opened Ownership

  const LIMIT := 100

  datatype Problem = ListFailed | Conflict(key: string) | Incomplete

  // ---- one listed name at a time -----------------------------------------------------------------

  /** A name without a colon, or no name, is skipped; a reserved key must not have two values. */
  function Absorb(tags: Tags, name: Option<string>): Result<Tags, Problem>
  {
    var p := if name.None? then None else Parse(name.value);
    if p.None? then Ok(tags)
    else if p.value.0 in tags && tags[p.value.0] != p.value.1 && ReservedTag(p.value.0) then Err(Conflict(p.value.0))
    else Ok(tags[p.value.0 := p.value.1])
  }

  /** The first n names absorbed in order. */
  function Collect(names: seq<Option<string>>, n: nat): Result<Tags, Problem>
    requires n <= |names|
  {
    if n == 0 then Ok(map[])
    else
      var before := Collect(names, n - 1);
      if before.Err? then before else Absorb(before.value, names[n - 1])
  }

  /** An error is final. */
  lemma {:induction false} ErrorStays(names: seq<Option<string>>, m: nat, n: nat)
    requires m <= n <= |names| && Collect(names, m).Err?
    ensures Collect(names, n) == Collect(names, m)
  {
    if m < n { ErrorStays(names, m, n - 1); }
  }

  /** Name i is a tag with this key. */
  predicate HasKey(names: seq<Option<string>>, i: int, key: string)
  {
    0 <= i < |names| && names[i].Some? && Parse(names[i].value).Some? && Parse(names[i].value).value.0 == key
  }

  function ValueAt(names: seq<Option<string>>, i: int): string
    requires 0 <= i < |names| && names[i].Some? && Parse(names[i].value).Some?
  {
    Parse(names[i].value).value.1
  }

  /** The last of the first n names with this key has this value. */
  ghost predicate LastValue(names: seq<Option<string>>, n: nat, key: string, value: string)
  {
    exists i :: i < n && HasKey(names, i, key) && ValueAt(names, i) == value && forall j :: i < j < n ==> !HasKey(names, j, key)
  }

  lemma LastValueNext(names: seq<Option<string>>, n: nat, key: string, value: string)
    requires n < |names|
    ensures LastValue(names, n + 1, key, value) <==>
            if HasKey(names, n, key) then ValueAt(names, n) == value else LastValue(names, n, key, value)
  {
    if HasKey(names, n, key) {
      forall i | i < n && HasKey(names, i, key) ensures exists j :: i < j < n + 1 && HasKey(names, j, key) {}
    }
  }

  /** Of several names with one key the last counts. */
  lemma {:induction false} LastNameCounts(names: seq<Option<string>>, n: nat, key: string, value: string)
    requires n <= |names| && Collect(names, n).Ok?
    ensures key in Collect(names, n).value && Collect(names, n).value[key] == value <==> LastValue(names, n, key, value)
  {
    if n > 0 {
      LastNameCounts(names, n - 1, key, value);
      LastValueNext(names, n - 1, key, value);
    }
  }

  /** Two of the first n names give a reserved key different values. */
  ghost predicate Contradicted(names: seq<Option<string>>, n: nat, key: string)
  {
    exists i, j :: i < j < n && HasKey(names, i, key) && HasKey(names, j, key) && ValueAt(names, i) != ValueAt(names, j) && ReservedTag(key)
  }

  /** Without a contradiction all names with a reserved key agree with the collected value. */
  lemma {:induction false} ReservedAgree(names: seq<Option<string>>, n: nat, key: string, i: int)
    requires n <= |names| && Collect(names, n).Ok? && ReservedTag(key) && i < n && HasKey(names, i, key)
    ensures key in Collect(names, n).value && Collect(names, n).value[key] == ValueAt(names, i)
  {
    if i < n - 1 {
      ReservedAgree(names, n - 1, key, i);
    }
  }

  /** The listing is refused if and only if some reserved key has two values. */
  lemma {:induction false} ConflictIff(names: seq<Option<string>>, n: nat)
    requires n <= |names|
    ensures Collect(names, n).Err? <==> exists key :: Contradicted(names, n, key)
  {
    if n > 0 {
      ConflictIff(names, n - 1);
      if Collect(names, n).Err? {
        if Collect(names, n - 1).Err? {
          var key :| Contradicted(names, n - 1, key);
          assert Contradicted(names, n, key);
        } else {
          FirstConflict(names, n);
        }
      } else {
        forall key ensures !Contradicted(names, n, key) { NoConflict(names, n, key); }
      }
    }
  }

  lemma FirstConflict(names: seq<Option<string>>, n: nat)
    requires 0 < n <= |names| && Collect(names, n - 1).Ok? && Collect(names, n).Err?
    ensures exists key :: Contradicted(names, n, key)
  {
    var p := Parse(names[n - 1].value).value;
    var before := Collect(names, n - 1).value;
    LastNameCounts(names, n - 1, p.0, before[p.0]);
    var i :| i < n - 1 && HasKey(names, i, p.0) && ValueAt(names, i) == before[p.0] && forall j :: i < j < n - 1 ==> !HasKey(names, j, p.0);
    assert HasKey(names, n - 1, p.0) && ValueAt(names, n - 1) == p.1;
    assert Contradicted(names, n, p.0);
  }

  lemma NoConflict(names: seq<Option<string>>, n: nat, key: string)
    requires n <= |names| && Collect(names, n).Ok?
    ensures !Contradicted(names, n, key)
  {
    forall i, j | i < j < n && HasKey(names, i, key) && HasKey(names, j, key) && ReservedTag(key)
      ensures ValueAt(names, i) == ValueAt(names, j)
    {
      ReservedAgree(names, n, key, i);
      ReservedAgree(names, n, key, j);
    }
  }

  // ---- the paging loop ---------------------------------------------------------------------------

  /** What the service answers at an offset: how many of the remaining names, and perhaps the total. */
  datatype Page = Failed | Nothing | Names(count: nat, total: Option<int>)

  type Service = nat -> Page

  /** Pages are cut from the attached names; nothing else is assumed. */
  ghost predicate Cuts(service: Service, names: seq<Option<string>>)
  {
    forall offset: nat :: offset <= |names| && service(offset).Names? ==> service(offset).count <= |names| - offset
  }

  /** A reported total is the true one, and a page without a total is short only at the end. */
  ghost predicate Faithful(service: Service, names: seq<Option<string>>)
  {
    forall offset: nat :: offset <= |names| && service(offset).Names? ==>
      var p := service(offset);
      if p.total.Some? then p.total.value == |names| else p.count < LIMIT ==> offset + p.count == |names|
  }

  /** The service answers every request and never sends an empty page before the end. */
  ghost predicate Answers(service: Service, names: seq<Option<string>>)
  {
    forall offset: nat :: offset <= |names| ==>
      service(offset).Names? && (offset < |names| ==> service(offset).count > 0)
  }

  /** instanceTags: None stands for the nil map of an untaggable resource or a missing result. */
  method InstanceTags(taggable: bool, service: Service, names: seq<Option<string>>) returns (r: Result<Option<Tags>, Problem>)
    requires Cuts(service, names)
    ensures !taggable ==> r == Ok(None)
    ensures Faithful(service, names) && r.Ok? && r.value.Some? ==> Collect(names, |names|) == Ok(r.value.value)
    ensures taggable && Faithful(service, names) && Answers(service, names) ==>
              r == match Collect(names, |names|) case Ok(tags) => Ok(Some(tags)) case Err(e) => Err(e)
    ensures r.Err? && r.error.Conflict? ==> Collect(names, |names|) == Err(r.error)
  {
    if !taggable {
      return Ok(None);
    }
    var tags: Tags := map[];
    var offset: nat := 0;
    while true
      invariant offset <= |names|
      invariant Collect(names, offset) == Ok(tags)
      decreases |names| - offset
    {
      var page := service(offset);
      if page.Failed? {
        return Err(ListFailed);
      }
      if page.Nothing? {
        return Ok(None);
      }
      for i := 0 to page.count
        invariant Collect(names, offset + i) == Ok(tags)
      {
        var next := Absorb(tags, names[offset + i]);
        assert Collect(names, offset + i + 1) == next;
        if next.Err? {
          ErrorStays(names, offset + i + 1, |names|);
          return Err(next.error);
        }
        tags := next.value;
      }
      offset := offset + page.count;
      if page.total.Some? {
        if offset >= page.total.value {
          return Ok(Some(tags));
        }
        if page.count == 0 {
          return Err(Incomplete);
        }
      } else if page.count < LIMIT {
        return Ok(Some(tags));
      }
    }
  }

  // ---- the round trip ----------------------------------------------------------------------------

  /** The service holds exactly the printed tags, in any order and however often each is listed. */
  ghost predicate Attached(names: seq<Option<string>>, tags: Tags)
  {
    && (forall i :: 0 <= i < |names| ==> names[i].Some? && IsTag(tags, names[i].value))
    && (forall key :: key in tags ==> Listed(names, key, tags[key]))
  }

  ghost predicate Listed(names: seq<Option<string>>, key: string, value: string)
  {
    exists i :: 0 <= i < |names| && names[i] == Some(Print(key, value))
  }

  predicate IsTag(tags: Tags, name: string)
  {
    var p := Parse(name);
    p.Some? && p.value.0 in tags && tags[p.value.0] == p.value.1
  }

  ghost predicate Agrees(c: Tags, tags: Tags)
  {
    forall key :: key in c ==> key in tags && c[key] == tags[key]
  }

  lemma {:induction false} CollectAttached(names: seq<Option<string>>, tags: Tags, n: nat)
    requires n <= |names| && (forall i :: 0 <= i < |names| ==> names[i].Some? && IsTag(tags, names[i].value))
    ensures Collect(names, n).Ok?
    ensures var c := Collect(names, n).value;
            && Agrees(c, tags)
            && (forall i :: 0 <= i < n ==> IsTag(tags, names[i].value) && Parse(names[i].value).value.0 in c)
  {
    if n > 0 {
      CollectAttached(names, tags, n - 1);
      assert IsTag(tags, names[n - 1].value);
    }
  }

  lemma KeyRead(names: seq<Option<string>>, tags: Tags, key: string, c: Tags)
    requires Attached(names, tags) && key in tags && ':' !in key && Collect(names, |names|) == Ok(c)
    ensures key in c
  {
    assert Listed(names, key, tags[key]);
    var i :| 0 <= i < |names| && names[i] == Some(Print(key, tags[key]));
    CollectAttached(names, tags, |names|);
    ParsePrint(key, tags[key]);
  }

  lemma CollectedAgrees(names: seq<Option<string>>, tags: Tags)
    requires Attached(names, tags)
    ensures Collect(names, |names|).Ok? && Agrees(Collect(names, |names|).value, tags)
  {
    CollectAttached(names, tags, |names|);
  }

  lemma AgreesEverywhere(c: Tags, tags: Tags)
    requires Agrees(c, tags) && tags.Keys <= c.Keys
    ensures c == tags
  {
  }

  /** Reading undoes printing. */
  lemma ReadBack(names: seq<Option<string>>, tags: Tags)
    requires forall key :: key in tags ==> ':' !in key
    requires Attached(names, tags)
    ensures Collect(names, |names|) == Ok(tags)
  {
    CollectedAgrees(names, tags);
    var c := Collect(names, |names|).value;
    forall key | key in tags ensures key in c.Keys { KeyRead(names, tags, key, c); }
    AgreesEverywhere(c, tags);
  }

  /** What FormatTags printed, listed in any order, is what was attached. */
  lemma PrintedIsAttached(tags: Tags, printed: seq<string>, names: seq<Option<string>>)
    requires forall key :: key in tags ==> ':' !in key
    requires multiset(printed) == multiset(Printed(tags, tags.Keys))
    requires forall name: string :: name in printed <==> Some(name) in names
    requires None !in names
    ensures Attached(names, tags)
  {
    forall i | 0 <= i < |names| ensures names[i].Some? && IsTag(tags, names[i].value) {
      assert names[i] in names;
      assert names[i] != None;
      var name := names[i].value;
      assert name in multiset(printed);
      var key :| key in tags && Print(key, tags[key]) == name;
      ParsePrint(key, tags[key]);
    }
    forall key | key in tags ensures Listed(names, key, tags[key]) {
      assert Print(key, tags[key]) in Printed(tags, tags.Keys);
      assert Print(key, tags[key]) in multiset(printed);
      assert Some(Print(key, tags[key])) in names;
    }
  }

  /** A key of the launcher keeps its value, or the listing is refused, whatever else is attached. */
  lemma {:induction false} ReservedValueStands(names: seq<Option<string>>, n: nat, key: string, value: string, i: nat)
    requires i < n <= |names| && names[i] == Some(Print(key, value)) && ':' !in key && ReservedTag(key)
    ensures Collect(names, n).Ok? ==> key in Collect(names, n).value && Collect(names, n).value[key] == value
  {
    if i == n - 1 {
      ParsePrint(key, value);
    } else {
      ReservedValueStands(names, n - 1, key, value, i);
    }
  }

  // ---- ownership ---------------------------------------------------------------------------------

  function Value(tags: Tags, key: string): string
  {
    if key in tags then tags[key] else ""
  }

  /** ownsTags; the cluster identity is read only when the fixed tags are there, and reading it may fail. */
  function OwnsTags(tags: Tags, clusterUid: Result<string, string>): Result<bool, string>
  {
    if Value(tags, MANAGED) != "true" || Value(tags, PROVIDER) != "vpc" || Value(tags, CLAIM_UID) == "" || Value(tags, CLASS_UID) == "" then
      Ok(false)
    else if clusterUid.Err? then Err(clusterUid.error)
    else Ok(Value(tags, CLUSTER_UID) == clusterUid.value)
  }

  /**
   * Any tags, whoever attached them: they are this cluster's if and only if all five are there with these values. An
   * absent tag is as good as an empty one, and only the cluster's own identity may be empty.
   */
  lemma OwnedIff(tags: Tags, clusterUid: string)
    ensures OwnsTags(tags, Ok(clusterUid)) == Ok(true) <==>
            && MANAGED in tags && tags[MANAGED] == "true" && PROVIDER in tags && tags[PROVIDER] == "vpc"
            && CLAIM_UID in tags && tags[CLAIM_UID] != "" && CLASS_UID in tags && tags[CLASS_UID] != ""
            && (if CLUSTER_UID in tags then tags[CLUSTER_UID] == clusterUid else clusterUid == "")
    ensures OwnsTags(tags, Ok(clusterUid)).Ok?
  {
  }

  /** A cluster that cannot be identified is an error only for tags that could be its own. */
  lemma UnidentifiedIff(tags: Tags, reason: string, anyUid: string)
    ensures OwnsTags(tags, Err(reason)) == Err(reason) <==>
            OwnsTags(tags[CLUSTER_UID := anyUid], Ok(anyUid)) == Ok(true)
    ensures OwnsTags(tags, Err(reason)) == Err(reason) || OwnsTags(tags, Err(reason)) == Ok(false)
  {
    KeysDiffer();
  }

  lemma KeysDiffer()
    ensures MANAGED != PROVIDER && MANAGED != CLUSTER_UID && MANAGED != CLAIM_UID && MANAGED != CLASS_UID
    ensures PROVIDER != CLUSTER_UID && PROVIDER != CLAIM_UID && PROVIDER != CLASS_UID
    ensures CLUSTER_UID != CLAIM_UID && CLUSTER_UID != CLASS_UID && CLAIM_UID != CLASS_UID
  {
    var n := |IBM_PREFIX|;
    assert MANAGED[9] == '.' && PROVIDER[9] == '-';
    assert PROVIDER[n] == 'p' && CLUSTER_UID[n] == 'c' && CLAIM_UID[n] == 'n' && CLASS_UID[n] == 'n';
    assert CLAIM_UID[n + 7] == 'i' && CLASS_UID[n + 7] == 's';
  }

  /** Merged launch tags are owned exactly by the cluster that launched, when no UID is empty. */
  lemma OwnedExactlyByLauncher(clusterUid: string, claimUid: string, classUid: string, user: Tags, reader: string)
    requires claimUid != "" && classUid != ""
    ensures OwnsTags(VpcTags(clusterUid, claimUid, classUid) + UserTags(user), Ok(reader)) == Ok(reader == clusterUid)
  {
    var own := VpcTags(clusterUid, claimUid, classUid);
    var tags := own + UserTags(user);
    KeysDiffer();
    forall key | OwnKey(key) ensures key in tags && tags[key] == own[key] {
      ReservedCannotBeOverridden(clusterUid, claimUid, classUid, user, key);
    }
    assert OwnKey(MANAGED) && OwnKey(PROVIDER) && OwnKey(CLUSTER_UID) && OwnKey(CLAIM_UID) && OwnKey(CLASS_UID);
  }

  /**
   * The whole way round: merged tags that FormatTags could print, attached and listed in any order, are read back as
   * they were, and the verdict names exactly the launching cluster.
   */
  lemma OwnershipRoundTrip(clusterUid: string, claimUid: string, classUid: string, user: Tags,
                           printed: seq<string>, names: seq<Option<string>>, reader: string)
    requires claimUid != "" && classUid != ""
    requires var tags := VpcTags(clusterUid, claimUid, classUid) + UserTags(user);
             && (forall key :: key in tags ==> Printable(key, tags[key]))
             && multiset(printed) == multiset(Printed(tags, tags.Keys))
    requires None !in names && forall name: string :: name in printed <==> Some(name) in names
    ensures var tags := VpcTags(clusterUid, claimUid, classUid) + UserTags(user);
            Collect(names, |names|) == Ok(tags) && OwnsTags(tags, Ok(reader)) == Ok(reader == clusterUid)
  {
    var tags := VpcTags(clusterUid, claimUid, classUid) + UserTags(user);
    forall key | key in tags ensures ':' !in key { assert Printable(key, tags[key]); }
    PrintedIsAttached(tags, printed, names);
    ReadBack(names, tags);
    OwnedExactlyByLauncher(clusterUid, claimUid, classUid, user, reader);
  }

  /**
   * The same as one piece of work: the launcher merges and prints the tags, the service lists what was attached page by
   * page, and the collector judges what it reads. `names` is the service's listing of `printed`, in any order.
   */
  method LaunchAndJudge(clusterUid: string, claimUid: string, classUid: string, user: Tags,
                        service: Service, names: seq<Option<string>>, reader: string)
    returns (formatted: Result<seq<string>, string>, owned: Result<bool, string>)
    requires claimUid != "" && classUid != ""
    requires Cuts(service, names) && Faithful(service, names) && Answers(service, names) && None !in names
    ensures var tags := VpcTags(clusterUid, claimUid, classUid) + UserTags(user);
            formatted.Ok? <==> forall key :: key in tags ==> Printable(key, tags[key])
    ensures formatted.Ok? && (forall name: string :: name in formatted.value <==> Some(name) in names) ==>
              owned == Ok(reader == clusterUid)
  {
    var tags := MergeTags(VpcTags(clusterUid, claimUid, classUid), user);
    formatted := FormatTags(tags);
    if formatted.Err? {
      return formatted, Ok(false);
    }
    var listed := InstanceTags(true, service, names);
    var back: Tags := if listed.Ok? && listed.value.Some? then listed.value.value else map[];
    owned := OwnsTags(back, Ok(reader));
    if forall name: string :: name in formatted.value <==> Some(name) in names {
      OwnershipRoundTrip(clusterUid, claimUid, classUid, user, formatted.value, names, reader);
    }
  }
}
