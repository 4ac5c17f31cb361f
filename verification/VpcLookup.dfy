/** The listing loops of findLaunch and CleanupPending. */
module VpcLookup {
  import opened Options

  /** An instance in a name listing; either field may be missing. */
  datatype Listed = Listed(name: Option<string>, id: Option<string>)

  /** An instance read by its identity; `crn` is its resource name split at colons. */
  datatype Details = Details(name: Option<string>, profile: Option<string>, zone: Option<string>, vpc: Option<string>,
                             image: Option<string>, attached: Option<string>, primary: Option<string>,
                             group: Option<string>, crn: seq<string>)

  /** What the launch checkpoint says of the instance; an empty resource group leaves it open. */
  datatype Config = Config(name: string, profile: string, zone: string, vpc: string, image: string, subnet: string,
                           group: string, account: string)

  datatype Trouble = Ambiguous | NoIdentity | Unreadable(reason: string) | Mismatch

  predicate Named(listing: seq<Listed>, i: int, name: string)
  {
    0 <= i < |listing| && listing[i].name == Some(name)
  }

  ghost predicate First(listing: seq<Listed>, i: int, name: string)
  {
    Named(listing, i, name) && forall j :: Named(listing, j, name) ==> i <= j
  }

  /** The subnet of the primary interface, or of the attachment when there is no interface. */
  function Subnet(d: Details): string
  {
    if d.primary.Some? then d.primary.value else if d.attached.Some? then d.attached.value else ""
  }

  predicate OfAccount(crn: seq<string>, account: string)
  {
    |crn| == 10 && crn[0] == "crn" && crn[6] == "a/" + account
  }

  predicate Fits(c: Config, d: Details)
  {
    && d.name == Some(c.name) && d.profile == Some(c.profile) && d.zone == Some(c.zone) && d.vpc == Some(c.vpc) && d.image == Some(c.image)
    && Subnet(d) == c.subnet && (c.group != "" ==> d.group == Some(c.group)) && OfAccount(d.crn, c.account)
  }

  /** An instance as launched from the checkpoint; where it reports its subnet, and in which resource group, is open. */
  function AsLaunched(c: Config, attached: Option<string>, primary: Option<string>, group: Option<string>, crn: seq<string>): Details
  {
    Details(Some(c.name), Some(c.profile), Some(c.zone), Some(c.vpc), Some(c.image), attached, primary, group, crn)
  }

  /**
   * An instance fits if and only if it is as launched: in the subnet by its primary interface, or by its attachment where
   * there is no interface, in the group where one is asked for, and in the account by the seventh of ten parts of its name.
   */
  lemma FitsIff(c: Config, d: Details)
    ensures Fits(c, d) <==>
            && d == AsLaunched(c, d.attached, d.primary, d.group, d.crn)
            && (d.primary == Some(c.subnet) || (d.primary == None && d.attached == Some(c.subnet)) ||
                (d.primary == None && d.attached == None && c.subnet == ""))
            && (c.group == "" || d.group == Some(c.group))
            && |d.crn| == 10 && d.crn[0] == "crn" && d.crn[6] == "a/" + c.account
  {
  }

  /**
   * findLaunch: the only instance of the launch name, as it reads, if it fits the checkpoint. `get` answers the read of
   * an identity. Each outcome is that of exactly one case.
   */
  method FindLaunch(listing: seq<Listed>, c: Config, get: string -> Result<Details, string>) returns (r: Result<Option<Details>, Trouble>)
    ensures r == Ok(None) <==> forall i :: !Named(listing, i, c.name)
    ensures forall i :: First(listing, i, c.name) ==>
              if listing[i].id.None? then r == Err(NoIdentity)
              else if get(listing[i].id.value).Err? then r == Err(Unreadable(get(listing[i].id.value).error))
              else if exists j :: Named(listing, j, c.name) && j != i then r == Err(Ambiguous)
              else if Fits(c, get(listing[i].id.value).value) then r == Ok(Some(get(listing[i].id.value).value))
              else r == Err(Mismatch)
  {
    var found: Option<Details> := None;
    ghost var at := -1;
    for k := 0 to |listing|
      invariant found.None? ==> forall i :: Named(listing, i, c.name) ==> k <= i
      invariant found.Some? ==> at < k && First(listing, at, c.name) && listing[at].id.Some? && get(listing[at].id.value) == Ok(found.value)
      invariant found.Some? ==> forall i :: Named(listing, i, c.name) && i < k ==> i == at
    {
      if listing[k].name != Some(c.name) {
        assert !Named(listing, k, c.name);
        continue;
      }
      assert Named(listing, k, c.name);
      if found.Some? {
        return Err(Ambiguous);
      }
      assert First(listing, k, c.name);
      if listing[k].id.None? {
        return Err(NoIdentity);
      }
      var read := get(listing[k].id.value);
      if read.Err? {
        return Err(Unreadable(read.error));
      }
      found, at := Some(read.value), k;
    }
    if found.None? {
      return Ok(None);
    }
    var d := found.value;
    if d.name != Some(c.name) || d.profile != Some(c.profile) || d.zone != Some(c.zone) || d.vpc != Some(c.vpc) || d.image != Some(c.image) {
      return Err(Mismatch);
    }
    var subnet := "";
    if d.attached.Some? {
      subnet := d.attached.value;
    }
    if d.primary.Some? {
      subnet := d.primary.value;
    }
    if subnet != c.subnet {
      return Err(Mismatch);
    }
    if c.group != "" && d.group != Some(c.group) {
      return Err(Mismatch);
    }
    if !OfAccount(d.crn, c.account) {
      return Err(Mismatch);
    }
    return Ok(found);
  }

  datatype Node = Node(provider: string, finalizer: bool, deleting: bool)

  datatype Gate = NoNode | Waiting | Unmanaged

  /**
   * CleanupPending's scan of the nodes: the instance may be deleted directly only when no node
   * carries it; a node without graceful termination stops the cleanup.
   */
  method GateByNodes(nodes: seq<Node>, provider: string) returns (g: Gate, drained: set<int>)
    ensures g.NoNode? <==> forall i :: 0 <= i < |nodes| ==> nodes[i].provider != provider
    ensures g.Unmanaged? <==> exists i :: 0 <= i < |nodes| && nodes[i].provider == provider && !nodes[i].finalizer
    ensures forall i :: i in drained ==> 0 <= i < |nodes| && nodes[i].provider == provider && nodes[i].finalizer && !nodes[i].deleting
    ensures g.Waiting? ==> forall i :: 0 <= i < |nodes| && nodes[i].provider == provider && !nodes[i].deleting ==> i in drained
  {
    var foundNode := false;
    drained := {};
    for k := 0 to |nodes|
      invariant !foundNode <==> forall i :: 0 <= i < k ==> nodes[i].provider != provider
      invariant forall i :: 0 <= i < k && nodes[i].provider == provider ==> nodes[i].finalizer
      invariant forall i :: i in drained ==> 0 <= i < k && nodes[i].provider == provider && nodes[i].finalizer && !nodes[i].deleting
      invariant forall i :: 0 <= i < k && nodes[i].provider == provider && !nodes[i].deleting ==> i in drained
    {
      if nodes[k].provider == provider {
        foundNode := true;
        if !nodes[k].finalizer {
          return Unmanaged, drained;
        }
        if !nodes[k].deleting {
          drained := drained + {k};
        }
      }
    }
    g := if foundNode then Waiting else NoNode;
  }
}
