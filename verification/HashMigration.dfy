/**
 * Migration of NodeClass hashes from version 1 to version 2, as a resumable state machine over the
 * NodeClass, its claims and the hash controller, and the drift verdict that must survive it.
 */
module HashMigration {
  import opened Options

  /** A spec, split into the fields the provisioning hash covers and the rest. */
  datatype Spec = Spec(provisioning: string, other: string)

  /** Both hash functions are arbitrary; the version 2 hash sees the provisioning fields only. */
  datatype Hashes = Hashes(legacyOf: Spec -> nat, provisioningOf: string -> nat)
  {
    function Legacy(s: Spec): nat { legacyOf(s) }
    function Provisioning(s: Spec): nat { provisioningOf(s.provisioning) }
  }

  datatype Version = V1 | V2 | Unknown

  datatype Migration = Migration(legacy: nat, provisioning: nat)

  datatype Class = Class(rev: nat, spec: Spec, migration: Option<Migration>, hash: Option<nat>, version: Version)

  datatype Claim = Claim(rev: nat, hash: Option<nat>, version: Version, drifted: bool)

  datatype Verdict = Same | HashDrift | VersionDrift

  /** isNodeClassHashVersionDrifted, then isNodeClassHashDrifted. */
  function Judge(h: Hashes, class_: Class, claim: Claim): Verdict
  {
    if claim.version.Unknown? then VersionDrift
    else if claim.version.V2? then
      if claim.hash == Some(h.Provisioning(class_.spec)) then Same else HashDrift
    else if class_.migration.Some? && claim.hash == Some(class_.migration.value.legacy) then
      if h.Provisioning(class_.spec) != class_.migration.value.provisioning then HashDrift else Same
    else if claim.hash == Some(h.Legacy(class_.spec)) then Same
    else HashDrift
  }

  /**
   * The controller between API calls. `items` is the claim listing, `todo` the listed claims not yet
   * handled, `nc` the NodeClass as last read or written.
   */
  datatype Controller =
    | Idle
    | Fetched(nc: Class)
    | Pinned(nc: Class, m: Migration)
    | Listed(nc: Class, m: Migration, items: map<string, Claim>, todo: set<string>)
    | Ready(nc: Class, pinned: Option<Migration>, items: map<string, Claim>)

  /** `used` holds every claim name there ever was: names are not given twice. */
  datatype World = World(rev: nat, cls: Class, claims: map<string, Claim>, pc: Controller, used: set<string>)

  datatype Step =
    | Fetch
    | Resume
    | WriteCheckpoint
    | Direct
    | List
    | Skip(name: string)
    | Restamp(name: string)
    | Done
    | Finish
    | EditSpec(spec: Spec)
    | MarkDrifted(name: string, drifted: bool)
    | AddClaim(name: string, hash: Option<nat>, version: Version)
    | RemoveClaim(name: string)
    | Crash

  /** The claims migrateClaims restamps. */
  predicate Stale(c: Claim, m: Migration)
  {
    c.version.V1? && c.hash == Some(m.legacy) && !c.drifted
  }

  function Next(h: Hashes, w: World, s: Step): Option<World>
  {
    match s
    case Fetch =>
      if w.pc.Idle? then Some(w.(pc := Fetched(w.cls))) else None
    case Resume =>
      // A checkpoint left by an earlier run is reused as it is.
      if w.pc.Fetched? && !w.pc.nc.version.V2? && w.pc.nc.migration.Some? then
        Some(w.(pc := Pinned(w.pc.nc, w.pc.nc.migration.value)))
      else None
    case WriteCheckpoint =>
      if w.pc.Fetched? && !w.pc.nc.version.V2? && w.pc.nc.migration.None? && w.cls.rev == w.pc.nc.rev then
        var m := Migration(h.Legacy(w.pc.nc.spec), h.Provisioning(w.pc.nc.spec));
        var nc := w.pc.nc.(migration := Some(m), rev := w.rev + 1);
        Some(w.(cls := nc, rev := w.rev + 1, pc := Pinned(nc, m)))
      else None
    case Direct =>
      if w.pc.Fetched? && w.pc.nc.version.V2? then
        if w.pc.nc.hash == Some(h.Provisioning(w.pc.nc.spec)) && w.pc.nc.migration.None? then Some(w.(pc := Idle))
        else Some(w.(pc := Ready(w.pc.nc, None, map[])))
      else None
    case List =>
      if w.pc.Pinned? then Some(w.(pc := Listed(w.pc.nc, w.pc.m, w.claims, w.claims.Keys))) else None
    case Skip(name) =>
      if w.pc.Listed? && name in w.pc.todo && name in w.pc.items && !Stale(w.pc.items[name], w.pc.m) then
        Some(w.(pc := w.pc.(todo := w.pc.todo - {name})))
      else None
    case Restamp(name) =>
      if w.pc.Listed? && name in w.pc.todo && name in w.pc.items && Stale(w.pc.items[name], w.pc.m) &&
         name in w.claims && w.claims[name].rev == w.pc.items[name].rev
      then
        var c := w.pc.items[name].(hash := Some(w.pc.m.provisioning), version := V2, rev := w.rev + 1);
        Some(w.(claims := w.claims[name := c], rev := w.rev + 1, pc := w.pc.(todo := w.pc.todo - {name})))
      else None
    case Done =>
      if w.pc.Listed? && w.pc.todo == {} then Some(w.(pc := Ready(w.pc.nc, Some(w.pc.m), w.pc.items))) else None
    case Finish =>
      if w.pc.Ready? && w.cls.rev == w.pc.nc.rev then
        var nc := w.pc.nc.(migration := None, hash := Some(h.Provisioning(w.pc.nc.spec)), version := V2, rev := w.rev + 1);
        Some(w.(cls := nc, rev := w.rev + 1, pc := Idle))
      else None
    case EditSpec(spec) =>
      Some(w.(cls := w.cls.(spec := spec, rev := w.rev + 1), rev := w.rev + 1))
    case MarkDrifted(name, drifted) =>
      if name in w.claims then
        Some(w.(claims := w.claims[name := w.claims[name].(drifted := drifted, rev := w.rev + 1)], rev := w.rev + 1))
      else None
    case AddClaim(name, hash, version) =>
      // A launch stamps what its checkpoint stored, which may be of an earlier version or spec.
      if name !in w.used then
        Some(w.(claims := w.claims[name := Claim(w.rev + 1, hash, version, false)], rev := w.rev + 1, used := w.used + {name}))
      else None
    case RemoveClaim(name) =>
      Some(w.(claims := w.claims - {name}))
    case Crash =>
      Some(w.(pc := Idle))
  }

  function Exec(h: Hashes, w: World, run: seq<Step>): Option<World>
  {
    if run == [] then Some(w)
    else
      var v := Exec(h, w, run[..|run|-1]);
      if v.None? then None else Next(h, v.value, run[|run|-1])
  }

  /** Any class and any claims, with the controller not yet started and no pending migration. */
  predicate Initial(w: World)
  {
    && w.pc.Idle? && w.cls.rev <= w.rev && w.cls.migration.None?
    && forall n :: n in w.claims ==> w.claims[n].rev <= w.rev && n in w.used
  }

  // ---- what every step keeps -------------------------------------------------------------------

  predicate HasClass(pc: Controller)
  {
    !pc.Idle?
  }

  /** The copy of the class is current unless the class was written since. */
  predicate CopyOk(w: World)
  {
    HasClass(w.pc) ==> w.pc.nc.rev <= w.rev && (w.cls.rev == w.pc.nc.rev ==> w.cls == w.pc.nc)
  }

  /** The checkpoint in the controller's hands is the stored one. */
  predicate PinOk(w: World)
  {
    && (w.pc.Pinned? || w.pc.Listed? ==> w.cls.migration == Some(w.pc.m) && !w.cls.version.V2?)
    && (w.pc.Ready? ==> w.cls.migration == w.pc.pinned && (w.pc.pinned.None? ==> w.cls.version.V2?))
    && (w.cls.version.V2? ==> w.cls.migration.None?)
    && (w.pc.Fetched? ==> w.cls.migration == w.pc.nc.migration && w.cls.version == w.pc.nc.version)
  }

  ghost predicate ItemsOk(w: World)
  {
    w.pc.Listed? || w.pc.Ready? ==>
      forall n :: n in w.pc.items ==>
        && n in w.used && w.pc.items[n].rev <= w.rev
        && (n in w.claims && w.claims[n].rev == w.pc.items[n].rev ==> w.claims[n] == w.pc.items[n])
        && (n in w.claims ==>
              w.claims[n].version.V2? ||
              (w.claims[n].hash == w.pc.items[n].hash && w.claims[n].version == w.pc.items[n].version))
  }

  predicate Handled(w: World, n: string)
  {
    if w.pc.Listed? then n !in w.pc.todo else w.pc.Ready?
  }

  /** Listed claims that were due and have been handled carry version 2. */
  ghost predicate StampedOk(w: World)
  {
    (w.pc.Listed? || (w.pc.Ready? && w.pc.pinned.Some?)) ==>
      var m := if w.pc.Listed? then w.pc.m else w.pc.pinned.value;
      forall n :: n in w.pc.items && Handled(w, n) && Stale(w.pc.items[n], m) && n in w.claims ==> w.claims[n].version.V2?
  }

  ghost predicate Inv(w: World)
  {
    && w.cls.rev <= w.rev && (forall n :: n in w.claims ==> w.claims[n].rev <= w.rev && n in w.used)
    && CopyOk(w) && PinOk(w) && ItemsOk(w) && StampedOk(w)
  }

  lemma RestampKeeps(h: Hashes, w: World, name: string, w': World)
    requires Inv(w) && Next(h, w, Restamp(name)) == Some(w')
    ensures Inv(w')
  {
  }

  lemma ClaimsKeep(h: Hashes, w: World, s: Step, w': World)
    requires Inv(w) && Next(h, w, s) == Some(w') && (s.MarkDrifted? || s.AddClaim? || s.RemoveClaim?)
    ensures Inv(w')
  {
    match s
    case MarkDrifted(_, _) =>
    case AddClaim(_, _, _) =>
    case RemoveClaim(_) =>
  }

  lemma ClassKeeps(h: Hashes, w: World, s: Step, w': World)
    requires Inv(w) && Next(h, w, s) == Some(w') && (s.WriteCheckpoint? || s.Finish? || s.EditSpec?)
    ensures Inv(w')
  {
    match s
    case WriteCheckpoint =>
    case Finish =>
    case EditSpec(_) =>
  }

  lemma LocalKeeps(h: Hashes, w: World, s: Step, w': World)
    requires Inv(w) && Next(h, w, s) == Some(w')
    requires s.Fetch? || s.Resume? || s.Direct? || s.List? || s.Skip? || s.Done? || s.Crash?
    ensures Inv(w')
  {
    match s
    case Fetch =>
    case Resume =>
    case Direct =>
    case List =>
    case Skip(_) =>
    case Done =>
    case Crash =>
  }

  lemma StepKeeps(h: Hashes, w: World, s: Step, w': World)
    requires Inv(w) && Next(h, w, s) == Some(w')
    ensures Inv(w')
  {
    if s.Restamp? {
      RestampKeeps(h, w, s.name, w');
    } else if s.MarkDrifted? || s.AddClaim? || s.RemoveClaim? {
      ClaimsKeep(h, w, s, w');
    } else if s.WriteCheckpoint? || s.Finish? || s.EditSpec? {
      ClassKeeps(h, w, s, w');
    } else {
      LocalKeeps(h, w, s, w');
    }
  }

  lemma {:induction false} RunKeeps(h: Hashes, w: World, run: seq<Step>, w': World)
    requires Initial(w) && Exec(h, w, run) == Some(w')
    ensures Inv(w')
  {
    if run != [] {
      var v := Exec(h, w, run[..|run|-1]).value;
      RunKeeps(h, w, run[..|run|-1], v);
      StepKeeps(h, v, run[|run|-1], w');
    }
  }

  // ---- drift verdicts survive the migration ------------------------------------------------------

  predicate ControllerStep(s: Step)
  {
    !s.EditSpec? && !s.MarkDrifted? && !s.AddClaim? && !s.RemoveClaim?
  }

  /** The claims a finishing controller vouches for: listed, and not marked Drifted when listed. */
  predicate Vouched(w: World, n: string)
  {
    w.pc.Ready? && (w.pc.pinned.None? || (n in w.pc.items && !w.pc.items[n].drifted))
  }

  /**
   * In every run, with spec edits, other writers, crashes and resumptions in between, no write of
   * the hash controller changes the hash-drift verdict of a claim: creating the checkpoint and
   * restamping spare every claim, removing the checkpoint every claim listed and not already Drifted.
   */
  lemma VerdictSurvives(h: Hashes, w: World, run: seq<Step>, v: World, s: Step, v': World, n: string)
    requires Initial(w) && Exec(h, w, run) == Some(v) && Next(h, v, s) == Some(v')
    requires ControllerStep(s) && n in v.claims && (s.Finish? ==> Vouched(v, n))
    ensures n in v'.claims && Judge(h, v'.cls, v'.claims[n]) == Judge(h, v.cls, v.claims[n])
  {
    RunKeeps(h, w, run, v);
  }

  /** Exactly when removing the checkpoint changes the verdict of a claim. */
  lemma FinishChangesIff(h: Hashes, w: World, run: seq<Step>, v: World, v': World, n: string)
    requires Initial(w) && Exec(h, w, run) == Some(v) && Next(h, v, Finish) == Some(v') && n in v.claims
    ensures Judge(h, v'.cls, v'.claims[n]) != Judge(h, v.cls, v.claims[n]) <==>
            var c := v.claims[n];
            && v.cls.migration.Some? && c.version.V1? && c.hash == Some(v.cls.migration.value.legacy)
            && (h.Provisioning(v.cls.spec) == v.cls.migration.value.provisioning) !=
               (h.Legacy(v.cls.spec) == v.cls.migration.value.legacy)
  {
    RunKeeps(h, w, run, v);
  }

  /**
   * A claim is Same if and only if its version is known and its hash agrees: of version 2 with the provisioning fields as
   * they are; of version 1, if it carries the pinned hash, when these fields hash as they did when it was pinned, and
   * otherwise when the whole spec still has its hash. An unknown version is its own kind of drift.
   */
  lemma DriftIff(h: Hashes, c: Class, claim: Claim)
    ensures Judge(h, c, claim) == VersionDrift <==> claim.version != V1 && claim.version != V2
    ensures claim.version == V2 ==> (Judge(h, c, claim) == Same <==> claim.hash == Some(h.provisioningOf(c.spec.provisioning)))
    ensures claim.version == V1 && c.migration.Some? && claim.hash == Some(c.migration.value.legacy) ==>
              (Judge(h, c, claim) == Same <==> h.provisioningOf(c.spec.provisioning) == c.migration.value.provisioning)
    ensures claim.version == V1 && (c.migration.Some? ==> claim.hash != Some(c.migration.value.legacy)) ==>
              (Judge(h, c, claim) == Same <==> claim.hash == Some(h.legacyOf(c.spec)))
  {
  }

  /** Editing fields outside the provisioning hash drifts neither a migrated claim nor a pinned one. */
  lemma OtherFieldsDoNotDrift(h: Hashes, c: Class, claim: Claim, other: string)
    requires claim.version.V2? ||
             (claim.version.V1? && c.migration.Some? && claim.hash == Some(c.migration.value.legacy))
    ensures Judge(h, c.(spec := c.spec.(other := other)), claim) == Judge(h, c, claim)
  {
  }

  /** A finished class carries the version 2 hash of its own spec and no checkpoint. */
  lemma FinishIsComplete(h: Hashes, w: World, run: seq<Step>, v: World, v': World, n: string)
    requires Initial(w) && Exec(h, w, run) == Some(v) && Next(h, v, Finish) == Some(v')
    ensures v'.cls.spec == v.cls.spec && v'.cls.migration.None? && v'.cls.version.V2?
    ensures v'.cls.hash == Some(h.Provisioning(v'.cls.spec))
    ensures v.pc.pinned.Some? && n in v.pc.items && Stale(v.pc.items[n], v.pc.pinned.value) && n in v'.claims ==>
            v'.claims[n].version.V2?
  {
    RunKeeps(h, w, run, v);
  }

  // A class whose first migration was lost to a crash, after which an unrelated field was edited.
  const HX := Hashes((s: Spec) => |s.other|, (s: string) => 7)
  const MX := Migration(0, 7)
  const BEFORE := Claim(0, Some(0), V1, true)
  const W0 := World(0, Class(0, Spec("", ""), None, Some(0), V1), map["n" := BEFORE], Idle, {"n"})
  const CLS := Class(2, Spec("", "x"), Some(MX), Some(0), V1)
  const W4 := World(2, CLS, map["n" := BEFORE], Idle, {"n"})
  const W9 := World(3, CLS, map["n" := BEFORE.(drifted := false, rev := 3)], Ready(CLS, Some(MX), map["n" := BEFORE]), {"n"})

  /** The class with its checkpoint written. */
  const PINNED := Class(1, Spec("", ""), Some(MX), Some(0), V1)

  lemma Pins(start: World) returns (run: seq<Step>)
    requires start == W0.(claims := start.claims, used := start.used)
    ensures Exec(HX, start, run) == Some(start.(rev := 1, cls := PINNED, pc := Pinned(PINNED, MX)))
  {
    var w := start.(pc := Fetched(start.cls));
    run := Extend(HX, start, [], start, Fetch, w);
    run := Extend(HX, start, run, w, WriteCheckpoint, start.(rev := 1, cls := PINNED, pc := Pinned(PINNED, MX)));
  }

  lemma LostMigration(start: World) returns (run: seq<Step>)
    requires start == W0.(claims := start.claims, used := start.used)
    ensures Exec(HX, start, run) == Some(start.(rev := 2, cls := CLS))
  {
    run := Pins(start);
    var w := start.(rev := 1, cls := PINNED);
    run := Extend(HX, start, run, w.(pc := Pinned(PINNED, MX)), Crash, w);
    run := Extend(HX, start, run, w, EditSpec(Spec("", "x")), start.(rev := 2, cls := CLS));
  }

  lemma ResumedMigration(prefix: seq<Step>) returns (run: seq<Step>)
    requires Exec(HX, W0, prefix) == Some(W4)
    ensures Exec(HX, W0, run) == Some(W9)
  {
    var items := map["n" := BEFORE];
    assert items.Keys == {"n"} && {"n"} - {"n"} == {};
    run := Extend(HX, W0, prefix, W4, Fetch, W4.(pc := Fetched(CLS)));
    run := Extend(HX, W0, run, W4.(pc := Fetched(CLS)), Resume, W4.(pc := Pinned(CLS, MX)));
    run := Extend(HX, W0, run, W4.(pc := Pinned(CLS, MX)), List, W4.(pc := Listed(CLS, MX, items, {"n"})));
    run := Extend(HX, W0, run, W4.(pc := Listed(CLS, MX, items, {"n"})), Skip("n"), W4.(pc := Listed(CLS, MX, items, {})));
    run := Extend(HX, W0, run, W4.(pc := Listed(CLS, MX, items, {})), Done, W4.(pc := Ready(CLS, Some(MX), items)));
    assert items["n" := BEFORE.(drifted := false, rev := 3)] == W9.claims;
    run := Extend(HX, W0, run, W4.(pc := Ready(CLS, Some(MX), items)), MarkDrifted("n", false), W9);
  }

  /** A claim skipped because it was marked Drifted changes its verdict if the mark is taken back in time. */
  lemma SkippedClaimCanChange() returns (run: seq<Step>, v': World)
    ensures Initial(W0) && Exec(HX, W0, run) == Some(W9) && Next(HX, W9, Finish) == Some(v')
    ensures !Vouched(W9, "n") && !W9.claims["n"].drifted
    ensures Judge(HX, W9.cls, W9.claims["n"]) == Same && Judge(HX, v'.cls, v'.claims["n"]) == HashDrift
  {
    run := LostMigration(W0);
    run := ResumedMigration(run);
    v' := Next(HX, W9, Finish).value;
  }

  // The same class without claims; a launch checkpointed under version 1 completes after the listing.
  const V0 := W0.(claims := map[], used := {})
  const LATE := Claim(3, Some(0), V1, false)
  const V9 := World(3, CLS, map["n" := LATE], Ready(CLS, Some(MX), map[]), {"n"})

  /** The migration is resumed and lists no claim. */
  lemma EmptyMigration() returns (run: seq<Step>)
    ensures Exec(HX, V0, run) == Some(V0.(rev := 2, cls := CLS, pc := Ready(CLS, Some(MX), map[])))
  {
    run := LostMigration(V0);
    var v := V0.(rev := 2, cls := CLS);
    assert v.claims.Keys == {};
    run := Extend(HX, V0, run, v, Fetch, v.(pc := Fetched(CLS)));
    run := Extend(HX, V0, run, v.(pc := Fetched(CLS)), Resume, v.(pc := Pinned(CLS, MX)));
    run := Extend(HX, V0, run, v.(pc := Pinned(CLS, MX)), List, v.(pc := Listed(CLS, MX, map[], {})));
    run := Extend(HX, V0, run, v.(pc := Listed(CLS, MX, map[], {})), Done, v.(pc := Ready(CLS, Some(MX), map[])));
  }

  /** A claim that appears after the listing, stamped under version 1, also changes its verdict at the end. */
  lemma LateClaimCanChange() returns (run: seq<Step>, v': World)
    ensures Initial(V0) && Exec(HX, V0, run) == Some(V9) && Next(HX, V9, Finish) == Some(v')
    ensures !Vouched(V9, "n") && "n" !in V9.pc.items
    ensures Judge(HX, V9.cls, V9.claims["n"]) == Same && Judge(HX, v'.cls, v'.claims["n"]) == HashDrift
  {
    run := EmptyMigration();
    assert {} + {"n"} == V9.used;
    run := Extend(HX, V0, run, V0.(rev := 2, cls := CLS, pc := Ready(CLS, Some(MX), map[])), AddClaim("n", Some(0), V1), V9);
    v' := Next(HX, V9, Finish).value;
  }

  lemma Extend(h: Hashes, start: World, run: seq<Step>, w: World, s: Step, w': World) returns (longer: seq<Step>)
    requires Exec(h, start, run) == Some(w) && Next(h, w, s) == Some(w')
    ensures longer == run + [s] && Exec(h, start, longer) == Some(w')
  {
    longer := run + [s];
    assert longer[..|longer|-1] == run;
  }

  // ---- the migration can always be finished ------------------------------------------------------------

  /** A run that goes on with steps of the controller only. */
  ghost predicate Goes(h: Hashes, start: World, run: seq<Step>, longer: seq<Step>, w: World)
  {
    run <= longer && Exec(h, start, longer) == Some(w) && forall i :: |run| <= i < |longer| ==> ControllerStep(longer[i])
  }

  lemma GoesOn(h: Hashes, start: World, run: seq<Step>, longer: seq<Step>, w: World, s: Step, w': World) returns (more: seq<Step>)
    requires Goes(h, start, run, longer, w) && Next(h, w, s) == Some(w') && ControllerStep(s)
    ensures Goes(h, start, run, more, w')
  {
    more := Extend(h, start, longer, w, s, w');
  }

  /** What the migration pins: the checkpoint, or both hashes of the spec if there is none. */
  function PinOf(h: Hashes, c: Class): Migration
  {
    if c.migration.Some? then c.migration.value else Migration(h.legacyOf(c.spec), h.provisioningOf(c.spec.provisioning))
  }

  /** A claim after the migration: version 1 claims with the pinned hash that are not Drifted carry the new hash. */
  predicate Migrated(m: Migration, before: Claim, after: Claim)
  {
    if before.version == V1 && before.hash == Some(m.legacy) && !before.drifted then
      after.version == V2 && after.hash == Some(m.provisioning) && !after.drifted
    else after == before
  }

  /** The listed claims that are left are as listed, the others are migrated. */
  ghost predicate Halfway(w: World, before: map<string, Claim>)
  {
    && w.pc.Listed? && w.pc.items == before && w.claims.Keys == before.Keys && w.pc.todo <= before.Keys
    && (forall n :: n in w.pc.todo ==> w.claims[n] == before[n])
    && (forall n :: n in before && n !in w.pc.todo ==> Migrated(w.pc.m, before[n], w.claims[n]))
  }

  lemma {:induction false} HandlesAll(h: Hashes, start: World, run: seq<Step>, longer: seq<Step>, w: World, before: map<string, Claim>)
    returns (more: seq<Step>, v: World)
    requires Goes(h, start, run, longer, w) && Halfway(w, before)
    ensures Goes(h, start, run, more, v) && Halfway(v, before) && v.pc.todo == {}
    ensures v.cls == w.cls && v.pc.nc == w.pc.nc && v.pc.m == w.pc.m
    decreases w.pc.todo
  {
    if n :| n in w.pc.todo {
      var s := if Stale(before[n], w.pc.m) then Restamp(n) else Skip(n);
      var u := Next(h, w, s).value;
      more := GoesOn(h, start, run, longer, w, s, u);
      assert u.claims.Keys == before.Keys;
      more, v := HandlesAll(h, start, run, more, u, before);
    } else {
      more, v := longer, w;
    }
  }

  /** The controller has read the class and written or found the checkpoint. */
  lemma PinsDown(h: Hashes, start: World, run: seq<Step>, w: World) returns (longer: seq<Step>, v: World)
    requires Exec(h, start, run) == Some(w) && w.cls.version != V2
    ensures Goes(h, start, run, longer, v) && v.pc == Pinned(v.cls, PinOf(h, w.cls)) && v.claims == w.claims
    ensures v.cls.spec == w.cls.spec
  {
    longer := GoesOn(h, start, run, run, w, Crash, w.(pc := Idle));
    var u := w.(pc := Fetched(w.cls));
    longer := GoesOn(h, start, run, longer, w.(pc := Idle), Fetch, u);
    var s := if w.cls.migration.Some? then Resume else WriteCheckpoint;
    v := Next(h, u, s).value;
    longer := GoesOn(h, start, run, longer, u, s, v);
  }

  /**
   * From every world, whatever crashed before, the controller alone can finish: the class then carries the version 2 hash
   * of its spec and no checkpoint, and exactly the claims with the pinned hash that are not Drifted are migrated.
   */
  lemma MigrationCanFinish(h: Hashes, start: World, run: seq<Step>, w: World) returns (longer: seq<Step>, v: World)
    requires Exec(h, start, run) == Some(w) && w.cls.version != V2
    ensures Goes(h, start, run, longer, v) && v.cls.spec == w.cls.spec && v.cls.migration == None && v.cls.version == V2
    ensures v.cls.hash == Some(h.provisioningOf(w.cls.spec.provisioning))
    ensures v.claims.Keys == w.claims.Keys && forall n :: n in w.claims ==> Migrated(PinOf(h, w.cls), w.claims[n], v.claims[n])
  {
    var u;
    longer, u := PinsDown(h, start, run, w);
    var l := u.(pc := Listed(u.cls, PinOf(h, w.cls), u.claims, u.claims.Keys));
    longer := GoesOn(h, start, run, longer, u, List, l);
    longer, u := HandlesAll(h, start, run, longer, l, w.claims);
    var d := u.(pc := Ready(u.pc.nc, Some(u.pc.m), u.pc.items));
    longer := GoesOn(h, start, run, longer, u, Done, d);
    v := Next(h, d, Finish).value;
    longer := GoesOn(h, start, run, longer, d, Finish, v);
  }

  /** And a class of version 2 whose hash is out of date gets the right one. */
  lemma HashCanBeRefreshed(h: Hashes, start: World, run: seq<Step>, w: World) returns (longer: seq<Step>, v: World)
    requires Exec(h, start, run) == Some(w) && w.cls.version == V2
    ensures Goes(h, start, run, longer, v) && v.cls.spec == w.cls.spec && v.cls.migration == None && v.cls.version == V2
    ensures v.cls.hash == Some(h.provisioningOf(w.cls.spec.provisioning)) && v.claims == w.claims
  {
    longer := GoesOn(h, start, run, run, w, Crash, w.(pc := Idle));
    var u := w.(pc := Fetched(w.cls));
    longer := GoesOn(h, start, run, longer, w.(pc := Idle), Fetch, u);
    v := Next(h, u, Direct).value;
    longer := GoesOn(h, start, run, longer, u, Direct, v);
    if v.pc.Ready? {
      var z := Next(h, v, Finish).value;
      longer := GoesOn(h, start, run, longer, v, Finish, z);
      v := z;
    }
  }
}
