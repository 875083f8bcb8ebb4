/** Ownership records, their phase graph, and where a filesystem claim is found. */
module RecoveryRecords {
  import opened Options
  import opened RecoveryTree

  datatype Kind = Filesystem | Process | Cgroup | RetainedSource

  datatype Phase =
    | AllocationIntent | DurableOwned | Active | CleanupIntent
    | Reclaimed | RetainedByPolicy | Ambiguous | CleanupFailed

  datatype Identity =
    | Unknown
    | Place(path: Path, stamp: Stamp)
    | Watched
    | Covered(cgroup: string, digest: (Path, Stamp), started: bool, boot: string)

  /** `owned` says the record carries this state root and this user; `grouped` is the
      second journal schema, in which a process is covered by a cgroup. */
  datatype Record = Record(
    id: string, session: string, kind: Kind, grouped: bool, phase: Phase, identity: Identity,
    recoverable: bool, owned: bool, controller: string, boot: string,
    target: Option<Path>, observations: nat, emptied: bool, evidence: bool)

  const MAX_OBSERVATIONS := 64

  predicate IsClaim(r: Record) {
    r.kind.Filesystem? || r.kind.RetainedSource?
  }

  function Next(phase: Phase): set<Phase> {
    match phase
    case AllocationIntent => {DurableOwned, RetainedByPolicy, CleanupIntent, Ambiguous}
    case DurableOwned => {Active, CleanupIntent, RetainedByPolicy, Ambiguous}
    case Active => {CleanupIntent, RetainedByPolicy, Ambiguous}
    case CleanupIntent => {Reclaimed, CleanupFailed, Ambiguous}
    case CleanupFailed => {CleanupIntent, Ambiguous}
    case RetainedByPolicy => {CleanupIntent, Ambiguous}
    case Ambiguous => {}
    case Reclaimed => {}
  }

  /** Where each phase may be entered from. Nothing leads out of a terminal phase, and none leads back to the start. */
  lemma PhaseSources(from: Phase, to: Phase)
    ensures to.AllocationIntent? ==> to !in Next(from)
    ensures to.DurableOwned? ==> (to in Next(from) <==> from.AllocationIntent?)
    ensures to.Active? ==> (to in Next(from) <==> from.DurableOwned?)
    ensures to.RetainedByPolicy? ==>
              (to in Next(from) <==> from.AllocationIntent? || from.DurableOwned? || from.Active?)
    ensures to.CleanupIntent? ==> (to in Next(from) <==> !Terminal(from) && !from.CleanupIntent?)
    ensures to.CleanupFailed? || to.Reclaimed? ==> (to in Next(from) <==> from.CleanupIntent?)
    ensures to.Ambiguous? ==> (to in Next(from) <==> !from.Reclaimed? && !from.Ambiguous?)
  {}

  predicate Terminal(phase: Phase) {
    phase.Reclaimed? || phase.Ambiguous?
  }

  predicate InResources(p: Path) {
    |p| > 1 && p[0] == "resources"
  }

  predicate InQuarantine(p: Path) {
    |p| > 1 && p[0] == "quarantine" && "reclaim-" <= p[1]
  }

  /** The quarantine name of the tree a claim's own removal works on. */
  function Own(id: string): Path {
    ["quarantine", "reclaim-" + id]
  }

  lemma OwnApart(a: string, b: string)
    requires a != b
    ensures Apart(Own(a), Own(b))
  {
    assert Own(a)[1][8..] == a && Own(b)[1][8..] == b;
  }

  /** What the publisher's validation asks of a record. */
  predicate Publishable(r: Record) {
    && r.observations <= MAX_OBSERVATIONS
    && (r.kind.RetainedSource? && (r.phase.CleanupIntent? || r.phase.CleanupFailed? || r.phase.Reclaimed?) ==>
          r.recoverable)
    && (IsClaim(r) || r.kind.Cgroup? ==> r.identity.Unknown? || r.identity.Place?)
    && (r.kind.Process? ==> !r.identity.Place? && (r.identity.Covered? <==> r.grouped))
    && (IsClaim(r) ==> !r.grouped)
    && (r.identity.Unknown? || (r.identity.Covered? && !r.identity.started) ==>
          r.phase.AllocationIntent? || r.phase.Ambiguous?)
    && (r.target.Some? ==> InQuarantine(r.target.value))
    && (r.evidence ==> r.kind.Cgroup? && r.grouped
                       && (r.phase.CleanupIntent? || r.phase.CleanupFailed? || r.phase.Reclaimed?))
  }

  /** Why a record was not simply recovered. */
  datatype Reason =
    | CgroupCleanupFailed | CgroupIdentityUnconfirmed | CoveringCgroupAmbiguous | CoveringCgroupEmptyUnconfirmed
    | CoveringCgroupNotReclaimed | DescendantCleanupFailed | DuplicateObjectIdentity | ForeignRootOrUid
    | GroupCleanupTargetConflict | IdentityIncomplete | ObjectIdentityChanged | ObjectMissingUnconfirmed
    | OwnershipAmbiguous | PathOutsideResources | PathValidationFailed | PostRestartIdentityUnavailable
    | PriorCleanupFailed | ProcessGroupLinkUnconfirmed | ProtectedDescendant | RemovalFailed
    | RenameFailed | KeptByPolicy | TerminalCountersNotRetained

  // ---- where a claim is ----

  datatype Location = At(path: Path) | Refused(reason: Reason)

  /** `_validate_filesystem`: the claim's directory must be at exactly one of its path and its target. */
  function Locate(tree: Tree, r: Record): (l: Location)
    requires IsClaim(r) && Publishable(r)
    ensures l.At? ==> r.identity.Place? && InResources(r.identity.path) && IsDir(tree, l.path, r.identity.stamp)
    ensures l.At? ==> l.path == r.identity.path || r.target == Some(l.path)
    ensures l.At? && l.path != r.identity.path ==> Find(tree, r.identity.path).Absent?
    ensures l.At? && r.target.Some? && l.path != r.target.value ==> Find(tree, r.target.value).Absent?
  {
    if r.identity.Unknown? then Refused(IdentityIncomplete)
    else if !InResources(r.identity.path) then Refused(PathOutsideResources)
    else
      var here := Find(tree, r.identity.path);
      var there := if r.target.Some? then Find(tree, r.target.value) else Absent;
      if here.Obstructed? then Refused(PathValidationFailed)
      else if here.Directory? && here.stamp != r.identity.stamp then Refused(ObjectIdentityChanged)
      else if there.Obstructed? then Refused(PathValidationFailed)
      else if there.Directory? && there.stamp != r.identity.stamp then Refused(ObjectIdentityChanged)
      else if here.Absent? && there.Absent? then Refused(ObjectMissingUnconfirmed)
      else if here.Directory? && there.Directory? then Refused(DuplicateObjectIdentity)
      else At(if here.Directory? then r.identity.path else r.target.value)
  }

  /** Nothing is at the place, and nothing in the way of it. */
  predicate Free(tree: Tree, place: Option<Path>) {
    place.None? || Find(tree, place.value).Absent?
  }

  /** Where a claim is found, and why it is not. */
  lemma LocateExactly(tree: Tree, r: Record, p: Path)
    requires IsClaim(r) && Publishable(r)
    ensures Locate(tree, r) == At(p) <==>
              && r.identity.Place? && InResources(r.identity.path)
              && ((p == r.identity.path && IsDir(tree, p, r.identity.stamp) && Free(tree, r.target))
                  || (Some(p) == r.target && IsDir(tree, p, r.identity.stamp) && Free(tree, Some(r.identity.path))))
    ensures Locate(tree, r) == Refused(IdentityIncomplete) <==> r.identity.Unknown?
    ensures Locate(tree, r) == Refused(PathOutsideResources) <==> r.identity.Place? && !InResources(r.identity.path)
    ensures r.identity.Place? && InResources(r.identity.path) ==>
              && (Locate(tree, r) == Refused(ObjectMissingUnconfirmed) <==>
                    Free(tree, Some(r.identity.path)) && Free(tree, r.target))
              && (Locate(tree, r) == Refused(DuplicateObjectIdentity) <==>
                    && IsDir(tree, r.identity.path, r.identity.stamp)
                    && r.target.Some? && IsDir(tree, r.target.value, r.identity.stamp))
  {}

  /** The claim's own directory is at neither of its two places. */
  ghost predicate Gone(r: Record, tree: Tree)
    requires r.identity.Place?
  {
    && !IsDir(tree, r.identity.path, r.identity.stamp)
    && (r.target.Some? ==> !IsDir(tree, r.target.value, r.identity.stamp))
  }

  // ---- results ----

  datatype Disposition = Recovered | Retained | Doubtful | Failed | Unconfirmed

  datatype Item = Item(id: string, session: string, kind: Kind, phase: Phase, disposition: Disposition,
                       reason: Option<Reason>)

  function ItemOf(r: Record, disposition: Disposition, reason: Option<Reason>): Item {
    Item(r.id, r.session, r.kind, r.phase, disposition, reason)
  }
}
