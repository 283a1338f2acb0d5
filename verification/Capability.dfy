/**
 Capability snapshots: how the registry resolves under a profile, how a run delegates
 a narrowed snapshot to a child, and how a child's snapshot is recomputed from the
 live registry to tell whether the child is still current.
*/
module Capability {
  import opened Wrappers
  import opened Policies

  datatype Class = Kernel | Read | Write | Exec | Git | Provider | Job

  datatype Profile = Profile(
    name: string, sandbox: Sandbox,
    read: Policy, write: Policy, exec: Policy, git: Policy, provider: Policy, job: Policy)

  function PolicyFor(profile: Profile, class_: Class): Policy {
    match class_
    case Kernel => Allow
    case Read => profile.read
    case Write => profile.write
    case Exec => profile.exec
    case Git => profile.git
    case Provider => profile.provider
    case Job => profile.job
  }

  function ProfileSpec(name: string): Option<Profile> {
    match name
    case "read-only-analysis" => Some(Profile(name, ReadOnlySandbox, Allow, Deny, Deny, Deny, Deny, Deny))
    case "interactive-local" => Some(Profile(name, WorkspaceWrite, Allow, Allow, Allow, Ask, Ask, Allow))
    case "guarded-durable" => Some(Profile(name, WorkspaceWrite, Allow, Allow, Ask, Ask, Ask, Allow))
    case "background-job" => Some(Profile(name, ReadOnlySandbox, Allow, Deny, Deny, Deny, Deny, Allow))
    case "webhook-automation" => Some(Profile(name, ReadOnlySandbox, Allow, Deny, Deny, Deny, Deny, Allow))
    case _ => None
  }

  /** The columns of a capability that are copied unchanged from its draft to its view. */
  datatype Facts = Facts(id: string, origin: string, class_: Class, securityCritical: bool, details: string)

  datatype Draft = Draft(facts: Facts, source: Policy)

  datatype Capability = Capability(facts: Facts, approval: Policy, available: bool)

  /** What the live registry offers in a workspace. `environment` stands for the other top-level fields. */
  datatype Live = Live(entries: seq<Draft>, writable: bool, environment: string)

  datatype Snapshot = Snapshot(
    profile: Profile, capabilities: seq<Capability>, writable: bool, environment: string,
    sandboxOverride: Option<Sandbox>)

  ghost predicate DistinctDrafts(entries: seq<Draft>) {
    forall i, j | 0 <= i < j < |entries| :: entries[i].facts.id != entries[j].facts.id
  }

  ghost predicate DistinctIds(capabilities: seq<Capability>) {
    forall i, j | 0 <= i < j < |capabilities| :: capabilities[i].facts.id != capabilities[j].facts.id
  }

  /* ---------- registry ---------- */

  predicate NeedsWritable(class_: Class) {
    class_ != Kernel && class_ != Read
  }

  /** Neither the profile, nor the source of the draft, nor a workspace that cannot be written to forbids `policy`. */
  predicate Permitted(policy: Policy, draft: Draft, profile: Profile, writable: bool) {
    && AtMost(policy, PolicyFor(profile, draft.facts.class_)) && AtMost(policy, draft.source)
    && (NeedsWritable(draft.facts.class_) && !writable ==> policy == Deny)
  }

  /** The view has the draft's facts and the most liberal permitted policy, and is available unless that denies it. */
  ghost predicate Resolves(draft: Draft, profile: Profile, writable: bool, view: Capability) {
    && view.facts == draft.facts
    && Permitted(view.approval, draft, profile, writable)
    && (forall policy | Permitted(policy, draft, profile, writable) :: AtMost(policy, view.approval))
    && (view.available <==> view.approval != Deny)
  }

  function ResolveOne(draft: Draft, profile: Profile, writable: bool): (view: Capability)
    ensures Resolves(draft, profile, writable, view)
  {
    var met := Stricter(PolicyFor(profile, draft.facts.class_), draft.source);
    var approval := if NeedsWritable(draft.facts.class_) && !writable then Deny else met;
    Capability(draft.facts, approval, approval != Deny)
  }

  function Resolve(entries: seq<Draft>, profile: Profile, writable: bool): (views: seq<Capability>)
    ensures |views| == |entries|
    ensures forall i | 0 <= i < |entries| :: Resolves(entries[i], profile, writable, views[i])
  {
    seq(|entries|, i requires 0 <= i < |entries| => ResolveOne(entries[i], profile, writable))
  }

  /** That leaves no choice: a registry, a profile and a workspace have one resolution. */
  lemma ResolutionIsUnique(entries: seq<Draft>, profile: Profile, writable: bool, views: seq<Capability>)
    requires |views| == |entries|
    requires forall i | 0 <= i < |entries| :: Resolves(entries[i], profile, writable, views[i])
    ensures views == Resolve(entries, profile, writable)
  {
    var resolved := Resolve(entries, profile, writable);
    forall i | 0 <= i < |entries| ensures views[i] == resolved[i] {
      assert Resolves(entries[i], profile, writable, views[i]) && Resolves(entries[i], profile, writable, resolved[i]);
      assert AtMost(views[i].approval, resolved[i].approval) && AtMost(resolved[i].approval, views[i].approval);
    }
  }

  function LiveSnapshot(live: Live, profile: Profile): Snapshot {
    Snapshot(profile, Resolve(live.entries, profile, live.writable), live.writable, live.environment, None)
  }

  /** The strictest policy an entry has under any profile. */
  function Ceiling(draft: Draft, writable: bool): Policy {
    if NeedsWritable(draft.facts.class_) && !writable then Deny else draft.source
  }

  /* ---------- root runs ---------- */

  /** A workspace-write profile may be lifted to the two interactive modes; every other override only lowers. */
  predicate OverrideAllowed(profile: Profile, sandbox: Sandbox) {
    if sandbox == WorkspaceGui || sandbox == DangerFullAccess then profile.sandbox == WorkspaceWrite
    else SandboxRank(sandbox) <= SandboxRank(profile.sandbox)
  }

  function RootSnapshot(live: Live, profile: Profile, sandbox: Option<Sandbox>): Snapshot {
    var snapshot := LiveSnapshot(live, profile);
    if sandbox.None? then snapshot
    else snapshot.(profile := profile.(sandbox := sandbox.value), sandboxOverride := sandbox)
  }

  /* ---------- delegation ---------- */

  const MAX_CHILD_CAPABILITIES := 4096

  datatype DelegationError =
    TooMany | InvalidId | Duplicate | UnknownProfile | WidensSandbox | WidensPolicy | NotInParent

  predicate ValidId(id: string) {
    1 <= |id| <= 256 && forall ch <- id :: ' ' <= ch <= '~'
  }

  predicate ProfileNarrows(parent: Profile, child: Profile) {
    && SandboxRank(child.sandbox) <= SandboxRank(parent.sandbox)
    && PoliciesNarrow(parent, child)
  }

  predicate PoliciesNarrow(parent: Profile, child: Profile) {
    && AtMost(child.read, parent.read) && AtMost(child.write, parent.write) && AtMost(child.exec, parent.exec)
    && AtMost(child.git, parent.git) && AtMost(child.provider, parent.provider) && AtMost(child.job, parent.job)
  }

  function Ids(capabilities: seq<Capability>): set<string> {
    set i | 0 <= i < |capabilities| :: capabilities[i].facts.id
  }

  /** `met` is the most liberal policy that neither of the two forbids. */
  ghost predicate IsMeet(met: Policy, a: Policy, b: Policy) {
    && AtMost(met, a) && AtMost(met, b)
    && forall policy | AtMost(policy, a) && AtMost(policy, b) :: AtMost(policy, met)
  }

  /** Kernel entries always go to a child, all others only when it asks for them by name. */
  predicate HandedOn(capability: Capability, requested: seq<string>) {
    capability.facts.class_ == Kernel || capability.facts.id in requested
  }

  /** The child has what the parent has, as far as its own profile permits. */
  ghost predicate NarrowsTo(parent: Capability, child: Capability, profile: Profile) {
    && child.facts == parent.facts
    && IsMeet(child.approval, parent.approval, PolicyFor(profile, parent.facts.class_))
    && (child.available <==> parent.available && child.approval != Deny)
  }

  ghost predicate Rising(origin: seq<nat>) {
    forall j, k | 0 <= j < k < |origin| :: origin[j] < origin[k]
  }

  /** The child's entries are, in order, exactly the parent's entries that are handed on; `origin` says which. */
  ghost predicate HandsOn(parent: seq<Capability>, requested: seq<string>, profile: Profile, child: seq<Capability>,
                          origin: seq<nat>)
  {
    && |origin| == |child| && Rising(origin)
    && (forall k | 0 <= k < |child| ::
          && origin[k] < |parent| && HandedOn(parent[origin[k]], requested)
          && NarrowsTo(parent[origin[k]], child[k], profile))
    && (forall i | 0 <= i < |parent| && HandedOn(parent[i], requested) :: i in origin)
  }

  function NarrowOne(capability: Capability, child: Profile): Capability {
    var approval := Stricter(capability.approval, PolicyFor(child, capability.facts.class_));
    capability.(approval := approval, available := capability.available && approval != Deny)
  }

  function Narrow(capabilities: seq<Capability>, requested: set<string>, child: Profile): seq<Capability> {
    if capabilities == [] then []
    else
      var front, last := capabilities[..|capabilities| - 1], capabilities[|capabilities| - 1];
      var kept := Narrow(front, requested, child);
      if last.facts.class_ != Kernel && last.facts.id !in requested then kept else kept + [NarrowOne(last, child)]
  }

  lemma SkipOne(front: seq<Capability>, last: Capability, requested: seq<string>, profile: Profile,
                child: seq<Capability>, origin: seq<nat>)
    requires HandsOn(front, requested, profile, child, origin) && !HandedOn(last, requested)
    ensures HandsOn(front + [last], requested, profile, child, origin)
  {
    var parent := front + [last];
    forall i | 0 <= i < |parent| && HandedOn(parent[i], requested) ensures i in origin {
      assert parent[i] == front[i];
    }
  }

  lemma TakeOne(front: seq<Capability>, last: Capability, requested: seq<string>, profile: Profile,
                child: seq<Capability>, narrowed: Capability, origin: seq<nat>)
    requires HandsOn(front, requested, profile, child, origin)
    requires HandedOn(last, requested) && NarrowsTo(last, narrowed, profile)
    ensures HandsOn(front + [last], requested, profile, child + [narrowed], origin + [|front|])
  {
    var parent, longer := front + [last], origin + [|front|];
    forall i | 0 <= i < |parent| && HandedOn(parent[i], requested) ensures i in longer {
      assert longer[|origin|] == |front|;
      assert i < |front| ==> parent[i] == front[i] && i in origin;
    }
  }

  lemma {:induction false} NarrowHandsOn(parent: seq<Capability>, requested: seq<string>, profile: Profile)
    returns (origin: seq<nat>)
    ensures HandsOn(parent, requested, profile, Narrow(parent, (set id <- requested), profile), origin)
  {
    if parent == [] {
      return [];
    }
    var front, last := parent[..|parent| - 1], parent[|parent| - 1];
    var before := NarrowHandsOn(front, requested, profile);
    var child := Narrow(front, (set id <- requested), profile);
    assert parent == front + [last];
    if HandedOn(last, requested) {
      NarrowOneNarrows(last, profile);
      TakeOne(front, last, requested, profile, child, NarrowOne(last, profile), before);
      origin := before + [|front|];
    } else {
      SkipOne(front, last, requested, profile, child, before);
      origin := before;
    }
  }

  lemma NarrowOneNarrows(capability: Capability, profile: Profile)
    ensures NarrowsTo(capability, NarrowOne(capability, profile), profile)
  {
    StricterIsMeet(capability.approval, PolicyFor(profile, capability.facts.class_));
  }

  /** The first requested id that is malformed or repeats an earlier one. */
  function ScanRequested(ids: seq<string>, seen: set<string>): Option<DelegationError> {
    if ids == [] then None
    else if !ValidId(ids[0]) then Some(InvalidId)
    else if ids[0] in seen then Some(Duplicate)
    else ScanRequested(ids[1..], seen + {ids[0]})
  }

  /** The first check that refuses a delegation, if any. */
  function Refusal(parent: Snapshot, profileName: string, requested: seq<string>): Option<DelegationError> {
    if |requested| > MAX_CHILD_CAPABILITIES then Some(TooMany)
    else if ScanRequested(requested, {}).Some? then ScanRequested(requested, {})
    else if ProfileSpec(profileName).None? then Some(UnknownProfile)
    else
      var profile := ProfileSpec(profileName).value;
      if SandboxRank(profile.sandbox) > SandboxRank(parent.profile.sandbox) then Some(WidensSandbox)
      else if !PoliciesNarrow(parent.profile, profile) then Some(WidensPolicy)
      else if exists id <- requested :: id !in Ids(parent.capabilities) then Some(NotInParent)
      else None
  }

  /** The first `n` ids are well-formed and differ from one another. */
  ghost predicate Clean(ids: seq<string>, n: nat)
    requires n <= |ids|
  {
    && (forall i | 0 <= i < n :: ValidId(ids[i]))
    && forall i, j | 0 <= i < j < n :: ids[i] != ids[j]
  }

  ghost predicate FirstFault(ids: seq<string>, i: nat) {
    i < |ids| && Clean(ids, i) && !Clean(ids, i + 1)
  }

  lemma {:induction false} ScanFindsFault(ids: seq<string>, n: nat) returns (fault: nat)
    requires n <= |ids| && Clean(ids, n)
    ensures var scanned := ScanRequested(ids[n..], set id <- ids[..n]);
            && (scanned.None? <==> Clean(ids, |ids|))
            && (scanned.Some? ==>
                  && FirstFault(ids, fault)
                  && scanned == Some(if ValidId(ids[fault]) then Duplicate else InvalidId))
    decreases |ids| - n
  {
    fault := n;
    if n < |ids| {
      var seen := set id <- ids[..n];
      assert ids[n..][0] == ids[n] && ids[n..][1..] == ids[n + 1..];
      var longer := ids[..n + 1];
      assert longer == ids[..n] + [ids[n]] && (set id <- longer) == seen + {ids[n]};
      if ids[n] in seen {
        var i :| 0 <= i < n && ids[i] == ids[n];
        assert !Clean(ids, n + 1);
      } else if ValidId(ids[n]) {
        assert forall i | 0 <= i < n :: ids[i] in ids[..n];
        fault := ScanFindsFault(ids, n + 1);
      }
    }
  }

  lemma FirstFaultIsUnique(ids: seq<string>, a: nat, b: nat)
    requires FirstFault(ids, a) && FirstFault(ids, b)
    ensures a == b
  {
  }

  /** A known profile that widens neither the sandbox nor any policy of the parent's. */
  ghost predicate FittingProfile(parent: Profile, profileName: string) {
    && ProfileSpec(profileName).Some?
    && var child := ProfileSpec(profileName).value;
       && SandboxRank(child.sandbox) <= SandboxRank(parent.sandbox)
       && forall class_ :: AtMost(PolicyFor(child, class_), PolicyFor(parent, class_))
  }

  ghost predicate OwnsAll(parent: Snapshot, requested: seq<string>) {
    forall id <- requested :: exists capability <- parent.capabilities :: capability.facts.id == id
  }

  /** What a delegation is refused for, and that it is refused for nothing else. */
  lemma RefusalExactlyWhen(parent: Snapshot, profileName: string, requested: seq<string>)
    ensures var refusal := Refusal(parent, profileName, requested); var spec := ProfileSpec(profileName);
            var clean := |requested| <= 4096 && Clean(requested, |requested|);
            && (refusal.None? <==> clean && FittingProfile(parent.profile, profileName) && OwnsAll(parent, requested))
            && (refusal == Some(TooMany) <==> |requested| > 4096)
            && (refusal == Some(InvalidId) <==>
                |requested| <= 4096 && exists i: nat :: FirstFault(requested, i) && !ValidId(requested[i]))
            && (refusal == Some(Duplicate) <==>
                |requested| <= 4096 && exists i: nat :: FirstFault(requested, i) && ValidId(requested[i]))
            && (refusal == Some(UnknownProfile) <==> clean && spec.None?)
            && (refusal == Some(WidensSandbox) <==>
                clean && spec.Some? && SandboxRank(spec.value.sandbox) > SandboxRank(parent.profile.sandbox))
            && (refusal == Some(NotInParent) <==>
                clean && FittingProfile(parent.profile, profileName) && !OwnsAll(parent, requested))
  {
    assert requested[0..] == requested && (set id <- requested[..0]) == {};
    var fault := ScanFindsFault(requested, 0);
    forall i | FirstFault(requested, i) ensures i == fault && !Clean(requested, |requested|) {
      if ScanRequested(requested, {}).Some? {
        FirstFaultIsUnique(requested, i, fault);
      }
    }
    if ProfileSpec(profileName).Some? {
      PoliciesNarrowInEveryClass(parent.profile, ProfileSpec(profileName).value);
    }
    assert OwnsAll(parent, requested) <==> forall id <- requested :: id in Ids(parent.capabilities);
  }

  lemma PoliciesNarrowInEveryClass(parent: Profile, child: Profile)
    ensures PoliciesNarrow(parent, child) <==>
            forall class_ :: AtMost(PolicyFor(child, class_), PolicyFor(parent, class_))
  {
    if forall class_ :: AtMost(PolicyFor(child, class_), PolicyFor(parent, class_)) {
      assert AtMost(PolicyFor(child, Read), PolicyFor(parent, Read));
      assert AtMost(PolicyFor(child, Write), PolicyFor(parent, Write));
      assert AtMost(PolicyFor(child, Exec), PolicyFor(parent, Exec));
      assert AtMost(PolicyFor(child, Git), PolicyFor(parent, Git));
      assert AtMost(PolicyFor(child, Provider), PolicyFor(parent, Provider));
      assert AtMost(PolicyFor(child, Job), PolicyFor(parent, Job));
    }
  }

  /** The child keeps every top-level field of the parent but its profile and its capabilities. */
  function Delegated(parent: Snapshot, child: Profile, requested: set<string>): Snapshot {
    parent.(profile := child, capabilities := Narrow(parent.capabilities, requested, child))
  }

  function Derive(parent: Snapshot, profileName: string, requested: seq<string>): Result<Snapshot, DelegationError> {
    var refusal := Refusal(parent, profileName, requested);
    if refusal.Some? then Failure(refusal.value)
    else Success(Delegated(parent, ProfileSpec(profileName).value, set id <- requested))
  }

  /** The source's loop over the parent's capabilities. */
  method DeriveChild(parent: Snapshot, profileName: string, requested: seq<string>)
    returns (result: Result<Snapshot, DelegationError>)
    ensures result == Derive(parent, profileName, requested)
    ensures result.Success? <==>
              && |requested| <= 4096 && Clean(requested, |requested|)
              && FittingProfile(parent.profile, profileName) && OwnsAll(parent, requested)
    ensures result.Success? ==>
              && Some(result.value.profile) == ProfileSpec(profileName)
              && result.value == parent.(profile := result.value.profile, capabilities := result.value.capabilities)
              && exists origin ::
                   HandsOn(parent.capabilities, requested, result.value.profile, result.value.capabilities, origin)
  {
    RefusalExactlyWhen(parent, profileName, requested);
    var refusal := Refusal(parent, profileName, requested);
    if refusal.Some? {
      return Failure(refusal.value);
    }
    var child, wanted := ProfileSpec(profileName).value, set id <- requested;
    var childCapabilities, i := [], 0;
    while i < |parent.capabilities|
      invariant 0 <= i <= |parent.capabilities|
      invariant childCapabilities == Narrow(parent.capabilities[..i], wanted, child)
    {
      var capability := parent.capabilities[i];
      assert parent.capabilities[..i + 1][..i] == parent.capabilities[..i];
      i := i + 1;
      if capability.facts.class_ != Kernel && capability.facts.id !in wanted {
        continue;
      }
      var approval := Stricter(capability.approval, PolicyFor(child, capability.facts.class_));
      childCapabilities :=
        childCapabilities + [Capability(capability.facts, approval, capability.available && approval != Deny)];
    }
    assert parent.capabilities[..i] == parent.capabilities;
    ghost var origin := NarrowHandsOn(parent.capabilities, requested, child);
    assert HandsOn(parent.capabilities, requested, child, childCapabilities, origin);
    result := Success(parent.(profile := child, capabilities := childCapabilities));
  }

  /* ---------- refresh ---------- */

  function RestrictOne(stored: Capability, current: Capability): Capability {
    var approval := Stricter(stored.approval, current.approval);
    Capability(current.facts, approval, stored.available && current.available && approval != Deny)
  }

  /** Each live entry is used once, in the order of the stored entries. */
  function Restrict(stored: seq<Capability>, liveById: map<string, Capability>): (restricted: seq<Capability>)
    ensures |restricted| <= |stored|
  {
    if stored == [] then []
    else
      var id := stored[0].facts.id;
      if id in liveById then [RestrictOne(stored[0], liveById[id])] + Restrict(stored[1..], liveById - {id})
      else Restrict(stored[1..], liveById)
  }

  function ById(capabilities: seq<Capability>): map<string, Capability> {
    if capabilities == [] then map[]
    else
      var front, last := capabilities[..|capabilities| - 1], capabilities[|capabilities| - 1];
      ById(front)[last.facts.id := last]
  }

  /** The entry is what is left of a stored one under the registry as it is now, described as it is now. */
  ghost predicate RestrictsTo(stored: Capability, current: Capability, left: Capability) {
    && left.facts == current.facts
    && IsMeet(left.approval, stored.approval, current.approval)
    && (left.available <==> stored.available && current.available && left.approval != Deny)
  }

  ghost predicate FirstOfId(entries: seq<Capability>, i: nat) {
    i < |entries| && forall j | 0 <= j < i :: entries[j].facts.id != entries[i].facts.id
  }

  ghost predicate LastOfId(entries: seq<Capability>, i: nat) {
    i < |entries| && forall j | i < j < |entries| :: entries[j].facts.id != entries[i].facts.id
  }

  /** `left` is what is left of the stored entry at `i`, the first of its id. */
  ghost predicate LeftOf(stored: seq<Capability>, i: nat, liveById: map<string, Capability>, left: Capability) {
    && FirstOfId(stored, i) && stored[i].facts.id in liveById
    && RestrictsTo(stored[i], liveById[stored[i].facts.id], left)
  }

  /** The stored entries that are still there, each once and in their order, restricted by the entries in the index. */
  ghost predicate RestrictedBy(stored: seq<Capability>, liveById: map<string, Capability>, left: seq<Capability>,
                               origin: seq<nat>)
  {
    && |origin| == |left| && Rising(origin)
    && (forall k | 0 <= k < |left| :: LeftOf(stored, origin[k], liveById, left[k]))
    && (forall i: nat | FirstOfId(stored, i) && stored[i].facts.id in liveById :: i in origin)
  }

  function Shifted(origin: seq<nat>): (shifted: seq<nat>)
    ensures |shifted| == |origin| && forall k | 0 <= k < |origin| :: shifted[k] == origin[k] + 1
  {
    seq(|origin|, k requires 0 <= k < |origin| => origin[k] + 1)
  }

  lemma ShiftedHas(origin: seq<nat>, i: nat)
    requires i in origin
    ensures i + 1 in Shifted(origin)
  {
    var k :| 0 <= k < |origin| && origin[k] == i;
    assert Shifted(origin)[k] == i + 1;
  }

  lemma FirstOfTail(stored: seq<Capability>, i: nat)
    requires i + 1 < |stored|
    ensures stored[1..][i] == stored[i + 1]
    ensures FirstOfId(stored, i + 1) <==> FirstOfId(stored[1..], i) && stored[i + 1].facts.id != stored[0].facts.id
  {
    var tail := stored[1..];
    assert forall j | 0 <= j < |tail| :: tail[j] == stored[j + 1];
    if FirstOfId(tail, i) && stored[i + 1].facts.id != stored[0].facts.id {
      forall j | 0 <= j < i + 1 ensures stored[j].facts.id != stored[i + 1].facts.id {
        if j > 0 {
          assert stored[j] == tail[j - 1];
        }
      }
    }
  }

  /** What is left of the tail is left of the whole list, when the head's id is not in the tail's index. */
  lemma LeftOfTail(stored: seq<Capability>, i: nat, liveById: map<string, Capability>, left: Capability)
    requires stored != [] && LeftOf(stored[1..], i, liveById - {stored[0].facts.id}, left)
    ensures LeftOf(stored, i + 1, liveById, left)
  {
    FirstOfTail(stored, i);
  }

  lemma FirstsOfTail(stored: seq<Capability>, liveById: map<string, Capability>, left: seq<Capability>,
                     origin: seq<nat>, i: nat)
    requires stored != [] && RestrictedBy(stored[1..], liveById - {stored[0].facts.id}, left, origin)
    requires i > 0 && FirstOfId(stored, i) && stored[i].facts.id in liveById
    ensures i in Shifted(origin)
  {
    FirstOfTail(stored, i - 1);
    ShiftedHas(origin, i - 1);
  }

  function WithHead(origin: seq<nat>): (all: seq<nat>)
    requires Rising(origin)
    ensures |all| == |origin| + 1 && all[0] == 0 && forall k | 0 < k < |all| :: all[k] == origin[k - 1] + 1
    ensures Rising(all) && forall i | i in Shifted(origin) :: i in all
  {
    [0] + Shifted(origin)
  }

  lemma MissOne(stored: seq<Capability>, liveById: map<string, Capability>, left: seq<Capability>, origin: seq<nat>)
    requires stored != [] && stored[0].facts.id !in liveById
    requires RestrictedBy(stored[1..], liveById, left, origin)
    ensures RestrictedBy(stored, liveById, left, Shifted(origin))
  {
    assert liveById - {stored[0].facts.id} == liveById;
    forall k | 0 <= k < |left| ensures LeftOf(stored, Shifted(origin)[k], liveById, left[k]) {
      LeftOfTail(stored, origin[k], liveById, left[k]);
    }
    forall i: nat | FirstOfId(stored, i) && stored[i].facts.id in liveById ensures i in Shifted(origin) {
      FirstsOfTail(stored, liveById, left, origin, i);
    }
  }

  lemma MeetOne(stored: seq<Capability>, liveById: map<string, Capability>, left: seq<Capability>, origin: seq<nat>)
    requires stored != [] && stored[0].facts.id in liveById
    requires RestrictedBy(stored[1..], liveById - {stored[0].facts.id}, left, origin)
    ensures RestrictedBy(stored, liveById, [RestrictOne(stored[0], liveById[stored[0].facts.id])] + left,
                         WithHead(origin))
  {
    var head, all := RestrictOne(stored[0], liveById[stored[0].facts.id]), WithHead(origin);
    HeadIsLeft(stored, liveById);
    forall k | 0 < k < |all| ensures LeftOf(stored, all[k], liveById, ([head] + left)[k]) {
      LeftOfTail(stored, origin[k - 1], liveById, left[k - 1]);
    }
    forall i: nat | i > 0 && FirstOfId(stored, i) && stored[i].facts.id in liveById ensures i in all {
      FirstsOfTail(stored, liveById, left, origin, i);
    }
  }

  lemma HeadIsLeft(stored: seq<Capability>, liveById: map<string, Capability>)
    requires stored != [] && stored[0].facts.id in liveById
    ensures LeftOf(stored, 0, liveById, RestrictOne(stored[0], liveById[stored[0].facts.id]))
  {
    StricterIsMeet(stored[0].approval, liveById[stored[0].facts.id].approval);
  }

  lemma {:induction false} RestrictIsRestriction(stored: seq<Capability>, liveById: map<string, Capability>)
    returns (origin: seq<nat>)
    ensures RestrictedBy(stored, liveById, Restrict(stored, liveById), origin)
  {
    if stored == [] {
      origin := [];
    } else if stored[0].facts.id in liveById {
      var rest := liveById - {stored[0].facts.id};
      var tail := RestrictIsRestriction(stored[1..], rest);
      MeetOne(stored, liveById, Restrict(stored[1..], rest), tail);
      origin := WithHead(tail);
    } else {
      var tail := RestrictIsRestriction(stored[1..], liveById);
      MissOne(stored, liveById, Restrict(stored[1..], liveById), tail);
      origin := Shifted(tail);
    }
  }

  /** The index of a list: for each id in it, the last entry of that id. */
  ghost predicate Indexes(liveById: map<string, Capability>, entries: seq<Capability>) {
    && (forall i: nat | LastOfId(entries, i) ::
          entries[i].facts.id in liveById && liveById[entries[i].facts.id] == entries[i])
    && forall id | id in liveById :: exists i: nat :: LastOfId(entries, i) && entries[i].facts.id == id
  }

  lemma {:induction false} ByIdIndexes(entries: seq<Capability>)
    ensures Indexes(ById(entries), entries)
  {
    if entries != [] {
      var front, last := entries[..|entries| - 1], entries[|entries| - 1];
      ByIdIndexes(front);
      assert entries == front + [last] && LastOfId(entries, |front|);
      forall i: nat | LastOfId(entries, i) && i < |front| ensures LastOfId(front, i) {
        assert forall j | i < j < |front| :: front[j] == entries[j];
      }
      forall id | id in ById(entries) ensures exists i: nat :: LastOfId(entries, i) && entries[i].facts.id == id {
        if id != last.facts.id {
          var i: nat :| LastOfId(front, i) && front[i].facts.id == id;
          assert LastOfId(entries, i);
        }
      }
    }
  }

  function RefreshRestricted(stored: Snapshot, live: Snapshot): Snapshot {
    live.(capabilities := Restrict(stored.capabilities, ById(live.capabilities)))
  }

  /** The source's loops: index the live entries, then take one for each stored entry. */
  method RefreshChild(stored: Snapshot, live: Snapshot) returns (refreshed: Snapshot)
    ensures refreshed == RefreshRestricted(stored, live)
    ensures refreshed == live.(capabilities := refreshed.capabilities)
    ensures exists index, origin ::
              && Indexes(index, live.capabilities)
              && RestrictedBy(stored.capabilities, index, refreshed.capabilities, origin)
  {
    var liveById, i := map[], 0;
    while i < |live.capabilities|
      invariant 0 <= i <= |live.capabilities|
      invariant liveById == ById(live.capabilities[..i])
    {
      assert live.capabilities[..i + 1][..i] == live.capabilities[..i];
      liveById := liveById[live.capabilities[i].facts.id := live.capabilities[i]];
      i := i + 1;
    }
    assert live.capabilities[..i] == live.capabilities;
    ghost var index := liveById;
    var restricted := [];
    i := 0;
    while i < |stored.capabilities|
      invariant 0 <= i <= |stored.capabilities|
      invariant Restrict(stored.capabilities, index) == restricted + Restrict(stored.capabilities[i..], liveById)
    {
      var entry := stored.capabilities[i];
      assert stored.capabilities[i..][1..] == stored.capabilities[i + 1..];
      i := i + 1;
      if entry.facts.id !in liveById {
        continue;
      }
      var current := liveById[entry.facts.id];
      liveById := liveById - {entry.facts.id};
      var approval := Stricter(entry.approval, current.approval);
      restricted := restricted +
        [current.(approval := approval, available := entry.available && current.available && approval != Deny)];
    }
    refreshed := live.(capabilities := restricted);
    ByIdIndexes(live.capabilities);
    ghost var origin := RestrictIsRestriction(stored.capabilities, ById(live.capabilities));
    assert RestrictedBy(stored.capabilities, ById(live.capabilities), refreshed.capabilities, origin);
  }

  /* ---------- runs ---------- */

  /** What a run stores about its authority. */
  datatype RunAuthority = RunAuthority(profileName: string, snapshot: Snapshot, child: bool)

  /** What the live registry says the run's snapshot should be now. */
  function CurrentSnapshot(run: RunAuthority, live: Live): Option<Snapshot> {
    var profile := ProfileSpec(run.profileName);
    if profile.None? then None
    else if run.child then Some(RefreshRestricted(run.snapshot, LiveSnapshot(live, profile.value)))
    else Some(RootSnapshot(live, profile.value, run.snapshot.sandboxOverride))
  }

  /** The stored digest matches the live one; the digest is taken to be injective. */
  predicate IsCurrent(run: RunAuthority, live: Live) {
    CurrentSnapshot(run, live) == Some(run.snapshot)
  }

  /** A root run begins under a known profile, with an override the profile allows or none. */
  function BeginRoot(live: Live, profileName: string, sandbox: Option<Sandbox>): Option<RunAuthority> {
    var profile := ProfileSpec(profileName);
    if profile.None? || (sandbox.Some? && !OverrideAllowed(profile.value, sandbox.value)) then None
    else Some(RunAuthority(profileName, RootSnapshot(live, profile.value, sandbox), false))
  }

  datatype Delegation = Delegation(profileName: string, requested: seq<string>)

  /** Delegation is open to current parents only. */
  function Delegate(parent: RunAuthority, delegation: Delegation, live: Live): Option<RunAuthority> {
    if !IsCurrent(parent, live) then None
    else match Derive(parent.snapshot, delegation.profileName, delegation.requested)
      case Success(snapshot) => Some(RunAuthority(delegation.profileName, snapshot, true))
      case Failure(_) => None
  }
}
