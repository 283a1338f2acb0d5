/**
 Theorems about delegation chains: a fresh child is current exactly when its parent
 carries no sandbox override, at any depth; and authority only narrows along a chain,
 whatever the registry does in between.
*/
module Delegation {
  import opened Wrappers
  import opened Policies
  import opened Capability

  /* ---------- what a current snapshot looks like ---------- */

  /** Entry `i` of a live registry stands behind this capability, at or above its approval. */
  predicate StandsBehind(draft: Draft, capability: Capability, writable: bool) {
    && capability.facts == draft.facts
    && AtMost(capability.approval, Ceiling(draft, writable))
    && (capability.available ==> capability.approval != Deny)
  }

  ghost predicate Backed(capability: Capability, live: Live) {
    exists draft <- live.entries :: StandsBehind(draft, capability, live.writable)
  }

  ghost predicate Anchored(capabilities: seq<Capability>, live: Live) {
    && DistinctIds(capabilities)
    && forall capability <- capabilities :: Backed(capability, live)
  }

  lemma ResolveIsAnchored(live: Live, profile: Profile)
    requires DistinctDrafts(live.entries)
    ensures Anchored(Resolve(live.entries, profile, live.writable), live)
  {
    var views := Resolve(live.entries, profile, live.writable);
    forall capability <- views ensures Backed(capability, live) {
      var i :| 0 <= i < |views| && views[i] == capability;
      StricterIsMeet(PolicyFor(profile, live.entries[i].facts.class_), live.entries[i].source);
      assert StandsBehind(live.entries[i], capability, live.writable);
    }
  }

  /** The index of a list with distinct ids holds exactly its entries. */
  lemma {:induction false} ByIdFinds(capabilities: seq<Capability>)
    requires DistinctIds(capabilities)
    ensures forall i | 0 <= i < |capabilities| ::
              && capabilities[i].facts.id in ById(capabilities)
              && ById(capabilities)[capabilities[i].facts.id] == capabilities[i]
    ensures forall id | id in ById(capabilities) ::
              ById(capabilities)[id] in capabilities && ById(capabilities)[id].facts.id == id
  {
    if capabilities != [] {
      var front, last := capabilities[..|capabilities| - 1], capabilities[|capabilities| - 1];
      ByIdFinds(front);
      assert capabilities == front + [last];
    }
  }

  /** Refreshing this stored entry against the index gives it back. */
  predicate Fits(stored: Capability, liveById: map<string, Capability>) {
    stored.facts.id in liveById && RestrictOne(stored, liveById[stored.facts.id]) == stored
  }

  ghost predicate AllFit(stored: seq<Capability>, liveById: map<string, Capability>) {
    DistinctIds(stored) && forall entry <- stored :: Fits(entry, liveById)
  }

  /** A head that fits, over a rest that fits without it. */
  lemma FitsFromRest(stored: seq<Capability>, liveById: map<string, Capability>)
    requires stored != [] && Fits(stored[0], liveById)
    requires AllFit(stored[1..], liveById - {stored[0].facts.id})
    ensures AllFit(stored, liveById)
  {
    var rest := stored[1..];
    assert stored == [stored[0]] + rest;
    forall i, j | 0 <= i < j < |stored| ensures stored[i].facts.id != stored[j].facts.id {
      assert stored[j] == rest[j - 1] && rest[j - 1] in rest;
      assert i > 0 ==> stored[i] == rest[i - 1];
    }
    assert forall entry <- rest :: Fits(entry, liveById - {stored[0].facts.id}) && Fits(entry, liveById);
  }

  lemma RestFits(stored: seq<Capability>, liveById: map<string, Capability>)
    requires stored != [] && AllFit(stored, liveById)
    ensures Fits(stored[0], liveById) && AllFit(stored[1..], liveById - {stored[0].facts.id})
  {
    var rest := stored[1..];
    forall entry <- rest ensures Fits(entry, liveById - {stored[0].facts.id}) {
      var i :| 0 <= i < |rest| && rest[i] == entry;
      assert stored[i + 1] == entry && stored[i + 1] in stored;
      assert stored[0].facts.id != stored[i + 1].facts.id;
    }
  }

  /** A refresh is the identity exactly when every entry fits and no id repeats. */
  lemma {:induction false} RestrictIsIdentityExactlyWhen(stored: seq<Capability>, liveById: map<string, Capability>)
    requires forall id | id in liveById :: liveById[id].facts.id == id
    ensures Restrict(stored, liveById) == stored <==> AllFit(stored, liveById)
  {
    if stored != [] {
      var head, rest := stored[0], stored[1..];
      var id := head.facts.id;
      assert stored == [head] + rest;
      if id in liveById {
        RestrictIsIdentityExactlyWhen(rest, liveById - {id});
        if Restrict(stored, liveById) == stored {
          assert Restrict(rest, liveById - {id}) == Restrict(stored, liveById)[1..];
          FitsFromRest(stored, liveById);
        }
        if AllFit(stored, liveById) {
          RestFits(stored, liveById);
          assert Restrict(stored, liveById) == [head] + rest;
        }
      } else {
        assert |Restrict(stored, liveById)| <= |rest|;
        assert head in stored;
      }
    }
  }

  /** The parts of a current snapshot that delegation relies on. */
  lemma CurrentIsAnchored(run: RunAuthority, live: Live)
    requires DistinctDrafts(live.entries) && IsCurrent(run, live)
    ensures Anchored(run.snapshot.capabilities, live)
    ensures run.snapshot.writable == live.writable && run.snapshot.environment == live.environment
    ensures run.child ==> run.snapshot.sandboxOverride == None
  {
    var profile := ProfileSpec(run.profileName).value;
    ResolveIsAnchored(live, profile);
    if run.child {
      var views := Resolve(live.entries, profile, live.writable);
      ByIdFinds(views);
      RestrictIsIdentityExactlyWhen(run.snapshot.capabilities, ById(views));
      forall entry <- run.snapshot.capabilities
        ensures Backed(entry, live)
      {
        var view := ById(views)[entry.facts.id];
        assert Fits(entry, ById(views)) && view in views && Backed(view, live);
        var draft :| draft in live.entries && StandsBehind(draft, view, live.writable);
        StricterIsMeet(entry.approval, view.approval);
        assert StandsBehind(draft, entry, live.writable);
      }
    }
  }

  /* ---------- a fresh child is not spuriously stale ---------- */

  lemma {:induction false} NarrowKeepsAnchored(capabilities: seq<Capability>, requested: set<string>,
                                               child: Profile, live: Live)
    requires Anchored(capabilities, live)
    ensures Anchored(Narrow(capabilities, requested, child), live)
    ensures forall narrowed <- Narrow(capabilities, requested, child) ::
              exists capability <- capabilities :: narrowed == NarrowOne(capability, child)
  {
    if capabilities != [] {
      var front, last := capabilities[..|capabilities| - 1], capabilities[|capabilities| - 1];
      assert capabilities == front + [last];
      assert Backed(last, live);
      assert forall capability <- front :: capability in capabilities;
      NarrowKeepsAnchored(front, requested, child, live);
      var draft :| draft in live.entries && StandsBehind(draft, last, live.writable);
      StricterIsMeet(last.approval, PolicyFor(child, last.facts.class_));
      assert StandsBehind(draft, NarrowOne(last, child), live.writable);
      forall kept <- Narrow(front, requested, child) ensures kept.facts.id != last.facts.id {
        var capability :| capability in front && kept == NarrowOne(capability, child);
      }
    }
  }

  /** Narrowing makes stricter(child, live) equal to child: the refreshed entry is the stored one. */
  lemma NarrowedFits(capability: Capability, draft: Draft, child: Profile, writable: bool)
    requires StandsBehind(draft, capability, writable)
    ensures RestrictOne(NarrowOne(capability, child), ResolveOne(draft, child, writable)) ==
              NarrowOne(capability, child)
  {
    var narrowed, view := NarrowOne(capability, child), ResolveOne(draft, child, writable);
    StricterIsMeet(capability.approval, PolicyFor(child, draft.facts.class_));
    StricterIsMeet(PolicyFor(child, draft.facts.class_), draft.source);
    assert AtMost(narrowed.approval, view.approval);
    StricterIsMeet(narrowed.approval, view.approval);
  }

  lemma RefreshedCapabilitiesAreStored(parent: Snapshot, requested: set<string>, child: Profile, live: Live)
    requires DistinctDrafts(live.entries) && Anchored(parent.capabilities, live)
    ensures var stored := Narrow(parent.capabilities, requested, child);
            Restrict(stored, ById(LiveSnapshot(live, child).capabilities)) == stored
  {
    var stored, views := Narrow(parent.capabilities, requested, child), LiveSnapshot(live, child).capabilities;
    NarrowKeepsAnchored(parent.capabilities, requested, child, live);
    ResolveIsAnchored(live, child);
    ByIdFinds(views);
    forall narrowed <- stored ensures Fits(narrowed, ById(views)) {
      var capability :| capability in parent.capabilities && narrowed == NarrowOne(capability, child);
      assert Backed(capability, live);
      var draft :| draft in live.entries && StandsBehind(draft, capability, live.writable);
      var i :| 0 <= i < |live.entries| && live.entries[i] == draft;
      assert views[i] == ResolveOne(draft, child, live.writable);
      NarrowedFits(capability, draft, child, live.writable);
    }
    RestrictIsIdentityExactlyWhen(stored, ById(views));
  }

  /**
   A child that was just delegated refreshes to exactly what it stores when its parent has no
   sandbox override, and is stale from the start when it has one: the child inherits the
   override's top-level mark, which a refresh drops.
  */
  lemma FreshChildIsCurrentExactlyWhen(parent: RunAuthority, delegation: Delegation, live: Live)
    requires DistinctDrafts(live.entries) && Delegate(parent, delegation, live).Some?
    ensures IsCurrent(Delegate(parent, delegation, live).value, live) <==> parent.snapshot.sandboxOverride == None
  {
    CurrentIsAnchored(parent, live);
    var child := ProfileSpec(delegation.profileName).value;
    RefreshedCapabilitiesAreStored(parent.snapshot, (set id <- delegation.requested), child, live);
  }

  /**
   A root run is current when it begins, its sandbox is one its profile allows, and what it delegates is
   current exactly when it began without an override.
  */
  lemma BegunRootDelegatesExactlyWhen(live: Live, profileName: string, sandbox: Option<Sandbox>, delegation: Delegation)
    requires DistinctDrafts(live.entries) && BeginRoot(live, profileName, sandbox).Some?
    ensures var root := BeginRoot(live, profileName, sandbox).value;
            && IsCurrent(root, live)
            && (Delegate(root, delegation, live).Some? ==>
                  (IsCurrent(Delegate(root, delegation, live).value, live) <==> sandbox == None))
    ensures sandbox.Some? ==>
              var profile := ProfileSpec(profileName).value;
              if sandbox.value in {WorkspaceGui, DangerFullAccess} then profile.sandbox == WorkspaceWrite
              else SandboxRank(sandbox.value) <= SandboxRank(profile.sandbox)
  {
    var root := BeginRoot(live, profileName, sandbox).value;
    if Delegate(root, delegation, live).Some? {
      FreshChildIsCurrentExactlyWhen(root, delegation, live);
    }
  }

  /** Delegate along a whole chain under one registry. */
  function DelegateAll(root: RunAuthority, chain: seq<Delegation>, live: Live): Option<RunAuthority> {
    if chain == [] then Some(root)
    else
      var parent := DelegateAll(root, chain[..|chain| - 1], live);
      if parent.None? then None else Delegate(parent.value, chain[|chain| - 1], live)
  }

  /** At any depth below a current root without an override, the delegated run is current. */
  lemma {:induction false} DelegatedRunIsCurrentAtAnyDepth(root: RunAuthority, chain: seq<Delegation>, live: Live)
    requires DistinctDrafts(live.entries) && IsCurrent(root, live) && root.snapshot.sandboxOverride == None
    requires DelegateAll(root, chain, live).Some?
    ensures IsCurrent(DelegateAll(root, chain, live).value, live)
    ensures DelegateAll(root, chain, live).value.snapshot.sandboxOverride == None
  {
    if chain != [] {
      DelegatedRunIsCurrentAtAnyDepth(root, chain[..|chain| - 1], live);
      var parent := DelegateAll(root, chain[..|chain| - 1], live).value;
      FreshChildIsCurrentExactlyWhen(parent, chain[|chain| - 1], live);
    }
  }

  /** Below a root with an override only one level of children exists: they are stale, so they cannot delegate. */
  lemma OverrideEndsTheChain(root: RunAuthority, first: Delegation, second: Delegation, live: Live)
    requires DistinctDrafts(live.entries) && root.snapshot.sandboxOverride.Some?
    ensures DelegateAll(root, [first, second], live) == None
  {
    assert [first, second][..1] == [first] && [first][..0] == [];
    assert DelegateAll(root, [first], live) == Delegate(root, first, live) by {
      assert DelegateAll(root, [], live) == Some(root);
    }
    if Delegate(root, first, live).Some? {
      FreshChildIsCurrentExactlyWhen(root, first, live);
    }
  }

  /* ---------- authority only narrows ---------- */

  predicate CapabilityWithin(child: Capability, parent: Capability) {
    && child.facts.id == parent.facts.id
    && AtMost(child.approval, parent.approval)
    && (child.available ==> parent.available)
  }

  ghost predicate Within(child: Snapshot, parent: Snapshot) {
    && ProfileNarrows(parent.profile, child.profile)
    && forall capability <- child.capabilities ::
         exists source <- parent.capabilities :: CapabilityWithin(capability, source)
  }

  lemma WithinIsTransitive(a: Snapshot, b: Snapshot, c: Snapshot)
    requires Within(a, b) && Within(b, c)
    ensures Within(a, c)
  {
    forall capability <- a.capabilities
      ensures exists source <- c.capabilities :: CapabilityWithin(capability, source)
    {
      var middle :| middle in b.capabilities && CapabilityWithin(capability, middle);
      var source :| source in c.capabilities && CapabilityWithin(middle, source);
      assert CapabilityWithin(capability, source);
    }
  }

  lemma {:induction false} NarrowIsWithin(capabilities: seq<Capability>, requested: set<string>, child: Profile)
    ensures forall narrowed <- Narrow(capabilities, requested, child) ::
              && AtMost(narrowed.approval, PolicyFor(child, narrowed.facts.class_))
              && exists source <- capabilities :: CapabilityWithin(narrowed, source)
  {
    if capabilities != [] {
      var front, last := capabilities[..|capabilities| - 1], capabilities[|capabilities| - 1];
      NarrowIsWithin(front, requested, child);
      assert capabilities == front + [last];
      StricterIsMeet(last.approval, PolicyFor(child, last.facts.class_));
      assert CapabilityWithin(NarrowOne(last, child), last);
    }
  }

  lemma DerivedIsWithin(parent: Snapshot, profileName: string, requested: seq<string>)
    requires Derive(parent, profileName, requested).Success?
    ensures Within(Derive(parent, profileName, requested).value, parent)
    ensures forall capability <- Derive(parent, profileName, requested).value.capabilities ::
              AtMost(capability.approval, PolicyFor(ProfileSpec(profileName).value, capability.facts.class_))
  {
    NarrowIsWithin(parent.capabilities, (set id <- requested), ProfileSpec(profileName).value);
  }

  lemma {:induction false} RestrictIsWithin(stored: seq<Capability>, liveById: map<string, Capability>)
    requires forall id | id in liveById :: liveById[id].facts.id == id
    ensures forall restricted <- Restrict(stored, liveById) ::
              exists source <- stored :: CapabilityWithin(restricted, source)
  {
    if stored != [] {
      var id := stored[0].facts.id;
      assert stored == [stored[0]] + stored[1..];
      if id in liveById {
        RestrictIsWithin(stored[1..], liveById - {id});
        StricterIsMeet(stored[0].approval, liveById[id].approval);
        assert CapabilityWithin(RestrictOne(stored[0], liveById[id]), stored[0]);
      } else {
        RestrictIsWithin(stored[1..], liveById);
      }
    }
  }

  lemma {:induction false} ByIdKeepsIds(capabilities: seq<Capability>)
    ensures forall id | id in ById(capabilities) :: ById(capabilities)[id].facts.id == id
  {
    if capabilities != [] {
      ByIdKeepsIds(capabilities[..|capabilities| - 1]);
    }
  }

  /** Whatever the registry has become, a refresh never gives a child more than it stored. */
  lemma RefreshedIsWithin(run: RunAuthority, live: Live)
    requires run.child && ProfileSpec(run.profileName) == Some(run.snapshot.profile)
    ensures Within(CurrentSnapshot(run, live).value, run.snapshot)
  {
    ByIdKeepsIds(LiveSnapshot(live, run.snapshot.profile).capabilities);
    RestrictIsWithin(run.snapshot.capabilities, ById(LiveSnapshot(live, run.snapshot.profile).capabilities));
  }

  /** One link of a chain: a delegation, or a refresh of a child, each under its own registry. */
  datatype Link = Delegated(delegation: Delegation) | Refreshed(live: Live)

  predicate ChildAuthority(run: RunAuthority) {
    run.child ==> ProfileSpec(run.profileName) == Some(run.snapshot.profile)
  }

  function Follow(run: RunAuthority, link: Link): Option<RunAuthority> {
    match link
    case Delegated(delegation) =>
      (match Derive(run.snapshot, delegation.profileName, delegation.requested)
       case Success(snapshot) => Some(RunAuthority(delegation.profileName, snapshot, true))
       case Failure(_) => None)
    case Refreshed(live) =>
      if run.child && CurrentSnapshot(run, live).Some? then Some(run.(snapshot := CurrentSnapshot(run, live).value))
      else None
  }

  function FollowAll(run: RunAuthority, links: seq<Link>): Option<RunAuthority> {
    if links == [] then Some(run)
    else
      var previous := FollowAll(run, links[..|links| - 1]);
      if previous.None? then None else Follow(previous.value, links[|links| - 1])
  }

  lemma LinkNarrows(run: RunAuthority, link: Link)
    requires ChildAuthority(run) && Follow(run, link).Some?
    ensures Within(Follow(run, link).value.snapshot, run.snapshot)
  {
    match link {
      case Delegated(delegation) =>
        DerivedIsWithin(run.snapshot, delegation.profileName, delegation.requested);
      case Refreshed(live) =>
        RefreshedIsWithin(run, live);
    }
  }

  /** Along any chain of delegations and refreshes capabilities, approvals, sandbox and policies only shrink. */
  lemma {:induction false} AuthorityOnlyNarrows(run: RunAuthority, links: seq<Link>)
    requires ChildAuthority(run) && FollowAll(run, links).Some?
    ensures ChildAuthority(FollowAll(run, links).value)
    ensures Within(FollowAll(run, links).value.snapshot, run.snapshot)
  {
    if links == [] {
      assert forall capability <- run.snapshot.capabilities :: CapabilityWithin(capability, capability);
    } else {
      AuthorityOnlyNarrows(run, links[..|links| - 1]);
      var previous, link := FollowAll(run, links[..|links| - 1]).value, links[|links| - 1];
      var next := Follow(previous, link).value;
      LinkNarrows(previous, link);
      WithinIsTransitive(next.snapshot, previous.snapshot, run.snapshot);
    }
  }

  /* ---------- only what was asked for is handed down ---------- */

  /** The entry goes back to one of `sources` that was handed on because it is the kernel's or was asked for. */
  ghost predicate AskedFor(capability: Capability, sources: seq<Capability>, requested: seq<string>) {
    exists source <- sources ::
      source.facts.id == capability.facts.id && (source.facts.class_ == Kernel || source.facts.id in requested)
  }

  lemma DerivedIsAskedFor(parent: Snapshot, profileName: string, requested: seq<string>)
    requires Derive(parent, profileName, requested).Success?
    ensures forall capability <- Derive(parent, profileName, requested).value.capabilities ::
              AskedFor(capability, parent.capabilities, requested)
  {
    var child := Derive(parent, profileName, requested).value;
    var origin := NarrowHandsOn(parent.capabilities, requested, ProfileSpec(profileName).value);
    forall capability <- child.capabilities ensures AskedFor(capability, parent.capabilities, requested) {
      var k :| 0 <= k < |child.capabilities| && child.capabilities[k] == capability;
      assert parent.capabilities[origin[k]] in parent.capabilities;
    }
  }

  lemma AskedForLasts(capability: Capability, later: Capability, sources: seq<Capability>, requested: seq<string>)
    requires AskedFor(capability, sources, requested) && later.facts.id == capability.facts.id
    ensures AskedFor(later, sources, requested)
  {
  }

  /**
   Whatever a run at the end of a chain of delegations and refreshes holds, each delegation on the way handed it on
   because it belonged to the kernel there or was asked for by name.
  */
  lemma {:induction false} OnlyAskedForIsHandedDown(run: RunAuthority, links: seq<Link>, j: nat)
    requires ChildAuthority(run) && FollowAll(run, links).Some? && j < |links| && links[j].Delegated?
    ensures FollowAll(run, links[..j]).Some?
    ensures forall capability <- FollowAll(run, links).value.snapshot.capabilities ::
              AskedFor(capability, FollowAll(run, links[..j]).value.snapshot.capabilities,
                       links[j].delegation.requested)
  {
    var front, last := links[..|links| - 1], links[|links| - 1];
    var previous, next := FollowAll(run, front).value, FollowAll(run, links).value;
    if j == |front| {
      DerivedIsAskedFor(previous.snapshot, last.delegation.profileName, last.delegation.requested);
    } else {
      assert front[..j] == links[..j];
      OnlyAskedForIsHandedDown(run, front, j);
      AuthorityOnlyNarrows(run, front);
      LinkNarrows(previous, last);
      forall capability <- next.snapshot.capabilities
        ensures AskedFor(capability, FollowAll(run, links[..j]).value.snapshot.capabilities,
                         links[j].delegation.requested)
      {
        var source :| source in previous.snapshot.capabilities && CapabilityWithin(capability, source);
        AskedForLasts(source, capability, FollowAll(run, links[..j]).value.snapshot.capabilities,
                      links[j].delegation.requested);
      }
    }
  }
}
