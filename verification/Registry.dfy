/**
 The capability registry: an ordered map from capability id to draft that refuses
 collisions and keeps the core namespace and every security-critical entry to the core.
*/
module Registry {
  import opened Wrappers
  import opened Policies
  import opened Capability

  const MAX_CAPABILITIES := 4096
  const CORE_PREFIX := "core."

  datatype RegistryError = InvalidCapabilityId | ReservedNamespace | ReservedCritical | Full | Collision

  /** The order in which the registry enumerates its ids. */
  predicate Before(a: string, b: string) {
    b != "" && (a == "" || a[0] < b[0] || (a[0] == b[0] && Before(a[1..], b[1..])))
  }

  lemma {:induction false} BeforeIsTransitive(a: string, b: string, c: string)
    requires Before(a, b) && Before(b, c)
    ensures Before(a, c)
  {
    if a != "" && a[0] == b[0] && b[0] == c[0] {
      BeforeIsTransitive(a[1..], b[1..], c[1..]);
    }
  }

  lemma {:induction false} BeforeIsTotal(a: string, b: string)
    ensures a == b || Before(a, b) || Before(b, a)
    ensures !(Before(a, b) && Before(b, a)) && (a == b ==> !Before(a, b))
  {
    if a != "" && b != "" && a[0] == b[0] {
      BeforeIsTotal(a[1..], b[1..]);
      assert a == [a[0]] + a[1..] && b == [b[0]] + b[1..];
    }
  }

  /** The order of the first characters in which two ids differ, a prefix before what it is a prefix of. */
  lemma {:induction false} BeforeIsLexical(a: string, b: string)
    ensures Before(a, b) <==>
            || (a <= b && a != b)
            || exists k :: 0 <= k < |a| && k < |b| && a[..k] == b[..k] && a[k] < b[k]
  {
    if a != "" && b != "" && a[0] == b[0] {
      var restA, restB := a[1..], b[1..];
      BeforeIsLexical(restA, restB);
      assert a == [a[0]] + restA && b == [b[0]] + restB;
      if k :| 0 <= k < |restA| && k < |restB| && restA[..k] == restB[..k] && restA[k] < restB[k] {
        assert a[..k + 1] == [a[0]] + restA[..k] && b[..k + 1] == [b[0]] + restB[..k];
        assert a[k + 1] < b[k + 1];
      }
      if k :| 0 <= k < |a| && k < |b| && a[..k] == b[..k] && a[k] < b[k] {
        assert restA[..k - 1] == a[..k][1..] && restB[..k - 1] == b[..k][1..];
        assert restA[k - 1] < restB[k - 1];
      }
      assert restA <= restB <==> a <= b;
    } else if a != "" && b != "" {
      assert a[..0] == b[..0];
      assert !(a <= b);
    }
  }

  /** Registry ids may neither start nor end with a dot, on top of being printable. */
  predicate ValidRegistryId(id: string) {
    ValidId(id) && id[0] != '.' && id[|id| - 1] != '.'
  }

  predicate IsCoreId(id: string) {
    CORE_PREFIX <= id
  }

  ghost predicate Ascending(entries: seq<Draft>) {
    forall i, j | 0 <= i < j < |entries| :: Before(entries[i].facts.id, entries[j].facts.id)
  }

  /** Reserved ids and security-critical entries belong to the core. */
  ghost predicate CoreGuarded(entries: seq<Draft>) {
    forall entry <- entries :: IsCoreId(entry.facts.id) || entry.facts.securityCritical ==> entry.facts.origin == "core"
  }

  lemma AscendingIsDistinct(entries: seq<Draft>)
    requires Ascending(entries)
    ensures DistinctDrafts(entries)
  {
    forall i, j | 0 <= i < j < |entries| ensures entries[i].facts.id != entries[j].facts.id {
      BeforeIsTotal(entries[i].facts.id, entries[j].facts.id);
    }
  }

  /** The first rule a registration breaks, if any. */
  function Objection(entries: seq<Draft>, draft: Draft): Option<RegistryError> {
    if !ValidRegistryId(draft.facts.id) then Some(InvalidCapabilityId)
    else if draft.facts.origin != "core" && IsCoreId(draft.facts.id) then Some(ReservedNamespace)
    else if draft.facts.securityCritical && draft.facts.origin != "core" then Some(ReservedCritical)
    else if |entries| >= MAX_CAPABILITIES then Some(Full)
    else if exists i | 0 <= i < |entries| :: entries[i].facts.id == draft.facts.id then Some(Collision)
    else None
  }

  class CapabilityRegistry {
    var entries: seq<Draft>

    ghost predicate Valid()
      reads this
    {
      Ascending(entries) && CoreGuarded(entries) && |entries| <= MAX_CAPABILITIES
    }

    constructor ()
      ensures Valid() && entries == []
    {
      entries := [];
    }

    /** Insert at the draft's place in the order, or leave the registry as it was. */
    method Register(draft: Draft) returns (outcome: Result<nat, RegistryError>)
      requires Valid()
      modifies this
      ensures Valid()
      ensures var id := draft.facts.id; var core := draft.facts.origin == "core";
              var formed := && 1 <= |id| <= 256 && (forall c <- id :: ' ' <= c <= '~')
                            && id[0] != '.' && id[|id| - 1] != '.';
              var unreserved := core || !(CORE_PREFIX <= id);
              var uncritical := core || !draft.facts.securityCritical;
              var fits := |old(entries)| < 4096;
              var taken := exists entry <- old(entries) :: entry.facts.id == id;
              && (outcome == Failure(InvalidCapabilityId) <==> !formed)
              && (outcome == Failure(ReservedNamespace) <==> formed && !unreserved)
              && (outcome == Failure(ReservedCritical) <==> formed && unreserved && !uncritical)
              && (outcome == Failure(Full) <==> formed && unreserved && uncritical && !fits)
              && (outcome == Failure(Collision) <==> formed && unreserved && uncritical && fits && taken)
      ensures outcome.Failure? ==> entries == old(entries)
      ensures outcome.Success? ==>
                outcome.value <= |old(entries)| &&
                entries == old(entries)[..outcome.value] + [draft] + old(entries)[outcome.value..]
    {
      var objection := Objection(entries, draft);
      if objection.Some? {
        return Failure(objection.value);
      }
      var place := 0;
      while place < |entries| && Before(entries[place].facts.id, draft.facts.id)
        invariant place <= |entries|
        invariant forall i | 0 <= i < place :: Before(entries[i].facts.id, draft.facts.id)
      {
        place := place + 1;
      }
      forall i | place <= i < |entries| ensures Before(draft.facts.id, entries[i].facts.id) {
        BeforeIsTotal(entries[place].facts.id, draft.facts.id);
        if place < i {
          BeforeIsTransitive(draft.facts.id, entries[place].facts.id, entries[i].facts.id);
        }
      }
      entries := entries[..place] + [draft] + entries[place..];
      outcome := Success(place);
    }

    /** The snapshot a run of this profile captures now. */
    method Capture(profile: Profile, writable: bool, environment: string) returns (snapshot: Snapshot)
      requires Valid()
      ensures snapshot == LiveSnapshot(Live(entries, writable, environment), profile)
      ensures DistinctDrafts(entries)
    {
      AscendingIsDistinct(entries);
      snapshot := Snapshot(profile, Resolve(entries, profile, writable), writable, environment, None);
    }
  }
}
