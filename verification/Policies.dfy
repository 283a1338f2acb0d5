/**
 Approval policies and sandbox modes, and the meet that combines policies. The
 source spells the meet three times: on an enum in the capability registry, on an
 enum in the tool pipeline, and on strings by rank in the run kernel.
*/
module Policies {
  import opened Wrappers

  datatype Policy = Deny | Ask | Allow

  function Rank(policy: Policy): nat {
    match policy
    case Deny => 0
    case Ask => 1
    case Allow => 2
  }

  predicate AtMost(a: Policy, b: Policy) {
    Rank(a) <= Rank(b)
  }

  /** Policy::stricter of the registry and PolicyDecision::stricter of the pipeline. */
  function Stricter(a: Policy, b: Policy): Policy {
    match (a, b)
    case (Deny, _) => Deny
    case (_, Deny) => Deny
    case (Ask, _) => Ask
    case (_, Ask) => Ask
    case (Allow, Allow) => Allow
  }

  function Name(policy: Policy): string {
    match policy
    case Deny => "deny"
    case Ask => "ask"
    case Allow => "allow"
  }

  function RankOfName(name: string): Option<nat> {
    match name
    case "deny" => Some(0)
    case "ask" => Some(1)
    case "allow" => Some(2)
    case _ => None
  }

  /** stricter_policy of the run kernel: the minimum of two ranks, or an error for an unknown name. */
  function StricterByName(left: string, right: string): Option<string> {
    var l, r := RankOfName(left), RankOfName(right);
    if l.None? || r.None? then None
    else
      var rank := if l.value <= r.value then l.value else r.value;
      Some(match rank
           case 0 => "deny"
           case 1 => "ask"
           case _ => "allow")
  }

  /** The meet is the greatest policy below both of its arguments. */
  lemma StricterIsMeet(a: Policy, b: Policy)
    ensures AtMost(Stricter(a, b), a) && AtMost(Stricter(a, b), b)
    ensures forall c :: AtMost(c, a) && AtMost(c, b) ==> AtMost(c, Stricter(a, b))
    ensures Stricter(a, b) == a <==> AtMost(a, b)
  {
  }

  lemma PolicyOfName(name: string) returns (policy: Option<Policy>)
    ensures policy.Some? <==> RankOfName(name).Some?
    ensures policy.Some? ==> Name(policy.value) == name && RankOfName(name).value == Rank(policy.value)
  {
    policy := if name == "deny" then Some(Deny) else if name == "ask" then Some(Ask)
              else if name == "allow" then Some(Allow) else None;
  }

  /** The three spellings agree: on names the meet is the enum's meet, and only policy names have one. */
  lemma StricterSpellingsAgree(left: string, right: string)
    ensures StricterByName(left, right).Some? <==>
            exists a, b :: Name(a) == left && Name(b) == right
    ensures forall a, b | Name(a) == left && Name(b) == right ::
              StricterByName(left, right) == Some(Name(Stricter(a, b)))
  {
    var l := PolicyOfName(left);
    var r := PolicyOfName(right);
    if l.Some? && r.Some? {
      assert Name(l.value) == left && Name(r.value) == right;
    }
  }

  datatype Sandbox = ReadOnlySandbox | WorkspaceWrite | WorkspaceGui | DangerFullAccess

  function SandboxRank(sandbox: Sandbox): nat {
    match sandbox
    case ReadOnlySandbox => 0
    case WorkspaceWrite => 1
    case WorkspaceGui => 2
    case DangerFullAccess => 3
  }
}
