/**
 What the tool pipeline decides about a call before it runs: the effective sandbox of a
 process tool, the combined policy, and the exact intent an approval has to cover.
*/
module Decision {
  import opened Wrappers
  import opened Policies
  import opened Approvals

  const GUI_CAPABILITY := "core.workspace.gui-session"

  /** What the run's capability snapshot and the plugins say about the call. */
  datatype Authority = Authority(
    sandbox: Sandbox, capability: string, policy: Policy, plugin: Option<Policy>, gui: Option<Policy>)

  datatype Call = Call(
    run: Option<string>, principal: string, workspace: string, tool: string, arguments: Option<Arguments>,
    head: string, readOnly: bool, idempotent: bool, authority: Authority)

  /** The outcome: the policy, the capability it is charged to, the sandbox, and the arguments as they will run. */
  datatype Ruling = Ruling(policy: Policy, capability: string, sandbox: Option<Sandbox>, arguments: Option<Arguments>)

  datatype RulingError =
    MissingArguments | SandboxNotText | UnknownSandbox | ProcessDanger | ExceedsProfile | NoGuiCapability

  function SandboxName(sandbox: Sandbox): string {
    match sandbox
    case ReadOnlySandbox => "read-only"
    case WorkspaceWrite => "workspace-write"
    case WorkspaceGui => "workspace-gui"
    case DangerFullAccess => "danger-full-access"
  }

  function SandboxOfName(name: string): Option<Sandbox> {
    match name
    case "read-only" => Some(ReadOnlySandbox)
    case "workspace-write" => Some(WorkspaceWrite)
    case "workspace-gui" => Some(WorkspaceGui)
    case "danger-full-access" => Some(DangerFullAccess)
    case _ => None
  }

  lemma SandboxNamesAreDistinct(a: Sandbox, b: Sandbox)
    ensures SandboxOfName(SandboxName(a)) == Some(a)
    ensures SandboxName(a) == SandboxName(b) ==> a == b
    ensures SandboxOfName("read-only") == Some(ReadOnlySandbox)
    ensures SandboxOfName("workspace-write") == Some(WorkspaceWrite)
    ensures SandboxOfName("workspace-gui") == Some(WorkspaceGui)
    ensures SandboxOfName("danger-full-access") == Some(DangerFullAccess)
  {
    assert SandboxOfName(SandboxName(b)) == Some(b);
  }

  predicate RunsProcess(tool: string) {
    tool == "workspace_exec" || tool == "workspace_process_start"
  }

  predicate Elevated(sandbox: Sandbox) {
    sandbox == WorkspaceGui || sandbox == DangerFullAccess
  }

  /** The sandbox the call asks for, or the profile's when it asks for none. */
  function RequestedSandbox(profile: Sandbox, tool: string, arguments: Arguments): Result<Sandbox, RulingError> {
    if "sandbox" !in arguments then
      Success(if tool == "workspace_process_start" && profile == DangerFullAccess then WorkspaceWrite else profile)
    else match arguments["sandbox"]
      case Other(_) => Failure(SandboxNotText)
      case Text(name) =>
        var sandbox := SandboxOfName(name);
        if sandbox.None? then Failure(UnknownSandbox) else Success(sandbox.value)
  }

  /** resolve_workspace_exec_sandbox. */
  function ResolveSandbox(profile: Sandbox, tool: string, arguments: Option<Arguments>)
    : Result<Option<Sandbox>, RulingError>
  {
    if !RunsProcess(tool) then Success(None)
    else if arguments.None? then Failure(MissingArguments)
    else match RequestedSandbox(profile, tool, arguments.value)
      case Failure(error) => Failure(error)
      case Success(requested) =>
        if tool == "workspace_process_start" && requested == DangerFullAccess then Failure(ProcessDanger)
        else if requested != DangerFullAccess && !(requested == WorkspaceGui && profile == WorkspaceWrite)
                && SandboxRank(requested) > SandboxRank(profile) then Failure(ExceedsProfile)
        else Success(Some(requested))
  }

  /** apply_workspace_exec_sandbox_policy. */
  function SandboxPolicy(policy: Policy, sandbox: Option<Sandbox>): Policy {
    if sandbox.Some? && Elevated(sandbox.value) && policy != Deny then Ask else policy
  }

  function EffectiveArguments(arguments: Option<Arguments>, sandbox: Option<Sandbox>): Option<Arguments> {
    if sandbox.Some? && arguments.Some? then Some(arguments.value["sandbox" := Text(SandboxName(sandbox.value))])
    else arguments
  }

  function Decide(call: Call): Result<Ruling, RulingError> {
    if call.run.None? then Success(Ruling(Allow, call.authority.capability, None, call.arguments))
    else
      var authority := call.authority;
      var policy := Stricter(authority.policy, if authority.plugin.Some? then authority.plugin.value else Allow);
      match ResolveSandbox(authority.sandbox, call.tool, call.arguments)
      case Failure(error) => Failure(error)
      case Success(sandbox) =>
        if sandbox == Some(WorkspaceGui) && authority.gui.None? then Failure(NoGuiCapability)
        else
          var gui := sandbox == Some(WorkspaceGui);
          var combined := if gui then Stricter(policy, authority.gui.value) else policy;
          Success(Ruling(SandboxPolicy(combined, sandbox), if gui then GUI_CAPABILITY else authority.capability,
                         sandbox, EffectiveArguments(call.arguments, sandbox)))
  }

  /* ---------- the sandbox of a process ---------- */

  /** A call of a run that starts a process. */
  predicate StartsProcess(call: Call) {
    call.run.Some? && (call.tool == "workspace_exec" || call.tool == "workspace_process_start")
  }

  predicate NamesSandbox(call: Call) {
    call.arguments.Some? && "sandbox" in call.arguments.value
  }

  /** The call names exactly this mode. */
  predicate Names(call: Call, sandbox: Sandbox) {
    NamesSandbox(call) && call.arguments.value["sandbox"] == Text(SandboxName(sandbox))
  }

  /** The sandbox is the one the call names, or the profile's, as far as a long-running process can have that. */
  predicate NamedOrOwn(call: Call, sandbox: Sandbox) {
    if NamesSandbox(call) then Names(call, sandbox)
    else if call.tool == "workspace_process_start" && call.authority.sandbox == DangerFullAccess
    then sandbox == WorkspaceWrite
    else sandbox == call.authority.sandbox
  }

  /** A process gets the sandbox it named and finds it among its arguments; nothing else gets one or is touched. */
  predicate GivesNamedSandbox(call: Call, ruling: Ruling) {
    if !StartsProcess(call) then ruling.sandbox == None && ruling.arguments == call.arguments
    else
      && ruling.sandbox.Some? && NamedOrOwn(call, ruling.sandbox.value)
      && call.arguments.Some? && ruling.arguments.Some?
      && ruling.arguments.value == call.arguments.value["sandbox" := Text(SandboxName(ruling.sandbox.value))]
  }

  /** The session capability is charged in a graphical sandbox, the call's own everywhere else. */
  predicate ChargesRightly(call: Call, ruling: Ruling) {
    ruling.capability ==
    if ruling.sandbox == Some(WorkspaceGui) then "core.workspace.gui-session" else call.authority.capability
  }

  /** The named mode is above the profile, and is neither of the two that can be asked for. */
  predicate NamesTooMuch(call: Call, sandbox: Sandbox) {
    && Names(call, sandbox) && SandboxRank(sandbox) > SandboxRank(call.authority.sandbox)
    && sandbox != DangerFullAccess && !(sandbox == WorkspaceGui && call.authority.sandbox == WorkspaceWrite)
  }

  /** What each error says about the call. */
  ghost predicate Fault(call: Call, error: RulingError) {
    && StartsProcess(call)
    && match error
       case MissingArguments => call.arguments.None?
       case SandboxNotText => NamesSandbox(call) && call.arguments.value["sandbox"].Other?
       case UnknownSandbox =>
         && NamesSandbox(call) && call.arguments.value["sandbox"].Text?
         && call.arguments.value["sandbox"].text !in
              {"read-only", "workspace-write", "workspace-gui", "danger-full-access"}
       case ProcessDanger => call.tool == "workspace_process_start" && Names(call, DangerFullAccess)
       case ExceedsProfile => exists sandbox :: NamesTooMuch(call, sandbox)
       case NoGuiCapability =>
         && call.arguments.Some? && NamedOrOwn(call, WorkspaceGui) && !NamesTooMuch(call, WorkspaceGui)
         && call.authority.gui.None?
  }

  lemma RulingSandboxIsTheNamed(call: Call)
    requires Decide(call).Success?
    ensures GivesNamedSandbox(call, Decide(call).value) && ChargesRightly(call, Decide(call).value)
  {
    if StartsProcess(call) && NamesSandbox(call) {
      NamesAreRead(call);
    }
  }

  /** A ruling fails with an error exactly when the call has that fault, so no call has two. */
  lemma RulingFailsExactlyWhen(call: Call, error: RulingError)
    ensures Decide(call) == Failure(error) <==> Fault(call, error)
  {
    if NamesSandbox(call) && call.arguments.value["sandbox"].Text? {
      NamesAreRead(call);
      var named := SandboxOfName(call.arguments.value["sandbox"].text);
      if named.Some? {
        assert Names(call, named.value);
        assert NamesTooMuch(call, named.value) <==> exists sandbox :: NamesTooMuch(call, sandbox);
      }
    }
  }

  lemma NamesAreRead(call: Call)
    requires NamesSandbox(call) && call.arguments.value["sandbox"].Text?
    ensures forall sandbox ::
              Names(call, sandbox) <==> SandboxOfName(call.arguments.value["sandbox"].text) == Some(sandbox)
  {
  }

  /** The pipeline's own sequence of reassignments. */
  method Rule(call: Call) returns (outcome: Result<Ruling, RulingError>)
    ensures outcome == Decide(call)
    ensures outcome.Success? ==> GivesNamedSandbox(call, outcome.value) && ChargesRightly(call, outcome.value)
    ensures call.run.None? ==> outcome.Success? && outcome.value.policy == Allow
    ensures outcome.Failure? ==> Fault(call, outcome.error)
    ensures outcome.Success? ==> forall error :: !Fault(call, error)
  {
    forall error ensures Decide(call) == Failure(error) <==> Fault(call, error) {
      RulingFailsExactlyWhen(call, error);
    }
    if Decide(call).Success? {
      RulingSandboxIsTheNamed(call);
    }
    var policy, capability := Allow, call.authority.capability;
    var sandbox: Option<Sandbox> := None;
    if call.run.Some? {
      policy := call.authority.policy;
      if call.authority.plugin.Some? {
        policy := Stricter(policy, call.authority.plugin.value);
      }
      var resolved := ResolveSandbox(call.authority.sandbox, call.tool, call.arguments);
      if resolved.Failure? {
        return Failure(resolved.error);
      }
      sandbox := resolved.value;
      if sandbox == Some(WorkspaceGui) {
        if call.authority.gui.None? {
          return Failure(NoGuiCapability);
        }
        capability := GUI_CAPABILITY;
        policy := Stricter(policy, call.authority.gui.value);
      }
      if sandbox.Some? && Elevated(sandbox.value) && policy != Deny {
        policy := Ask;
      }
    }
    outcome := Success(Ruling(policy, capability, sandbox, EffectiveArguments(call.arguments, sandbox)));
  }

  /** Some part of the call's authority denies it. */
  predicate SomeDeny(call: Call, ruling: Ruling) {
    || call.authority.policy == Deny
    || call.authority.plugin == Some(Deny)
    || (ruling.sandbox == Some(WorkspaceGui) && call.authority.gui == Some(Deny))
  }

  /** Every part of the call's authority allows it outright. */
  predicate AllAllow(call: Call, ruling: Ruling) {
    && call.authority.policy == Allow
    && (call.authority.plugin.Some? ==> call.authority.plugin.value == Allow)
    && (ruling.sandbox.Some? ==> !Elevated(ruling.sandbox.value))
  }

  /** A bound call is denied exactly when some part denies it, and runs unasked exactly when every part allows it. */
  lemma RulingPolicyExactlyWhen(call: Call)
    requires call.run.Some? && Decide(call).Success?
    ensures var ruling := Decide(call).value;
            && (ruling.policy == Deny <==> SomeDeny(call, ruling))
            && (ruling.policy == Allow <==> AllAllow(call, ruling))
  {
  }

  /** A sandbox above the run's profile is one of the two elevated ones, and so never runs unasked. */
  lemma ExceedingSandboxIsAsked(call: Call)
    requires Decide(call).Success? && Decide(call).value.sandbox.Some?
    ensures var ruling := Decide(call).value; var sandbox := ruling.sandbox.value;
            && (SandboxRank(sandbox) > SandboxRank(call.authority.sandbox) ==> Elevated(sandbox))
            && (Elevated(sandbox) ==> ruling.policy != Allow)
            && (call.tool == "workspace_process_start" ==> sandbox != DangerFullAccess)
            && ruling.arguments.Some? && "sandbox" in ruling.arguments.value
            && ruling.arguments.value["sandbox"] == Text(SandboxName(sandbox))
  {
  }

  /** The intent an approval of this call is bound to. */
  function IntentOf(call: Call, ruling: Ruling): Intent
    requires call.run.Some?
  {
    Intent(call.run.value, call.principal, call.workspace, call.tool, ruling.capability, ruling.arguments, call.head)
  }
}
