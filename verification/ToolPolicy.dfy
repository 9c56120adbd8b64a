/** Tool-choice enforcement (internal/server/server.go:1041-1099). */
module ToolPolicy {
  import opened Api

  /** A decoded `tool_choice`; `Malformed` is a value that `ParseToolChoice` refuses. */
  datatype ToolChoice =
    | Malformed(message: string)
    | Auto
    | Never
    | Required
    | Any
    | Function(name: string)
    | AllowedTools(names: set<string>)

  /** The names in `tools`; `BadTools` is a value that `DeclaredToolNames` refuses. */
  datatype ToolDecls = BadTools(message: string) | Tools(names: set<string>)

  datatype Policy = Policy(choice: ToolChoice, declared: ToolDecls)

  function ValidateToolCallName(policy: Policy, name: string): Option<ResponseError> {
    if policy.choice.Malformed? then Some(InvalidRequest(policy.choice.message))
    else if policy.choice.Never? then Some(ToolCallForbidden)
    else if name == "" then None
    else if policy.declared.BadTools? then Some(InvalidRequest(policy.declared.message))
    else if name !in policy.declared.names then Some(UndeclaredTool(name))
    else
      match policy.choice
      case Function(required) => if name != required then Some(WrongTool(name, required)) else None
      case AllowedTools(names) => if name !in names then Some(DisallowedTool(name)) else None
      case _ => None
  }

  /** The first rejected call, if any, in list order. */
  function FirstRejection(policy: Policy, calls: seq<ToolCall>): (r: Option<ResponseError>)
    ensures r.None? <==> forall c :: c in calls ==> ValidateToolCallName(policy, c.name).None?
  {
    if calls == [] then None
    else if ValidateToolCallName(policy, calls[0].name).Some? then ValidateToolCallName(policy, calls[0].name)
    else FirstRejection(policy, calls[1..])
  }

  function MissingCall(policy: Policy, calls: seq<ToolCall>): Option<ResponseError> {
    if policy.choice.Malformed? then Some(InvalidRequest(policy.choice.message))
    else if calls != [] then None
    else
      match policy.choice
      case Required => Some(MissingToolCall)
      case Any => Some(MissingToolCall)
      case Function(required) => Some(MissingRequiredTool(required))
      case _ => None
  }

  function Verdict(policy: Policy, calls: seq<ToolCall>): Option<ResponseError> {
    if FirstRejection(policy, calls).Some? then FirstRejection(policy, calls) else MissingCall(policy, calls)
  }

  /** The loop of `validateToolCalls`, which stops at the first rejected call. */
  method ValidateToolCalls(policy: Policy, calls: seq<ToolCall>) returns (err: Option<ResponseError>)
    ensures err == Verdict(policy, calls)
  {
    for i := 0 to |calls|
      invariant FirstRejection(policy, calls) == FirstRejection(policy, calls[i..])
    {
      var e := ValidateToolCallName(policy, calls[i].name);
      if e.Some? {
        return e;
      }
    }
    if policy.choice.Malformed? {
      return Some(InvalidRequest(policy.choice.message));
    }
    if |calls| == 0 && (policy.choice.Required? || policy.choice.Any? || policy.choice.Function?) {
      err := Some(MissingToolCall);
      if policy.choice.Function? {
        err := Some(MissingRequiredTool(policy.choice.name));
      }
      return;
    }
    return None;
  }

  /** A call that is still unnamed is rejected only for a reason that no later name can cure. */
  lemma UnnamedRejectionIsFinal(policy: Policy, name: string)
    requires ValidateToolCallName(policy, "").Some?
    ensures ValidateToolCallName(policy, name) == ValidateToolCallName(policy, "")
  {
  }

  /** The final validation speaks of calls, never of the provider. */
  lemma {:induction false} VerdictBlamesCalls(policy: Policy, calls: seq<ToolCall>)
    ensures Verdict(policy, calls).Some? ==> !Verdict(policy, calls).value.ProviderFailed? && !Verdict(policy, calls).value.ProviderUnavailable?
  {
    if calls != [] {
      VerdictBlamesCalls(policy, calls[1..]);
    }
  }

  /** A name that this choice and these declarations do not allow.  An unnamed call is never blamed. */
  predicate Offends(choice: ToolChoice, declared: ToolDecls, name: string) {
    && name != ""
    && !(&& declared.Tools? && name in declared.names
         && (choice.Function? ==> name == choice.name)
         && (choice.AllowedTools? ==> name in choice.names))
  }

  /** The error for such a name. */
  function Blame(choice: ToolChoice, declared: ToolDecls, name: string): ResponseError {
    if declared.BadTools? then InvalidRequest(declared.message)
    else if name !in declared.names then UndeclaredTool(name)
    else if choice.Function? then WrongTool(name, choice.name)
    else DisallowedTool(name)
  }

  lemma NameIsRefusedExactlyWhen(policy: Policy, name: string)
    requires !policy.choice.Malformed? && !policy.choice.Never?
    ensures ValidateToolCallName(policy, name) ==
            if Offends(policy.choice, policy.declared, name) then Some(Blame(policy.choice, policy.declared, name)) else None
  {
  }

  /** What tool policy means, from the choice, the declarations and the calls alone: the calls are accepted
      exactly when the choice decodes, none are made where none are allowed, some are where some are
      required, and every name is declared, is the required one, and is among the allowed ones. */
  lemma CallsAreAcceptedExactlyWhen(policy: Policy, calls: seq<ToolCall>)
    ensures Verdict(policy, calls).None? <==>
            && !policy.choice.Malformed?
            && (policy.choice.Never? ==> calls == [])
            && (policy.choice.Required? || policy.choice.Any? || policy.choice.Function? ==> calls != [])
            && forall k :: 0 <= k < |calls| && calls[k].name != "" ==>
                 && policy.declared.Tools? && calls[k].name in policy.declared.names
                 && (policy.choice.Function? ==> calls[k].name == policy.choice.name)
                 && (policy.choice.AllowedTools? ==> calls[k].name in policy.choice.names)
  {
    if policy.choice.Malformed? {
      assert Verdict(policy, calls).Some?;
    } else if policy.choice.Never? {
      assert calls != [] ==> calls[0] in calls;
    } else {
      forall k | 0 <= k < |calls|
        ensures ValidateToolCallName(policy, calls[k].name).Some? <==> Offends(policy.choice, policy.declared, calls[k].name)
      {
        NameIsRefusedExactlyWhen(policy, calls[k].name);
      }
      hide ValidateToolCallName;
      assert forall k :: 0 <= k < |calls| ==> calls[k] in calls;
    }
  }

  /** Which error a refusal reports: a choice that does not decode first, then a call where none is allowed,
      then the first offending name, and a missing call last. */
  lemma RefusalIsReported(policy: Policy, calls: seq<ToolCall>)
    ensures policy.choice.Malformed? ==> Verdict(policy, calls) == Some(InvalidRequest(policy.choice.message))
    ensures policy.choice.Never? && calls != [] ==> Verdict(policy, calls) == Some(ToolCallForbidden)
    ensures !policy.choice.Malformed? && !policy.choice.Never? ==>
              forall k :: 0 <= k < |calls| && Offends(policy.choice, policy.declared, calls[k].name)
                          && (forall j :: 0 <= j < k ==> !Offends(policy.choice, policy.declared, calls[j].name)) ==>
                Verdict(policy, calls) == Some(Blame(policy.choice, policy.declared, calls[k].name))
    ensures calls == [] && (policy.choice.Required? || policy.choice.Any?) ==> Verdict(policy, calls) == Some(MissingToolCall)
    ensures calls == [] && policy.choice.Function? ==> Verdict(policy, calls) == Some(MissingRequiredTool(policy.choice.name))
  {
    if !policy.choice.Malformed? && !policy.choice.Never? {
      forall k | 0 <= k < |calls| && Offends(policy.choice, policy.declared, calls[k].name)
                 && (forall j :: 0 <= j < k ==> !Offends(policy.choice, policy.declared, calls[j].name))
        ensures FirstRejection(policy, calls) == Some(Blame(policy.choice, policy.declared, calls[k].name))
      {
        FirstOffenderIsBlamed(policy, calls, k);
      }
    }
  }

  lemma {:induction false} FirstOffenderIsBlamed(policy: Policy, calls: seq<ToolCall>, k: nat)
    requires !policy.choice.Malformed? && !policy.choice.Never?
    requires k < |calls| && Offends(policy.choice, policy.declared, calls[k].name)
    requires forall j :: 0 <= j < k ==> !Offends(policy.choice, policy.declared, calls[j].name)
    ensures FirstRejection(policy, calls) == Some(Blame(policy.choice, policy.declared, calls[k].name))
    decreases k
  {
    NameIsRefusedExactlyWhen(policy, calls[0].name);
    if k > 0 {
      forall j | 0 <= j < k - 1 ensures !Offends(policy.choice, policy.declared, calls[1..][j].name) {
        assert calls[1..][j] == calls[j + 1];
      }
      FirstOffenderIsBlamed(policy, calls[1..], k - 1);
    }
  }
}
