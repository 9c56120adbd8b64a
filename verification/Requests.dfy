/** Request context and its inheritance from turn to turn
    (internal/api/types.go:581-657, internal/server/server.go:238-241). */
module Requests {
  import opened Api
  import opened ToolPolicy

  /** A JSON value that the gateway only copies. */
  type Json = string

  datatype Request =
    Request(model: string, stream: bool, store: Option<bool>,
            instructions: Option<string>, tools: Option<ToolDecls>, toolChoice: Option<ToolChoice>,
            maxOutputTokens: Option<int>, temperature: Option<real>, topP: Option<real>,
            frequencyPenalty: Option<real>, presencePenalty: Option<real>, topLogprobs: Option<int>,
            truncation: Option<string>, parallelToolCalls: Option<bool>, text: Option<Json>,
            reasoning: Option<Json>, included: seq<string>, serviceTier: Option<string>,
            maxToolCalls: Option<int>, streamOptions: Option<Json>, provider: string,
            metadata: map<string, string>)

  function PolicyOf(r: Request): Policy {
    Policy(if r.toolChoice.Some? then r.toolChoice.value else Auto,
           if r.tools.Some? then r.tools.value else ToolDecls.Tools({}))
  }

  function ShouldStore(r: Request, storeByDefault: bool): bool {
    if r.store.Some? then r.store.value else storeByDefault
  }

  function Or<T>(a: Option<T>, b: Option<T>): Option<T> {
    if a.Some? then a else b
  }

  /** The merged request: the turn's own model, stream and store flags, and every other field from the
      turn when it sets the field, else from `prev`. */
  function Inherit(r: Request, prev: Request): Request {
    Request(r.model, r.stream, r.store,
            Or(r.instructions, prev.instructions), Or(r.tools, prev.tools), Or(r.toolChoice, prev.toolChoice),
            Or(r.maxOutputTokens, prev.maxOutputTokens), Or(r.temperature, prev.temperature), Or(r.topP, prev.topP),
            Or(r.frequencyPenalty, prev.frequencyPenalty), Or(r.presencePenalty, prev.presencePenalty),
            Or(r.topLogprobs, prev.topLogprobs), Or(r.truncation, prev.truncation),
            Or(r.parallelToolCalls, prev.parallelToolCalls), Or(r.text, prev.text), Or(r.reasoning, prev.reasoning),
            if r.included != [] then r.included else prev.included, Or(r.serviceTier, prev.serviceTier),
            Or(r.maxToolCalls, prev.maxToolCalls), Or(r.streamOptions, prev.streamOptions),
            if r.provider != "" then r.provider else prev.provider,
            if r.metadata != map[] then r.metadata else prev.metadata)
  }

  /** What a request accepts, from its own fields: a missing choice is automatic, missing tools are no tools. */
  lemma RequestAcceptsExactlyWhen(r: Request, calls: seq<ToolCall>)
    ensures Verdict(PolicyOf(r), calls).None? <==>
            && (r.toolChoice.Some? ==>
                  && !r.toolChoice.value.Malformed?
                  && (r.toolChoice.value.Never? ==> calls == [])
                  && (r.toolChoice.value.Required? || r.toolChoice.value.Any? || r.toolChoice.value.Function? ==> calls != []))
            && forall k :: 0 <= k < |calls| && calls[k].name != "" ==>
                 && r.tools.Some? && r.tools.value.Tools? && calls[k].name in r.tools.value.names
                 && (r.toolChoice.Some? && r.toolChoice.value.Function? ==> calls[k].name == r.toolChoice.value.name)
                 && (r.toolChoice.Some? && r.toolChoice.value.AllowedTools? ==> calls[k].name in r.toolChoice.value.names)
  {
    CallsAreAcceptedExactlyWhen(PolicyOf(r), calls);
    hide Verdict;
  }

  /** How a chain is merged does not matter, and merging the same predecessor again changes nothing. */
  lemma InheritIsAMerge(r: Request, prev: Request, older: Request)
    ensures Inherit(r, Inherit(prev, older)) == Inherit(Inherit(r, prev), older)
    ensures Inherit(Inherit(r, prev), prev) == Inherit(r, prev)
  {
  }

  /** A decoded request whose missing fields are filled in place. */
  class ResponseRequest {
    var fields: Request

    constructor (fields: Request)
      ensures this.fields == fields
    {
      this.fields := fields;
    }

    method InheritMissingContext(prev: Request)
      modifies this
      ensures fields == Inherit(old(fields), prev)
    {
      InheritPrompt(prev);
      InheritSampling(prev);
      InheritPenalties(prev);
      InheritShape(prev);
      InheritService(prev);
      InheritOptions(prev);
      InheritOrigin(prev);
    }

    method InheritPrompt(prev: Request)
      modifies this
      ensures fields == old(fields).(instructions := Or(old(fields).instructions, prev.instructions),
                                     tools := Or(old(fields).tools, prev.tools),
                                     toolChoice := Or(old(fields).toolChoice, prev.toolChoice))
    {
      if fields.instructions.None? && prev.instructions.Some? {
        fields := fields.(instructions := prev.instructions);
      }
      if fields.tools.None? && prev.tools.Some? {
        fields := fields.(tools := prev.tools);
      }
      if fields.toolChoice.None? && prev.toolChoice.Some? {
        fields := fields.(toolChoice := prev.toolChoice);
      }
    }

    method InheritSampling(prev: Request)
      modifies this
      ensures fields == old(fields).(maxOutputTokens := Or(old(fields).maxOutputTokens, prev.maxOutputTokens),
                                     temperature := Or(old(fields).temperature, prev.temperature),
                                     topP := Or(old(fields).topP, prev.topP))
    {
      if fields.maxOutputTokens.None? && prev.maxOutputTokens.Some? {
        fields := fields.(maxOutputTokens := prev.maxOutputTokens);
      }
      if fields.temperature.None? && prev.temperature.Some? {
        fields := fields.(temperature := prev.temperature);
      }
      if fields.topP.None? && prev.topP.Some? {
        fields := fields.(topP := prev.topP);
      }
    }

    method InheritPenalties(prev: Request)
      modifies this
      ensures fields == old(fields).(frequencyPenalty := Or(old(fields).frequencyPenalty, prev.frequencyPenalty),
                                     presencePenalty := Or(old(fields).presencePenalty, prev.presencePenalty),
                                     topLogprobs := Or(old(fields).topLogprobs, prev.topLogprobs))
    {
      if fields.frequencyPenalty.None? && prev.frequencyPenalty.Some? {
        fields := fields.(frequencyPenalty := prev.frequencyPenalty);
      }
      if fields.presencePenalty.None? && prev.presencePenalty.Some? {
        fields := fields.(presencePenalty := prev.presencePenalty);
      }
      if fields.topLogprobs.None? && prev.topLogprobs.Some? {
        fields := fields.(topLogprobs := prev.topLogprobs);
      }
    }

    method InheritShape(prev: Request)
      modifies this
      ensures fields == old(fields).(truncation := Or(old(fields).truncation, prev.truncation),
                                     parallelToolCalls := Or(old(fields).parallelToolCalls, prev.parallelToolCalls),
                                     text := Or(old(fields).text, prev.text))
    {
      if fields.truncation.None? && prev.truncation.Some? {
        fields := fields.(truncation := prev.truncation);
      }
      if fields.parallelToolCalls.None? && prev.parallelToolCalls.Some? {
        fields := fields.(parallelToolCalls := prev.parallelToolCalls);
      }
      if fields.text.None? && prev.text.Some? {
        fields := fields.(text := prev.text);
      }
    }

    method InheritService(prev: Request)
      modifies this
      ensures fields == old(fields).(reasoning := Or(old(fields).reasoning, prev.reasoning),
                                     included := if old(fields).included != [] then old(fields).included else prev.included,
                                     serviceTier := Or(old(fields).serviceTier, prev.serviceTier))
    {
      if fields.reasoning.None? && prev.reasoning.Some? {
        fields := fields.(reasoning := prev.reasoning);
      }
      if |fields.included| == 0 && |prev.included| > 0 {
        fields := fields.(included := prev.included);
      }
      if fields.serviceTier.None? && prev.serviceTier.Some? {
        fields := fields.(serviceTier := prev.serviceTier);
      }
    }

    method InheritOptions(prev: Request)
      modifies this
      ensures fields == old(fields).(maxToolCalls := Or(old(fields).maxToolCalls, prev.maxToolCalls),
                                     streamOptions := Or(old(fields).streamOptions, prev.streamOptions))
    {
      if fields.maxToolCalls.None? && prev.maxToolCalls.Some? {
        fields := fields.(maxToolCalls := prev.maxToolCalls);
      }
      if fields.streamOptions.None? && prev.streamOptions.Some? {
        fields := fields.(streamOptions := prev.streamOptions);
      }
    }

    method InheritOrigin(prev: Request)
      modifies this
      ensures fields == old(fields).(provider := if old(fields).provider != "" then old(fields).provider else prev.provider,
                                     metadata := if old(fields).metadata != map[] then old(fields).metadata else prev.metadata)
    {
      if fields.provider == "" {
        fields := fields.(provider := prev.provider);
      }
      if |fields.metadata| == 0 && |prev.metadata| > 0 {
        fields := fields.(metadata := prev.metadata);
      }
    }
  }

  /** What a chain of turns leaves stored: each turn inherits from the already merged one before it. */
  function Effective(turns: seq<Request>): Request
    requires turns != []
  {
    var n := |turns| - 1;
    if n == 0 then turns[0] else Inherit(turns[n], Effective(turns[..n]))
  }

  datatype Field =
    | Instructions
    | Tools
    | ToolChoice
    | MaxOutputTokens
    | Temperature
    | TopP
    | FrequencyPenalty
    | PresencePenalty
    | TopLogprobs
    | Truncation
    | ParallelToolCalls
    | Text
    | Reasoning
    | Included
    | ServiceTier
    | MaxToolCalls
    | StreamOptions
    | Provider
    | Metadata

  datatype Value =
    | AsTools(decls: ToolDecls) | AsChoice(choice: ToolChoice) | AsText(text: string) | AsCount(count: int)
    | AsRate(rate: real) | AsFlag(flag: bool) | AsList(list: seq<string>) | AsLabels(labels: map<string, string>)

  /** What a request says about an inheritable field, if anything; an empty list, map or provider name
      says nothing. */
  function Get(r: Request, field: Field): Option<Value> {
    match field
    case Instructions => if r.instructions.Some? then Some(AsText(r.instructions.value)) else None
    case Tools => if r.tools.Some? then Some(AsTools(r.tools.value)) else None
    case ToolChoice => if r.toolChoice.Some? then Some(AsChoice(r.toolChoice.value)) else None
    case MaxOutputTokens => if r.maxOutputTokens.Some? then Some(AsCount(r.maxOutputTokens.value)) else None
    case Temperature => if r.temperature.Some? then Some(AsRate(r.temperature.value)) else None
    case TopP => if r.topP.Some? then Some(AsRate(r.topP.value)) else None
    case FrequencyPenalty => if r.frequencyPenalty.Some? then Some(AsRate(r.frequencyPenalty.value)) else None
    case PresencePenalty => if r.presencePenalty.Some? then Some(AsRate(r.presencePenalty.value)) else None
    case TopLogprobs => if r.topLogprobs.Some? then Some(AsCount(r.topLogprobs.value)) else None
    case Truncation => if r.truncation.Some? then Some(AsText(r.truncation.value)) else None
    case ParallelToolCalls => if r.parallelToolCalls.Some? then Some(AsFlag(r.parallelToolCalls.value)) else None
    case Text => if r.text.Some? then Some(AsText(r.text.value)) else None
    case Reasoning => if r.reasoning.Some? then Some(AsText(r.reasoning.value)) else None
    case Included => if r.included == [] then None else Some(AsList(r.included))
    case ServiceTier => if r.serviceTier.Some? then Some(AsText(r.serviceTier.value)) else None
    case MaxToolCalls => if r.maxToolCalls.Some? then Some(AsCount(r.maxToolCalls.value)) else None
    case StreamOptions => if r.streamOptions.Some? then Some(AsText(r.streamOptions.value)) else None
    case Provider => if r.provider == "" then None else Some(AsText(r.provider))
    case Metadata => if r.metadata == map[] then None else Some(AsLabels(r.metadata))
  }

  /** The value from the most recent turn that sets the field. */
  function MostRecent(field: Field, turns: seq<Request>): Option<Value> {
    if turns == [] then None
    else Or(Get(turns[|turns| - 1], field), MostRecent(field, turns[..|turns| - 1]))
  }

  lemma InheritedField(r: Request, prev: Request, field: Field)
    ensures Get(Inherit(r, prev), field) == Or(Get(r, field), Get(prev, field))
  {
  }

  /** After any number of turns every inheritable field has the value of the last turn that set it, and
      the model, stream and store flags are the last turn's own. */
  lemma {:induction false} EveryFieldIsMostRecent(turns: seq<Request>, field: Field)
    requires turns != []
    ensures Get(Effective(turns), field) == MostRecent(field, turns)
    ensures var e, last := Effective(turns), turns[|turns| - 1];
            e.model == last.model && e.stream == last.stream && e.store == last.store
  {
    var n := |turns| - 1;
    if n > 0 {
      EveryFieldIsMostRecent(turns[..n], field);
      InheritedField(turns[n], Effective(turns[..n]), field);
    } else {
      assert MostRecent(field, turns[..n]) == None;
    }
  }
}
