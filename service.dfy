/**
 * The service Builder of pkg/service/service.go: a desired-state `Service`
 * definition, a cluster connection and a sticky error message, changed by a
 * constructor, a `validate` guard and fluent `With*` mutators.
 *
 * The class `Builder` holds the three fields and updates them in place. Each of
 * its methods is specified by a function on `BuilderState`, the value of those
 * fields; what the source promises is proved about those functions.
 */
module Service {
  import opened Wrappers
  import opened CoreV1

  const ResourceCRD := "Service"

  const NameEmptyMsg := "Service 'name' cannot be empty"
  const NamespaceEmptyMsg := "Namespace 'nsname' cannot be empty"
  const NoPortsMsg := "service does not have the available ports"
  const EmptyTrafficPolicyMsg := "ExternalTrafficPolicy can not be empty"
  const EmptyAnnotationMsg := "Annotation can not be empty map"
  const EmptyIPFamilyMsg := "failed to set empty ipFamily"
  const EmptyIPStackPolicyMsg := "failed to set empty ipStackPolicy"
  const NilBuilderMsg := "error: received nil " + ResourceCRD + " builder"
  const NilApiClientMsg := ResourceCRD + " builder cannot have nil apiClient"
  const InvalidPortMsg := "invalid port number"
  const InvalidTargetPortMsg := "invalid target port number"

  /**
   * Stands for msg.UndefinedCrdObjectErrString("Service"); pkg/msg is not part
   * of this model, so only the fact that the text is non-empty is relied on.
   */
  const UndefinedServiceMsg := "can not redefine the undefined " + ResourceCRD

  // ---------------------------------------------------------------------------
  // Port helpers
  // ---------------------------------------------------------------------------

  /**
   * isValidPort as written: `port > 0 || port < 65535`. Every int32 is
   * positive or below 65535, so the check accepts every port.
   */
  function IsValidPort(port: int32): (valid: bool)
    ensures valid
  {
    if port > 0 || port < 65535 then true else false
  }

  /** The evidently intended check, with `&&` in place of `||`. */
  predicate IsValidPortIntended(port: int32) {
    port > 0 && port < 65535
  }

  /** The ports that show the as-written check differs from the intended one. */
  lemma PortCheckAcceptsOutOfRange()
    ensures IsValidPort(0) && !IsValidPortIntended(0)
    ensures IsValidPort(-1) && !IsValidPortIntended(-1)
    ensures IsValidPort(70000) && !IsValidPortIntended(70000)
  {
  }

  /**
   * DefineServicePort as written. Because IsValidPort accepts everything, it
   * never reports an error, and the port it builds carries the given port and
   * protocol, an integer-typed target port and no node port.
   */
  function DefineServicePort(port: int32, targetPort: int32, protocol: Protocol): (r: Result<ServicePort, string>)
    ensures r.Success?
    ensures r.value.port == port && r.value.protocol == protocol
    ensures r.value.targetPort.IntValue? && r.value.targetPort.intVal == targetPort
    ensures r.value.nodePort == 0
  {
    if !IsValidPort(port) then Failure(InvalidPortMsg)
    else if !IsValidPort(targetPort) then Failure(InvalidTargetPortMsg)
    else Success(ServicePort(protocol, port, IntValue(targetPort), 0))
  }

  /**
   * DefineServicePort with the intended port check: it succeeds exactly when
   * both ports lie in 1..65534, a bad port is reported before a bad target
   * port, and on success it builds the same port as DefineServicePort.
   */
  function DefineServicePortChecked(port: int32, targetPort: int32, protocol: Protocol): (r: Result<ServicePort, string>)
    ensures r.Success? <==> (0 < port < 65535 && 0 < targetPort < 65535)
    ensures !(0 < port < 65535) ==> r == Failure(InvalidPortMsg)
    ensures 0 < port < 65535 && !(0 < targetPort < 65535) ==> r == Failure(InvalidTargetPortMsg)
    ensures r.Success? ==> r == DefineServicePort(port, targetPort, protocol)
  {
    if !IsValidPortIntended(port) then Failure(InvalidPortMsg)
    else if !IsValidPortIntended(targetPort) then Failure(InvalidTargetPortMsg)
    else Success(ServicePort(protocol, port, IntValue(targetPort), 0))
  }

  // ---------------------------------------------------------------------------
  // The builder's state as a value, and the specification of each operation
  // ---------------------------------------------------------------------------

  /**
   * The value of a builder's fields: the definition (nil or not), whether the
   * cluster connection is present, and the error message ("" for none).
   */
  datatype BuilderState = BuilderState(definition: Option<Service>, hasApiClient: bool, errorMsg: string)

  /** What `validate` accepts. */
  predicate Ready(s: BuilderState) {
    s.definition.Some? && s.hasApiClient && s.errorMsg == ""
  }

  /** The definition NewBuilder stores. */
  function InitialDefinition(name: string, nsname: string, labels: Option<map<string, string>>, servicePort: ServicePort): Service {
    Service(ObjectMeta(name, nsname, None), ServiceSpec(labels, "", "", None, None, [servicePort]))
  }

  /**
   * The state NewBuilder returns. The name, namespace, selector and single port
   * are stored as given; the error is empty exactly when both names are given,
   * and when both are missing the namespace message wins.
   */
  function NewBuilderState(hasApiClient: bool, name: string, nsname: string, labels: Option<map<string, string>>, servicePort: ServicePort): (r: BuilderState)
    ensures r.hasApiClient == hasApiClient && r.definition.Some?
    ensures r.definition.value.meta.name == name && r.definition.value.meta.namespace == nsname
    ensures r.definition.value.meta.annotations.None?
    ensures r.definition.value.spec.selector == labels && r.definition.value.spec.ports == [servicePort]
    ensures r.definition.value.spec.serviceType == "" && r.definition.value.spec.externalTrafficPolicy == ""
    ensures r.definition.value.spec.ipFamilies.None? && r.definition.value.spec.ipFamilyPolicy.None?
    ensures r.errorMsg == "" <==> (name != "" && nsname != "")
    ensures nsname == "" ==> r.errorMsg == NamespaceEmptyMsg
    ensures name == "" && nsname != "" ==> r.errorMsg == NameEmptyMsg
  {
    var built := BuilderState(Some(InitialDefinition(name, nsname, labels, servicePort)), hasApiClient, "");
    var afterName := if name == "" then built.(errorMsg := NameEmptyMsg) else built;
    if nsname == "" then afterName.(errorMsg := NamespaceEmptyMsg) else afterName
  }

  /**
   * The state `validate` leaves behind on a non-nil builder. It never touches
   * the definition or the client. The error is empty exactly when the builder
   * is Ready. A missing client's message overrides the undefined-definition
   * message, which in turn overrides an earlier error; otherwise that error is kept.
   */
  function Validated(s: BuilderState): (r: BuilderState)
    ensures r.definition == s.definition && r.hasApiClient == s.hasApiClient
    ensures r.errorMsg == "" <==> Ready(s)
    ensures !s.hasApiClient ==> r.errorMsg == NilApiClientMsg
    ensures s.hasApiClient && s.definition.None? ==> r.errorMsg == UndefinedServiceMsg
    ensures s.hasApiClient && s.definition.Some? ==> r.errorMsg == s.errorMsg
  {
    var afterDefinition := if s.definition.None? then s.(errorMsg := UndefinedServiceMsg) else s;
    if !s.hasApiClient then afterDefinition.(errorMsg := NilApiClientMsg) else afterDefinition
  }

  /** Validating twice is validating once. */
  lemma ValidatedIdempotent(s: BuilderState)
    ensures Validated(Validated(s)) == Validated(s)
  {
  }

  /**
   * WithNodePort. On a builder that is not Ready only `validate` acts. Otherwise
   * the type becomes "NodePort" even when there is no port; with no port the
   * error is recorded, else the first port's node port takes its port number.
   * No other field and no other port changes.
   */
  function WithNodePortState(s: BuilderState): (r: BuilderState)
    ensures r.hasApiClient == s.hasApiClient
    ensures !Ready(s) ==> r.definition == s.definition && r.errorMsg == Validated(s).errorMsg && r.errorMsg != ""
    ensures Ready(s) ==>
      var d := s.definition.value;
      && r.definition.Some?
      && var d' := r.definition.value;
      && d'.spec.serviceType == "NodePort"
      && d'.(spec := d'.spec.(serviceType := d.spec.serviceType, ports := d.spec.ports)) == d
      && |d'.spec.ports| == |d.spec.ports|
      && (|d.spec.ports| == 0 ==> r.errorMsg == NoPortsMsg)
      && (|d.spec.ports| > 0 ==>
            && r.errorMsg == ""
            && d'.spec.ports[0].nodePort == d.spec.ports[0].port
            && d'.spec.ports[0].(nodePort := d.spec.ports[0].nodePort) == d.spec.ports[0]
            && d'.spec.ports[1..] == d.spec.ports[1..])
  {
    var v := Validated(s);
    if v.errorMsg != "" then v
    else
      var d := v.definition.value;
      var typed := d.(spec := d.spec.(serviceType := "NodePort"));
      if |typed.spec.ports| < 1 then v.(definition := Some(typed), errorMsg := NoPortsMsg)
      else
        var first := typed.spec.ports[0];
        v.(definition := Some(typed.(spec := typed.spec.(ports := typed.spec.ports[0 := first.(nodePort := first.port)]))))
  }

  /**
   * WithExternalTrafficPolicy. On a Ready builder an empty policy records its
   * error and leaves the definition alone; any other policy makes the service
   * a "LoadBalancer" with that policy and changes nothing else.
   */
  function WithExternalTrafficPolicyState(s: BuilderState, policyType: ServiceExternalTrafficPolicyType): (r: BuilderState)
    ensures r.hasApiClient == s.hasApiClient
    ensures !Ready(s) ==> r.definition == s.definition && r.errorMsg == Validated(s).errorMsg && r.errorMsg != ""
    ensures Ready(s) && policyType == "" ==> r.definition == s.definition && r.errorMsg == EmptyTrafficPolicyMsg
    ensures Ready(s) && policyType != "" ==>
      var d := s.definition.value;
      && r.errorMsg == ""
      && r.definition.Some?
      && var d' := r.definition.value;
      && d'.spec.serviceType == "LoadBalancer"
      && d'.spec.externalTrafficPolicy == policyType
      && d'.(spec := d'.spec.(serviceType := d.spec.serviceType, externalTrafficPolicy := d.spec.externalTrafficPolicy)) == d
  {
    var v := Validated(s);
    if v.errorMsg != "" then v
    else
      var checked := if policyType == "" then v.(errorMsg := EmptyTrafficPolicyMsg) else v;
      if checked.errorMsg != "" then checked
      else
        var d := checked.definition.value;
        checked.(definition := Some(d.(spec := d.spec.(serviceType := "LoadBalancer", externalTrafficPolicy := policyType))))
  }

  /**
   * WithAnnotation. On a Ready builder a nil map records its error and leaves
   * the definition alone; any other map, an empty one included, replaces the
   * annotations wholesale and changes nothing else.
   */
  function WithAnnotationState(s: BuilderState, annotation: Option<map<string, string>>): (r: BuilderState)
    ensures r.hasApiClient == s.hasApiClient
    ensures !Ready(s) ==> r.definition == s.definition && r.errorMsg == Validated(s).errorMsg && r.errorMsg != ""
    ensures Ready(s) && annotation.None? ==> r.definition == s.definition && r.errorMsg == EmptyAnnotationMsg
    ensures Ready(s) && annotation.Some? ==>
      var d := s.definition.value;
      && r.errorMsg == ""
      && r.definition.Some?
      && var d' := r.definition.value;
      && d'.meta.annotations == annotation
      && d'.(meta := d'.meta.(annotations := d.meta.annotations)) == d
  {
    var v := Validated(s);
    if v.errorMsg != "" then v
    else
      var checked := if annotation.None? then v.(errorMsg := EmptyAnnotationMsg) else v;
      if checked.errorMsg != "" then checked
      else
        var d := checked.definition.value;
        checked.(definition := Some(d.(meta := d.meta.(annotations := annotation))))
  }

  /**
   * WithIPFamily. On a Ready builder a nil family list or an empty stack policy
   * records an error, the policy's message winning when both are bad, and the
   * definition is left alone; otherwise both are stored and nothing else changes.
   */
  function WithIPFamilyState(s: BuilderState, ipFamily: Option<seq<IPFamily>>, ipStackPolicy: IPFamilyPolicyType): (r: BuilderState)
    ensures r.hasApiClient == s.hasApiClient
    ensures !Ready(s) ==> r.definition == s.definition && r.errorMsg == Validated(s).errorMsg && r.errorMsg != ""
    ensures Ready(s) && ipStackPolicy == "" ==> r.definition == s.definition && r.errorMsg == EmptyIPStackPolicyMsg
    ensures Ready(s) && ipStackPolicy != "" && ipFamily.None? ==> r.definition == s.definition && r.errorMsg == EmptyIPFamilyMsg
    ensures Ready(s) && ipStackPolicy != "" && ipFamily.Some? ==>
      var d := s.definition.value;
      && r.errorMsg == ""
      && r.definition.Some?
      && var d' := r.definition.value;
      && d'.spec.ipFamilies == ipFamily
      && d'.spec.ipFamilyPolicy == Some(ipStackPolicy)
      && d'.(spec := d'.spec.(ipFamilies := d.spec.ipFamilies, ipFamilyPolicy := d.spec.ipFamilyPolicy)) == d
  {
    var v := Validated(s);
    if v.errorMsg != "" then v
    else
      var afterFamily := if ipFamily.None? then v.(errorMsg := EmptyIPFamilyMsg) else v;
      var checked := if ipStackPolicy == "" then afterFamily.(errorMsg := EmptyIPStackPolicyMsg) else afterFamily;
      if checked.errorMsg != "" then checked
      else
        var d := checked.definition.value;
        checked.(definition := Some(d.(spec := d.spec.(ipFamilies := ipFamily, ipFamilyPolicy := Some(ipStackPolicy)))))
  }

  // ---------------------------------------------------------------------------
  // WithOptions
  // ---------------------------------------------------------------------------

  /** What an option callback leaves: the builder's definition and the error it returned (None for nil). */
  datatype OptionOutcome = OptionOutcome(definition: Option<Service>, err: Option<string>)

  /**
   * An AdditionalOptions callback, as the effect it has on the builder it is
   * given: it may rewrite or replace the exported definition, and may fail.
   */
  type AdditionalOption = Option<Service> -> OptionOutcome

  /**
   * The options run in order from the given definition: nil ones skipped,
   * stopping at the first error. An error reported is the outcome of one of
   * the non-nil options.
   */
  function ApplyOptions(definition: Option<Service>, options: seq<Option<AdditionalOption>>): (r: OptionOutcome)
    ensures r.err.Some? ==>
      exists i, given :: 0 <= i < |options| && options[i].Some? && r == options[i].value(given)
    decreases |options|
  {
    if options == [] then OptionOutcome(definition, None)
    else
      var rest := ApplyOptions(if options[0].Some? then options[0].value(definition).definition else definition, options[1..]);
      assert rest.err.Some? ==>
        exists i, given :: 0 <= i < |options| && options[i].Some? && rest == options[i].value(given)
      by {
        if rest.err.Some? {
          var i, given :| 0 <= i < |options[1..]| && options[1..][i].Some? && rest == options[1..][i].value(given);
          assert options[i + 1] == options[1..][i];
        }
      }
      match options[0]
      case None => rest
      case Some(option) =>
        var outcome := option(definition);
        if outcome.err.Some? then outcome else rest
  }

  /**
   * Running two lists of options in a row is running the first, then, unless
   * it failed, the second from where the first left the definition.
   */
  lemma {:induction false} ApplyOptionsAppend(definition: Option<Service>, first: seq<Option<AdditionalOption>>, second: seq<Option<AdditionalOption>>)
    ensures ApplyOptions(definition, first + second) ==
      var outcome := ApplyOptions(definition, first);
      if outcome.err.Some? then outcome else ApplyOptions(outcome.definition, second)
    decreases |first|
  {
    if first == [] {
      assert first + second == second;
    } else {
      assert (first + second)[0] == first[0];
      assert (first + second)[1..] == first[1..] + second;
      match first[0]
      case None =>
        ApplyOptionsAppend(definition, first[1..], second);
      case Some(option) =>
        var outcome := option(definition);
        if outcome.err.None? {
          ApplyOptionsAppend(outcome.definition, first[1..], second);
        }
    }
  }

  /** Once an option has failed, the options after it never run. */
  lemma ApplyOptionsStopsAtError(definition: Option<Service>, first: seq<Option<AdditionalOption>>, rest: seq<Option<AdditionalOption>>)
    requires ApplyOptions(definition, first).err.Some?
    ensures ApplyOptions(definition, first + rest) == ApplyOptions(definition, first)
  {
    ApplyOptionsAppend(definition, first, rest);
  }

  /** A nil option anywhere in the list has no effect. */
  lemma ApplyOptionsSkipsNil(definition: Option<Service>, before: seq<Option<AdditionalOption>>, after: seq<Option<AdditionalOption>>)
    ensures ApplyOptions(definition, before + [None] + after) == ApplyOptions(definition, before + after)
  {
    ApplyOptionsAppend(definition, before, [None] + after);
    ApplyOptionsAppend(definition, before, after);
    assert before + [None] + after == before + ([None] + after);
    assert ([None] + after)[1..] == after;
  }

  /** A list of nil options, or no options, leaves the definition as it is and reports no error. */
  lemma {:induction false} ApplyOptionsAllNil(definition: Option<Service>, options: seq<Option<AdditionalOption>>)
    requires forall i :: 0 <= i < |options| ==> options[i].None?
    ensures ApplyOptions(definition, options) == OptionOutcome(definition, None)
    decreases |options|
  {
    if options != [] {
      ApplyOptionsAllNil(definition, options[1..]);
    }
  }

  /** A single non-nil option is applied to the definition, and its outcome is the result. */
  lemma ApplyOptionsSingle(definition: Option<Service>, option: AdditionalOption)
    ensures ApplyOptions(definition, [Some(option)]) == option(definition)
  {
    assert [Some(option)][1..] == [];
  }

  /**
   * When every option before it succeeds and it fails, the first failing option
   * is applied to the definition the earlier ones left, and its outcome is the
   * result, whatever follows it.
   */
  lemma ApplyOptionsFirstFailure(definition: Option<Service>, before: seq<Option<AdditionalOption>>, option: AdditionalOption, after: seq<Option<AdditionalOption>>)
    requires ApplyOptions(definition, before).err.None?
    requires option(ApplyOptions(definition, before).definition).err.Some?
    ensures ApplyOptions(definition, before + [Some(option)] + after) == option(ApplyOptions(definition, before).definition)
  {
    var reached := ApplyOptions(definition, before).definition;
    ApplyOptionsAppend(definition, before + [Some(option)], after);
    ApplyOptionsAppend(definition, before, [Some(option)]);
    ApplyOptionsSingle(reached, option);
  }

  /**
   * WithOptions. On a builder that is not Ready only `validate` acts. Otherwise
   * the definition is what the options leave, and the error message is the
   * text of the first error an option returned, or stays empty.
   */
  function WithOptionsState(s: BuilderState, options: seq<Option<AdditionalOption>>): (r: BuilderState)
    ensures r.hasApiClient == s.hasApiClient
    ensures !Ready(s) ==> r.definition == s.definition && r.errorMsg == Validated(s).errorMsg && r.errorMsg != ""
    ensures Ready(s) ==>
      var outcome := ApplyOptions(s.definition, options);
      && r.definition == outcome.definition
      && (outcome.err.None? ==> r.errorMsg == "")
      && (outcome.err.Some? ==> r.errorMsg == outcome.err.value)
  {
    var v := Validated(s);
    if v.errorMsg != "" then v
    else
      var outcome := ApplyOptions(v.definition, options);
      match outcome.err
      case None => v.(definition := outcome.definition)
      case Some(e) => v.(definition := outcome.definition, errorMsg := e)
  }

  // ---------------------------------------------------------------------------
  // Chains of mutators
  // ---------------------------------------------------------------------------

  /** One call of a fluent mutator, with its arguments. */
  datatype Call =
    | CallWithNodePort
    | CallWithExternalTrafficPolicy(policyType: ServiceExternalTrafficPolicyType)
    | CallWithAnnotation(annotation: Option<map<string, string>>)
    | CallWithIPFamily(ipFamily: Option<seq<IPFamily>>, ipStackPolicy: IPFamilyPolicyType)
    | CallWithOptions(options: seq<Option<AdditionalOption>>)

  function Step(s: BuilderState, call: Call): BuilderState {
    match call
    case CallWithNodePort => WithNodePortState(s)
    case CallWithExternalTrafficPolicy(policyType) => WithExternalTrafficPolicyState(s, policyType)
    case CallWithAnnotation(annotation) => WithAnnotationState(s, annotation)
    case CallWithIPFamily(ipFamily, ipStackPolicy) => WithIPFamilyState(s, ipFamily, ipStackPolicy)
    case CallWithOptions(options) => WithOptionsState(s, options)
  }

  /** The state after a chain such as `NewBuilder(...).WithNodePort().WithAnnotation(a)`. */
  function Chain(s: BuilderState, calls: seq<Call>): BuilderState
    decreases |calls|
  {
    if calls == [] then s else Chain(Step(s, calls[0]), calls[1..])
  }

  /**
   * Errors are sticky: once a builder is not Ready, no later mutator changes
   * its definition or clears its error, and any non-empty chain leaves exactly
   * the state a single `validate` would.
   */
  lemma {:induction false} ErrorsAreSticky(s: BuilderState, calls: seq<Call>)
    requires !Ready(s)
    ensures Chain(s, calls).definition == s.definition
    ensures Chain(s, calls).hasApiClient == s.hasApiClient
    ensures Chain(s, calls).errorMsg != "" || calls == []
    ensures calls != [] ==> Chain(s, calls) == Validated(s)
    decreases |calls|
  {
    if calls != [] {
      var next := Step(s, calls[0]);
      assert next == Validated(s);
      ValidatedIdempotent(s);
      ErrorsAreSticky(next, calls[1..]);
    }
  }

  /** A builder created without a name or a namespace ignores every later mutator. */
  lemma NewBuilderErrorIsSticky(hasApiClient: bool, name: string, nsname: string, labels: Option<map<string, string>>, servicePort: ServicePort, calls: seq<Call>)
    requires name == "" || nsname == ""
    ensures Chain(NewBuilderState(hasApiClient, name, nsname, labels, servicePort), calls).definition ==
      Some(InitialDefinition(name, nsname, labels, servicePort))
    ensures Chain(NewBuilderState(hasApiClient, name, nsname, labels, servicePort), calls).errorMsg != ""
  {
    ErrorsAreSticky(NewBuilderState(hasApiClient, name, nsname, labels, servicePort), calls);
  }

  // ---------------------------------------------------------------------------
  // The builder object
  // ---------------------------------------------------------------------------

  /** clients.Settings, the cluster connection; the builder only asks whether it is nil. */
  class Settings {
    constructor ()
    {
    }
  }

  class Builder {
    /** The service definition that Create would send; nil when undefined. */
    var definition: Option<Service>
    /** The first recorded error, "" for none. */
    var errorMsg: string
    var apiClient: Settings?

    function State(): BuilderState
      reads this
    {
      BuilderState(definition, apiClient != null, errorMsg)
    }

    /** NewBuilder. */
    constructor (apiClient: Settings?, name: string, nsname: string, labels: Option<map<string, string>>, servicePort: ServicePort)
      ensures this.apiClient == apiClient
      ensures State() == NewBuilderState(apiClient != null, name, nsname, labels, servicePort)
    {
      this.apiClient := apiClient;
      definition := Some(InitialDefinition(name, nsname, labels, servicePort));
      errorMsg := "";
      new;
      if name == "" {
        errorMsg := NameEmptyMsg;
      }
      if nsname == "" {
        errorMsg := NamespaceEmptyMsg;
      }
    }

    /**
     * validate, on a possibly nil builder. A nil builder is refused with its own
     * message. Otherwise the builder's state becomes Validated of the old one,
     * the answer is whether the old state was Ready, and a refusal carries the
     * (non-empty) error now recorded in the builder.
     */
    static method Validate(b: Builder?) returns (valid: bool, err: Option<string>)
      modifies b
      ensures b == null ==> !valid && err == Some(NilBuilderMsg)
      ensures b != null ==> b.apiClient == old(b.apiClient) && b.State() == Validated(old(b.State()))
      ensures b != null ==> (valid <==> Ready(old(b.State())))
      ensures valid <==> err.None?
      ensures b != null && !valid ==> err == Some(b.errorMsg) && b.errorMsg != ""
    {
      if b == null {
        return false, Some(NilBuilderMsg);
      }
      if b.definition.None? {
        b.errorMsg := UndefinedServiceMsg;
      }
      if b.apiClient == null {
        b.errorMsg := NilApiClientMsg;
      }
      if b.errorMsg != "" {
        return false, Some(b.errorMsg);
      }
      return true, None;
    }

    method WithNodePort() returns (r: Builder)
      modifies this
      ensures r == this && apiClient == old(apiClient)
      ensures State() == WithNodePortState(old(State()))
    {
      var valid, _ := Validate(this);
      if !valid {
        return this;
      }
      var d := definition.value;
      d := d.(spec := d.spec.(serviceType := "NodePort"));
      definition := Some(d);
      if |d.spec.ports| < 1 {
        errorMsg := NoPortsMsg;
        return this;
      }
      var first := d.spec.ports[0];
      definition := Some(d.(spec := d.spec.(ports := d.spec.ports[0 := first.(nodePort := first.port)])));
      return this;
    }

    method WithExternalTrafficPolicy(policyType: ServiceExternalTrafficPolicyType) returns (r: Builder)
      modifies this
      ensures r == this && apiClient == old(apiClient)
      ensures State() == WithExternalTrafficPolicyState(old(State()), policyType)
    {
      var valid, _ := Validate(this);
      if !valid {
        return this;
      }
      if policyType == "" {
        errorMsg := EmptyTrafficPolicyMsg;
      }
      if errorMsg != "" {
        return this;
      }
      var d := definition.value;
      definition := Some(d.(spec := d.spec.(serviceType := "LoadBalancer", externalTrafficPolicy := policyType)));
      return this;
    }

    method WithAnnotation(annotation: Option<map<string, string>>) returns (r: Builder)
      modifies this
      ensures r == this && apiClient == old(apiClient)
      ensures State() == WithAnnotationState(old(State()), annotation)
    {
      var valid, _ := Validate(this);
      if !valid {
        return this;
      }
      if annotation.None? {
        errorMsg := EmptyAnnotationMsg;
      }
      if errorMsg != "" {
        return this;
      }
      var d := definition.value;
      definition := Some(d.(meta := d.meta.(annotations := annotation)));
      return this;
    }

    method WithIPFamily(ipFamily: Option<seq<IPFamily>>, ipStackPolicy: IPFamilyPolicyType) returns (r: Builder)
      modifies this
      ensures r == this && apiClient == old(apiClient)
      ensures State() == WithIPFamilyState(old(State()), ipFamily, ipStackPolicy)
    {
      var valid, _ := Validate(this);
      if !valid {
        return this;
      }
      if ipFamily.None? {
        errorMsg := EmptyIPFamilyMsg;
      }
      if ipStackPolicy == "" {
        errorMsg := EmptyIPStackPolicyMsg;
      }
      if errorMsg != "" {
        return this;
      }
      var d := definition.value;
      definition := Some(d.(spec := d.spec.(ipFamilies := ipFamily, ipFamilyPolicy := Some(ipStackPolicy))));
      return this;
    }

    /**
     * WithOptions: after a successful validate, each non-nil option is applied
     * to this builder in turn; the first error is recorded and ends the loop.
     */
    method WithOptions(options: seq<Option<AdditionalOption>>) returns (r: Builder)
      modifies this
      ensures r == this && apiClient == old(apiClient)
      ensures State() == WithOptionsState(old(State()), options)
    {
      var valid, _ := Validate(this);
      if !valid {
        return this;
      }
      ghost var start := definition;
      var i := 0;
      while i < |options|
        invariant i <= |options|
        invariant errorMsg == "" && apiClient == old(apiClient)
        invariant ApplyOptions(definition, options[i..]) == ApplyOptions(start, options)
      {
        assert options[i..][1..] == options[i + 1..];
        if options[i].Some? {
          var outcome := options[i].value(definition);
          definition := outcome.definition;
          if outcome.err.Some? {
            errorMsg := outcome.err.value;
            return this;
          }
        }
        i := i + 1;
      }
      return this;
    }
  }
}
