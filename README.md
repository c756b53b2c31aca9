# Service builder model

A Dafny model of the service `Builder` in `pkg/service/service.go` of eco-goinfra.
The Builder pairs a desired-state Kubernetes `Service` definition with a cluster
connection (`apiClient`) and a sticky error message (`errorMsg`). `NewBuilder`
creates it. The private `validate` guard checks it. The fluent mutators
`WithNodePort`, `WithExternalTrafficPolicy`, `WithAnnotation`, `WithIPFamily`
and `WithOptions` edit the definition in place while the builder is valid.
`DefineServicePort` and `isValidPort` are helpers that build a port.

Files:

- `wrappers.dfy`: `Option` (a Go nil pointer, nil map or nil slice) and `Result` (a Go `(value, error)` pair).
- `corev1.dfy`: the core/v1 types the builder touches, reduced to the fields it reads or writes. `int32` is a newtype over the Go range.
- `service.dfy`: module `Service`, which holds:
  - the port helpers;
  - `BuilderState`, the value of a builder's three fields;
  - one specification function per operation, with the source's promises as its `ensures` and as lemmas;
  - the class `Builder`, whose fields are updated in place by methods proved against those functions (`State() == XState(old(State()))`).

`validate` is the static method `Builder.Validate` on a nullable `Builder?`, because the Go code calls it on a nil receiver.

The checks in each operation run in sequence, and a later check overwrites the message an earlier one recorded:

- in `NewBuilder`, the namespace message wins over the name message;
- in `validate`, the nil-client message wins over the undefined-definition message;
- in `WithIPFamily`, the stack-policy message wins over the family message.

The model and its lemmas state this "last check wins" order.

## Model

| member | source | states |
|---|---|---|
| `Service.IsValidPort` | pkg/service/service.go:323-330 | The port check as written accepts every int32, because every int32 is positive or below 65535. |
| `Service.PortCheckAcceptsOutOfRange` | pkg/service/service.go:324-330 | Ports 0, -1 and 70000 pass the check as written but fail the intended range check. |
| `Service.DefineServicePort` | pkg/service/service.go:293-314 | Never fails. The port has the given port and protocol, an integer-typed target port equal to `targetPort`, and node port 0. |
| `Service.DefineServicePortChecked` | pkg/service/service.go:293-314 | Corrected helper. It succeeds iff both ports are in 1..65534. A bad port is reported before a bad target port, each with its own message. On success it returns the same port as `DefineServicePort`. |
| `Service.NewBuilderState` | pkg/service/service.go:36-72 | Stores name, namespace, the labels as selector and exactly one port. Annotations, type, policy and IP fields are unset. The error is empty iff name and namespace are both non-empty. The namespace message wins when both are empty. |
| `Service.Validated` | pkg/service/service.go:334-362 | Never changes the definition or client. The error is empty iff definition and client are present and there was no earlier error. A nil client's message overrides the undefined-definition message, which overrides an earlier error. |
| `Service.ValidatedIdempotent` | pkg/service/service.go:343-359 | Running `validate` a second time changes nothing. |
| `Service.WithNodePortState` | pkg/service/service.go:75-91 | Not Ready (validate fails): definition unchanged, validate's non-empty error kept. Ready: type becomes "NodePort" even with no ports. No ports gives the no-ports error. Otherwise port 0's node port equals its port, with no error. No other field, port or port field changes. |
| `Service.WithExternalTrafficPolicyState` | pkg/service/service.go:208-233 | Not Ready: definition unchanged, error non-empty. Ready with an empty policy: the policy error, definition unchanged. Otherwise type "LoadBalancer" and the given policy, no error, nothing else changed. |
| `Service.WithAnnotationState` | pkg/service/service.go:236-259 | Not Ready: definition unchanged, error non-empty. Ready with a nil map: the annotation error, definition unchanged. Any other map, even an empty one, replaces the annotations wholesale with no error and nothing else changed. |
| `Service.WithIPFamilyState` | pkg/service/service.go:262-291 | Not Ready: definition unchanged, error non-empty. Ready: an empty stack policy gives its error, even when the family list is also nil. A nil family list with a good policy gives the family error. On either error the definition is unchanged. Otherwise families and policy are stored and nothing else changes. |
| `Service.WithOptionsState` | pkg/service/service.go:183-205 | Not Ready: definition unchanged, error non-empty. Ready: the definition is what the options leave. The error is the text of the first error an option returned, or stays empty. |
| `Service.ApplyOptions` | pkg/service/service.go:190-202 | The recursive model of the options loop: options run in order, nil ones are skipped, and the outcome of the first failing option is returned. Its contract states that any error it reports, with the definition beside it, is exactly what one of the non-nil options returned; that options are run, in order, and that the first failure is returned are stated by the lemmas below. |
| `Service.ApplyOptionsSingle` | pkg/service/service.go:190-192 | A single non-nil option is run on the definition, and its outcome (definition and error) is the result. |
| `Service.ApplyOptionsFirstFailure` | pkg/service/service.go:190-200 | When the options before it all succeed and a non-nil option fails, that option is run on the definition the earlier ones left, and its outcome is returned whatever follows it. |
| `Service.ApplyOptionsAppend` | pkg/service/service.go:190-202 | Options run in order. Running `a + b` means running `a`, then `b` from where `a` left the definition, unless `a` failed. |
| `Service.ApplyOptionsStopsAtError` | pkg/service/service.go:192-200 | After an option fails, later options never run. |
| `Service.ApplyOptionsSkipsNil` | pkg/service/service.go:190-191 | A nil option anywhere in the list has no effect. |
| `Service.ApplyOptionsAllNil` | pkg/service/service.go:190-204 | A list of only nil options, or none, leaves the definition unchanged with no error. |
| `Service.ErrorsAreSticky` | pkg/service/service.go:75-78 | Once the builder is not Ready, a chain of the five mutators never changes the definition or client. The error stays non-empty, and any non-empty chain leaves the state one `validate` leaves. The same guard is at lines 184-186, 209-211, 237-239 and 263-265. |
| `Service.NewBuilderErrorIsSticky` | pkg/service/service.go:59-78 | A builder created with an empty name or namespace keeps its initial definition and a non-empty error through any chain of mutators. |
| `Service.Builder.constructor` | pkg/service/service.go:36-72 | `NewBuilder`. Stores the client it is given. The new state is `NewBuilderState` of the arguments. |
| `Service.Builder.Validate` | pkg/service/service.go:334-362 | A nil builder: false, with the nil-builder error. Otherwise the state becomes `Validated` of the old state, and the result is true iff the old state was Ready. It returns an error exactly when it returns false, and that error is the builder's recorded, non-empty message. |
| `Service.Builder.WithNodePort` | pkg/service/service.go:75-91 | Returns the same builder and keeps its client. The new state is `WithNodePortState` of the old. |
| `Service.Builder.WithExternalTrafficPolicy` | pkg/service/service.go:208-233 | Returns the same builder and keeps its client. The new state is `WithExternalTrafficPolicyState` of the old. |
| `Service.Builder.WithAnnotation` | pkg/service/service.go:236-259 | Returns the same builder and keeps its client. The new state is `WithAnnotationState` of the old. |
| `Service.Builder.WithIPFamily` | pkg/service/service.go:262-291 | Returns the same builder and keeps its client. The new state is `WithIPFamilyState` of the old. |
| `Service.Builder.WithOptions` | pkg/service/service.go:183-205 | Returns the same builder and keeps its client. The loop applies each non-nil option in turn and stops at the first error. The new state is `WithOptionsState` of the old. |

## Left out

- `Create`, `Exists`, `Delete` and `Pull` (pkg/service/service.go:93-180) are left out: they pass calls straight through to the cluster client. The builder's `Object` field is left out with them, because only they use it.
- `GetServiceGVR` returns a constant and is left out.
- Logging calls and `context.TODO()` are not modelled.
- The client is modelled as an empty `Settings` class. The builder only asks whether it is nil.
- `msg.UndefinedCrdObjectErrString` is in pkg/msg, which is not part of this model. Its text is a stand-in constant. The proofs rely only on it being non-empty.
- `validate` wraps the message with `fmt.Errorf(errorMsg)`. If the message held a `%` verb, Go would mangle the text. The model returns the message unchanged.
- Calling a `With*` mutator on a nil builder returns nil and does nothing. The model's mutators are instance methods on a non-null builder, so only `Validate` covers the nil case.
- `Service.Builder.WithOptions`: an option callback is modelled by its effect on the exported definition of the builder it is given. The model assumes the callback returns that same builder. In the Go code the loop's `builder, err :=` shadows the outer variable. A callback that returns a different builder therefore has it discarded on success and returned, with the error recorded on it, on failure. A callback returning a nil builder with an error would panic. Neither case is modelled. Callbacks that reach the unexported `errorMsg` or `apiClient` fields are not modelled either.
- The definition is a value reassigned into the builder's field, so no sharing of references is captured. In Go one `*corev1.Service` may be shared between builders or with `Object`. The definition also keeps the caller's own `labels` map as the selector (pkg/service/service.go:53), the caller's `annotation` map (line 256) and `ipFamily` slice (line 287), and `WithNodePort` writes the first port's node port into the ports slice's backing array in place (line 88), which an option may have shared with the caller. A later change by the caller to any of these would change the definition in Go; in the model these values are frozen when stored.
- Service and port fields that the builder never touches (port name, app protocol, cluster IPs, ...) are not modelled.
- pkg/schemes/argocd/argocdtypes/v1alpha1/cluster_constants.go holds only environment-variable names, so it is not modelled. pkg/ibgu/ibgu_test.go tests a builder whose source is not part of this model.

## Findings

| source | as written | input that shows it | evidently intended | confidence | as-written member | corrected member |
|---|---|---|---|---|---|---|
| pkg/service/service.go:324-330 | `isValidPort` joins its two bounds with "or", so every int32 passes and `DefineServicePort` can never report an invalid port | port 0, -1 or 70000 is accepted | reject out-of-range ports by joining the bounds with "and"; the corrected member takes that minimal textual fix, which accepts 1..65534. Since 65535 is itself a valid port number, the authors may instead have meant `port <= 65535`, which the strict bound still excludes | high; proved, not executed | `Service.IsValidPort` | `Service.DefineServicePortChecked` |
