# Create-or-update reconcilers for Namespace and ServiceAccount

This project models the two reconcilers of the `reconcile` package of
operator-utils, a library for Kubernetes operators:

- `Namespace` looks up a /v1 Namespace by the desired object's name and
  namespace. When the lookup reports not-found it creates the desired
  object exactly as given. When the object is found it returns the fetched
  object as it is and writes nothing.
- `ServiceAccount` looks the object up and creates it the same way. When the
  object is found it compares the three fields it owns with the desired
  values: `Secrets`, `ImagePullSecrets` and `AutomountServiceAccountToken`.
  It overwrites the ones that differ on the fetched object and issues one
  `Update` only if any of them differed. It then returns the fetched
  object.

Any lookup error other than not-found, and any refused create or update, is
returned as an error with no object.

Modules:

- `Wrappers`: `Option`, which models a Go `*bool`.
- `CoreV1`: the API types. `Slice` keeps Go's nil slice apart from an empty
  one, because the reconciler copies a slice as it is.
- `Equality`: semantic deep equality of slices. It compares elements in
  order, and a nil slice equals an empty one.
- `Store`: the client class. It holds the stored objects by key, one flag per
  call kind saying whether the store refuses that call, and the log of every
  call received.
- `Reconcile`: the two reconcilers as methods that take the client. Beside them are
  functions that give each reconcile's writes and result from what the
  lookup reported, and lemmas about those functions.
- `ReconcileTests`: the unit-test scenarios, each stated as a method whose
  postcondition gives the result and the exact call log.

`AutomountServiceAccountToken` is a `*bool`, modelled as `Option<bool>`. The
fetched struct is modified by updating a local copy field by field, and that
copy is what gets written and returned.

`Secrets` is an owned field. A desired account whose secrets list is nil
therefore clears any secrets already on the stored account, including ones
another controller added, and an update is issued.

## Model

| member | source | states |
|---|---|---|
| `Equality.ElementsEqual` | reconcile/core.go:81-82 | Comparing the elements position by position is true exactly when the two sequences are equal, so order matters. |
| `Equality.SliceDeepEqual` | reconcile/core.go:86-87 | Two slices are deep-equal exactly when they have the same elements in the same order; a nil slice equals an empty one. |
| `Store.Client.constructor` | reconcile/core_test.go:21 | A client starts with the given objects and failure flags and an empty call log. |
| `Store.Client.Get` | reconcile/core.go:31 | A lookup reports a failure when the store refuses it, otherwise the stored object or not-found; the call is logged with its key. |
| `Store.Client.Create` | reconcile/core.go:39 | A create succeeds exactly when the store accepts it, only then stores the object under its key, and is logged with the object. |
| `Store.Client.Update` | reconcile/core.go:109 | An update succeeds exactly when the store accepts it, only then replaces the stored object, and is logged with the object. |
| `Reconcile.NamespaceOutcome` | reconcile/core.go:24-45 | At most one write, and only a create of the desired object verbatim. It is issued exactly when the lookup reports not-found. A lookup error gives LookupFailure. A refused create gives CreateFailure. An accepted create returns the desired object. A found object is returned unchanged. |
| `Reconcile.Namespace` | reconcile/core.go:15-46 | The client receives a Get with the key (desired name, desired namespace), then exactly the writes of NamespaceOutcome. The result is that outcome's result. The store changes only by a successful write. |
| `Reconcile.Merge` | reconcile/core.go:80-105 | The merged account keeps every non-owned field (type and object metadata) of the fetched one. Its owned fields equal the desired ones. An owned list that already matched keeps the fetched value, so a nil slice stays nil. An owned list that differed is copied from the desired object verbatim, nil or not. The merge is the identity exactly when the owned fields already match. |
| `Reconcile.DiffOwnedFields` | reconcile/core.go:79-105 | The step-by-step overwrite of the differing owned fields yields Merge. The token flag's two source conditions are evaluated in order. needsUpdate is raised exactly when some owned field differed. |
| `Reconcile.ServiceAccountOutcome` | reconcile/core.go:58-114 | At most one write. A lookup error gives no write and LookupFailure. Not-found gives one create of the desired object verbatim, returned on success and CreateFailure on refusal. On found, no write happens exactly when the owned fields already match, and then the fetched object is returned. Otherwise there is one update whose object has the desired owned fields and the fetched non-owned fields; it is returned if accepted and gives UpdateFailure if refused. Every successful result matches the desired owned fields. |
| `Reconcile.ServiceAccount` | reconcile/core.go:49-115 | The client receives a Get with the key (desired name, desired namespace), then exactly the writes of ServiceAccountOutcome. The result is that outcome's result. The store changes only by a successful write. |
| `Reconcile.NamespaceIdempotent` | reconcile/core.go:36-45 | Reconciling a namespace again against the object a successful reconcile returned issues no write and returns that object. |
| `Reconcile.ServiceAccountIdempotent` | reconcile/core.go:70-114 | Reconciling a service account again against the object a successful reconcile returned issues no write and returns that object. |
| `Reconcile.SecretsClearedByNilDesired` | reconcile/core.go:81-84 | When the fetched account has secrets and the desired list is nil, the merge sets the secrets to nil and a single update carrying that merge is issued. |
| `Reconcile.AutomountTokenTable` | reconcile/core.go:92-105 | With matching lists, the token flag's cases are as follows. Absent/absent: no update. Desired absent, fetched present: update and clear. Desired present, fetched absent: update and set. Desired v, fetched w with w different from v: update and set to v. Desired v, fetched v: no update. |
| `ReconcileTests.NamespaceCreates` | reconcile/core_test.go:20-48 | Against an empty store, the namespace reconcile returns the desired object. The calls are a Get with key (test-ns, test-sa) and a Create of the object verbatim. |
| `ReconcileTests.ServiceAccountCreates` | reconcile/core_test.go:52-80 | Against an empty store, the service-account reconcile returns the desired object. The calls are the Get with the test key and a Create of the object verbatim. |
| `ReconcileTests.ServiceAccountUpdatesSecrets` | reconcile/core_test.go:83-122 | The stored account has nil secrets and the desired one has one reference. The reconcile issues one Update whose object carries the desired secrets. |
| `ReconcileTests.ServiceAccountUpdatesImagePullSecrets` | reconcile/core_test.go:124-163 | The same with one image-pull secret: one Update carrying it. |
| `ReconcileTests.ServiceAccountUpdatesAutomountToken` | reconcile/core_test.go:165-202 | The stored flag is unset and the desired flag is false: one Update carrying false. |
| `ReconcileTests.ServiceAccountLeavesConvergedAlone` | reconcile/core.go:107-114 | A stored account with its own uid and resourceVersion and an empty non-nil secrets slice matches the desired owned fields. Only the Get is issued, and the stored object is returned unchanged. |
| `ReconcileTests.ServiceAccountLookupError` | reconcile/core.go:65-68 | A failing lookup returns LookupFailure, and the Get is the only call. |
| `ReconcileTests.ServiceAccountTwice` | reconcile/core.go:70-77 | Two reconciles against an empty store issue a Get, a Create, then only a Get, and both return the desired object. |
| `ReconcileTests.ServiceAccountConverges` | reconcile/core.go:79-114 | Against any store that accepts every call, the second of two reconciles writes nothing and returns what the first returned. |

## Left out

- The `context.Context` and the controller-runtime `client.Client` interface. The model replaces them with the `Store.Client` class. Its lookup results and the acceptance of each write are set by failure flags. The store's own rules (already-exists and version conflicts, resourceVersion bumps, defaulting) are not modelled.
- `Store.Client.Create` and `Store.Client.Update` take the key as an argument. A real client reads the key from the object's metadata, but the generic client type has no way to read that metadata; the reconcilers pass the desired object's key.
- `logr` logging before a create and before an update. It has no effect on the outcome.
- The error message text and `%w` wrapping. Errors are the tags LookupFailure, CreateFailure and UpdateFailure.
- Pointer identity. The Go code returns the caller's own pointer after a create and shares the desired `*bool` with the updated object. The model works on values, so aliasing between the returned object and the caller's is not captured.
- `equality.Semantic.DeepEqual` beyond slices of plain string records. It has custom equalities for quantities, times and selectors, and a shortcut when two slices share storage. None of these changes the outcome for the fields compared here.
- The fields of Namespace and ServiceAccount not listed in `CoreV1` (namespace conditions, further metadata). Extra metadata is represented by uid, resourceVersion, labels and annotations.
- A nil desired object. In Go, calling `Namespace` or `ServiceAccount` with a nil pointer panics when the key is built; a desired value in the model cannot be nil.
- Concurrent reconciles of the same key. The code has no locking or retry.
