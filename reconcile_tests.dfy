/** The scenarios of the reconcilers' unit tests, against a client that
    records every call, together with a failing-lookup scenario, a converged
    object and repeated reconciles. */
module ReconcileTests {
  import opened Wrappers
  import opened Store
  import opened Reconcile
  import CoreV1

  const Key := ObjectKey("test-ns", "test-sa")
  const NoTypeMeta := CoreV1.TypeMeta("", "")
  const TestMeta := CoreV1.NamedMeta("test-sa", "test-ns")

  const TestNamespace := CoreV1.Namespace(
    NoTypeMeta, TestMeta, CoreV1.NamespaceSpec(CoreV1.Nil), CoreV1.NamespaceStatus(""))

  /** A service account with only a name and a namespace set. */
  const BareServiceAccount := CoreV1.ServiceAccount(NoTypeMeta, TestMeta, CoreV1.Nil, CoreV1.Nil, None)

  const EmptyReference := CoreV1.ObjectReference("", "", "", "", "", "", "")

  /** Not found: the namespace is created exactly as given. */
  method NamespaceCreates() returns (r: Result<CoreV1.Namespace>, calls: seq<Call<CoreV1.Namespace>>)
    ensures r == Ok(TestNamespace)
    ensures calls == [GetCall(Key), CreateCall(TestNamespace)]
  {
    var c := new Client(map[], false, false, false);
    r := Namespace(c, TestNamespace);
    calls := c.calls;
  }

  /** Not found: the service account is created exactly as given. */
  method ServiceAccountCreates() returns (r: Result<CoreV1.ServiceAccount>, calls: seq<Call<CoreV1.ServiceAccount>>)
    ensures r == Ok(BareServiceAccount)
    ensures calls == [GetCall(Key), CreateCall(BareServiceAccount)]
  {
    var c := new Client(map[], false, false, false);
    r := ServiceAccount(c, BareServiceAccount);
    calls := c.calls;
  }

  /** The stored account has no secrets, the desired one has one reference:
      one update carrying the desired secrets. */
  method ServiceAccountUpdatesSecrets() returns (r: Result<CoreV1.ServiceAccount>, calls: seq<Call<CoreV1.ServiceAccount>>)
    ensures var expected := BareServiceAccount.(secrets := CoreV1.Items([EmptyReference]));
            r == Ok(expected) && calls == [GetCall(Key), UpdateCall(expected)]
  {
    var desired := BareServiceAccount.(secrets := CoreV1.Items([EmptyReference]));
    var c := new Client(map[Key := BareServiceAccount], false, false, false);
    r := ServiceAccount(c, desired);
    calls := c.calls;
  }

  /** The stored account has no image-pull secrets, the desired one has one:
      one update carrying them. */
  method ServiceAccountUpdatesImagePullSecrets()
    returns (r: Result<CoreV1.ServiceAccount>, calls: seq<Call<CoreV1.ServiceAccount>>)
    ensures var expected := BareServiceAccount.(imagePullSecrets := CoreV1.Items([CoreV1.LocalObjectReference("")]));
            r == Ok(expected) && calls == [GetCall(Key), UpdateCall(expected)]
  {
    var desired := BareServiceAccount.(imagePullSecrets := CoreV1.Items([CoreV1.LocalObjectReference("")]));
    var c := new Client(map[Key := BareServiceAccount], false, false, false);
    r := ServiceAccount(c, desired);
    calls := c.calls;
  }

  /** The stored account leaves the token flag unset, the desired one sets it
      to false: one update carrying false. */
  method ServiceAccountUpdatesAutomountToken()
    returns (r: Result<CoreV1.ServiceAccount>, calls: seq<Call<CoreV1.ServiceAccount>>)
    ensures var expected := BareServiceAccount.(automountServiceAccountToken := Some(false));
            r == Ok(expected) && calls == [GetCall(Key), UpdateCall(expected)]
  {
    var desired := BareServiceAccount.(automountServiceAccountToken := Some(false));
    var c := new Client(map[Key := BareServiceAccount], false, false, false);
    r := ServiceAccount(c, desired);
    calls := c.calls;
  }

  /** The stored account carries metadata of its own and an empty, non-nil
      secrets slice; the desired one matches on every owned field: no update,
      and the stored object comes back as it is. */
  method ServiceAccountLeavesConvergedAlone()
    returns (r: Result<CoreV1.ServiceAccount>, calls: seq<Call<CoreV1.ServiceAccount>>)
    ensures var stored := BareServiceAccount.(meta := TestMeta.(uid := "1234", resourceVersion := "7"), secrets := CoreV1.Items([]));
            r == Ok(stored) && calls == [GetCall(Key)]
  {
    var stored := BareServiceAccount.(meta := TestMeta.(uid := "1234", resourceVersion := "7"), secrets := CoreV1.Items([]));
    var c := new Client(map[Key := stored], false, false, false);
    r := ServiceAccount(c, BareServiceAccount);
    calls := c.calls;
  }

  /** The lookup fails for a reason other than absence: the error is returned
      and nothing is written. */
  method ServiceAccountLookupError() returns (r: Result<CoreV1.ServiceAccount>, calls: seq<Call<CoreV1.ServiceAccount>>)
    ensures r == Err(LookupFailure)
    ensures calls == [GetCall(Key)]
  {
    var c := new Client(map[], true, false, false);
    r := ServiceAccount(c, BareServiceAccount);
    calls := c.calls;
  }

  /** Reconciling twice against an empty store: a create, then only a lookup. */
  method ServiceAccountTwice(desired: CoreV1.ServiceAccount)
    returns (first: Result<CoreV1.ServiceAccount>, second: Result<CoreV1.ServiceAccount>,
             calls: seq<Call<CoreV1.ServiceAccount>>)
    ensures first == Ok(desired) && second == Ok(desired)
    ensures calls == [GetCall(KeyOf(desired.meta)), CreateCall(desired), GetCall(KeyOf(desired.meta))]
  {
    var c := new Client(map[], false, false, false);
    first := ServiceAccount(c, desired);
    second := ServiceAccount(c, desired);
    calls := c.calls;
  }

  /** Reconciling twice against any store that accepts every call: the second
      reconcile issues no write and returns what the first returned. */
  method ServiceAccountConverges(c: Client<CoreV1.ServiceAccount>, desired: CoreV1.ServiceAccount)
    returns (first: Result<CoreV1.ServiceAccount>, second: Result<CoreV1.ServiceAccount>)
    requires !c.getFails && !c.createFails && !c.updateFails
    modifies c`objects, c`calls
    ensures first.Ok? && second == first
    ensures var key := KeyOf(desired.meta);
            c.calls == old(c.calls) + [GetCall(key)]
                       + ServiceAccountOutcome(desired, old(c.Lookup(key)), true, true).writes
                       + [GetCall(key)]
  {
    first := ServiceAccount(c, desired);
    ServiceAccountIdempotent(desired, old(c.Lookup(KeyOf(desired.meta))), true, true, true, true);
    second := ServiceAccount(c, desired);
  }
}
