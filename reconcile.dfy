/** The create-or-update reconcilers for /v1 Namespace and /v1 ServiceAccount.
    Each looks the desired object up by its key, creates it when absent, and
    otherwise brings the fields it owns on the fetched object in line with the
    desired ones, writing at most once. */
module Reconcile {
  import opened Wrappers
  import opened Store
  import opened Equality
  import CoreV1

  /** Why a reconcile failed; the wrapped message text is not modelled. */
  datatype Error = LookupFailure | CreateFailure | UpdateFailure

  /** The object a reconcile returns, or its error (the object then being nil). */
  datatype Result<T> = Ok(value: T) | Err(error: Error)

  /** What one reconcile does: the writes it issues, in order, and what it returns. */
  datatype Outcome<T> = Outcome(writes: seq<Call<T>>, result: Result<T>)

  /** The key a lookup uses: the desired object's own name and namespace. */
  function KeyOf(meta: CoreV1.ObjectMeta): (k: ObjectKey) {
    ObjectKey(meta.namespace, meta.name)
  }

  // ---------------------------------------------------------------- Namespace

  /** A namespace reconcile as a function of what the lookup reported and of
      whether the store accepts a create. */
  function NamespaceOutcome(desired: CoreV1.Namespace, found: GetResult<CoreV1.Namespace>, createOk: bool)
    : (o: Outcome<CoreV1.Namespace>)
    ensures |o.writes| <= 1
    ensures forall w | w in o.writes :: w == CreateCall(desired)
    ensures o.writes != [] <==> found.NotFound?
    ensures o.result.Err? <==> found.Failed? || (found.NotFound? && !createOk)
    ensures found.Failed? ==> o.result == Err(LookupFailure)
    ensures found.NotFound? ==> o.result == if createOk then Ok(desired) else Err(CreateFailure)
    ensures found.Found? ==> o.result == Ok(found.obj)
  {
    match found
    case Failed => Outcome([], Err(LookupFailure))
    case NotFound => Outcome([CreateCall(desired)], if createOk then Ok(desired) else Err(CreateFailure))
    case Found(actual) => Outcome([], Ok(actual))
  }

  /** Reconciles a namespace: looks it up, creates it verbatim when absent,
      and returns the fetched object as it is when present. */
  method Namespace(c: Client<CoreV1.Namespace>, desired: CoreV1.Namespace) returns (r: Result<CoreV1.Namespace>)
    modifies c`objects, c`calls
    ensures var key := KeyOf(desired.meta);
            var o := NamespaceOutcome(desired, old(c.Lookup(key)), !c.createFails);
            && r == o.result
            && c.calls == old(c.calls) + [GetCall(key)] + o.writes
            && c.objects == if r.Ok? && o.writes != [] then old(c.objects)[key := r.value] else old(c.objects)
  {
    var key := KeyOf(desired.meta);
    var fetched := c.Get(key);
    if fetched.Failed? {
      return Err(LookupFailure);
    }
    if fetched.NotFound? {
      var ok := c.Create(key, desired);
      if !ok {
        return Err(CreateFailure);
      }
      return Ok(desired);
    }
    return Ok(fetched.obj);
  }

  // ----------------------------------------------------------- ServiceAccount

  /** The three owned fields of `actual` already equal the desired ones: both
      reference lists as deep-equal slices and the token flag in presence and value. */
  predicate OwnedFieldsEqual(actual: CoreV1.ServiceAccount, desired: CoreV1.ServiceAccount) {
    && SliceDeepEqual(actual.secrets, desired.secrets)
    && SliceDeepEqual(actual.imagePullSecrets, desired.imagePullSecrets)
    && actual.automountServiceAccountToken == desired.automountServiceAccountToken
  }

  /** `a` and `b` agree on every field a service-account reconcile does not own. */
  predicate SameNonOwnedFields(a: CoreV1.ServiceAccount, b: CoreV1.ServiceAccount) {
    a.typeMeta == b.typeMeta && a.meta == b.meta
  }

  /** The fetched service account with the owned fields that differ taken from
      the desired one: what is written back and returned. */
  function Merge(actual: CoreV1.ServiceAccount, desired: CoreV1.ServiceAccount): (r: CoreV1.ServiceAccount)
    ensures SameNonOwnedFields(r, actual)
    ensures OwnedFieldsEqual(r, desired)
    ensures SliceDeepEqual(actual.secrets, desired.secrets) ==> r.secrets == actual.secrets
    ensures SliceDeepEqual(actual.imagePullSecrets, desired.imagePullSecrets) ==> r.imagePullSecrets == actual.imagePullSecrets
    ensures !SliceDeepEqual(actual.secrets, desired.secrets) ==> r.secrets == desired.secrets
    ensures !SliceDeepEqual(actual.imagePullSecrets, desired.imagePullSecrets) ==> r.imagePullSecrets == desired.imagePullSecrets
    ensures r == actual <==> OwnedFieldsEqual(actual, desired)
  {
    actual.(
      secrets := if SliceDeepEqual(actual.secrets, desired.secrets) then actual.secrets else desired.secrets,
      imagePullSecrets :=
        if SliceDeepEqual(actual.imagePullSecrets, desired.imagePullSecrets) then actual.imagePullSecrets
        else desired.imagePullSecrets,
      automountServiceAccountToken := desired.automountServiceAccountToken)
  }

  /** Compares the owned fields of the fetched service account with the desired
      ones, overwrites those that differ and raises `needsUpdate` for each. */
  method DiffOwnedFields(actual: CoreV1.ServiceAccount, desired: CoreV1.ServiceAccount)
    returns (merged: CoreV1.ServiceAccount, needsUpdate: bool)
    ensures merged == Merge(actual, desired)
    ensures needsUpdate <==> !OwnedFieldsEqual(actual, desired)
  {
    merged := actual;
    needsUpdate := false;
    if !SliceDeepEqual(merged.secrets, desired.secrets) {
      merged := merged.(secrets := desired.secrets);
      needsUpdate := true;
    }
    if !SliceDeepEqual(merged.imagePullSecrets, desired.imagePullSecrets) {
      merged := merged.(imagePullSecrets := desired.imagePullSecrets);
      needsUpdate := true;
    }
    if desired.automountServiceAccountToken.None? && merged.automountServiceAccountToken.Some? {
      merged := merged.(automountServiceAccountToken := None);
      needsUpdate := true;
    }
    if || (desired.automountServiceAccountToken.Some? && merged.automountServiceAccountToken.None?)
       || (desired.automountServiceAccountToken.Some?
           && merged.automountServiceAccountToken.value != desired.automountServiceAccountToken.value)
    {
      merged := merged.(automountServiceAccountToken := desired.automountServiceAccountToken);
      needsUpdate := true;
    }
  }

  /** A service-account reconcile as a function of what the lookup reported
      and of whether the store accepts a create and an update. */
  function ServiceAccountOutcome(
    desired: CoreV1.ServiceAccount, found: GetResult<CoreV1.ServiceAccount>, createOk: bool, updateOk: bool)
    : (o: Outcome<CoreV1.ServiceAccount>)
    ensures |o.writes| <= 1
    ensures found.Failed? ==> o == Outcome([], Err(LookupFailure))
    ensures found.NotFound? ==>
              && o.writes == [CreateCall(desired)]
              && o.result == if createOk then Ok(desired) else Err(CreateFailure)
    ensures found.Found? ==>
              && (o.writes == [] <==> OwnedFieldsEqual(found.obj, desired))
              && (o.writes == [] ==> o.result == Ok(found.obj))
              && (forall w | w in o.writes ::
                    && w.UpdateCall?
                    && OwnedFieldsEqual(w.obj, desired)
                    && SameNonOwnedFields(w.obj, found.obj)
                    && o.result == if updateOk then Ok(w.obj) else Err(UpdateFailure))
    ensures found.Found? && o.result.Ok? ==> SameNonOwnedFields(o.result.value, found.obj)
    ensures o.result.Ok? ==> OwnedFieldsEqual(o.result.value, desired)
  {
    match found
    case Failed => Outcome([], Err(LookupFailure))
    case NotFound => Outcome([CreateCall(desired)], if createOk then Ok(desired) else Err(CreateFailure))
    case Found(actual) =>
      if OwnedFieldsEqual(actual, desired) then Outcome([], Ok(actual))
      else
        var merged := Merge(actual, desired);
        Outcome([UpdateCall(merged)], if updateOk then Ok(merged) else Err(UpdateFailure))
  }

  /** Reconciles a service account: looks it up, creates it verbatim when
      absent, and otherwise overwrites the owned fields that differ and
      updates the object once if any did. */
  method ServiceAccount(c: Client<CoreV1.ServiceAccount>, desired: CoreV1.ServiceAccount)
    returns (r: Result<CoreV1.ServiceAccount>)
    modifies c`objects, c`calls
    ensures var key := KeyOf(desired.meta);
            var o := ServiceAccountOutcome(desired, old(c.Lookup(key)), !c.createFails, !c.updateFails);
            && r == o.result
            && c.calls == old(c.calls) + [GetCall(key)] + o.writes
            && c.objects == if r.Ok? && o.writes != [] then old(c.objects)[key := r.value] else old(c.objects)
  {
    var key := KeyOf(desired.meta);
    var fetched := c.Get(key);
    if fetched.Failed? {
      return Err(LookupFailure);
    }
    if fetched.NotFound? {
      var ok := c.Create(key, desired);
      if !ok {
        return Err(CreateFailure);
      }
      return Ok(desired);
    }
    var actual, needsUpdate := DiffOwnedFields(fetched.obj, desired);
    if needsUpdate {
      var ok := c.Update(key, actual);
      if !ok {
        return Err(UpdateFailure);
      }
    }
    return Ok(actual);
  }

  // ------------------------------------------------------------------- Lemmas

  /** Reconciling a namespace again against the object the first reconcile
      returned issues no write and returns that object. */
  lemma NamespaceIdempotent(desired: CoreV1.Namespace, found: GetResult<CoreV1.Namespace>, createOk: bool, createOk': bool)
    requires NamespaceOutcome(desired, found, createOk).result.Ok?
    ensures var stored := NamespaceOutcome(desired, found, createOk).result.value;
            NamespaceOutcome(desired, Found(stored), createOk') == Outcome([], Ok(stored))
  {
  }

  /** Reconciling a service account again against the object the first
      reconcile returned issues no write and returns that object. */
  lemma ServiceAccountIdempotent(
    desired: CoreV1.ServiceAccount, found: GetResult<CoreV1.ServiceAccount>,
    createOk: bool, updateOk: bool, createOk': bool, updateOk': bool)
    requires ServiceAccountOutcome(desired, found, createOk, updateOk).result.Ok?
    ensures var stored := ServiceAccountOutcome(desired, found, createOk, updateOk).result.value;
            ServiceAccountOutcome(desired, Found(stored), createOk', updateOk') == Outcome([], Ok(stored))
  {
  }

  /** Secrets are owned: a desired account without secrets (a nil list)
      clears the secrets already on the fetched one, whoever put them there,
      and an update is issued. */
  lemma SecretsClearedByNilDesired(actual: CoreV1.ServiceAccount, desired: CoreV1.ServiceAccount)
    requires actual.secrets.Elements() != []
    requires desired.secrets == CoreV1.Nil
    ensures Merge(actual, desired).secrets == CoreV1.Nil
    ensures ServiceAccountOutcome(desired, Found(actual), true, true).writes == [UpdateCall(Merge(actual, desired))]
  {
  }

  /** The token flag's table, for fetched objects whose reference lists
      already match: (desired, fetched) decides whether an update is issued
      and what the flag becomes. */
  lemma AutomountTokenTable(actual: CoreV1.ServiceAccount, desired: CoreV1.ServiceAccount, v: bool, w: bool)
    requires SliceDeepEqual(actual.secrets, desired.secrets)
    requires SliceDeepEqual(actual.imagePullSecrets, desired.imagePullSecrets)
    ensures var d, a := desired.automountServiceAccountToken, actual.automountServiceAccountToken;
            var written := Merge(actual, desired).automountServiceAccountToken;
            && (d == None && a == None ==> OwnedFieldsEqual(actual, desired))
            && (d == None && a == Some(w) ==> !OwnedFieldsEqual(actual, desired) && written == None)
            && (d == Some(v) && a == None ==> !OwnedFieldsEqual(actual, desired) && written == Some(v))
            && (d == Some(v) && a == Some(w) && v != w ==> !OwnedFieldsEqual(actual, desired) && written == Some(v))
            && (d == Some(v) && a == Some(v) ==> OwnedFieldsEqual(actual, desired))
  {
  }
}
