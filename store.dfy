/** The object-store client the reconcilers call: lookup by key, create and
    update. The store's answers are parameters of the model: the objects it
    holds and whether it refuses each kind of call. */
module Store {

  /** The identity key of an object: namespace and name. */
  datatype ObjectKey = ObjectKey(namespace: string, name: string)

  /** What a lookup reports: the object, its absence, or any other error. */
  datatype GetResult<T> = Found(obj: T) | NotFound | Failed

  /** One call the client received, in the order received. */
  datatype Call<T> = GetCall(key: ObjectKey) | CreateCall(obj: T) | UpdateCall(obj: T)

  class Client<T> {
    /** The objects the store holds, by key. */
    var objects: map<ObjectKey, T>
    /** Whether the store refuses lookups, creates and updates. */
    var getFails: bool
    var createFails: bool
    var updateFails: bool
    /** Every call received so far. */
    var calls: seq<Call<T>>

    constructor (objects: map<ObjectKey, T>, getFails: bool, createFails: bool, updateFails: bool)
      ensures this.objects == objects && this.calls == []
      ensures this.getFails == getFails && this.createFails == createFails && this.updateFails == updateFails
    {
      this.objects := objects;
      this.getFails := getFails;
      this.createFails := createFails;
      this.updateFails := updateFails;
      this.calls := [];
    }

    /** What a lookup of `key` reports in the current state. */
    function Lookup(key: ObjectKey): (r: GetResult<T>)
      reads this
    {
      if getFails then Failed
      else if key in objects then Found(objects[key])
      else NotFound
    }

    method Get(key: ObjectKey) returns (r: GetResult<T>)
      modifies this`calls
      ensures r == Lookup(key)
      ensures calls == old(calls) + [GetCall(key)]
    {
      r := Lookup(key);
      calls := calls + [GetCall(key)];
    }

    /** Creates `obj` under `key`; `ok` is false when the store refuses. */
    method Create(key: ObjectKey, obj: T) returns (ok: bool)
      modifies this`objects, this`calls
      ensures ok == !createFails
      ensures objects == if ok then old(objects)[key := obj] else old(objects)
      ensures calls == old(calls) + [CreateCall(obj)]
    {
      ok := !createFails;
      if ok {
        objects := objects[key := obj];
      }
      calls := calls + [CreateCall(obj)];
    }

    /** Replaces the object under `key` by `obj`; `ok` is false when the store refuses. */
    method Update(key: ObjectKey, obj: T) returns (ok: bool)
      modifies this`objects, this`calls
      ensures ok == !updateFails
      ensures objects == if ok then old(objects)[key := obj] else old(objects)
      ensures calls == old(calls) + [UpdateCall(obj)]
    {
      ok := !updateFails;
      if ok {
        objects := objects[key := obj];
      }
      calls := calls + [UpdateCall(obj)];
    }
  }
}
