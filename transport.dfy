/**
 * The object-storage transport the provider talks to, seen only through what the provider needs:
 * a store of objects per (bucket, key) whose put and delete either succeed or fail.
 */
module Transport {
  import opened Wrappers

  type Bytes = seq<bv8>

  /** Where an object lives: a bucket (a Space) and a key inside it. */
  datatype ObjectId = ObjectId(bucket: string, key: string)

  /** What is kept for an object: its body and its content type. */
  datatype StoredObject = StoredObject(body: Bytes, contentType: string)

  /** What a successful put reports: the object's location and its key. */
  datatype PutResponse = PutResponse(location: string, key: string)

  /** A failure of the transport (network, permission, missing object, ...), passed on unchanged. */
  datatype TransportError = TransportError(reason: string)

  /**
   * Removing `other` after putting under `id`: the object survives exactly when the two differ, and
   * when they are the same the store ends as it was before the put, less that object.
   */
  lemma PutThenRemove(objects: map<ObjectId, StoredObject>, id: ObjectId, obj: StoredObject, other: ObjectId)
    ensures id in objects[id := obj] - {other} <==> id != other
    ensures id == other ==> objects[id := obj] - {other} == objects - {other}
  {
  }

  class ObjectStore {
    /** The objects currently stored. */
    var objects: map<ObjectId, StoredObject>
    /** The location the service reports for an object; it may or may not carry a scheme. */
    const locate: ObjectId -> string

    constructor (locate: ObjectId -> string)
      ensures objects == map[] && this.locate == locate
    {
      objects := map[];
      this.locate := locate;
    }

    /** Stores `obj` under `id`, or fails and leaves the store as it was. */
    method Put(id: ObjectId, obj: StoredObject) returns (r: Result<PutResponse, TransportError>)
      modifies this`objects
      ensures r.Success? ==> objects == old(objects)[id := obj] && r.value == PutResponse(locate(id), id.key)
      ensures r.Failure? ==> objects == old(objects)
    {
      var delivered: bool :| true;
      if delivered {
        objects := objects[id := obj];
        r := Success(PutResponse(locate(id), id.key));
      } else {
        r := Failure(TransportError("put failed"));
      }
    }

    /** Removes whatever is stored under `id`, or fails and leaves the store as it was. */
    method Remove(id: ObjectId) returns (r: Outcome<TransportError>)
      modifies this`objects
      ensures r.Pass? ==> objects == old(objects) - {id}
      ensures r.Fail? ==> objects == old(objects)
    {
      var delivered: bool :| true;
      if delivered {
        objects := objects - {id};
        r := Pass;
      } else {
        r := Fail(TransportError("delete failed"));
      }
    }
  }
}
