/**
 * The handler's routing decision: the structure check on the nested event,
 * the extraction of bucket name and object key, and the recursion guard on
 * the `decrypted/` prefix. Every exception these raise is caught by the
 * handler's `except` clauses, so it is part of the decision.
 */
module Routing {
  import opened Wrappers
  import opened Python
  import opened Naming

  datatype Decision =
    | Reject                          // 400 "Invalid event structure"
    | Raise(error: Exception)         // an exception before any I/O: 500
    | Skip                            // 200 "File already decrypted, skipping"
    | Proceed(bucket: Json, key: string)

  /**
   * `'detail' in event and 'bucket' in event['detail'] and 'object' in event['detail']`,
   * evaluated left to right with short-circuit `and`.
   */
  function ShapeCheck(event: Json): (r: Result<bool, Exception>)
    ensures event.JDict? && "detail" !in event.fields ==> r == Success(false)
    ensures event.JDict? && "detail" in event.fields && event.fields["detail"].JDict? ==>
      r == Success("bucket" in event.fields["detail"].fields && "object" in event.fields["detail"].fields)
    ensures !(event.JDict? || event.JStr? || event.JList?) ==> r.Failure?
  {
    match In("detail", event)
    case Failure(e) => Failure(e)
    case Success(hasDetail) =>
      if !hasDetail then Success(false)
      else match Subscript(event, "detail")
        case Failure(e) => Failure(e)
        case Success(detail) =>
          match In("bucket", detail)
          case Failure(e) => Failure(e)
          case Success(hasBucket) =>
            if !hasBucket then Success(false) else In("object", detail)
  }

  /** `event['detail'][field][name]` */
  function Lookup(event: Json, field: string, name: string): (r: Result<Json, Exception>)
    ensures r.Success? <==>
      event.JDict? && "detail" in event.fields &&
      event.fields["detail"].JDict? && field in event.fields["detail"].fields &&
      event.fields["detail"].fields[field].JDict? && name in event.fields["detail"].fields[field].fields
    ensures r.Success? ==> r.value == event.fields["detail"].fields[field].fields[name]
    ensures event.JDict? && "detail" in event.fields && event.fields["detail"].JDict? &&
            field in event.fields["detail"].fields && event.fields["detail"].fields[field].JDict? &&
            name !in event.fields["detail"].fields[field].fields ==>
      r == Failure(KeyError(name))
  {
    match Subscript(event, "detail")
    case Failure(e) => Failure(e)
    case Success(detail) =>
      match Subscript(detail, field)
      case Failure(e) => Failure(e)
      case Success(inner) => Subscript(inner, name)
  }

  /**
   * The decision for any event, however many other fields it carries: 400
   * exactly when the structure check is false, and once both lookups
   * succeed, the key alone decides between skip, proceed and the
   * `AttributeError` of `startswith` on a key that is not a str.
   */
  function Route(event: Json): (d: Decision)
    ensures d.Proceed? ==> !StartsWith(d.key, DecryptedPrefix)
    ensures d.Reject? <==> ShapeCheck(event) == Success(false)
    ensures d.Proceed? ==> Lookup(event, "bucket", "name") == Success(d.bucket)
    ensures d.Proceed? ==> Lookup(event, "object", "key") == Success(JStr(d.key))
    ensures d.Skip? ==> var k := Lookup(event, "object", "key");
      k.Success? && k.value.JStr? && StartsWith(k.value.s, DecryptedPrefix)
    ensures var b := Lookup(event, "bucket", "name"); var k := Lookup(event, "object", "key");
      b.Success? && k.Success? ==>
        d == if !k.value.JStr? then Raise(AttributeError(TypeName(k.value), "startswith"))
          else if StartsWith(k.value.s, DecryptedPrefix) then Skip
          else Proceed(b.value, k.value.s)
    ensures ShapeCheck(event).Failure? ==> d == Raise(ShapeCheck(event).error)
    ensures ShapeCheck(event) == Success(true) && Lookup(event, "bucket", "name").Failure? ==>
      d == Raise(Lookup(event, "bucket", "name").error)
    ensures ShapeCheck(event) == Success(true) && Lookup(event, "bucket", "name").Success? &&
            Lookup(event, "object", "key").Failure? ==>
      d == Raise(Lookup(event, "object", "key").error)
  {
    match ShapeCheck(event)
    case Failure(e) => Raise(e)
    case Success(ok) =>
      if !ok then Reject
      else match Lookup(event, "bucket", "name")
        case Failure(e) => Raise(e)
        case Success(bucket) =>
          match Lookup(event, "object", "key")
          case Failure(e) => Raise(e)
          case Success(key) =>
            if !key.JStr? then Raise(AttributeError(TypeName(key), "startswith"))
            else if StartsWith(key.s, DecryptedPrefix) then Skip
            else Proceed(bucket, key.s)
  }

  /** The notification an S3 "Object Created" event delivers through EventBridge. */
  function S3Event(bucket: string, key: string): Json
  {
    JDict(map["detail" := JDict(map[
      "bucket" := JDict(map["name" := JStr(bucket)]),
      "object" := JDict(map["key" := JStr(key)])])])
  }

  /** A well-formed notification is skipped exactly when its key carries the prefix. */
  lemma RouteOfS3Event(bucket: string, key: string)
    ensures Route(S3Event(bucket, key)) ==
      if StartsWith(key, DecryptedPrefix) then Skip else Proceed(JStr(bucket), key)
  {
    S3EventFields(bucket, key);
  }

  /** The bucket name and the key can be read back from the notification. */
  lemma S3EventFields(bucket: string, key: string)
    ensures Lookup(S3Event(bucket, key), "bucket", "name") == Success(JStr(bucket))
    ensures Lookup(S3Event(bucket, key), "object", "key") == Success(JStr(key))
  {
    var event := S3Event(bucket, key);
    assert Subscript(event, "detail") == Success(event.fields["detail"]);
  }

  /**
   * The recursion guard is closed under the handler's own output: any
   * notification whose `detail.object.key` is a destination key, whatever
   * else it carries, is skipped once its bucket name can be read.
   */
  lemma DerivedKeySkipped(event: Json, key: string)
    requires Lookup(event, "bucket", "name").Success?
    requires Lookup(event, "object", "key") == Success(JStr(DestinationKey(key)))
    ensures Route(event) == Skip
  {
    DestinationKeyParts(key);
  }

  /**
   * For a dict-shaped event, a missing `detail`, or a dict `detail` missing
   * `bucket` or `object`, and nothing else, gives the 400 decision.
   */
  lemma MissingFieldsRejected(event: Json)
    requires event.JDict?
    ensures "detail" !in event.fields ==> Route(event) == Reject
    ensures "detail" in event.fields && event.fields["detail"].JDict? ==>
      var detail := event.fields["detail"].fields;
      (Route(event) == Reject <==> "bucket" !in detail || "object" !in detail)
  {
  }

  /**
   * `detail.bucket` present without `name` passes the structure check and
   * then raises `KeyError('name')`: a 500, not a 400.
   */
  lemma BucketWithoutNameRaises(bucketFields: map<string, Json>, objectValue: Json)
    requires "name" !in bucketFields
    ensures Route(JDict(map["detail" := JDict(map["bucket" := JDict(bucketFields), "object" := objectValue])]))
      == Raise(KeyError("name"))
  {
    var detail := JDict(map["bucket" := JDict(bucketFields), "object" := objectValue]);
    var event := JDict(map["detail" := detail]);
    assert ShapeCheck(event) == Success(true);
    assert Subscript(detail, "bucket") == Success(JDict(bucketFields));
  }

  /** `detail.object` present without `key` raises `KeyError('key')`. */
  lemma ObjectWithoutKeyRaises(bucket: string, objectFields: map<string, Json>)
    requires "key" !in objectFields
    ensures Route(JDict(map["detail" := JDict(map[
      "bucket" := JDict(map["name" := JStr(bucket)]), "object" := JDict(objectFields)])]))
      == Raise(KeyError("key"))
  {
    var detail := JDict(map["bucket" := JDict(map["name" := JStr(bucket)]), "object" := JDict(objectFields)]);
    var event := JDict(map["detail" := detail]);
    assert ShapeCheck(event) == Success(true);
    assert Lookup(event, "bucket", "name") == Success(JStr(bucket));
    assert Subscript(detail, "object") == Success(JDict(objectFields));
  }

  /** The malformed notification of the handler's unit test is rejected. */
  lemma WrongFormatRejected()
    ensures Route(JDict(map["wrong_format" := JBool(true)])) == Reject
  {
  }
}
