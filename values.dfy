/**
 * Change records as the pipeline sees them: a bag of named attributes whose
 * values are text, lists of text or null, read with JavaScript truthiness.
 */
module Values {
  import opened Wrappers

  /** Attribute values: text, a list of text, or null (other JSON values are not represented). */
  datatype Value = Null | Str(s: string) | StrList(items: seq<string>)

  /** A ChangeRecord: attribute name to value. */
  type Record = map<string, Value>

  /** `record[key]`; `None` stands for JavaScript's `undefined`. */
  function Attr(r: Record, key: string): (v: Option<Value>)
    ensures v.Some? <==> key in r
    ensures v.Some? ==> v.value == r[key]
  {
    if key in r then Some(r[key]) else None
  }

  /** JavaScript truthiness of a property read: arrays are always truthy, text when non-empty. */
  predicate Truthy(v: Option<Value>) {
    match v
    case None => false
    case Some(Null) => false
    case Some(Str(s)) => s != ""
    case Some(StrList(_)) => true
  }

  /** One change record object of the input array, which the pipeline mutates in place. */
  class ChangeRecord {
    var attrs: Record

    constructor (attrs: Record)
      ensures this.attrs == attrs
    {
      this.attrs := attrs;
    }
  }

  /** The attributes of every record, in order. */
  function Snapshot(records: seq<ChangeRecord>): (r: seq<Record>)
    reads records
    ensures |r| == |records|
    ensures forall i :: 0 <= i < |r| ==> r[i] == records[i].attrs
  {
    seq(|records|, i reads records requires 0 <= i < |records| => records[i].attrs)
  }
}
