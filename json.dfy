/** Decoded JSON as the pipeline sees it after `json.loads`. Only the top level
    of a document and the values of an object's fields are distinguished; a
    nested array or object is an opaque composite value. */
module Json {
  import opened Wrappers
  import PyStr

  /** A value held by a field of a decoded object (or an element of an array). */
  datatype Value = JString(str: string) | JNumber(num: real) | JBool(b: bool) | JNull | JComposite

  /** A whole decoded document: what `json.loads(line)` returns. */
  datatype Doc = Object(fields: map<string, Value>) | Array(items: seq<Value>) | Text(str: string) | Scalar(value: Value)

  /** One line of a JSON Lines file: blank, not JSON, or a decoded document. */
  datatype Line = Blank | Undecodable | Decoded(doc: Doc)

  /** The exception raised by `key in doc` or `doc[key]` on an unsuitable document. */
  datatype TypeError = TypeError

  /** Python truthiness of a decoded value: empty strings, zero, false and null are falsy. */
  predicate Truthy(v: Value) {
    match v
    case JString(s) => s != []
    case JNumber(x) => x != 0.0
    case JBool(b) => b
    case JNull => false
    case JComposite => true
  }

  /** `key in doc`: dict membership, list membership, substring test, or a TypeError
      for numbers, booleans and null. */
  function HasKey(doc: Doc, key: string): (r: Result<bool, TypeError>)
    ensures r.Err? <==> doc.Scalar?
    ensures doc.Object? ==> r == Ok(key in doc.fields)
  {
    match doc
    case Object(fields) => Ok(key in fields)
    case Array(items) => Ok(JString(key) in items)
    case Text(s) => Ok(PyStr.Contains(s, key))
    case Scalar(_) => Err(TypeError)
  }

  /** `doc[key]` after `key in doc` held: only an object yields a value; indexing a
      list or a string with a string raises. */
  function Index(doc: Doc, key: string): (r: Result<Value, TypeError>)
    requires HasKey(doc, key) == Ok(true)
    ensures r.Ok? <==> doc.Object?
    ensures r.Ok? ==> r.value == doc.fields[key]
  {
    match doc
    case Object(fields) => Ok(fields[key])
    case _ => Err(TypeError)
  }
}
