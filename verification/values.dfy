/** Values shared by the RPC messages, the HTTP bodies and the handlers' inputs. */
module Values {

  /** A value that may be missing: an HTTP body that may be empty, a
      profile field the caller may have left out. */
  datatype Option<+T> = None | Some(value: T)

  /** A scalar protobuf field value. Nested messages, repeated fields and
      enums are not part of this model. */
  datatype Scalar = Str(s: string) | Bool(b: bool) | Int(i: int)

  /** True of the proto3 default of each scalar kind: the value a field holds
      when nobody set it. */
  predicate IsDefault(v: Scalar) {
    match v
    case Str(s) => s == ""
    case Bool(b) => !b
    case Int(i) => i == 0
  }

  /** A response message (or the resolved user record) as its field names
      mapped to their values. Every declared field of a proto3 message has a
      value, so the key set is the set of declared fields. */
  type Message = map<string, Scalar>

  /** The keyword arguments a request message is built from: for
      registration every field of the validated input, for a profile update
      only the fields the caller set. */
  type Kwargs = map<string, Scalar>
}
