/** The exceptions the primitive layer raises, with the Python exception class each belongs to. */
module Errors {

  /** The Python exception class of an error. */
  datatype ErrorKind = TypeErrorKind | ValueErrorKind

  /** The `MosParams` fields that carry a value check. */
  datatype MosField = W | L | NPar | NSer

  datatype Error =
    | InvalidParamtype            // `Primitive` declared with a `paramtype` that is not a paramclass
    | UnnamedPort(index: nat)     // the port at `index` of `port_list` has an empty name
    | PortVisibility(index: nat)  // the port at `index` of `port_list` is not `PORT`-visible
    | InvalidParams               // `PrimitiveCall` params not an instance of the primitive's paramtype
    | NoneCompared(field: MosField) // `None <= 0` evaluated on an unset optional field
    | NonPositive(field: MosField)  // a `MosParams` field that is `<= 0`
  {
    /** The Python exception class raised for this error. */
    function Kind(): ErrorKind {
      match this
      case InvalidParamtype => TypeErrorKind
      case InvalidParams => TypeErrorKind
      case NoneCompared(_) => TypeErrorKind
      case UnnamedPort(_) => ValueErrorKind
      case PortVisibility(_) => ValueErrorKind
      case NonPositive(_) => ValueErrorKind
    }
  }
}
