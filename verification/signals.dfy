/** The two attributes of a port declaration that the primitive layer inspects. */
module Signals {

  /** Signal visibility: a module-internal signal or an externally visible port. */
  datatype Visibility = INTERNAL | PORT

  /** A signal declaration, reduced to its name and visibility; an unset name is `""`. */
  datatype Signal = Signal(name: string, vis: Visibility)

  /** The `Port(name=...)` helper: a signal declared with `PORT` visibility. */
  function Port(name: string): Signal {
    Signal(name, PORT)
  }

  /** The names of a list of signals, in list order. */
  function Names(l: seq<Signal>): (ns: seq<string>)
    ensures |ns| == |l|
    ensures forall i :: 0 <= i < |l| ==> ns[i] == l[i].name
  {
    seq(|l|, i requires 0 <= i < |l| => l[i].name)
  }
}
