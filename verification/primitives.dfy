/**
 * `Primitive`, the descriptor of a leaf circuit element, and `PrimitiveCall`, a
 * primitive paired with parameter values. Both check their fields when they are
 * constructed; a value of either type that exists has passed those checks.
 */
module Primitives {
  import opened Results
  import opened Errors
  import opened Signals
  import opened PortMaps
  import opened Params

  /** Circuit-theoretic ideal element, or abstraction of a manufacturable device. */
  datatype PrimitiveType = IDEAL | PHYSICAL

  /** A port usable on a primitive: named, and visible as a port. */
  predicate ValidPort(s: Signal) {
    s.name != "" && s.vis == PORT
  }

  /** Every port of `ports` from position `from` up to (excluding) `to` is valid. */
  ghost predicate ValidFrom(ports: seq<Signal>, from: nat, to: nat)
    requires to <= |ports|
  {
    forall j :: from <= j < to ==> ValidPort(ports[j])
  }

  /**
   * `e` is the error the port scan reports when started at `from`: the first invalid
   * port at or after `from`, with its name checked before its visibility.
   */
  ghost predicate IsFirstPortError(ports: seq<Signal>, from: nat, e: Error) {
    match e
    case UnnamedPort(i) =>
      from <= i < |ports| && ValidFrom(ports, from, i) && ports[i].name == ""
    case PortVisibility(i) =>
      from <= i < |ports| && ValidFrom(ports, from, i) && ports[i].name != "" && ports[i].vis != PORT
    case _ => false
  }

  /** The `for p in self.port_list` loop of the construction check, from position `from`. */
  function ScanPorts(ports: seq<Signal>, from: nat): (r: Option<Error>)
    requires from <= |ports|
    decreases |ports| - from
    ensures r.None? <==> ValidFrom(ports, from, |ports|)
    ensures r.Some? ==> IsFirstPortError(ports, from, r.value)
  {
    if from == |ports| then None
    else if ports[from].name == "" then Some(UnnamedPort(from))
    else if ports[from].vis != PORT then Some(PortVisibility(from))
    else ScanPorts(ports, from + 1)
  }

  /** `p` satisfies the construction checks: a paramclass and only valid ports. */
  predicate Constructed(p: Primitive) {
    IsParamclass(p.paramtype) && forall i :: 0 <= i < |p.portList| ==> ValidPort(p.portList[i])
  }

  /**
   * A `Primitive` object whose construction checks passed. The dataclass is not
   * frozen, so this assumes that nobody mutates `port_list` or `paramtype` afterwards.
   */
  type CheckedPrimitive = p: Primitive | Constructed(p) witness Primitive("", "", [], HasNoParamsT, IDEAL)

  datatype Primitive = Primitive(
    name: string,
    desc: string,
    portList: seq<Signal>,
    paramtype: ParamType,
    primtype: PrimitiveType)
  {
    /** The `Params` property: the parameter class this primitive accepts. */
    function Params(): ParamType {
      paramtype
    }

    /** The `ports` property: the name-keyed mapping, rebuilt from `portList` on each access. */
    function Ports(): PortDict {
      PortsOf(portList)
    }

    /** `prim(params)`: exactly the construction of `PrimitiveCall(prim=self, params=params)`. */
    function Call(params: ParamValue): (r: Result<CheckedCall, Error>)
      requires Constructed(this)
      ensures r == PrimitiveCall.Create(this, params)
      ensures r.Ok? <==> IsInstance(params, Params())
    {
      PrimitiveCall.Create(this, params)
    }
  }

  /**
   * `Primitive(name=..., desc=..., port_list=..., paramtype=..., primtype=...)`.
   * The parameter class is checked first (TypeError), then each port in list order,
   * name before visibility (ValueError).
   */
  function NewPrimitive(
    name: string, desc: string, portList: seq<Signal>, paramtype: ParamType, primtype: PrimitiveType
  ): (r: Result<CheckedPrimitive, Error>)
    ensures r.Ok? <==> IsParamclass(paramtype) && forall i :: 0 <= i < |portList| ==> ValidPort(portList[i])
    ensures r.Ok? ==> r.value == Primitive(name, desc, portList, paramtype, primtype)
    ensures !IsParamclass(paramtype) ==> r == Err(InvalidParamtype)
    ensures IsParamclass(paramtype) && r.Err? ==> IsFirstPortError(portList, 0, r.error)
    ensures r.Err? ==> (r.error.Kind() == TypeErrorKind <==> !IsParamclass(paramtype))
  {
    if !IsParamclass(paramtype) then Err(InvalidParamtype)
    else
      match ScanPorts(portList, 0)
      case Some(e) => Err(e)
      case None => Ok(Primitive(name, desc, portList, paramtype, primtype))
  }

  datatype PrimitiveCall = PrimitiveCall(prim: CheckedPrimitive, params: ParamValue)
  {
    /**
     * `PrimitiveCall(prim=..., params=...)`: accepted exactly when `params` is an
     * instance of the primitive's parameter class; otherwise a TypeError.
     */
    static function Create(prim: CheckedPrimitive, params: ParamValue): (r: Result<CheckedCall, Error>)
      ensures r.Ok? <==> IsInstance(params, prim.paramtype)
      ensures r.Ok? ==> r.value.prim == prim && r.value.params == params
      ensures r.Err? ==> r.error == InvalidParams && r.error.Kind() == TypeErrorKind
    {
      if IsInstance(params, prim.paramtype) then Ok(PrimitiveCall(prim, params))
      else Err(InvalidParams)
    }

    /** The `ports` property, delegated to the primitive. */
    function Ports(): PortDict {
      prim.Ports()
    }
  }

  /**
   * A call that exists: its params are an instance of its primitive's parameter
   * class, as `PrimitiveCall` construction checks. It assumes the call is not mutated.
   */
  type CheckedCall = c: PrimitiveCall | IsInstance(c.params, c.prim.paramtype)
    witness PrimitiveCall(Primitive("", "", [], HasNoParamsT, IDEAL), HasNoParams)

  /** The port mapping of a primitive is determined by its port list alone. */
  lemma PortsDependOnlyOnPortList(a: Primitive, b: Primitive)
    requires a.portList == b.portList
    ensures a.Ports() == b.Ports()
  {
  }

  /**
   * A successful call reports the primitive's port mapping, and equal parameter
   * values give equal calls.
   */
  lemma CallPortsArePrimitivePorts(prim: CheckedPrimitive, params: ParamValue)
    requires prim.Call(params).Ok?
    ensures prim.Call(params).value.Ports() == prim.Ports()
    ensures prim.Call(params).value == PrimitiveCall(prim, params)
  {
  }

  /**
   * The ports of a constructed primitive are named and `PORT`-visible, and its port
   * mapping sends every declared name to a `PORT`-visible port with that name.
   */
  lemma {:induction false} ConstructedPrimitivePorts(
    name: string, desc: string, portList: seq<Signal>, paramtype: ParamType, primtype: PrimitiveType)
    requires NewPrimitive(name, desc, portList, paramtype, primtype).Ok?
    ensures var d := NewPrimitive(name, desc, portList, paramtype, primtype).value.Ports();
      && (forall k :: k in Keys(d) <==> k in Names(portList))
      && (forall i :: 0 <= i < |d| ==> d[i].port.vis == PORT && d[i].port.name == d[i].key)
  {
    PortsOfKeys(portList);
    PortsOfLastWins(portList);
  }

  /**
   * When the port names of a constructed primitive are distinct, `ports` holds one
   * entry per port, in declaration order, each bound to its own `PORT`-visible port.
   */
  lemma DistinctPortNames(p: CheckedPrimitive)
    requires Distinct(Names(p.portList))
    ensures Keys(p.Ports()) == Names(p.portList)
    ensures |p.Ports()| == |p.portList|
    ensures forall i :: 0 <= i < |p.portList| ==> p.Ports()[i] == Entry(p.portList[i].name, p.portList[i])
    ensures forall i :: 0 <= i < |p.Ports()| ==> p.Ports()[i].port.vis == PORT
  {
    PortsOfDistinctNames(p.portList);
    DistinctNamesAreKeys(p.portList);
  }
}
