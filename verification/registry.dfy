/**
 * The built-in primitives, the module-level names (canonical and alias) that bind
 * them, and the `Nmos`/`Pmos` convenience constructors.
 */
module Registry {
  import opened Results
  import opened Errors
  import opened Signals
  import opened PortMaps
  import opened Params
  import opened Primitives

  /** The built-in primitive constants; a name bound to a tag denotes that one object. */
  datatype Builtin =
    | Mos | Diode
    | IdealResistor | PhysicalResistor
    | IdealCapacitor | PhysicalCapacitor
    | IdealInductor | PhysicalInductor
    | PhysicalShort | IdealShort
    | VoltageSource | CurrentSource

  /** The two-terminal port list shared by every built-in except `Mos`. */
  const TwoTerminal: seq<Signal> := [Port("p"), Port("n")]

  /** The declaration of each built-in constant. */
  function Prim(b: Builtin): CheckedPrimitive {
    match b
    case Mos =>
      Primitive("Mos", "Mos Transistor", [Port("d"), Port("g"), Port("s"), Port("b")], MosParamsT, PHYSICAL)
    case Diode => Primitive("Diode", "Diode", TwoTerminal, DiodeParamsT, PHYSICAL)
    case IdealResistor => Primitive("IdealResistor", "Ideal Resistor", TwoTerminal, ResistorParamsT, IDEAL)
    case PhysicalResistor => Primitive("PhysicalResistor", "Physical Resistor", TwoTerminal, ResistorParamsT, PHYSICAL)
    case IdealCapacitor => Primitive("IdealCapacitor", "Ideal Capacitor", TwoTerminal, IdealCapacitorParamsT, IDEAL)
    case PhysicalCapacitor =>
      Primitive("PhysicalCapacitor", "Physical Capacitor", TwoTerminal, PhysicalCapacitorParamsT, PHYSICAL)
    case IdealInductor => Primitive("IdealInductor", "Ideal Inductor", TwoTerminal, IdealInductorParamsT, IDEAL)
    case PhysicalInductor =>
      Primitive("PhysicalInductor", "Physical Inductor", TwoTerminal, PhysicalInductorParamsT, PHYSICAL)
    case PhysicalShort => Primitive("PhysicalShort", "Short-Circuit/ Net-Tie", TwoTerminal, PhysicalShortParamsT, PHYSICAL)
    case IdealShort => Primitive("IdealShort", "Short-Circuit/ Net-Tie", TwoTerminal, HasNoParamsT, IDEAL)
    case VoltageSource => Primitive("VoltageSource", "Ideal Voltage Source", TwoTerminal, VoltageSourceParamsT, IDEAL)
    case CurrentSource => Primitive("CurrentSource", "Ideal Current Source", TwoTerminal, CurrentSourceParamsT, IDEAL)
  }

  /** The module-level name bindings of the built-ins: each constant's own name and its aliases. */
  function Exported(n: string): Option<Builtin> {
    match n
    case "Mos" => Some(Mos)
    case "Diode" => Some(Diode)
    case "D" => Some(Diode)
    case "IdealResistor" => Some(IdealResistor)
    case "R" => Some(IdealResistor)
    case "Res" => Some(IdealResistor)
    case "Resistor" => Some(IdealResistor)
    case "PhysicalResistor" => Some(PhysicalResistor)
    case "IdealCapacitor" => Some(IdealCapacitor)
    case "C" => Some(IdealCapacitor)
    case "Cap" => Some(IdealCapacitor)
    case "Capacitor" => Some(IdealCapacitor)
    case "PhysicalCapacitor" => Some(PhysicalCapacitor)
    case "IdealInductor" => Some(IdealInductor)
    case "L" => Some(IdealInductor)
    case "Inductor" => Some(IdealInductor)
    case "PhysicalInductor" => Some(PhysicalInductor)
    case "PhysicalShort" => Some(PhysicalShort)
    case "IdealShort" => Some(IdealShort)
    case "Short" => Some(IdealShort)
    case "VoltageSource" => Some(VoltageSource)
    case "V" => Some(VoltageSource)
    case "Vsrc" => Some(VoltageSource)
    case "CurrentSource" => Some(CurrentSource)
    case "I" => Some(CurrentSource)
    case "Isrc" => Some(CurrentSource)
    case _ => None
  }

  /** The alias names bound to each built-in, besides its own name. */
  function Aliases(b: Builtin): set<string> {
    match b
    case Diode => {"D"}
    case IdealResistor => {"R", "Res", "Resistor"}
    case IdealCapacitor => {"C", "Cap", "Capacitor"}
    case IdealInductor => {"L", "Inductor"}
    case IdealShort => {"Short"}
    case VoltageSource => {"V", "Vsrc"}
    case CurrentSource => {"I", "Isrc"}
    case _ => {}
  }

  /**
   * Every built-in declaration passes the `Primitive` construction check, so each
   * constant is exactly the primitive it declares.
   */
  lemma BuiltinsConstruct(b: Builtin)
    ensures var p := Prim(b);
      NewPrimitive(p.name, p.desc, p.portList, p.paramtype, p.primtype) == Ok(p)
  {
  }

  /**
   * Port shape, class and parameter class of the built-ins: `Mos` has ports d, g, s, b
   * and takes `MosParams`; all others have ports p, n. The ideal ones are exactly the
   * ideal passives, the ideal short and the two sources.
   */
  lemma RegistryShape(b: Builtin)
    ensures Names(Prim(b).portList) == if b == Mos then ["d", "g", "s", "b"] else ["p", "n"]
    ensures Prim(b).primtype == IDEAL <==>
      b in {IdealResistor, IdealCapacitor, IdealInductor, IdealShort, VoltageSource, CurrentSource}
    ensures Prim(b).paramtype == MosParamsT <==> b == Mos
  {
  }

  /**
   * No two built-ins share a parameter class, except that `PhysicalResistor` is
   * declared with `ResistorParams`, the class of `IdealResistor`.
   */
  lemma SchemasDistinctExceptResistors(a: Builtin, b: Builtin)
    requires a != b
    ensures Prim(a).paramtype == Prim(b).paramtype <==> {a, b} == {IdealResistor, PhysicalResistor}
  {
  }

  /**
   * The port mapping of every built-in lists its port names in declaration order,
   * each bound to its own `PORT`-visible port.
   */
  lemma BuiltinPorts(b: Builtin)
    ensures var l := Prim(b).portList; var d := PortsOf(l);
      && Keys(d) == Names(l)
      && (forall i :: 0 <= i < |d| ==> d[i] == Entry(l[i].name, l[i]))
      && (forall i :: 0 <= i < |d| ==> d[i].port.vis == PORT)
  {
    var p := Prim(b);
    BuiltinPortNames(b);
    DistinctPortNames(p);
  }

  /** The port names of every built-in: `d g s b` for `Mos`, `p n` for the rest. */
  lemma BuiltinPortNames(b: Builtin)
    ensures Names(Prim(b).portList) == if b == Mos then ["d", "g", "s", "b"] else ["p", "n"]
    ensures Distinct(Names(Prim(b).portList))
  {
  }

  /**
   * Names and aliases: a name is bound to a built-in exactly when it is that
   * built-in's own name or one of its aliases, and every alias denotes the same
   * constant as its target. There is no `Ind` alias.
   */
  lemma ExportedNamesAndAliases(n: string, b: Builtin)
    ensures Exported(n) == Some(b) <==> n == Prim(b).name || n in Aliases(b)
  {
  }

  /** The alias bindings, named target by target; the inductor has no `Ind` alias. */
  lemma AliasTargets()
    ensures Exported("R") == Exported("Res") == Exported("Resistor") == Some(IdealResistor)
    ensures Exported("C") == Exported("Cap") == Exported("Capacitor") == Some(IdealCapacitor)
    ensures Exported("L") == Exported("Inductor") == Some(IdealInductor)
    ensures Exported("D") == Some(Diode) && Exported("Short") == Some(IdealShort)
    ensures Exported("V") == Exported("Vsrc") == Some(VoltageSource)
    ensures Exported("I") == Exported("Isrc") == Some(CurrentSource)
    ensures Exported("Ind") == None
  {
  }

  /** Built-in names are distinct, so each name identifies one constant. */
  lemma BuiltinNamesDistinct(a: Builtin, b: Builtin)
    requires Prim(a).name == Prim(b).name
    ensures a == b
  {
  }

  // ---- Nmos / Pmos ----

  /**
   * `Nmos(params)`: `Mos` called with a copy of `params` whose `tp` is NMOS. The
   * copy is built by `replace`, which (assuming `paramclass` builds a pydantic
   * dataclass) runs the `MosParams` checks again.
   */
  function Nmos(params: MosParams): (r: Result<CheckedCall, Error>)
    ensures r.Ok? <==> ValidMos(params)
    ensures r.Ok? ==> r.value.prim == Prim(Mos) && r.value.params.MosValue?
    ensures r.Ok? ==> r.value.params.mos == params.(tp := NMOS)
    ensures r.Err? ==> r == NewMosParams(params).PropagateFailure()
  {
    var p :- ReplaceTp(params, NMOS);
    Prim(Mos).Call(MosValue(p))
  }

  /** `Pmos(params)`: `Mos` called with a copy of `params` whose `tp` is PMOS. */
  function Pmos(params: MosParams): (r: Result<CheckedCall, Error>)
    ensures r.Ok? <==> ValidMos(params)
    ensures r.Ok? ==> r.value.prim == Prim(Mos) && r.value.params.MosValue?
    ensures r.Ok? ==> r.value.params.mos == params.(tp := PMOS)
    ensures r.Err? ==> r == NewMosParams(params).PropagateFailure()
  {
    var p :- ReplaceTp(params, PMOS);
    Prim(Mos).Call(MosValue(p))
  }

  /**
   * `Nmos` and `Pmos` are idempotent and each overrides the other: feeding the
   * parameters of one call back into either constructor depends only on the last one.
   */
  lemma MosOverridesCompose(params: MosParams)
    requires ValidMos(params)
    ensures Nmos(Nmos(params).value.params.mos) == Nmos(params)
    ensures Pmos(Pmos(params).value.params.mos) == Pmos(params)
    ensures Nmos(Pmos(params).value.params.mos) == Nmos(params)
    ensures Pmos(Nmos(params).value.params.mos) == Pmos(params)
  {
  }

  // ---- Parameter classes of the built-ins ----

  /** `IdealShort` accepts the no-parameters marker and nothing else. */
  lemma IdealShortAcceptsOnlyNoParams(v: ParamValue)
    ensures Prim(IdealShort).Call(v).Ok? <==> v == HasNoParams
    ensures v != HasNoParams ==> Prim(IdealShort).Call(v) == Err(InvalidParams)
  {
  }

  /**
   * `PhysicalResistor` takes `ResistorParams`, not `PhysicalResistorParams`: a value
   * of the latter class is rejected even though it carries the same field.
   */
  lemma PhysicalResistorTakesResistorParams(r: Float)
    ensures Prim(PhysicalResistor).Call(ResistorValue(ResistorParams(r))).Ok?
    ensures Prim(PhysicalResistor).Call(PhysicalResistorValue(PhysicalResistorParams(r))) == Err(InvalidParams)
  {
  }

  /** The defaulted parameter values of the geometry-only classes are accepted by their primitives. */
  lemma GeometryDefaultsAccepted()
    ensures Prim(Diode).Call(DiodeValue(DiodeDefaults)).Ok?
    ensures Prim(PhysicalShort).Call(PhysicalShortValue(PhysicalShortDefaults)).Ok?
  {
  }

  /** Both sources default `dc` to 0, and their default values are accepted. */
  lemma SourceDefaultsAccepted()
    ensures VoltageSourceDefaults.dc == Some(IntScalar(0)) && CurrentSourceDefaults.dc == Some(IntScalar(0))
    ensures && VoltageSourceDefaults.delay.None? && VoltageSourceDefaults.v0.None?
            && VoltageSourceDefaults.v1.None? && VoltageSourceDefaults.period.None?
            && VoltageSourceDefaults.rise.None? && VoltageSourceDefaults.fall.None?
            && VoltageSourceDefaults.width.None?
    ensures Prim(VoltageSource).Call(VoltageSourceValue(VoltageSourceDefaults)).Ok?
    ensures Prim(CurrentSource).Call(CurrentSourceValue(CurrentSourceDefaults)).Ok?
  {
  }

  /** The `MosParams` defaults fail their own checks, so neither `Nmos` nor `Pmos` accepts them. */
  lemma MosDefaultsUnusable()
    ensures Nmos(MosDefaults) == Err(NoneCompared(W))
    ensures Pmos(MosDefaults) == Err(NoneCompared(W))
  {
  }

  /**
   * A 10-by-2 transistor with four parallel fingers is accepted, and the resulting
   * call's port mapping has keys d, g, s, b.
   */
  lemma MosScenario()
    ensures var p := MosParams(Some(10), Some(2), 1, 4, NMOS, STD);
      && NewMosParams(p) == Ok(p)
      && Prim(Mos).Call(MosValue(p)).Ok?
      && Keys(Prim(Mos).Call(MosValue(p)).value.Ports()) == ["d", "g", "s", "b"]
  {
    BuiltinPorts(Mos);
  }
}
