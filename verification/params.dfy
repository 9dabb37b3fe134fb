/**
 * The parameter classes of the built-in primitives: their field types and defaults,
 * the type-membership tests the primitive layer relies on, and the value checks
 * `MosParams` runs when it is constructed.
 */
module Params {
  import opened Results
  import opened Errors

  /** A Python `float`, carried as its IEEE-754 double bit pattern; never computed on. */
  datatype Float = Float(bits: bv64)

  /** `ScalarParam = Union[int, float, str]`. */
  datatype Scalar = IntScalar(i: int) | FloatScalar(f: Float) | StrScalar(s: string)

  /** NMOS/PMOS type. */
  datatype MosType = NMOS | PMOS

  /** Threshold-voltage flavour. */
  datatype MosVth = STD | LOW | HIGH

  datatype MosParams = MosParams(w: Option<int>, l: Option<int>, nser: int, npar: int, tp: MosType, vth: MosVth)
  datatype DiodeParams = DiodeParams(w: Option<int>, l: Option<int>)
  datatype ResistorParams = ResistorParams(r: Float)
  datatype PhysicalResistorParams = PhysicalResistorParams(r: Float)
  datatype IdealCapacitorParams = IdealCapacitorParams(c: Float)
  datatype PhysicalCapacitorParams = PhysicalCapacitorParams(c: Float)
  datatype IdealInductorParams = IdealInductorParams(l: Float)
  datatype PhysicalInductorParams = PhysicalInductorParams(l: Float)
  datatype PhysicalShortParams = PhysicalShortParams(layer: Option<int>, w: Option<int>, l: Option<int>)
  datatype VoltageSourceParams = VoltageSourceParams(
    dc: Option<Scalar>, delay: Option<Scalar>,
    v0: Option<Scalar>, v1: Option<Scalar>, period: Option<Scalar>,
    rise: Option<Scalar>, fall: Option<Scalar>, width: Option<Scalar>)
  datatype CurrentSourceParams = CurrentSourceParams(dc: Option<Scalar>)

  /**
   * A Python class that may be passed as a primitive's `paramtype`: one of the
   * parameter classes declared here, the no-parameters marker, a paramclass declared
   * elsewhere, or any other class (which `isparamclass` rejects).
   */
  datatype ParamType =
    | MosParamsT | DiodeParamsT
    | ResistorParamsT | PhysicalResistorParamsT
    | IdealCapacitorParamsT | PhysicalCapacitorParamsT
    | IdealInductorParamsT | PhysicalInductorParamsT
    | PhysicalShortParamsT | HasNoParamsT
    | VoltageSourceParamsT | CurrentSourceParamsT
    | UserParamclass(id: nat)
    | NotAParamclass(id: nat)

  /** A Python object passed as a primitive's parameters, tagged with its class. */
  datatype ParamValue =
    | MosValue(mos: CheckedMosParams)
    | DiodeValue(diode: DiodeParams)
    | ResistorValue(resistor: ResistorParams)
    | PhysicalResistorValue(physicalResistor: PhysicalResistorParams)
    | IdealCapacitorValue(idealCapacitor: IdealCapacitorParams)
    | PhysicalCapacitorValue(physicalCapacitor: PhysicalCapacitorParams)
    | IdealInductorValue(idealInductor: IdealInductorParams)
    | PhysicalInductorValue(physicalInductor: PhysicalInductorParams)
    | PhysicalShortValue(physicalShort: PhysicalShortParams)
    | HasNoParams
    | VoltageSourceValue(voltageSource: VoltageSourceParams)
    | CurrentSourceValue(currentSource: CurrentSourceParams)
    | UserValue(userClass: nat)
    | ForeignValue(foreignClass: nat)

  /** `isparamclass(t)`. */
  predicate IsParamclass(t: ParamType) {
    !t.NotAParamclass?
  }

  /** `type(v)`. */
  function TypeOf(v: ParamValue): ParamType {
    match v
    case MosValue(_) => MosParamsT
    case DiodeValue(_) => DiodeParamsT
    case ResistorValue(_) => ResistorParamsT
    case PhysicalResistorValue(_) => PhysicalResistorParamsT
    case IdealCapacitorValue(_) => IdealCapacitorParamsT
    case PhysicalCapacitorValue(_) => PhysicalCapacitorParamsT
    case IdealInductorValue(_) => IdealInductorParamsT
    case PhysicalInductorValue(_) => PhysicalInductorParamsT
    case PhysicalShortValue(_) => PhysicalShortParamsT
    case HasNoParams => HasNoParamsT
    case VoltageSourceValue(_) => VoltageSourceParamsT
    case CurrentSourceValue(_) => CurrentSourceParamsT
    case UserValue(id) => UserParamclass(id)
    case ForeignValue(id) => NotAParamclass(id)
  }

  /** `isinstance(v, t)`: no two of these classes are related by inheritance. */
  predicate IsInstance(v: ParamValue, t: ParamType) {
    TypeOf(v) == t
  }

  /**
   * Every class names a type that some object has, so each `isinstance` test can
   * pass. This is a fact about the encoding of classes: it shows that the
   * acceptance condition of a `PrimitiveCall` is never vacuous.
   */
  lemma {:induction false} EveryTypeInhabited(t: ParamType)
    ensures exists v :: IsInstance(v, t)
  {
    var zero := Float(0);
    var v: ParamValue :=
      match t
      case MosParamsT => MosValue(MosParams(Some(1), Some(1), 1, 1, NMOS, STD))
      case DiodeParamsT => DiodeValue(DiodeDefaults)
      case ResistorParamsT => ResistorValue(ResistorParams(zero))
      case PhysicalResistorParamsT => PhysicalResistorValue(PhysicalResistorParams(zero))
      case IdealCapacitorParamsT => IdealCapacitorValue(IdealCapacitorParams(zero))
      case PhysicalCapacitorParamsT => PhysicalCapacitorValue(PhysicalCapacitorParams(zero))
      case IdealInductorParamsT => IdealInductorValue(IdealInductorParams(zero))
      case PhysicalInductorParamsT => PhysicalInductorValue(PhysicalInductorParams(zero))
      case PhysicalShortParamsT => PhysicalShortValue(PhysicalShortDefaults)
      case HasNoParamsT => HasNoParams
      case VoltageSourceParamsT => VoltageSourceValue(VoltageSourceDefaults)
      case CurrentSourceParamsT => CurrentSourceValue(CurrentSourceDefaults)
      case UserParamclass(id) => UserValue(id)
      case NotAParamclass(id) => ForeignValue(id);
    assert IsInstance(v, t);
  }

  /**
   * The only instance of the no-parameters marker is the marker value itself. This
   * is a fact about the encoding: it is why `IdealShort` accepts exactly one value.
   */
  lemma HasNoParamsSingleton(v: ParamValue)
    ensures IsInstance(v, HasNoParamsT) <==> v == HasNoParams
  {
  }

  // Field defaults as declared. `ResistorParams.r`, the capacitances `c` and the
  // inductances `l` have no default and must always be given.

  const MosDefaults := MosParams(None, None, 1, 1, NMOS, STD)
  const DiodeDefaults := DiodeParams(None, None)
  const PhysicalShortDefaults := PhysicalShortParams(None, None, None)
  const VoltageSourceDefaults := VoltageSourceParams(Some(IntScalar(0)), None, None, None, None, None, None, None)
  const CurrentSourceDefaults := CurrentSourceParams(Some(IntScalar(0)))

  // ---- MosParams value checks ----

  /** Position of each check in the order the construction hook runs them: w, l, npar, nser. */
  function CheckRank(f: MosField): nat {
    match f
    case W => 0
    case L => 1
    case NPar => 2
    case NSer => 3
  }

  /** The value a check compares against zero; `None` for an unset optional field. */
  function FieldValue(p: MosParams, f: MosField): Option<int> {
    match f
    case W => p.w
    case L => p.l
    case NPar => Some(p.npar)
    case NSer => Some(p.nser)
  }

  /** The check on field `f` passes: the value is set and positive. */
  predicate Passes(p: MosParams, f: MosField) {
    FieldValue(p, f).Some? && FieldValue(p, f).value > 0
  }

  /** Every check on `p` passes. */
  predicate ValidMos(p: MosParams) {
    forall f: MosField :: Passes(p, f)
  }

  /** A `MosParams` object that exists: one whose construction checks passed. */
  type CheckedMosParams = p: MosParams | ValidMos(p) witness MosParams(Some(1), Some(1), 1, 1, NMOS, STD)

  /** `f` is the first check, in run order, that `p` fails. */
  predicate FirstFailing(p: MosParams, f: MosField) {
    && !Passes(p, f)
    && forall g: MosField :: CheckRank(g) < CheckRank(f) ==> Passes(p, g)
  }

  /**
   * `MosParams(...)`: the fields as parsed, followed by the value checks of
   * `__post_init_post_parse__`, on the assumption that `paramclass` runs that hook on
   * construction. An unset `w` or `l` makes `None <= 0` raise a TypeError; a
   * non-positive value raises a ValueError; the first failing check in the order
   * w, l, npar, nser is reported.
   */
  function NewMosParams(p: MosParams): (r: Result<CheckedMosParams, Error>)
    ensures r.Err? ==> (r.error.NoneCompared? || r.error.NonPositive?) && FirstFailing(p, r.error.field)
    ensures r.Err? ==> (r.error.Kind() == TypeErrorKind <==> FieldValue(p, r.error.field).None?)
    ensures r.Ok? <==> ValidMos(p)
    ensures r.Ok? ==> r.value == p
  {
    if p.w.None? then Err(NoneCompared(W))
    else if p.w.value <= 0 then Err(NonPositive(W))
    else if p.l.None? then Err(NoneCompared(L))
    else if p.l.value <= 0 then Err(NonPositive(L))
    else if p.npar <= 0 then Err(NonPositive(NPar))
    else if p.nser <= 0 then Err(NonPositive(NSer))
    else Ok(p)
  }

  /**
   * `dataclasses.replace(p, tp=tp)`: builds a fresh `MosParams` with `tp` overridden.
   * Assuming `paramclass` builds a pydantic dataclass, this runs the construction
   * checks again; `p` itself is a value and is untouched.
   */
  function ReplaceTp(p: MosParams, tp: MosType): (r: Result<CheckedMosParams, Error>)
    ensures r.Ok? <==> ValidMos(p)
    ensures r.Ok? ==> r.value.tp == tp
    ensures r.Ok? ==> r.value.w == p.w && r.value.l == p.l && r.value.nser == p.nser
                      && r.value.npar == p.npar && r.value.vth == p.vth
    ensures r.Err? ==> r == NewMosParams(p).PropagateFailure()
  {
    assert forall f: MosField :: Passes(p.(tp := tp), f) == Passes(p, f);
    NewMosParams(p.(tp := tp))
  }

  /** Any combination of positive widths, lengths and finger counts is accepted. */
  lemma PositiveMosAccepted(w: int, l: int, nser: int, npar: int, tp: MosType, vth: MosVth)
    requires w > 0 && l > 0 && nser > 0 && npar > 0
    ensures NewMosParams(MosParams(Some(w), Some(l), nser, npar, tp, vth)) == Ok(MosParams(Some(w), Some(l), nser, npar, tp, vth))
  {
  }

  /**
   * The declared defaults leave `w` and `l` unset, so `MosParams()` fails as soon as
   * the construction checks run: the width check compares `None` with zero.
   */
  lemma MosDefaultsRejected()
    ensures NewMosParams(MosDefaults) == Err(NoneCompared(W))
    ensures NewMosParams(MosDefaults).error.Kind() == TypeErrorKind
  {
  }
}
