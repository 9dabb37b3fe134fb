# Hdl21 primitives, modelled in Dafny

This project models the primitive layer of Hdl21 (`hdl21/primitives.py`): the
leaf circuit elements (transistors, diodes, passives, shorts, ideal sources) that
larger circuit descriptions are built from. Its parts are:

- **`Primitive`**: a descriptor with a name, a description, an ordered port list, a
  parameter class (`paramtype`) and an `IDEAL`/`PHYSICAL` class. Construction
  checks the parameter class first, then each port in order. A port must be named,
  and then must have `PORT` visibility.
- **`PrimitiveCall`**: a primitive paired with parameter values. It is produced by
  calling the primitive, and accepted only when the values are an instance of the
  primitive's parameter class.
- **Parameter classes**: `MosParams` and its value checks (w, l, npar, nser, in that
  order), the other built-in parameter classes, and their field defaults.
- **The registry**: the twelve built-in constants, their module-level aliases, and
  the `Nmos`/`Pmos` constructors.

Files, one module each:

| file | module | contents |
|---|---|---|
| `results.dfy` | `Results` | `Option`, `Result` (the stand-in for raised exceptions) |
| `errors.dfy` | `Errors` | the errors raised, and the Python exception class of each |
| `signals.dfy` | `Signals` | port declarations, reduced to name and visibility |
| `port_maps.dfy` | `PortMaps` | the insertion-ordered `dict` behind `ports`, and its properties |
| `params.dfy` | `Params` | parameter classes, `isinstance`, `MosParams` checks, defaults |
| `primitives.dfy` | `Primitives` | `Primitive`, `PrimitiveCall` and their construction checks |
| `registry.dfy` | `Registry` | built-in constants, aliases, `Nmos`/`Pmos` |

Modelling choices:

- A raised exception is an `Err` carrying an `Error`. `Error.Kind()` gives the Python class (TypeError or ValueError).
- `isinstance(v, T)` is equality of `v`'s class tag with `T`. No two classes here inherit from each other. Paramclasses declared elsewhere are `UserParamclass(id)`. Any other Python class is `NotAParamclass(id)`, which `isparamclass` rejects.
- A `dict` is an association list in insertion order. Assigning to an existing key replaces the value in place. Assigning to a new key appends it.
- An object is assumed to keep the field values it was constructed with. Under that assumption, an object that exists has passed its construction checks, and the model encodes this in subset types:
  - a `MosParams` value held by a call has the subset type `CheckedMosParams`;
  - a call's primitive, a registry constant and the result of `NewPrimitive` have the subset type `CheckedPrimitive`, a primitive whose construction checks passed. `Primitive.Call` may only be applied to such a primitive;
  - an accepted call has the subset type `CheckedCall`, a call whose params are an instance of its primitive's parameter class.
- `ports` is rebuilt from `port_list` on every access. Nothing checks that port names are unique: with two ports of the same name, the key keeps the position of the first one and the value of the last.
- `Float` values are IEEE-754 bit patterns (`bv64`). Nothing computes on them.
- Alias identity is modelled by binding names to a `Builtin` tag. Each alias is bound to the same tag as its target, so it names the same constant, not a copy.

Where the code and its prose disagree, the model follows the code:

- The code never checks `w` or `l` for `None` before `self.w <= 0`. If the value checks run on an unset width or length, they raise the TypeError of comparing `None` with an int, not a ValueError. Both fields default to `None`, so under the assumption below, `MosParams()` with all defaults is rejected.
- The module docstring lists an `Ind` alias for inductors. The code binds only `L` and `Inductor`.

One assumption underlies the `MosParams` members. `paramclass` (from `hdl21/params.py`, which is not part of this model) is assumed to build a pydantic dataclass. Such a dataclass runs `__post_init_post_parse__` when it is constructed, and again inside `dataclasses.replace`, which `Nmos`/`Pmos` use to build their copy. Under this assumption an already-constructed `MosParams` always passes the checks again.

## Model

| member | source | states |
|---|---|---|
| `PortMaps.PortsOfKeys` | hdl21/primitives.py:92-94 | the keys of `ports` are exactly the port names, each appearing once |
| `PortMaps.PortsOfOrder` | hdl21/primitives.py:92-94 | keys are ordered by the first occurrence of their name in `port_list` |
| `PortMaps.PortsOfLastWins` | hdl21/primitives.py:92-94 | each key maps to the last port in `port_list` with that name, so a later duplicate wins |
| `PortMaps.PortsOfDistinctNames` | hdl21/primitives.py:92-94 | with distinct names, the mapping has one entry per port, in list order, each holding that port |
| `PortMaps.DistinctNamesAreKeys` | hdl21/primitives.py:92-94 | with distinct names, the key sequence equals the name sequence |
| `PortMaps.PortsOfGet` | hdl21/primitives.py:92-94 | `ports[k]` is the last port named `k`; an absent name has no entry; a found port's name is `k` |
| `Primitives.ScanPorts` | hdl21/primitives.py:77-83 | the port loop reports nothing iff every remaining port is valid; otherwise it reports the first invalid port, with an empty name taking precedence over visibility at that port |
| `Primitives.NewPrimitive` | hdl21/primitives.py:71-83 | construction succeeds iff `paramtype` is a paramclass and every port is named and `PORT`-visible; a bad `paramtype` is reported first, as a TypeError; port errors are ValueErrors naming the first bad port |
| `Primitives.ConstructedPrimitivePorts` | hdl21/primitives.py:71-94 | in a constructed primitive's `ports`, the keys are exactly the port names, and each key maps to a `PORT`-visible port of that name |
| `Primitives.DistinctPortNames` | hdl21/primitives.py:71-94 | for a constructed primitive whose port names are distinct, `ports` has exactly one entry per port, in declaration order, keyed by its name and holding that `PORT`-visible port |
| `Primitives.PrimitiveCall.Create` | hdl21/primitives.py:107-112 | a call is accepted iff `params` is an instance of `prim.paramtype`; it then holds exactly that primitive and those params; otherwise it is a TypeError |
| `Primitives.Primitive.Call` | hdl21/primitives.py:85-86 | calling a constructed primitive is the `PrimitiveCall` construction, so it succeeds iff the params are an instance of the primitive's `Params` class |
| `Primitives.CallPortsArePrimitivePorts` | hdl21/primitives.py:114-116 | a successful call's `ports` equals its primitive's `ports`, and equal params give equal calls |
| `Primitives.PortsDependOnlyOnPortList` | hdl21/primitives.py:92-94 | `ports` is a function of `port_list` alone |
| `Params.NewMosParams` | hdl21/primitives.py:145-158 | `MosParams` is accepted iff w and l are set and w, l, npar, nser are all positive; otherwise the first failing check in the order w, l, npar, nser is reported, as a TypeError for an unset field and a ValueError for a non-positive one |
| `Params.PositiveMosAccepted` | hdl21/primitives.py:145-158 | every combination of positive w, l, nser, npar, with any `tp` and `vth`, is accepted unchanged |
| `Params.MosDefaultsRejected` | hdl21/primitives.py:138-149 | the declared defaults (w and l unset) fail the width check with a TypeError |
| `Params.ReplaceTp` | hdl21/primitives.py:172 | `replace(params, tp=...)` succeeds iff `params` passes the checks; the copy differs from `params` only in `tp`; a failure is the one the checks report |
| `Params.HasNoParamsSingleton` | hdl21/primitives.py:317 | the only instance of the no-parameters class is the marker value |
| `Params.EveryTypeInhabited` | hdl21/primitives.py:109 | every class has an instance, so every `isinstance` test of a call can pass |
| `Registry.Nmos` | hdl21/primitives.py:170-172 | `Nmos(p)` succeeds iff `p` passes the `MosParams` checks, and yields a `Mos` call whose params are `p` with only `tp` set to NMOS |
| `Registry.Pmos` | hdl21/primitives.py:175-177 | `Pmos(p)` succeeds iff `p` passes the checks, and yields a `Mos` call whose params are `p` with only `tp` set to PMOS |
| `Registry.MosOverridesCompose` | hdl21/primitives.py:170-177 | `Nmos` and `Pmos` are idempotent, and each overrides the other |
| `Registry.BuiltinsConstruct` | hdl21/primitives.py:161-365 | every built-in declaration passes the `Primitive` construction check and yields that primitive |
| `Registry.RegistryShape` | hdl21/primitives.py:161-365 | `Mos` has ports d, g, s, b and is the only built-in taking `MosParams`; all others have ports p, n; the IDEAL built-ins are exactly IdealResistor, IdealCapacitor, IdealInductor, IdealShort, VoltageSource and CurrentSource |
| `Registry.SchemasDistinctExceptResistors` | hdl21/primitives.py:202-231 | two different built-ins share a parameter class only when they are IdealResistor and PhysicalResistor |
| `Registry.BuiltinPorts` | hdl21/primitives.py:161-365 | every built-in's `ports` has its port names as keys, in declaration order, each mapped to its own `PORT`-visible port |
| `Registry.BuiltinPortNames` | hdl21/primitives.py:161-365 | `Mos` declares ports `d g s b` and every other built-in declares `p n`, so no built-in repeats a port name |
| `Registry.ExportedNamesAndAliases` | hdl21/primitives.py:198-367 | a module-level name is bound to a built-in iff it is that built-in's own name or one of its aliases |
| `Registry.AliasTargets` | hdl21/primitives.py:199-367 | R, Res and Resistor denote IdealResistor; C, Cap and Capacitor denote IdealCapacitor; L and Inductor denote IdealInductor; D denotes Diode; Short denotes IdealShort; V and Vsrc denote VoltageSource; I and Isrc denote CurrentSource; no `Ind` is bound |
| `Registry.BuiltinNamesDistinct` | hdl21/primitives.py:161-365 | no two built-ins share a name |
| `Registry.IdealShortAcceptsOnlyNoParams` | hdl21/primitives.py:313-319 | `IdealShort` accepts the no-parameters marker and rejects every other value with a TypeError |
| `Registry.PhysicalResistorTakesResistorParams` | hdl21/primitives.py:220-231 | `PhysicalResistor` accepts a `ResistorParams` value and rejects a `PhysicalResistorParams` value |
| `Registry.GeometryDefaultsAccepted` | hdl21/primitives.py:180-195 | the Diode defaults are accepted by `Diode`, and the PhysicalShort defaults (lines 298-311) by `PhysicalShort` |
| `Registry.SourceDefaultsAccepted` | hdl21/primitives.py:329-365 | both sources default `dc` to 0, every other `VoltageSource` field defaults to unset, and `VoltageSource` and `CurrentSource` accept their default values |
| `Registry.MosDefaultsUnusable` | hdl21/primitives.py:138-177 | the `MosParams` defaults fail the width check, so `Nmos` and `Pmos` of them fail with that TypeError |
| `Registry.MosScenario` | hdl21/primitives.py:134-167 | a 10x2 NMOS with four parallel fingers is accepted, and its call's port keys are d, g, s, b |

## Left out

- Params.NewMosParams, Params.ReplaceTp, Registry.Nmos, Registry.Pmos, Params.MosDefaultsRejected and Registry.MosDefaultsUnusable rest on an assumption: `paramclass` builds a pydantic dataclass that runs `__post_init_post_parse__` on construction and again inside `dataclasses.replace`. `hdl21/params.py` is not part of this model, so this is assumed, not shown.
- The parameter-schema engine (`paramclass`, `Param`, `isparamclass`, `HasNoParams`) is not part of this model. Field types are Dafny types, so pydantic's parsing and coercion of field values are not modelled. `isparamclass` is membership in the class-tag datatype.
- Inheritance between parameter classes is not modelled. `isinstance` is exact class equality, which is sufficient for the classes declared in this file.
- `Signal`, `Port` and `Visibility` are reduced to a name and a visibility. A `None` name is folded into `""`, since both fail the `not p.name` check in the same way.
- The `calls_instantiate` decorator is left out. It only tags `PrimitiveCall` as placeable.
- Error message strings are left out. Errors carry only their cause and the index or field involved.
- Object identity is modelled only through the registry tags that aliases bind to. Whether `PrimitiveCall` shares its `prim` object is not modelled.
- Float arithmetic is left out. Resistances, capacitances, inductances and source values are opaque bit patterns.
- Registry.Nmos and Registry.Pmos: the parameter is typed as `MosParams`, but Python accepts any object, and those paths are not modelled. `replace` raises a TypeError for an object that is not a dataclass, and for a dataclass with no `tp` field, from its `__init__`. For a paramclass other than `MosParams` that has a `tp` field, `replace` succeeds, and the `Mos(...)` call then raises the TypeError of its `isinstance` check.
- In-place mutation after construction is not modelled. `Primitive` is a non-frozen dataclass and its `port_list` is a Python list. Appending an invalid port, or reassigning `paramtype`, leaves a `Primitive` that fails the construction checks, which never run again. Every call and alias sharing that primitive would see the change, since `ports` is rebuilt on each access. `CheckedPrimitive` and `CheckedCall` assume nobody mutates a primitive or a call. `CheckedMosParams` assumes the same of a `MosParams`, whose mutability depends on `paramclass` (`hdl21/params.py`), which is not part of this model.
- The `VoltageSourceParams` fields are not checked against each other by the code, and the model checks none either.
