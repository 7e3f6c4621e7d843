/** The per-function value index of the IR: which value numbers exist, which
    have a given type or type kind, and which instructions define and use
    each value. */
module FuncValues {
  import opened Wrappers

  /** `ir::TypeKind`. */
  datatype TypeKind =
    | Bool | Int | Pointer | Func
    | LangSharedPointer | LangUniquePointer | LangString | LangArray
    | LangStruct | LangInterface | LangTypeId

  /** An interned `ir::Type*`: its identity and its kind. */
  datatype IrType = IrType(id: nat, kind: TypeKind)

  /** An `ir::Instr*`, by identity. */
  type InstrId = nat

  /** `ir::Computed`: a value number and its type. */
  datatype Computed = Computed(number: nat, irType: IrType)

  /** The `std::out_of_range` thrown by `unordered_map::at`. */
  datatype LookupError = OutOfRange(value: nat)

  class FuncValues {
    var values: set<nat>
    var valuesWithType: map<IrType, set<nat>>
    var valuesWithTypeKind: map<TypeKind, set<nat>>
    var definingInstrs: map<nat, InstrId>
    var usingInstrs: map<nat, set<InstrId>>

    /** Every indexed value is a known value, and a value listed under a type
        is also listed under that type's kind. */
    ghost predicate Valid()
      reads this
    {
      && (forall t :: t in valuesWithType ==> valuesWithType[t] <= values)
      && (forall k :: k in valuesWithTypeKind ==> valuesWithTypeKind[k] <= values)
      && (forall t :: t in valuesWithType ==>
            t.kind in valuesWithTypeKind && valuesWithType[t] <= valuesWithTypeKind[t.kind])
    }

    constructor ()
      ensures Valid()
      ensures values == {} && valuesWithType == map[] && valuesWithTypeKind == map[]
      ensures definingInstrs == map[] && usingInstrs == map[]
    {
      values := {};
      valuesWithType := map[];
      valuesWithTypeKind := map[];
      definingInstrs := map[];
      usingInstrs := map[];
    }

    /** The values of type `irType`; the empty set, not an error, for a type
        nothing has. */
    function GetValuesWithType(irType: IrType): (r: set<nat>)
      reads this
      requires Valid()
      ensures r <= values
      ensures r <= GetValuesWithTypeKind(irType.kind)
      ensures irType !in valuesWithType ==> r == {}
    {
      if irType in valuesWithType then valuesWithType[irType] else {}
    }

    /** The values whose type has kind `typeKind`; empty for an unused kind. */
    function GetValuesWithTypeKind(typeKind: TypeKind): (r: set<nat>)
      reads this
      requires Valid()
      ensures r <= values
      ensures typeKind !in valuesWithTypeKind ==> r == {}
    {
      if typeKind in valuesWithTypeKind then valuesWithTypeKind[typeKind] else {}
    }

    /** `defining_instrs_.at(value)`: fails for a value without a recorded definer. */
    function GetInstrDefiningValue(value: nat): (r: Result<InstrId, LookupError>)
      reads this
      ensures r.Success? <==> value in definingInstrs
      ensures r.Failure? ==> r.error == OutOfRange(value)
    {
      if value in definingInstrs then Success(definingInstrs[value]) else Failure(OutOfRange(value))
    }

    /** `using_instrs_.at(value)`: fails for a value without a recorded user. */
    function GetInstrsUsingValue(value: nat): (r: Result<set<InstrId>, LookupError>)
      reads this
      ensures r.Success? <==> value in usingInstrs
      ensures r.Failure? ==> r.error == OutOfRange(value)
    {
      if value in usingInstrs then Success(usingInstrs[value]) else Failure(OutOfRange(value))
    }

    method AddValue(value: Computed)
      requires Valid()
      modifies this
      ensures Valid()
      ensures values == old(values) + {value.number}
      ensures valuesWithType == old(valuesWithType)[value.irType := old(GetValuesWithType(value.irType)) + {value.number}]
      ensures valuesWithTypeKind ==
        old(valuesWithTypeKind)[value.irType.kind := old(GetValuesWithTypeKind(value.irType.kind)) + {value.number}]
      ensures definingInstrs == old(definingInstrs) && usingInstrs == old(usingInstrs)
      ensures value.number in GetValuesWithType(value.irType) && value.number in GetValuesWithTypeKind(value.irType.kind)
    {
      var n := value.number;
      values := values + {n};
      var ofType := if value.irType in valuesWithType then valuesWithType[value.irType] else {};
      valuesWithType := valuesWithType[value.irType := ofType + {n}];
      var kind := value.irType.kind;
      var ofKind := if kind in valuesWithTypeKind then valuesWithTypeKind[kind] else {};
      valuesWithTypeKind := valuesWithTypeKind[kind := ofKind + {n}];
    }

    /** `defining_instrs_.insert(...)`: the first definer recorded for a value stays. */
    method SetInstrDefiningValue(instr: InstrId, value: Computed)
      modifies this
      ensures definingInstrs ==
        if value.number in old(definingInstrs) then old(definingInstrs)
        else old(definingInstrs)[value.number := instr]
      ensures values == old(values) && valuesWithType == old(valuesWithType)
      ensures valuesWithTypeKind == old(valuesWithTypeKind) && usingInstrs == old(usingInstrs)
    {
      if value.number !in definingInstrs {
        definingInstrs := definingInstrs[value.number := instr];
      }
    }

    /** `using_instrs_[value].insert(instr)`: adds one user; adding it again changes nothing. */
    method AddInstrUsingValue(instr: InstrId, value: Computed)
      modifies this
      ensures usingInstrs == old(usingInstrs)[value.number :=
        (if value.number in old(usingInstrs) then old(usingInstrs)[value.number] else {}) + {instr}]
      ensures old(value.number in usingInstrs && instr in usingInstrs[value.number]) ==>
        usingInstrs == old(usingInstrs)
      ensures values == old(values) && valuesWithType == old(valuesWithType)
      ensures valuesWithTypeKind == old(valuesWithTypeKind) && definingInstrs == old(definingInstrs)
    {
      var users := if value.number in usingInstrs then usingInstrs[value.number] else {};
      if value.number in usingInstrs && instr in users {
        assert users + {instr} == users;
        assert usingInstrs[value.number := users] == usingInstrs;
      }
      usingInstrs := usingInstrs[value.number := users + {instr}];
    }
  }

  /** Registering a value does not give it users: `GetInstrsUsingValue` on a
      value that was only added still fails. */
  method AddedValueHasNoUsers(value: Computed) returns (r: Result<set<InstrId>, LookupError>)
    ensures r == Failure(OutOfRange(value.number))
  {
    var index := new FuncValues();
    index.AddValue(value);
    r := index.GetInstrsUsingValue(value.number);
  }

  /** The first instruction recorded as a value's definer stays its definer. */
  method FirstDefinerStays(value: Computed, first: InstrId, second: InstrId)
    returns (r: Result<InstrId, LookupError>)
    ensures r == Success(first)
  {
    var index := new FuncValues();
    index.SetInstrDefiningValue(first, value);
    index.SetInstrDefiningValue(second, value);
    r := index.GetInstrDefiningValue(value.number);
  }

  /** Recording the same user twice leaves a single user. */
  method RepeatedUserCountsOnce(value: Computed, user: InstrId)
    returns (r: Result<set<InstrId>, LookupError>)
    ensures r == Success({user})
  {
    var index := new FuncValues();
    index.AddInstrUsingValue(user, value);
    var noUsers: set<InstrId> := {};
    assert noUsers + {user} == {user};
    assert index.usingInstrs == map[value.number := {user}];
    index.AddInstrUsingValue(user, value);
    r := index.GetInstrsUsingValue(value.number);
  }
}
