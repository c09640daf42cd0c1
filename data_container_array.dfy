/**
 * The data-container registry that pipeline filters resolve their array paths against:
 * a map from data-container name to container, each container a map from attribute-matrix
 * name to matrix, each matrix a map from array name to a typed array.
 *
 * The registry's own lookup and creation routines are not part of this model; the functions
 * below state the rules the filters rely on (a prerequisite must exist with the requested
 * element type and component count, a created array gets its matrix's tuple count and zeroed
 * contents) with the error codes listed here.
 */
module DataContainers {

  datatype Option<T> = None | Some(value: T)

  /** A required path that does not resolve, or resolves to the wrong element type or shape. */
  const MissingPrerequisite: int := -90001
  /** A created path with an empty name. */
  const InvalidParameter: int := -90002
  /** Co-dependent arrays that disagree in tuple count. */
  const TupleCountMismatch: int := -90003
  /** A created array or attribute matrix whose name is already taken. */
  const DuplicateName: int := -90004

  datatype ElementType =
    | Int8 | UInt8 | Int16 | UInt16 | Int32 | UInt32 | Int64 | UInt64
    | Float | Double | Bool | NeighborListInt32

  datatype DataArrayPath = DataArrayPath(container: string, matrix: string, arrayName: string)

  /** Plain arrays hold tuples * components values; a neighbour list holds one list per tuple. */
  datatype Contents = Values(values: seq<real>) | Lists(lists: seq<seq<int>>)

  datatype DataArray = DataArray(kind: ElementType, tuples: nat, comps: nat, contents: Contents)

  datatype AttributeMatrix = AttributeMatrix(tupleDims: seq<nat>, arrays: map<string, DataArray>)

  datatype Geometry = NoGeometry | ImageGeometry | OtherGeometry

  datatype DataContainer = DataContainer(geometry: Geometry, matrices: map<string, AttributeMatrix>)

  type Registry = map<string, DataContainer>

  /** Result of a registry step: the error code it leaves (0 or negative) and the registry after it. */
  datatype Checked = Checked(error: int, reg: Registry)

  /** The number of tuples of a matrix: the product of its tuple dimensions. */
  function NumTuples(dims: seq<nat>): nat
  {
    if dims == [] then 1 else dims[0] * NumTuples(dims[1..])
  }

  predicate ShapedLike(a: DataArray)
  {
    match a.contents
    case Values(v) => a.kind != NeighborListInt32 && |v| == a.tuples * a.comps
    case Lists(l) => a.kind == NeighborListInt32 && |l| == a.tuples
  }

  predicate ValidMatrix(am: AttributeMatrix)
  {
    forall name | name in am.arrays ::
      am.arrays[name].tuples == NumTuples(am.tupleDims) && ShapedLike(am.arrays[name])
  }

  predicate ValidContainer(dc: DataContainer)
  {
    forall m | m in dc.matrices :: ValidMatrix(dc.matrices[m])
  }

  /** Every array has its matrix's tuple count and contents of the size its shape says. */
  predicate WellShaped(reg: Registry)
  {
    forall c | c in reg :: ValidContainer(reg[c])
  }

  function GetMatrix(reg: Registry, container: string, matrix: string): Option<AttributeMatrix>
  {
    if container in reg && matrix in reg[container].matrices
    then Some(reg[container].matrices[matrix]) else None
  }

  function GetArray(reg: Registry, p: DataArrayPath): (r: Option<DataArray>)
    ensures r.Some? ==> GetMatrix(reg, p.container, p.matrix).Some?
  {
    match GetMatrix(reg, p.container, p.matrix)
    case None => None
    case Some(am) => if p.arrayName in am.arrays then Some(am.arrays[p.arrayName]) else None
  }

  /** A fresh array of the given shape whose contents are all zero (or all empty lists). */
  function Zeroed(kind: ElementType, tuples: nat, comps: nat): (a: DataArray)
    ensures ShapedLike(a) && a.kind == kind && a.tuples == tuples && a.comps == comps
  {
    if kind == NeighborListInt32
    then DataArray(kind, tuples, comps, Lists(seq(tuples, _ => [])))
    else DataArray(kind, tuples, comps, Values(seq(tuples * comps, _ => 0.0)))
  }

  /** Stores `a` at `p`, replacing what was there; every other path and every matrix shape is unchanged. */
  function PutArray(reg: Registry, p: DataArrayPath, a: DataArray): (r: Registry)
    requires GetMatrix(reg, p.container, p.matrix).Some?
    ensures GetArray(r, p) == Some(a)
    ensures forall q :: q != p ==> GetArray(r, q) == GetArray(reg, q)
    ensures r.Keys == reg.Keys
    ensures forall c, m :: GetMatrix(r, c, m).Some? == GetMatrix(reg, c, m).Some?
    ensures forall c, m :: GetMatrix(reg, c, m).Some? ==>
              GetMatrix(r, c, m).value.tupleDims == GetMatrix(reg, c, m).value.tupleDims
    ensures forall c :: c in reg ==> r[c].geometry == reg[c].geometry
  {
    var dc := reg[p.container];
    var am := dc.matrices[p.matrix];
    reg[p.container := dc.(matrices := dc.matrices[p.matrix := am.(arrays := am.arrays[p.arrayName := a])])]
  }

  /** A prerequisite array: present, of element type `kind` and with `comps` components. */
  function PrereqArray(reg: Registry, p: DataArrayPath, kind: ElementType, comps: nat): (e: int)
    ensures e == 0 || e == MissingPrerequisite
    ensures e == 0 <==> GetArray(reg, p).Some? && GetArray(reg, p).value.kind == kind &&
                        GetArray(reg, p).value.comps == comps
  {
    match GetArray(reg, p)
    case None => MissingPrerequisite
    case Some(a) => if a.kind == kind && a.comps == comps then 0 else MissingPrerequisite
  }

  /** A prerequisite array of any element type and shape. */
  function PrereqAnyArray(reg: Registry, p: DataArrayPath): (e: int)
    ensures e == 0 <==> GetArray(reg, p).Some?
    ensures e == 0 || e == MissingPrerequisite
  {
    if GetArray(reg, p).Some? then 0 else MissingPrerequisite
  }

  /** A prerequisite data container carrying an image geometry. */
  function PrereqImageGeometry(reg: Registry, container: string): (e: int)
    ensures e == 0 <==> container in reg && reg[container].geometry == ImageGeometry
    ensures e == 0 || e == MissingPrerequisite
  {
    if container in reg && reg[container].geometry == ImageGeometry then 0 else MissingPrerequisite
  }

  /** A prerequisite attribute matrix. */
  function PrereqMatrix(reg: Registry, container: string, matrix: string): (e: int)
    ensures e == 0 <==> GetMatrix(reg, container, matrix).Some?
    ensures e == 0 || e == MissingPrerequisite
  {
    if GetMatrix(reg, container, matrix).Some? then 0 else MissingPrerequisite
  }

  /**
   * Reserves a new array at `p` with the matrix's tuple count: refused for an empty name, a
   * missing container or matrix, or a name already in use; on refusal the registry is unchanged.
   */
  function CreateArray(reg: Registry, p: DataArrayPath, kind: ElementType, comps: nat): (r: Checked)
    ensures r.error == 0 || r.error == InvalidParameter || r.error == MissingPrerequisite || r.error == DuplicateName
    ensures r.error == 0 <==>
              p.arrayName != "" && GetMatrix(reg, p.container, p.matrix).Some? && GetArray(reg, p).None?
    ensures r.error != 0 ==> r.reg == reg
    ensures r.error == 0 ==>
              GetArray(r.reg, p) == Some(Zeroed(kind, NumTuples(GetMatrix(reg, p.container, p.matrix).value.tupleDims), comps))
    ensures forall q :: q != p ==> GetArray(r.reg, q) == GetArray(reg, q)
    ensures forall c, m :: GetMatrix(r.reg, c, m).Some? == GetMatrix(reg, c, m).Some?
    ensures forall c, m :: GetMatrix(reg, c, m).Some? ==>
              GetMatrix(r.reg, c, m).value.tupleDims == GetMatrix(reg, c, m).value.tupleDims
    ensures r.reg.Keys == reg.Keys
    ensures forall c :: c in reg ==> r.reg[c].geometry == reg[c].geometry
  {
    if p.arrayName == "" then Checked(InvalidParameter, reg)
    else match GetMatrix(reg, p.container, p.matrix)
      case None => Checked(MissingPrerequisite, reg)
      case Some(am) =>
        if GetArray(reg, p).Some? then Checked(DuplicateName, reg)
        else Checked(0, PutArray(reg, p, Zeroed(kind, NumTuples(am.tupleDims), comps)))
  }

  /**
   * Creates an empty attribute matrix `name` with tuple dimensions `dims` in `container`:
   * refused for an empty name, a missing container or a name already in use.
   */
  function CreateMatrix(reg: Registry, container: string, name: string, dims: seq<nat>): (r: Checked)
    ensures r.error == 0 <==> name != "" && container in reg && name !in reg[container].matrices
    ensures r.error != 0 ==> r.reg == reg && r.error < 0
    ensures r.error == 0 ==> GetMatrix(r.reg, container, name) == Some(AttributeMatrix(dims, map[]))
    ensures forall c, m :: (c, m) != (container, name) ==> GetMatrix(r.reg, c, m) == GetMatrix(reg, c, m)
    ensures forall q :: GetArray(reg, q).Some? ==> GetArray(r.reg, q) == GetArray(reg, q)
    ensures r.reg.Keys == reg.Keys
  {
    if name == "" then Checked(InvalidParameter, reg)
    else if container !in reg then Checked(MissingPrerequisite, reg)
    else if name in reg[container].matrices then Checked(DuplicateName, reg)
    else
      var dc := reg[container];
      Checked(0, reg[container := dc.(matrices := dc.matrices[name := AttributeMatrix(dims, map[])])])
  }

  /**
   * The tuple counts of co-varying arrays: fewer than two paths always agree; otherwise every
   * path must resolve, and every array must have the first one's tuple count.
   */
  function ValidateNumberOfTuples(reg: Registry, paths: seq<DataArrayPath>): (e: int)
    ensures e == 0 || e == MissingPrerequisite || e == TupleCountMismatch
    ensures e == 0 && |paths| > 1 ==> forall i :: 0 <= i < |paths| ==> GetArray(reg, paths[i]).Some?
    ensures e == 0 && |paths| > 1 ==>
              forall i, j :: 0 <= i < |paths| && 0 <= j < |paths| ==>
                GetArray(reg, paths[i]).Some? && GetArray(reg, paths[j]).Some? &&
                GetArray(reg, paths[i]).value.tuples == GetArray(reg, paths[j]).value.tuples
    ensures e == MissingPrerequisite <==> |paths| > 1 && exists i :: 0 <= i < |paths| && GetArray(reg, paths[i]).None?
  {
    if |paths| <= 1 then 0
    else if exists i :: 0 <= i < |paths| && GetArray(reg, paths[i]).None? then MissingPrerequisite
    else if exists i :: 0 <= i < |paths| && GetArray(reg, paths[i]).value.tuples != GetArray(reg, paths[0]).value.tuples
    then TupleCountMismatch
    else 0
  }

  /** In a well-shaped registry every array found has its matrix's tuple count and matching contents. */
  lemma GetArrayShaped(reg: Registry, p: DataArrayPath)
    requires WellShaped(reg) && GetArray(reg, p).Some?
    ensures ShapedLike(GetArray(reg, p).value)
    ensures GetArray(reg, p).value.tuples == NumTuples(GetMatrix(reg, p.container, p.matrix).value.tupleDims)
  {
  }

  /** Storing an array of the matrix's tuple count and of matching contents keeps the registry well shaped. */
  lemma PutArrayShaped(reg: Registry, p: DataArrayPath, a: DataArray)
    requires WellShaped(reg) && GetMatrix(reg, p.container, p.matrix).Some? && ShapedLike(a)
    requires a.tuples == NumTuples(GetMatrix(reg, p.container, p.matrix).value.tupleDims)
    ensures WellShaped(PutArray(reg, p, a))
  {
    var r := PutArray(reg, p, a);
    forall c | c in r
      ensures ValidContainer(r[c])
    {
      if c == p.container {
        forall m | m in r[c].matrices
          ensures ValidMatrix(r[c].matrices[m])
        {
          if m != p.matrix {
            assert r[c].matrices[m] == reg[c].matrices[m];
          }
        }
      } else {
        assert r[c] == reg[c];
      }
    }
  }

  lemma CreateArrayShaped(reg: Registry, p: DataArrayPath, kind: ElementType, comps: nat)
    requires WellShaped(reg)
    ensures WellShaped(CreateArray(reg, p, kind, comps).reg)
  {
    if CreateArray(reg, p, kind, comps).error == 0 {
      var am := GetMatrix(reg, p.container, p.matrix).value;
      PutArrayShaped(reg, p, Zeroed(kind, NumTuples(am.tupleDims), comps));
    }
  }

  lemma CreateMatrixShaped(reg: Registry, container: string, name: string, dims: seq<nat>)
    requires WellShaped(reg)
    ensures WellShaped(CreateMatrix(reg, container, name, dims).reg)
  {
    var r := CreateMatrix(reg, container, name, dims).reg;
    forall c | c in r
      ensures ValidContainer(r[c])
    {
      if c == container {
        forall m | m in r[c].matrices
          ensures ValidMatrix(r[c].matrices[m])
        {
          if m != name {
            assert r[c].matrices[m] == reg[c].matrices[m];
          }
        }
      } else {
        assert r[c] == reg[c];
      }
    }
  }

  /** A path `CreateArray` refuses without change: an empty name, a missing matrix or a taken name. */
  predicate Settled(reg: Registry, p: DataArrayPath)
  {
    p.arrayName == "" || GetMatrix(reg, p.container, p.matrix).None? || GetArray(reg, p).Some?
  }

  /** After one creation attempt at `p`, whatever its outcome, a second one at `p` is refused. */
  lemma CreateArraySettles(reg: Registry, p: DataArrayPath, kind: ElementType, comps: nat)
    ensures Settled(CreateArray(reg, p, kind, comps).reg, p)
  {
  }

  /** A creation at another path does not unsettle `q`. */
  lemma CreateArrayKeepsSettled(reg: Registry, p: DataArrayPath, kind: ElementType, comps: nat, q: DataArrayPath)
    requires Settled(reg, q)
    ensures Settled(CreateArray(reg, p, kind, comps).reg, q)
  {
  }

  /** On a settled path creation fails and changes nothing; on a taken name it fails with DuplicateName. */
  lemma CreateArrayOnSettled(reg: Registry, p: DataArrayPath, kind: ElementType, comps: nat)
    requires Settled(reg, p)
    ensures CreateArray(reg, p, kind, comps).error < 0 && CreateArray(reg, p, kind, comps).reg == reg
    ensures p.arrayName != "" && GetArray(reg, p).Some? ==> CreateArray(reg, p, kind, comps).error == DuplicateName
  {
  }

  /** Three co-varying arrays pass exactly when all three resolve with one tuple count. */
  lemma ValidateThree(reg: Registry, a: DataArrayPath, b: DataArrayPath, c: DataArrayPath)
    ensures ValidateNumberOfTuples(reg, [a, b, c]) == 0 <==>
              GetArray(reg, a).Some? && GetArray(reg, b).Some? && GetArray(reg, c).Some? &&
              GetArray(reg, b).value.tuples == GetArray(reg, a).value.tuples &&
              GetArray(reg, c).value.tuples == GetArray(reg, a).value.tuples
  {
    var paths := [a, b, c];
    if ValidateNumberOfTuples(reg, paths) == 0 {
      assert GetArray(reg, paths[1]).Some? && GetArray(reg, paths[2]).Some?;
    }
  }

  /** The registry the filters of a pipeline share. */
  class DataContainerArray {
    var containers: Registry

    ghost predicate Valid()
      reads this
    {
      WellShaped(containers)
    }

    constructor (reg: Registry)
      ensures containers == reg
      ensures WellShaped(reg) ==> Valid()
    {
      containers := reg;
    }
  }
}
