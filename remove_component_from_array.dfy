/**
 * The "Remove Component From Array" filter: copies one component of a multi-component array
 * into a new one-component array of the same element type, in the same attribute matrix.
 */
module RemoveComponentFromArrayFilter {
  import opened DataContainers

  /** An empty output name. */
  const NewNameEmpty: int := -11003
  /** An input with fewer than two components. */
  const TooFewComponents: int := -11002
  /** A component number the input does not have. */
  const ComponentOutOfRange: int := -11003

  const SizeModulus: int := 0x1_0000_0000_0000_0000

  /** The component guard as written: only `compNumber >= comps` is refused, on signed integers. */
  predicate AcceptsAsWritten(compNumber: int, comps: nat)
  {
    !(compNumber >= comps)
  }

  /** The component guard as intended: a component number the input has. */
  predicate Accepts(compNumber: int, comps: nat)
  {
    0 <= compNumber < comps
  }

  /** The two guards differ exactly on negative component numbers. */
  lemma GuardsDiffer(compNumber: int, comps: nat)
    ensures Accepts(compNumber, comps) <==> AcceptsAsWritten(compNumber, comps) && compNumber >= 0
  {
  }

  /** The element read for tuple `i`: `comps * i + compNumber` computed in 64-bit unsigned arithmetic. */
  function ReadIndex(comps: nat, i: nat, compNumber: int): (k: nat)
    ensures k < SizeModulus
  {
    (comps * i + compNumber) % SizeModulus
  }

  /**
   * With the guard as written (and a signed component count), component -1 of any array of at
   * least two components passes; the read index for tuple 0 wraps to 2^64 - 1, outside the
   * input, and for every later tuple it is the last component of the tuple before.
   */
  lemma NegativeCompNumberReadsOutside(tuples: nat, comps: nat)
    requires comps >= 2 && tuples >= 1 && tuples * comps < SizeModulus
    ensures AcceptsAsWritten(-1, comps)
    ensures ReadIndex(comps, 0, -1) == SizeModulus - 1 && ReadIndex(comps, 0, -1) >= tuples * comps
    ensures forall i :: 1 <= i < tuples ==> ReadIndex(comps, i, -1) == comps * (i - 1) + (comps - 1)
  {
    assert ReadIndex(comps, 0, -1) == SizeModulus - 1;
    forall i | 1 <= i < tuples
      ensures ReadIndex(comps, i, -1) == comps * (i - 1) + (comps - 1)
    {
      RowBound(tuples, comps, comps - 1, i - 1);
    }
  }

  /** With the intended guard every read of the extraction loop lies inside the input. */
  lemma ReadsInBounds(tuples: nat, comps: nat, compNumber: int, i: nat)
    requires Accepts(compNumber, comps) && i < tuples && tuples * comps < SizeModulus
    ensures comps * i + compNumber < tuples * comps
    ensures ReadIndex(comps, i, compNumber) == comps * i + compNumber
  {
    RowBound(tuples, comps, compNumber, i);
  }

  lemma RowBound(tuples: nat, comps: nat, comp: int, i: nat)
    requires 0 <= comp < comps && i < tuples
    ensures comps * i + comp < tuples * comps
  {
    assert comps * i + comps == comps * (i + 1);
    assert comps * (i + 1) <= comps * tuples;
  }

  /** Component `comp` of every tuple of a tuple-major buffer, taken tuple by tuple. */
  function Column(values: seq<real>, tuples: nat, comps: nat, comp: nat): (col: seq<real>)
    requires comp < comps && |values| == tuples * comps
    ensures |col| == tuples
    decreases tuples
  {
    if tuples == 0 then []
    else
      OneRowLess(tuples, comps);
      [values[comp]] + Column(values[comps..], tuples - 1, comps, comp)
  }

  /** Entry `i` of the column is the element at `comps * i + comp`: the extraction loop's formula. */
  lemma {:induction false} ColumnAt(values: seq<real>, tuples: nat, comps: nat, comp: nat, i: nat)
    requires comp < comps && |values| == tuples * comps && i < tuples
    ensures comps * i + comp < |values|
    ensures Column(values, tuples, comps, comp)[i] == values[comps * i + comp]
  {
    RowBound(tuples, comps, comp, i);
    if i > 0 {
      OneRowLess(tuples, comps);
      OneRowLess(i, comps);
      ColumnAt(values[comps..], tuples - 1, comps, comp, i - 1);
    }
  }

  lemma OneRowLess(rows: nat, comps: nat)
    requires rows >= 1
    ensures (rows - 1) * comps == rows * comps - comps
    ensures comps * (rows - 1) == comps * rows - comps
  {
  }

  /** The array extraction leaves behind: unchanged if either array is not of the dispatched element type. */
  function ExtractedArray(input: DataArray, newData: DataArray, compNumber: nat): (r: DataArray)
    requires ShapedLike(input) && ShapedLike(newData) && compNumber < input.comps
    requires newData.contents.Values? ==> |newData.contents.values| >= input.tuples
  {
    if input.contents.Lists? || newData.contents.Lists? || newData.kind != input.kind then newData
    else
      var v := newData.contents.values;
      newData.(contents := Values(Column(input.contents.values, input.tuples, input.comps, compNumber)
                                  + v[input.tuples..]))
  }

  /**
   * Copies component `compNumber` of every tuple of `input` into the first `input.tuples`
   * slots of `newData`; nothing is written when the element types differ.
   */
  method ExtractComponent(input: DataArray, newData: DataArray, compNumber: nat) returns (written: DataArray)
    requires ShapedLike(input) && ShapedLike(newData) && compNumber < input.comps
    requires newData.contents.Values? ==> |newData.contents.values| >= input.tuples
    ensures written == ExtractedArray(input, newData, compNumber)
    ensures written.kind == newData.kind && written.tuples == newData.tuples && written.comps == newData.comps
  {
    if input.contents.Lists? || newData.contents.Lists? || newData.kind != input.kind {
      return newData;
    }
    var inputArray := input.contents.values;
    var v := newData.contents.values;
    var newArray := new real[|v|](k requires 0 <= k < |v| => v[k]);
    var numPoints := input.tuples;
    var numComps := input.comps;
    var i := 0;
    while i < numPoints
      invariant i <= numPoints
      invariant forall m :: 0 <= m < i ==> newArray[m] == Column(inputArray, numPoints, numComps, compNumber)[m]
      invariant forall m :: i <= m < newArray.Length ==> newArray[m] == v[m]
    {
      ColumnAt(inputArray, numPoints, numComps, compNumber, i);
      newArray[i] := inputArray[numComps * i + compNumber];
      i := i + 1;
    }
    assert newArray[..] == Column(inputArray, numPoints, numComps, compNumber) + v[numPoints..];
    written := newData.(contents := Values(newArray[..]));
  }

  function NewArrayPath(selected: DataArrayPath, newName: string): DataArrayPath
  {
    DataArrayPath(selected.container, selected.matrix, newName)
  }

  /**
   * The checks in their order: the input is looked up first, but an empty output name wins
   * over a missing input; then at least two components, then a component the input has; then
   * the one-component output of the input's element type is reserved beside the input.
   */
  function RemoveComponentCheck(reg: Registry, selected: DataArrayPath, compNumber: int, newName: string): (r: Checked)
    ensures newName == "" ==> r == Checked(NewNameEmpty, reg)
    ensures newName != "" && GetArray(reg, selected).None? ==> r == Checked(MissingPrerequisite, reg)
    ensures r.error != 0 ==> r.reg == reg && r.error < 0
    ensures r.error == 0 <==>
              newName != "" && GetArray(reg, selected).Some? && GetArray(reg, selected).value.comps >= 2 &&
              Accepts(compNumber, GetArray(reg, selected).value.comps) &&
              GetArray(reg, NewArrayPath(selected, newName)).None?
    ensures GetArray(reg, selected).Some? && GetArray(reg, selected).value.comps < 2 && newName != "" ==>
              r.error == TooFewComponents
    ensures (GetArray(reg, selected).Some? && GetArray(reg, selected).value.comps >= 2 && newName != "" &&
             !Accepts(compNumber, GetArray(reg, selected).value.comps)) ==> r.error == ComponentOutOfRange
    ensures r.error == 0 ==>
              var input := GetArray(reg, selected).value;
              GetArray(r.reg, NewArrayPath(selected, newName)) ==
                Some(Zeroed(input.kind, NumTuples(GetMatrix(reg, selected.container, selected.matrix).value.tupleDims), 1)) &&
              GetArray(r.reg, selected) == Some(input)
  {
    var prereq := PrereqAnyArray(reg, selected);
    if newName == "" then Checked(NewNameEmpty, reg)
    else if prereq < 0 then Checked(prereq, reg)
    else
      var input := GetArray(reg, selected).value;
      if input.comps < 2 then Checked(TooFewComponents, reg)
      else if !Accepts(compNumber, input.comps) then Checked(ComponentOutOfRange, reg)
      else CreateArray(reg, NewArrayPath(selected, newName), input.kind, 1)
  }

  /**
   * Running the check again on the registry it left changes nothing more; after a passing
   * check the repeat is refused because the new name is now taken, and after a failing one it
   * repeats the same failure.
   */
  lemma RemoveComponentCheckAgain(reg: Registry, selected: DataArrayPath, compNumber: int, newName: string)
    ensures var r1 := RemoveComponentCheck(reg, selected, compNumber, newName);
            var r2 := RemoveComponentCheck(r1.reg, selected, compNumber, newName);
            r2.reg == r1.reg &&
            (r1.error == 0 ==> r2.error == DuplicateName) &&
            (r1.error != 0 ==> r2 == r1)
  {
    var r1 := RemoveComponentCheck(reg, selected, compNumber, newName);
    if r1.error == 0 {
      var input := GetArray(reg, selected).value;
      CreateArrayOnSettled(r1.reg, NewArrayPath(selected, newName), input.kind, 1);
    }
  }

  /** The registry after a successful run: the new array holds the chosen component of the input. */
  function Extracted(reg: Registry, selected: DataArrayPath, compNumber: int, newName: string): (r: Registry)
    requires WellShaped(reg) && RemoveComponentCheck(reg, selected, compNumber, newName).error == 0
    ensures forall q :: q != NewArrayPath(selected, newName) ==> GetArray(r, q) == GetArray(reg, q)
  {
    var c := RemoveComponentCheck(reg, selected, compNumber, newName);
    var input := GetArray(reg, selected).value;
    var newData := GetArray(c.reg, NewArrayPath(selected, newName)).value;
    GetArrayShaped(reg, selected);
    PutArray(c.reg, NewArrayPath(selected, newName), ExtractedArray(input, newData, compNumber))
  }

  /** Slot `i` of the written array holds component `compNumber` of tuple `i` of the input. */
  lemma ExtractedArrayAt(input: DataArray, newData: DataArray, compNumber: nat, i: nat)
    requires ShapedLike(input) && ShapedLike(newData) && compNumber < input.comps
    requires newData.contents.Values? && |newData.contents.values| >= input.tuples
    requires input.contents.Values? && newData.kind == input.kind && i < input.tuples
    ensures input.comps * i + compNumber < |input.contents.values|
    ensures ExtractedArray(input, newData, compNumber).contents.Values?
    ensures i < |ExtractedArray(input, newData, compNumber).contents.values|
    ensures ExtractedArray(input, newData, compNumber).contents.values[i] ==
              input.contents.values[input.comps * i + compNumber]
  {
    ColumnAt(input.contents.values, input.tuples, input.comps, compNumber, i);
  }

  /** After a successful run the new array holds, tuple by tuple, the chosen component of the input. */
  lemma ExtractedContents(reg: Registry, selected: DataArrayPath, compNumber: int, newName: string, i: nat)
    requires WellShaped(reg) && RemoveComponentCheck(reg, selected, compNumber, newName).error == 0
    requires GetArray(reg, selected).value.contents.Values? && i < GetArray(reg, selected).value.tuples
    ensures var input := GetArray(reg, selected).value;
            var out := GetArray(Extracted(reg, selected, compNumber, newName), NewArrayPath(selected, newName)).value;
            0 <= input.comps * i + compNumber < |input.contents.values| &&
            out.kind == input.kind && out.comps == 1 && out.contents.Values? &&
            i < |out.contents.values| &&
            out.contents.values[i] == input.contents.values[input.comps * i + compNumber]
  {
    var input := GetArray(reg, selected).value;
    var c := RemoveComponentCheck(reg, selected, compNumber, newName);
    var path := NewArrayPath(selected, newName);
    var newData := GetArray(c.reg, path).value;
    GetArrayShaped(reg, selected);
    assert GetArray(Extracted(reg, selected, compNumber, newName), path).value ==
           ExtractedArray(input, newData, compNumber);
    ExtractedArrayAt(input, newData, compNumber, i);
  }

  class RemoveComponentFromArray {
    var selectedArrayPath: DataArrayPath
    var compNumber: int
    var newArrayArrayName: string
    var errorCondition: int

    /** Empty path and name, component 0. */
    constructor ()
      ensures selectedArrayPath == DataArrayPath("", "", "") && compNumber == 0 && newArrayArrayName == ""
      ensures errorCondition == 0
    {
      selectedArrayPath := DataArrayPath("", "", "");
      compNumber := 0;
      newArrayArrayName := "";
      errorCondition := 0;
    }

    function Check(reg: Registry): Checked
      reads this
    {
      RemoveComponentCheck(reg, selectedArrayPath, compNumber, newArrayArrayName)
    }

    /** Resets the error, runs the checks in order and reserves the output on success. */
    method DataCheck(dca: DataContainerArray)
      modifies this`errorCondition, dca
      ensures errorCondition == old(Check(dca.containers)).error
      ensures dca.containers == old(Check(dca.containers)).reg
    {
      errorCondition := 0;
      var r := Check(dca.containers);
      errorCondition := r.error;
      dca.containers := r.reg;
    }

    /** Validates and, only if the error stays non-negative, extracts the component. */
    method Execute(dca: DataContainerArray)
      requires dca.Valid()
      modifies this`errorCondition, dca
      ensures errorCondition == old(Check(dca.containers)).error
      ensures errorCondition < 0 ==> dca.containers == old(dca.containers)
      ensures errorCondition >= 0 ==>
                dca.containers == Extracted(old(dca.containers), selectedArrayPath, compNumber, newArrayArrayName)
    {
      errorCondition := 0;
      ghost var reg0 := dca.containers;
      DataCheck(dca);
      if errorCondition < 0 {
        return;
      }
      var path := NewArrayPath(selectedArrayPath, newArrayArrayName);
      var input := GetArray(dca.containers, selectedArrayPath).value;
      var newData := GetArray(dca.containers, path).value;
      GetArrayShaped(reg0, selectedArrayPath);
      var written := ExtractComponent(input, newData, compNumber);
      dca.containers := PutArray(dca.containers, path, written);
    }
  }
}
