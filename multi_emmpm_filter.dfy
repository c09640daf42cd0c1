/**
 * The multi-array EM/MPM segmentation filter: segments each selected grey-scale array of one
 * attribute matrix in turn, writing each result to `prefix + name` in a new output attribute
 * matrix.  The segmentation run itself (the single-array filter's execute) is not modelled:
 * each run is represented by the outcome it reports.
 */
module MultiEmmpm {
  import opened DataContainers

  const TooManyClasses: int := -62000
  const TooFewClasses: int := -62001
  const PrefixEmpty: int := -62002
  const NoInputArrays: int := -62003
  const MixedAttributeMatrices: int := -62004
  const SegmentationFailed: int := -60009

  /** The segmentation library handles at most 15 classes and needs at least 2. */
  const MaxClasses: int := 15
  const MinClasses: int := 2

  datatype InitType = Basic | ManualInit

  /** The parameters of the single-array segmentation filter that this filter inherits. */
  datatype SegmentationParameters = SegmentationParameters(
    numClasses: int, exchangeEnergy: real, histogramLoops: int, segmentationLoops: int,
    useSimulatedAnnealing: bool, useGradientPenalty: bool, gradientPenalty: real,
    useCurvaturePenalty: bool, curvaturePenalty: real, rMax: real, emLoopDelay: int)

  /** What one segmentation run reports: the error it leaves, and whether cancel was set by its end. */
  datatype Outcome = Outcome(error: int, cancelled: bool)

  /** One segmentation run as this filter set it up. */
  datatype Run = Run(input: DataArrayPath, output: DataArrayPath, init: InitType)

  /** All selected paths name the same data container and attribute matrix. */
  predicate SameMatrix(paths: seq<DataArrayPath>)
  {
    forall j :: 0 <= j < |paths| ==> paths[j].container == paths[0].container && paths[j].matrix == paths[0].matrix
  }

  function ArrayNames(paths: seq<DataArrayPath>): (names: seq<string>)
    ensures |names| == |paths| && forall j :: 0 <= j < |paths| ==> names[j] == paths[j].arrayName
  {
    seq(|paths|, j requires 0 <= j < |paths| => paths[j].arrayName)
  }

  /** The class-count checks, run last: more than 15 or fewer than 2 classes is refused. */
  function ClassCountError(numClasses: int): (e: int)
    ensures e == 0 <==> MinClasses <= numClasses <= MaxClasses
    ensures numClasses > MaxClasses ==> e == TooManyClasses
    ensures numClasses < MinClasses ==> e == TooFewClasses
  {
    if numClasses < MinClasses then TooFewClasses
    else if numClasses > MaxClasses then TooManyClasses
    else 0
  }

  /**
   * The per-array part of the check, in selection order: each input must be a one-component
   * uint8 array, and each one gets a zeroed one-component uint8 output named `prefix + name`
   * in the output matrix; the first input that fails stops the loop with its error.
   */
  function AddOutputs(reg: Registry, c: string, m: string, outName: string, prefix: string,
                      names: seq<string>, tuples: nat): (r: Checked)
    requires GetMatrix(reg, c, outName).Some?
    ensures r.error == 0 || r.error == MissingPrerequisite
    decreases |names|
  {
    if names == [] then Checked(0, reg)
    else
      var e := PrereqArray(reg, DataArrayPath(c, m, names[0]), UInt8, 1);
      if e < 0 then Checked(e, reg)
      else AddOutputs(PutArray(reg, DataArrayPath(c, outName, prefix + names[0]), Zeroed(UInt8, tuples, 1)),
                      c, m, outName, prefix, names[1..], tuples)
  }

  /**
   * The per-array loop succeeds exactly when every input is a one-component uint8 array; on
   * success every output exists, and nothing outside the output matrix changes.
   */
  lemma AddOutputsResult(reg: Registry, c: string, m: string, outName: string, prefix: string,
                         names: seq<string>, tuples: nat)
    requires GetMatrix(reg, c, outName).Some? && outName != m
    ensures var r := AddOutputs(reg, c, m, outName, prefix, names, tuples);
            (r.error == 0 || r.error == MissingPrerequisite) &&
            (r.error == 0 <==> forall j :: 0 <= j < |names| ==> PrereqArray(reg, DataArrayPath(c, m, names[j]), UInt8, 1) == 0) &&
            (r.error == 0 ==> forall j :: 0 <= j < |names| ==>
               GetArray(r.reg, DataArrayPath(c, outName, prefix + names[j])) == Some(Zeroed(UInt8, tuples, 1))) &&
            (forall q: DataArrayPath :: q.container != c || q.matrix != outName ==> GetArray(r.reg, q) == GetArray(reg, q)) &&
            GetMatrix(r.reg, c, outName).Some?
  {
    AddOutputsFrame(reg, c, m, outName, prefix, names, tuples);
    AddOutputsErrors(reg, c, m, outName, prefix, names, tuples);
    AddOutputsCreates(reg, c, m, outName, prefix, names, tuples);
  }

  /** Nothing outside the output matrix changes, and the output matrix stays. */
  lemma {:induction false} AddOutputsFrame(reg: Registry, c: string, m: string, outName: string, prefix: string,
                                           names: seq<string>, tuples: nat)
    requires GetMatrix(reg, c, outName).Some?
    ensures var r := AddOutputs(reg, c, m, outName, prefix, names, tuples);
            (forall q: DataArrayPath :: q.container != c || q.matrix != outName ==> GetArray(r.reg, q) == GetArray(reg, q)) &&
            GetMatrix(r.reg, c, outName).Some?
    decreases |names|
  {
    if names != [] && PrereqArray(reg, DataArrayPath(c, m, names[0]), UInt8, 1) >= 0 {
      var reg1 := PutArray(reg, DataArrayPath(c, outName, prefix + names[0]), Zeroed(UInt8, tuples, 1));
      AddOutputsFrame(reg1, c, m, outName, prefix, names[1..], tuples);
    }
  }

  /** The loop fails only with a missing prerequisite, and exactly when some input is not a uint8 scalar array. */
  lemma {:induction false} AddOutputsErrors(reg: Registry, c: string, m: string, outName: string, prefix: string,
                                            names: seq<string>, tuples: nat)
    requires GetMatrix(reg, c, outName).Some? && outName != m
    ensures var r := AddOutputs(reg, c, m, outName, prefix, names, tuples);
            (r.error == 0 || r.error == MissingPrerequisite) &&
            (r.error == 0 <==> forall j :: 0 <= j < |names| ==> PrereqArray(reg, DataArrayPath(c, m, names[j]), UInt8, 1) == 0)
    decreases |names|
  {
    if names != [] && PrereqArray(reg, DataArrayPath(c, m, names[0]), UInt8, 1) >= 0 {
      var reg1 := PutArray(reg, DataArrayPath(c, outName, prefix + names[0]), Zeroed(UInt8, tuples, 1));
      AddOutputsErrors(reg1, c, m, outName, prefix, names[1..], tuples);
      forall j | 1 <= j < |names|
        ensures PrereqArray(reg1, DataArrayPath(c, m, names[1..][j - 1]), UInt8, 1) ==
                PrereqArray(reg, DataArrayPath(c, m, names[j]), UInt8, 1)
      {
        assert names[1..][j - 1] == names[j];
        assert GetArray(reg1, DataArrayPath(c, m, names[j])) == GetArray(reg, DataArrayPath(c, m, names[j]));
      }
    }
  }

  /** On success every input's output array is in place, zeroed. */
  lemma {:induction false} AddOutputsCreates(reg: Registry, c: string, m: string, outName: string, prefix: string,
                                             names: seq<string>, tuples: nat)
    requires GetMatrix(reg, c, outName).Some?
    ensures var r := AddOutputs(reg, c, m, outName, prefix, names, tuples);
            r.error == 0 ==> forall j :: 0 <= j < |names| ==>
              GetArray(r.reg, DataArrayPath(c, outName, prefix + names[j])) == Some(Zeroed(UInt8, tuples, 1))
    decreases |names|
  {
    if names != [] && PrereqArray(reg, DataArrayPath(c, m, names[0]), UInt8, 1) >= 0 {
      var out := DataArrayPath(c, outName, prefix + names[0]);
      var reg1 := PutArray(reg, out, Zeroed(UInt8, tuples, 1));
      AddOutputsCreates(reg1, c, m, outName, prefix, names[1..], tuples);
      AddOutputsKeeps(reg1, c, m, outName, prefix, names[1..], tuples, out);
      forall j | 1 <= j < |names| ensures names[j] == names[1..][j - 1] { }
    }
  }

  /** The loop only ever writes zeroed outputs, so an output already in place stays as it is. */
  lemma {:induction false} AddOutputsKeeps(reg: Registry, c: string, m: string, outName: string, prefix: string,
                                           names: seq<string>, tuples: nat, q: DataArrayPath)
    requires GetMatrix(reg, c, outName).Some?
    requires GetArray(reg, q) == Some(Zeroed(UInt8, tuples, 1))
    ensures GetArray(AddOutputs(reg, c, m, outName, prefix, names, tuples).reg, q) == Some(Zeroed(UInt8, tuples, 1))
    decreases |names|
  {
    if names != [] && PrereqArray(reg, DataArrayPath(c, m, names[0]), UInt8, 1) >= 0 {
      var reg1 := PutArray(reg, DataArrayPath(c, outName, prefix + names[0]), Zeroed(UInt8, tuples, 1));
      AddOutputsKeeps(reg1, c, m, outName, prefix, names[1..], tuples, q);
    }
  }

  /**
   * The check in its order.  An empty prefix is recorded but the check goes on; no inputs or
   * inputs from different matrices stop it.  A missing data container stops it silently, with
   * whatever error was recorded so far.  A missing input matrix, or the recorded prefix error,
   * stops it before anything is created; then the output matrix takes the input matrix's tuple
   * dimensions, the per-array loop runs, and the class count is checked last.
   */
  function EmmpmCheck(reg: Registry, inputs: seq<DataArrayPath>, prefix: string, outName: string,
                      numClasses: int): (r: Checked)
    ensures inputs == [] ==> r == Checked(NoInputArrays, reg)
    ensures inputs != [] && !SameMatrix(inputs) ==> r == Checked(MixedAttributeMatrices, reg)
    ensures inputs != [] && SameMatrix(inputs) && inputs[0].container !in reg ==>
              r == Checked(if prefix == "" then PrefixEmpty else 0, reg)
    ensures prefix == "" ==> r.error < 0 && r.reg == reg
  {
    var recorded := if prefix == "" then PrefixEmpty else 0;
    if inputs == [] then Checked(NoInputArrays, reg)
    else if !SameMatrix(inputs) then Checked(MixedAttributeMatrices, reg)
    else
      var c := inputs[0].container;
      var m := inputs[0].matrix;
      if c !in reg then Checked(recorded, reg)
      else
        var e := PrereqMatrix(reg, c, m);
        if e < 0 then Checked(e, reg)
        else if recorded < 0 then Checked(recorded, reg)
        else
          var tDims := GetMatrix(reg, c, m).value.tupleDims;
          var created := CreateMatrix(reg, c, outName, tDims);
          if created.error < 0 then created
          else
            var added := AddOutputs(created.reg, c, m, outName, prefix, ArrayNames(inputs), NumTuples(tDims));
            if added.error < 0 then added
            else Checked(ClassCountError(numClasses), added.reg)
  }

  /**
   * Running the check again on the registry it left changes nothing more: once the output
   * matrix exists, its creation is refused and nothing after it runs.
   */
  lemma EmmpmCheckAgain(reg: Registry, inputs: seq<DataArrayPath>, prefix: string, outName: string, numClasses: int)
    ensures var r1 := EmmpmCheck(reg, inputs, prefix, outName, numClasses);
            EmmpmCheck(r1.reg, inputs, prefix, outName, numClasses).reg == r1.reg
  {
    var r1 := EmmpmCheck(reg, inputs, prefix, outName, numClasses);
    if r1.reg != reg {
      var c := inputs[0].container;
      var m := inputs[0].matrix;
      var tDims := GetMatrix(reg, c, m).value.tupleDims;
      var created := CreateMatrix(reg, c, outName, tDims);
      AddOutputsFrame(created.reg, c, m, outName, prefix, ArrayNames(inputs), NumTuples(tDims));
      assert GetMatrix(r1.reg, c, outName).Some?;
    }
  }

  /**
   * With the data container present the check passes exactly when: the prefix is set, the
   * inputs share one existing matrix, the output matrix can be created, every input is a
   * one-component uint8 array and the class count is 2 to 15.  Then every input has its output.
   */
  lemma CheckPasses(reg: Registry, inputs: seq<DataArrayPath>, prefix: string, outName: string, numClasses: int)
    requires inputs != [] && inputs[0].container in reg
    ensures var r := EmmpmCheck(reg, inputs, prefix, outName, numClasses);
            var c := inputs[0].container;
            var m := inputs[0].matrix;
            (r.error == 0 <==>
               prefix != "" && SameMatrix(inputs) && GetMatrix(reg, c, m).Some? &&
               outName != "" && outName !in reg[c].matrices &&
               (forall j :: 0 <= j < |inputs| ==> PrereqArray(reg, inputs[j], UInt8, 1) == 0) &&
               MinClasses <= numClasses <= MaxClasses) &&
            (r.error == 0 ==> forall j :: 0 <= j < |inputs| ==>
               GetArray(r.reg, DataArrayPath(c, outName, prefix + inputs[j].arrayName)) ==
                 Some(Zeroed(UInt8, NumTuples(GetMatrix(reg, c, m).value.tupleDims), 1)))
  {
    var c := inputs[0].container;
    var m := inputs[0].matrix;
    if prefix != "" && SameMatrix(inputs) && GetMatrix(reg, c, m).Some? {
      var tDims := GetMatrix(reg, c, m).value.tupleDims;
      var created := CreateMatrix(reg, c, outName, tDims);
      if created.error == 0 {
        AddOutputsResult(created.reg, c, m, outName, prefix, ArrayNames(inputs), NumTuples(tDims));
        forall j | 0 <= j < |inputs|
          ensures PrereqArray(created.reg, DataArrayPath(c, m, ArrayNames(inputs)[j]), UInt8, 1) ==
                  PrereqArray(reg, inputs[j], UInt8, 1)
        {
          assert DataArrayPath(c, m, ArrayNames(inputs)[j]) == inputs[j];
          assert (c, m) != (c, outName);
        }
      }
    }
  }

  /**
   * The number of arrays segmented, counting from array `k`: the loop stops after the first
   * run that reports a negative error or ends with cancel set.
   */
  function Processed(outcomes: seq<Outcome>, k: nat): (n: nat)
    requires k <= |outcomes|
    ensures k <= n <= |outcomes|
    decreases |outcomes| - k
  {
    if k == |outcomes| then k
    else if outcomes[k].error < 0 || outcomes[k].cancelled then k + 1
    else Processed(outcomes, k + 1)
  }

  /**
   * The loop runs every array before the stopping one without error or cancel, and stops
   * early only on an error or a cancel.
   */
  lemma {:induction false} ProcessedStops(outcomes: seq<Outcome>, k: nat)
    requires k < |outcomes|
    ensures k < Processed(outcomes, k) <= |outcomes|
    ensures forall j :: k <= j < Processed(outcomes, k) - 1 ==> outcomes[j].error >= 0 && !outcomes[j].cancelled
    ensures Processed(outcomes, k) < |outcomes| ==>
              outcomes[Processed(outcomes, k) - 1].error < 0 || outcomes[Processed(outcomes, k) - 1].cancelled
    decreases |outcomes| - k
  {
    if !(outcomes[k].error < 0 || outcomes[k].cancelled) && k + 1 < |outcomes| {
      ProcessedStops(outcomes, k + 1);
    }
  }

  /** The 1-based array counter selects manual initialisation only for the second array. */
  function InitFor(counter: nat, usePreviousMuSigma: bool): (t: InitType)
    ensures t == ManualInit <==> counter == 2 && usePreviousMuSigma
  {
    if counter == 2 && usePreviousMuSigma then ManualInit else Basic
  }

  /** The error the filter ends with after `n` runs: a failing last run becomes the generic error. */
  function FinalError(outcomes: seq<Outcome>, n: nat): (e: int)
    requires 1 <= n <= |outcomes|
    ensures e >= 0 || e == SegmentationFailed
    ensures e == SegmentationFailed <==> outcomes[n - 1].error < 0 || outcomes[n - 1].error == SegmentationFailed
  {
    if outcomes[n - 1].error < 0 then SegmentationFailed else outcomes[n - 1].error
  }

  /** The runs set up for the first `n` selected arrays, one per array. */
  function RunsFor(inputs: seq<DataArrayPath>, outName: string, prefix: string, usePreviousMuSigma: bool,
                   n: nat): (rs: seq<Run>)
    requires n <= |inputs|
    ensures |rs| == n
  {
    seq(n, j requires 0 <= j < n =>
      Run(DataArrayPath(inputs[0].container, inputs[0].matrix, inputs[j].arrayName),
          DataArrayPath(inputs[0].container, outName, prefix + inputs[j].arrayName),
          InitFor(j + 1, usePreviousMuSigma)))
  }

  /**
   * Input k is read from the selection's matrix, its output is `prefix + name` in the output
   * matrix, and only the second array may start from the previous image's mu and sigma.
   */
  lemma RunsForShape(inputs: seq<DataArrayPath>, outName: string, prefix: string, usePreviousMuSigma: bool, n: nat)
    requires n <= |inputs|
    ensures var rs := RunsFor(inputs, outName, prefix, usePreviousMuSigma, n);
            forall j :: 0 <= j < n ==>
              rs[j].input.arrayName == inputs[j].arrayName &&
              rs[j].output.arrayName == prefix + inputs[j].arrayName &&
              rs[j].output.matrix == outName &&
              (rs[j].init == ManualInit <==> j == 1 && usePreviousMuSigma)
  {
  }

  /** One more selected array appends exactly its own run. */
  lemma RunsForStep(inputs: seq<DataArrayPath>, outName: string, prefix: string, usePreviousMuSigma: bool, n: nat)
    requires n < |inputs|
    ensures RunsFor(inputs, outName, prefix, usePreviousMuSigma, n + 1) ==
            RunsFor(inputs, outName, prefix, usePreviousMuSigma, n) +
            [Run(DataArrayPath(inputs[0].container, inputs[0].matrix, inputs[n].arrayName),
                 DataArrayPath(inputs[0].container, outName, prefix + inputs[n].arrayName),
                 InitFor(n + 1, usePreviousMuSigma))]
  {
  }

  /** The per-array loop of the check, run on the registry in place. */
  method AddOutputArrays(dca: DataContainerArray, c: string, m: string, outName: string, prefix: string,
                         names: seq<string>, tuples: nat) returns (e: int)
    requires GetMatrix(dca.containers, c, outName).Some?
    modifies dca
    ensures Checked(e, dca.containers) == AddOutputs(old(dca.containers), c, m, outName, prefix, names, tuples)
  {
    ghost var start := dca.containers;
    var i := 0;
    while i < |names|
      invariant 0 <= i <= |names|
      invariant GetMatrix(dca.containers, c, outName).Some?
      invariant AddOutputs(start, c, m, outName, prefix, names, tuples) ==
                AddOutputs(dca.containers, c, m, outName, prefix, names[i..], tuples)
    {
      assert names[i..][1..] == names[i + 1..];
      e := PrereqArray(dca.containers, DataArrayPath(c, m, names[i]), UInt8, 1);
      if e < 0 {
        return;
      }
      dca.containers := PutArray(dca.containers, DataArrayPath(c, outName, prefix + names[i]), Zeroed(UInt8, tuples, 1));
      i := i + 1;
    }
    e := 0;
  }

  class MultiEmmpmFilter {
    var inputDataArrayVector: seq<DataArrayPath>
    var segmentation: SegmentationParameters
    var outputAttributeMatrixName: string
    var outputArrayPrefix: string
    var usePreviousMuSigma: bool
    var errorCondition: int
    /** The single-array filter's input, output and initialisation, set before each run. */
    var inputDataArrayPath: DataArrayPath
    var outputDataArrayPath: DataArrayPath
    var emmpmInitType: InitType
    /** Every segmentation run started, in order. */
    var runs: seq<Run>

    /** This filter's defaults on top of the single-array filter's parameters `base`. */
    constructor (base: SegmentationParameters)
      ensures segmentation == base && inputDataArrayVector == []
      ensures outputAttributeMatrixName == "EMMPM Output" && outputArrayPrefix == "Segmented_"
      ensures usePreviousMuSigma
      ensures errorCondition == 0 && runs == []
    {
      inputDataArrayVector := [];
      segmentation := base;
      outputAttributeMatrixName := "EMMPM Output";
      outputArrayPrefix := "Segmented_";
      usePreviousMuSigma := true;
      errorCondition := 0;
      inputDataArrayPath := DataArrayPath("", "", "");
      outputDataArrayPath := DataArrayPath("", "", "");
      emmpmInitType := Basic;
      runs := [];
    }

    function Check(reg: Registry): Checked
      reads this
    {
      EmmpmCheck(reg, inputDataArrayVector, outputArrayPrefix, outputAttributeMatrixName, segmentation.numClasses)
    }

    function PlannedRuns(n: nat): seq<Run>
      reads this
      requires n <= |inputDataArrayVector|
    {
      RunsFor(inputDataArrayVector, outputAttributeMatrixName, outputArrayPrefix, usePreviousMuSigma, n)
    }

    /** Resets the error and runs the checks, reserving the output matrix and arrays. */
    method DataCheck(dca: DataContainerArray)
      modifies this`errorCondition, dca
      ensures errorCondition == old(Check(dca.containers)).error
      ensures dca.containers == old(Check(dca.containers)).reg
    {
      errorCondition := 0;
      if outputArrayPrefix == "" {
        errorCondition := PrefixEmpty;
      }
      if inputDataArrayVector == [] {
        errorCondition := NoInputArrays;
        return;
      }
      if !SameMatrix(inputDataArrayVector) {
        errorCondition := MixedAttributeMatrices;
        return;
      }
      var c := inputDataArrayVector[0].container;
      var m := inputDataArrayVector[0].matrix;
      if c !in dca.containers {
        return;
      }
      var e := PrereqMatrix(dca.containers, c, m);
      if e < 0 {
        errorCondition := e;
      }
      if errorCondition < 0 {
        return;
      }
      var tDims := GetMatrix(dca.containers, c, m).value.tupleDims;
      var created := CreateMatrix(dca.containers, c, outputAttributeMatrixName, tDims);
      if created.error < 0 {
        errorCondition := created.error;
        return;
      }
      dca.containers := created.reg;
      var e2 := AddOutputArrays(dca, c, m, outputAttributeMatrixName, outputArrayPrefix,
                                ArrayNames(inputDataArrayVector), NumTuples(tDims));
      if e2 < 0 {
        errorCondition := e2;
        return;
      }
      if segmentation.numClasses > MaxClasses {
        errorCondition := TooManyClasses;
      }
      if segmentation.numClasses < MinClasses {
        errorCondition := TooFewClasses;
      }
    }

    /**
     * Checks, then segments the selected arrays in order, one run each (`outcomes[k]` is what
     * the run for array k reports), stopping after a failing or cancelled run; a failure is
     * reported as the generic segmentation error.
     */
    method Execute(dca: DataContainerArray, outcomes: seq<Outcome>)
      requires |outcomes| == |inputDataArrayVector|
      modifies this`errorCondition, this`inputDataArrayPath, this`outputDataArrayPath, this`emmpmInitType, this`runs, dca
      ensures dca.containers == old(Check(dca.containers)).reg
      ensures old(Check(dca.containers)).error < 0 ==>
                errorCondition == old(Check(dca.containers)).error && runs == old(runs) &&
                inputDataArrayPath == old(inputDataArrayPath) && outputDataArrayPath == old(outputDataArrayPath) &&
                emmpmInitType == old(emmpmInitType)
      ensures old(Check(dca.containers)).error >= 0 ==>
                1 <= Processed(outcomes, 0) <= |outcomes| &&
                runs == old(runs) + PlannedRuns(Processed(outcomes, 0)) &&
                errorCondition == FinalError(outcomes, Processed(outcomes, 0)) &&
                inputDataArrayPath == runs[|runs| - 1].input && outputDataArrayPath == runs[|runs| - 1].output &&
                emmpmInitType == runs[|runs| - 1].init
    {
      DataCheck(dca);
      if errorCondition < 0 {
        return;
      }
      RunAll(outcomes);
    }

    /** One segmentation per selected array, in order, until one fails or the user cancels. */
    method RunAll(outcomes: seq<Outcome>)
      requires |outcomes| == |inputDataArrayVector| > 0
      modifies this`errorCondition, this`inputDataArrayPath, this`outputDataArrayPath, this`emmpmInitType, this`runs
      ensures 1 <= Processed(outcomes, 0) <= |outcomes|
      ensures runs == old(runs) + PlannedRuns(Processed(outcomes, 0))
      ensures errorCondition == FinalError(outcomes, Processed(outcomes, 0))
      ensures |runs| > 0 && inputDataArrayPath == runs[|runs| - 1].input &&
              outputDataArrayPath == runs[|runs| - 1].output && emmpmInitType == runs[|runs| - 1].init
    {
      errorCondition := 0;
      var n := RunSelected(outcomes);
      if errorCondition < 0 {
        errorCondition := SegmentationFailed;
      }
    }

    /** The loop of RunAll: runs the planned segmentations, leaving the last one's error code. */
    method RunSelected(outcomes: seq<Outcome>) returns (n: nat)
      requires |outcomes| == |inputDataArrayVector| > 0
      modifies this`errorCondition, this`inputDataArrayPath, this`outputDataArrayPath, this`emmpmInitType, this`runs
      ensures n == Processed(outcomes, 0) && 1 <= n <= |outcomes|
      ensures runs == old(runs) + PlannedRuns(n)
      ensures errorCondition == outcomes[n - 1].error
      ensures |runs| > 0 && inputDataArrayPath == runs[|runs| - 1].input &&
              outputDataArrayPath == runs[|runs| - 1].output && emmpmInitType == runs[|runs| - 1].init
    {
      ProcessedStops(outcomes, 0);
      var inputs, outName, prefix, usePrev := inputDataArrayVector, outputAttributeMatrixName, outputArrayPrefix, usePreviousMuSigma;
      var first := inputs[0];
      var names := ArrayNames(inputs);
      ghost var runs0 := runs;
      var i := 1;
      var k := 0;
      while k < |names|
        invariant 0 <= k <= |names| && i == k + 1
        invariant Processed(outcomes, 0) == Processed(outcomes, k)
        invariant k > 0 ==> errorCondition == outcomes[k - 1].error
        invariant runs == runs0 + RunsFor(inputs, outName, prefix, usePrev, k)
        invariant k > 0 ==> |runs| > 0 && runs[|runs| - 1] == Run(inputDataArrayPath, outputDataArrayPath, emmpmInitType)
      {
        RunsForStep(inputs, outName, prefix, usePrev, k);
        SegmentOne(Run(DataArrayPath(first.container, first.matrix, names[k]),
                       DataArrayPath(first.container, outName, prefix + names[k]), InitFor(i, usePrev)), outcomes[k]);
        k := k + 1;
        if errorCondition < 0 {
          break;
        }
        i := i + 1;
        if outcomes[k - 1].cancelled {
          break;
        }
      }
      n := k;
    }

    /**
     * Points the segmentation at one array pair with one initialisation, records the run, and
     * takes the error code the segmentation left (its outcome is a parameter).
     */
    method SegmentOne(run: Run, outcome: Outcome)
      modifies this`errorCondition, this`inputDataArrayPath, this`outputDataArrayPath, this`emmpmInitType, this`runs
      ensures inputDataArrayPath == run.input && outputDataArrayPath == run.output && emmpmInitType == run.init
      ensures runs == old(runs) + [run] && errorCondition == outcome.error
    {
      inputDataArrayPath := run.input;
      outputDataArrayPath := run.output;
      emmpmInitType := run.init;
      runs := runs + [run];
      errorCondition := outcome.error;
    }

    /**
     * A fresh filter; when asked, it takes this filter's selection, segmentation parameters and
     * output matrix name, but keeps its own defaults for the prefix and the previous-image flag.
     */
    method NewFilterInstance(copyFilterParameters: bool, base: SegmentationParameters) returns (filter: MultiEmmpmFilter)
      ensures fresh(filter)
      ensures filter.outputArrayPrefix == "Segmented_" && filter.usePreviousMuSigma
      ensures copyFilterParameters ==>
                filter.inputDataArrayVector == inputDataArrayVector && filter.segmentation == segmentation &&
                filter.outputAttributeMatrixName == outputAttributeMatrixName
      ensures !copyFilterParameters ==>
                filter.inputDataArrayVector == [] && filter.segmentation == base &&
                filter.outputAttributeMatrixName == "EMMPM Output"
    {
      filter := new MultiEmmpmFilter(base);
      if copyFilterParameters {
        filter.inputDataArrayVector := inputDataArrayVector;
        filter.segmentation := segmentation;
        filter.outputAttributeMatrixName := outputAttributeMatrixName;
      }
    }
  }
}
