/**
 * Two template test filters, each with one integer and one floating-point parameter and a
 * data container name.  Their check always passes; their execution only looks the data
 * container up.
 */
module TestFilters {
  import opened FilterCommon
  import opened DataContainers
  import opened FilterCallback

  /** The error an execution reports when its data container is missing. */
  const MissingDataContainer: int := -1

  /** The stored filter groups of a pipeline, by filter index, each mapping keys to values. */
  type FilterParametersReader = map<int, map<string, JsonValue>>

  /** An integer read from group `index`: the stored value when it is an exact integer, else the default. */
  function ReadInt(reader: FilterParametersReader, index: int, key: string, default: int32): (r: int32)
    ensures (index !in reader || key !in reader[index]) ==> r == default
    ensures index in reader && key in reader[index] && reader[index][key].Number? && Int32Valued(reader[index][key].n) ==>
              r as real == reader[index][key].n
  {
    if index in reader && key in reader[index] then ToInt(reader[index][key], default) else default
  }

  /** A floating-point value read from group `index`: the stored number, else the default. */
  function ReadFloat(reader: FilterParametersReader, index: int, key: string, default: real): (r: real)
    ensures (index !in reader || key !in reader[index]) ==> r == default
    ensures index in reader && key in reader[index] && reader[index][key].Number? ==> r == reader[index][key].n
  {
    if index in reader && key in reader[index] then ToDouble(reader[index][key], default) else default
  }

  /** The two parameters a test filter declares, the integer first. */
  function TestParameters(integerProperty: string, floatProperty: string): (ps: seq<DeclaredParameter>)
    ensures |ps| == 2
    ensures ps[0].kind == IntegerParameter && ps[0].propertyName == integerProperty
    ensures ps[1].kind == DoubleParameter && ps[1].propertyName == floatProperty
    ensures forall p :: p in ps ==> p.category == Parameter
  {
    [DeclaredParameter("Int Value", integerProperty, IntegerParameter, Parameter),
     DeclaredParameter("Float Value", floatProperty, DoubleParameter, Parameter)]
  }

  class Filt0 {
    var dataContainerName: string
    var filt0Float: real
    var filt0Integer: int32
    var errorCondition: int
    var filterParameters: seq<DeclaredParameter>
    var statusMessages: seq<string>

    /** Float 6.6, integer 15, the default container name, and the two parameters declared. */
    constructor ()
      ensures dataContainerName == DefaultDataContainerName && filt0Float == 6.6 && filt0Integer == 15
      ensures filterParameters == TestParameters("Filt0_Integer", "Filt0_Float")
      ensures errorCondition == 0 && statusMessages == []
    {
      dataContainerName := DefaultDataContainerName;
      filt0Float := 6.6;
      filt0Integer := 15;
      errorCondition := 0;
      statusMessages := [];
      new;
      SetupFilterParameters();
    }

    method SetupFilterParameters()
      modifies this`filterParameters
      ensures filterParameters == TestParameters("Filt0_Integer", "Filt0_Float")
    {
      filterParameters := TestParameters("Filt0_Integer", "Filt0_Float");
    }

    /** Reads both values from group `index`; a missing key gives 0, not the current value. */
    method ReadFilterParameters(reader: FilterParametersReader, index: int)
      modifies this`filt0Float, this`filt0Integer
      ensures filt0Float == ReadFloat(reader, index, "Filt0_Float", 0.0)
      ensures filt0Integer == ReadInt(reader, index, "Filt0_Integer", 0)
    {
      var dummyFloat := 0.0;
      var dummyInt: int32 := 0;
      filt0Float := ReadFloat(reader, index, "Filt0_Float", dummyFloat);
      filt0Integer := ReadInt(reader, index, "Filt0_Integer", dummyInt);
    }

    method DataCheck()
      modifies this`errorCondition
      ensures errorCondition == 0
    {
      errorCondition := 0;
    }

    method Preflight()
      modifies this`errorCondition
      ensures errorCondition == 0
    {
      DataCheck();
    }

    /** Fails with -1 when the data container is missing; otherwise ends with no error and reports completion. */
    method Execute(dca: DataContainerArray)
      modifies this`errorCondition, this`statusMessages
      ensures dataContainerName !in dca.containers ==>
                errorCondition == MissingDataContainer && statusMessages == old(statusMessages)
      ensures dataContainerName in dca.containers ==>
                errorCondition == 0 && statusMessages == old(statusMessages) + [StatusComplete]
    {
      var err := 0;
      errorCondition := err;
      errorCondition := err;
      if dataContainerName !in dca.containers {
        errorCondition := MissingDataContainer;
        return;
      }
      errorCondition := 0;
      statusMessages := statusMessages + [StatusComplete];
    }
  }

  class Filt1 {
    var dataContainerName: string
    var filt1Float: real
    var filt1Integer: int32
    var errorCondition: int
    var filterParameters: seq<DeclaredParameter>
    var statusMessages: seq<string>

    /** Float 9.9, integer 123, the default container name, and the two parameters declared. */
    constructor ()
      ensures dataContainerName == DefaultDataContainerName && filt1Float == 9.9 && filt1Integer == 123
      ensures filterParameters == TestParameters("Filt1_Integer", "Filt1_Float")
      ensures errorCondition == 0 && statusMessages == []
    {
      dataContainerName := DefaultDataContainerName;
      filt1Float := 9.9;
      filt1Integer := 123;
      errorCondition := 0;
      statusMessages := [];
      new;
      SetupFilterParameters();
    }

    method SetupFilterParameters()
      modifies this`filterParameters
      ensures filterParameters == TestParameters("Filt1_Integer", "Filt1_Float")
    {
      filterParameters := TestParameters("Filt1_Integer", "Filt1_Float");
    }

    /** Reads both values from group `index`; a missing key gives 0, not the current value. */
    method ReadFilterParameters(reader: FilterParametersReader, index: int)
      modifies this`filt1Float, this`filt1Integer
      ensures filt1Float == ReadFloat(reader, index, "Filt1_Float", 0.0)
      ensures filt1Integer == ReadInt(reader, index, "Filt1_Integer", 0)
    {
      var dummyFloat := 0.0;
      var dummyInt: int32 := 0;
      filt1Float := ReadFloat(reader, index, "Filt1_Float", dummyFloat);
      filt1Integer := ReadInt(reader, index, "Filt1_Integer", dummyInt);
    }

    method DataCheck()
      modifies this`errorCondition
      ensures errorCondition == 0
    {
      errorCondition := 0;
    }

    method Preflight()
      modifies this`errorCondition
      ensures errorCondition == 0
    {
      DataCheck();
    }

    /** Fails with -1 when the data container is missing; otherwise ends with no error and reports completion. */
    method Execute(dca: DataContainerArray)
      modifies this`errorCondition, this`statusMessages
      ensures dataContainerName !in dca.containers ==>
                errorCondition == MissingDataContainer && statusMessages == old(statusMessages)
      ensures dataContainerName in dca.containers ==>
                errorCondition == 0 && statusMessages == old(statusMessages) + [StatusComplete]
    {
      var err := 0;
      errorCondition := err;
      if dataContainerName !in dca.containers {
        errorCondition := MissingDataContainer;
        return;
      }
      errorCondition := 0;
      statusMessages := statusMessages + [StatusComplete];
    }
  }
}
