/**
 * Filter parameters that read and write one key of a JSON object through a setter and a
 * getter bound to a filter property.  The JSON object is a map from keys to values; a setter
 * or getter is a reference to the property object it writes or reads.
 */
module FilterCallback {
  import opened FilterCommon
  import opened DataContainers

  newtype int32 = x: int | -0x8000_0000 <= x < 0x8000_0000

  /** A JSON value; every number is held as a double. */
  datatype JsonValue =
    | Null
    | Bool(b: bool)
    | Number(n: real)
    | Str(s: string)
    | Array(items: seq<JsonValue>)
    | Object(members: map<string, JsonValue>)

  /** A number that is exactly some 32-bit integer. */
  predicate Int32Valued(x: real)
  {
    x.Floor as real == x && -0x8000_0000 <= x.Floor < 0x8000_0000
  }

  /** A value's integer reading: a number with an exact 32-bit integer value, otherwise the default. */
  function ToInt(v: JsonValue, default: int32): (r: int32)
    ensures v == Number(r as real) || r == default
    ensures v.Number? && Int32Valued(v.n) ==> r as real == v.n
    ensures !(v.Number? && Int32Valued(v.n)) ==> r == default
  {
    if v.Number? && Int32Valued(v.n) then v.n.Floor as int32
    else default
  }

  /** A value's double reading: a number's value, otherwise the default. */
  function ToDouble(v: JsonValue, default: real): (r: real)
    ensures v.Number? ==> r == v.n
    ensures !v.Number? ==> r == default
  {
    if v.Number? then v.n else default
  }

  const ContainerKey: string := "Data Container Name"
  const MatrixKey: string := "Attribute Matrix Name"
  const ArrayKey: string := "Data Array Name"

  /** A data array path as a JSON object: its three names under their own keys. */
  function PathToJson(p: DataArrayPath): (obj: map<string, JsonValue>)
    ensures obj.Keys == {ContainerKey, MatrixKey, ArrayKey}
  {
    map[ContainerKey := Str(p.container), MatrixKey := Str(p.matrix), ArrayKey := Str(p.arrayName)]
  }

  /** A data array path read back from a JSON object: the three names when all are strings, else the empty path. */
  function PathFromJson(obj: map<string, JsonValue>): (p: DataArrayPath)
    ensures p != DataArrayPath("", "", "") ==>
              ContainerKey in obj && obj[ContainerKey] == Str(p.container) &&
              MatrixKey in obj && obj[MatrixKey] == Str(p.matrix) &&
              ArrayKey in obj && obj[ArrayKey] == Str(p.arrayName)
  {
    if ContainerKey in obj && obj[ContainerKey].Str? && MatrixKey in obj && obj[MatrixKey].Str? &&
       ArrayKey in obj && obj[ArrayKey].Str?
    then DataArrayPath(obj[ContainerKey].s, obj[MatrixKey].s, obj[ArrayKey].s)
    else DataArrayPath("", "", "")
  }

  /** A path survives being written to JSON and read back. */
  lemma PathJsonRoundTrip(p: DataArrayPath)
    ensures PathFromJson(PathToJson(p)) == p
  {
    var obj := PathToJson(p);
    assert obj[ContainerKey] == Str(p.container);
    assert obj[MatrixKey] == Str(p.matrix);
    assert obj[ArrayKey] == Str(p.arrayName);
  }

  /** What every parameter records about itself, stored as given. */
  datatype ParameterInfo = ParameterInfo(humanLabel: string, propertyName: string, category: Category, groupIndex: int)

  /** The value an integer parameter hands its setter when reading `json`, or None when the setter is not called. */
  function Int32ReadValue(json: map<string, JsonValue>, key: string): (r: Option<int32>)
    ensures r.Some? <==> key in json
    ensures key in json && json[key].Number? && Int32Valued(json[key].n) ==> r.value as real == json[key].n
    ensures key in json && !(json[key].Number? && Int32Valued(json[key].n)) ==> r == Some(0)
  {
    if key in json then Some(ToInt(json[key], 0)) else None
  }

  /** The value a double parameter hands its setter, or None when the key is absent or not a number. */
  function DoubleReadValue(json: map<string, JsonValue>, key: string): (r: Option<real>)
    ensures r.Some? <==> key in json && json[key].Number?
    ensures r.Some? ==> json[key] == Number(r.value)
  {
    if key in json && json[key].Number? then Some(ToDouble(json[key], 0.0)) else None
  }

  /**
   * The path a path parameter hands its setter, or None when the key is absent, does not hold
   * an object, or there is no setter.
   */
  function PathReadValue(json: map<string, JsonValue>, key: string, hasSetter: bool): (r: Option<DataArrayPath>)
    ensures r.Some? <==> key in json && json[key].Object? && hasSetter
    ensures r.Some? ==> r.value == PathFromJson(json[key].members)
  {
    if key in json && json[key].Object? && hasSetter then Some(PathFromJson(json[key].members)) else None
  }

  /** Writing an integer and reading the same key back hands the setter exactly the written value. */
  lemma Int32RoundTrip(json: map<string, JsonValue>, key: string, v: int32)
    ensures Int32ReadValue(json[key := Number(v as real)], key) == Some(v)
  {
  }

  /** Writing a double and reading the same key back hands the setter exactly the written value. */
  lemma DoubleRoundTrip(json: map<string, JsonValue>, key: string, v: real)
    ensures DoubleReadValue(json[key := Number(v)], key) == Some(v)
  {
  }

  /** Writing a path and reading it back, with a setter present, hands the setter exactly that path. */
  lemma PathRoundTrip(json: map<string, JsonValue>, key: string, p: DataArrayPath)
    ensures PathReadValue(json[key := Object(PathToJson(p))], key, true) == Some(p)
  {
    PathJsonRoundTrip(p);
  }

  /** A JSON object updated in place. */
  class JsonObject {
    var members: map<string, JsonValue>

    constructor (members: map<string, JsonValue>)
      ensures this.members == members
    {
      this.members := members;
    }
  }

  /** A filter's integer property, which a parameter's setter writes and its getter reads. */
  class Int32Property {
    var value: int32

    constructor (value: int32)
      ensures this.value == value
    {
      this.value := value;
    }
  }

  /** A filter's double property. */
  class DoubleProperty {
    var value: real

    constructor (value: real)
      ensures this.value == value
    {
      this.value := value;
    }
  }

  /** A filter's data array path property. */
  class PathProperty {
    var value: DataArrayPath

    constructor (value: DataArrayPath)
      ensures this.value == value
    {
      this.value := value;
    }
  }

  class Int32Parameter {
    const info: ParameterInfo
    const defaultValue: int32
    /** The setter and getter may be empty; calling an empty one throws. */
    const setter: Int32Property?
    const getter: Int32Property?

    /** Keeps the label, property name, category, group, default and callbacks as given. */
    constructor (humanLabel: string, propertyName: string, defaultValue: int32, category: Category,
                 setter: Int32Property?, getter: Int32Property?, groupIndex: int)
      ensures info == ParameterInfo(humanLabel, propertyName, category, groupIndex)
      ensures this.defaultValue == defaultValue && this.setter == setter && this.getter == getter
    {
      info := ParameterInfo(humanLabel, propertyName, category, groupIndex);
      this.defaultValue := defaultValue;
      this.setter := setter;
      this.getter := getter;
    }

    /** The factory: a fresh parameter holding exactly what it was given. */
    static method New(humanLabel: string, propertyName: string, defaultValue: int32, category: Category,
                      setter: Int32Property?, getter: Int32Property?, groupIndex: int) returns (p: Int32Parameter)
      ensures fresh(p)
      ensures p.info == ParameterInfo(humanLabel, propertyName, category, groupIndex)
      ensures p.defaultValue == defaultValue && p.setter == setter && p.getter == getter
    {
      p := new Int32Parameter(humanLabel, propertyName, defaultValue, category, setter, getter, groupIndex);
    }

    /**
     * Calls the setter whenever the key is present, with the value's integer reading or 0; with
     * an empty setter that call throws, which `thrown` reports.
     */
    method ReadJson(json: map<string, JsonValue>) returns (thrown: bool)
      modifies setter
      ensures thrown <==> setter == null && Int32ReadValue(json, info.propertyName).Some?
      ensures setter != null ==> setter.value == match Int32ReadValue(json, info.propertyName)
                                                 case Some(v) => v
                                                 case None => old(setter.value)
    {
      thrown := false;
      var key := info.propertyName;
      if key in json {
        if setter == null {
          thrown := true;
          return;
        }
        setter.value := ToInt(json[key], 0);
      }
    }

    /**
     * Stores the getter's value under the property name; no other key changes.  An empty getter
     * throws before anything is stored.
     */
    method WriteJson(json: JsonObject) returns (thrown: bool)
      modifies json
      ensures thrown <==> getter == null
      ensures getter != null ==>
                json.members == old(json.members)[info.propertyName := Number(old(getter.value) as real)]
      ensures getter == null ==> json.members == old(json.members)
    {
      if getter == null {
        return true;
      }
      json.members := json.members[info.propertyName := Number(getter.value as real)];
      thrown := false;
    }
  }

  class DoubleParameter {
    const info: ParameterInfo
    const defaultValue: real
    /** The setter and getter may be empty; calling an empty one throws. */
    const setter: DoubleProperty?
    const getter: DoubleProperty?

    /** Keeps the label, property name, category, group, default and callbacks as given. */
    constructor (humanLabel: string, propertyName: string, defaultValue: real, category: Category,
                 setter: DoubleProperty?, getter: DoubleProperty?, groupIndex: int)
      ensures info == ParameterInfo(humanLabel, propertyName, category, groupIndex)
      ensures this.defaultValue == defaultValue && this.setter == setter && this.getter == getter
    {
      info := ParameterInfo(humanLabel, propertyName, category, groupIndex);
      this.defaultValue := defaultValue;
      this.setter := setter;
      this.getter := getter;
    }

    /** The factory: a fresh parameter holding exactly what it was given. */
    static method New(humanLabel: string, propertyName: string, defaultValue: real, category: Category,
                      setter: DoubleProperty?, getter: DoubleProperty?, groupIndex: int) returns (p: DoubleParameter)
      ensures fresh(p)
      ensures p.info == ParameterInfo(humanLabel, propertyName, category, groupIndex)
      ensures p.defaultValue == defaultValue && p.setter == setter && p.getter == getter
    {
      p := new DoubleParameter(humanLabel, propertyName, defaultValue, category, setter, getter, groupIndex);
    }

    /**
     * Calls the setter only when the key is present and holds a number; with an empty setter
     * that call throws, which `thrown` reports.
     */
    method ReadJson(json: map<string, JsonValue>) returns (thrown: bool)
      modifies setter
      ensures thrown <==> setter == null && DoubleReadValue(json, info.propertyName).Some?
      ensures setter != null ==> setter.value == match DoubleReadValue(json, info.propertyName)
                                                 case Some(v) => v
                                                 case None => old(setter.value)
    {
      thrown := false;
      var key := info.propertyName;
      if key in json && json[key].Number? {
        if setter == null {
          thrown := true;
          return;
        }
        setter.value := ToDouble(json[key], 0.0);
      }
    }

    /**
     * Stores the getter's value under the property name; no other key changes.  An empty getter
     * throws before anything is stored.
     */
    method WriteJson(json: JsonObject) returns (thrown: bool)
      modifies json
      ensures thrown <==> getter == null
      ensures getter != null ==> json.members == old(json.members)[info.propertyName := Number(old(getter.value))]
      ensures getter == null ==> json.members == old(json.members)
    {
      if getter == null {
        return true;
      }
      json.members := json.members[info.propertyName := Number(getter.value)];
      thrown := false;
    }
  }

  class DataArrayPathParameter {
    const info: ParameterInfo
    const defaultValue: DataArrayPath
    /** The setter and getter may be absent. */
    const setter: PathProperty?
    const getter: PathProperty?

    /** Keeps the label, property name, category, group, default and callbacks as given. */
    constructor (humanLabel: string, propertyName: string, defaultValue: DataArrayPath, category: Category,
                 setter: PathProperty?, getter: PathProperty?, groupIndex: int)
      ensures info == ParameterInfo(humanLabel, propertyName, category, groupIndex)
      ensures this.defaultValue == defaultValue && this.setter == setter && this.getter == getter
    {
      info := ParameterInfo(humanLabel, propertyName, category, groupIndex);
      this.defaultValue := defaultValue;
      this.setter := setter;
      this.getter := getter;
    }

    /** The factory: a fresh parameter holding exactly what it was given. */
    static method New(humanLabel: string, propertyName: string, defaultValue: DataArrayPath, category: Category,
                      setter: PathProperty?, getter: PathProperty?, groupIndex: int) returns (p: DataArrayPathParameter)
      ensures fresh(p)
      ensures p.info == ParameterInfo(humanLabel, propertyName, category, groupIndex)
      ensures p.defaultValue == defaultValue && p.setter == setter && p.getter == getter
    {
      p := new DataArrayPathParameter(humanLabel, propertyName, defaultValue, category, setter, getter, groupIndex);
    }

    /** Calls the setter, when there is one, only when the key is present and holds an object. */
    method ReadJson(json: map<string, JsonValue>)
      modifies setter
      ensures setter != null ==> setter.value == match PathReadValue(json, info.propertyName, true)
                                                 case Some(p) => p
                                                 case None => old(setter.value)
    {
      var key := info.propertyName;
      if key in json && json[key].Object? && setter != null {
        var dap := PathFromJson(json[key].members);
        setter.value := dap;
      }
    }

    /** Stores the getter's path as an object under the property name; without a getter nothing is written. */
    method WriteJson(json: JsonObject)
      modifies json
      ensures getter != null ==>
                json.members == old(json.members)[info.propertyName := Object(PathToJson(old(getter.value)))]
      ensures getter == null ==> json.members == old(json.members)
    {
      if getter != null {
        json.members := json.members[info.propertyName := Object(PathToJson(getter.value))];
      }
    }
  }
}
