/** What filters share: how they declare their parameters to the user interface. */
module FilterCommon {

  /** Where a parameter is shown. */
  datatype Category = Parameter | RequiredArray | CreatedArray | Uncategorized

  /** The widget a parameter is edited with. */
  datatype ParameterKind = IntegerParameter | DoubleParameter

  /** One declared parameter: its label, the filter property it is bound to, its kind and category. */
  datatype DeclaredParameter = DeclaredParameter(humanLabel: string, propertyName: string, kind: ParameterKind,
                                                 category: Category)

  /** The status a filter reports when its execution finishes normally. */
  const StatusComplete: string := "Complete"

  /** The data container name a new filter starts with. */
  const DefaultDataContainerName: string := "DataContainer"
}
