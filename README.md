# SIMPL filters and containers, modelled in Dafny

This project models the core of SIMPL (DREAM3D's data-structure and filter library). Three pieces are modelled:

- The shared shape of a filter: a `dataCheck` that fills in the filter's error condition step by step, and an `execute` that stops when that condition is negative.
- The data these filters read and create. This is a data-container registry: container → attribute matrix → array, where each array has an element type, a tuple count, a component count and contents.
- A few self-contained algorithms inside those filters.

The modules follow the source files:

| module | file | form |
|---|---|---|
| `DataContainers` | `data_container_array.dfy` | the registry, as a value plus a holder class; the prerequisite and creation steps the filters call |
| `FindNeighborhoodsFilter` | `find_neighborhoods.dfy` | the statistics filter that lists, for every feature, the features whose grid bins lie within its critical distance (array loops, in-place counters) |
| `SurfaceMesh` | `surface_mesh_data_container.dfy` | the surface-mesh container: three name→array maps with cached tuple counts, vertex links |
| `RemoveComponentFromArrayFilter` | `remove_component_from_array.dfy` | the filter that copies one component of a multi-component array into a new array (strided array loop) |
| `MultiEmmpm` | `multi_emmpm_filter.dfy` | the multi-array EM/MPM segmentation driver: its checks, output creation, per-array run loop |
| `UnaryOperators` | `unary_operator.dfy` | the array calculator's unary operator and its syntax check |
| `FilterCallback` | `filter_callback.dfy` | the JSON-keyed integer, double and data-array-path parameters with setter/getter callbacks |
| `FilterGroup11Filter` | `filter_group11.dfy` | a test filter with no parameters: its error, cancel and preflight state |
| `TestFilters` | `test_filters.dfy` | the two template test filters `Filt0` and `Filt1` |
| `FilterCommon` | `filter_common.dfy` | declared-parameter records and the shared status text |

Classes keep the source's objects wherever the source updates fields in place. This covers the filters, the surface-mesh container, the parameters and the JSON object. Each such method states its whole new state. Where a loop computes a value, it is a `method` that is proved equal to a recursive specification function. The lemmas state what the source promises about that function.

`EMMPMFilter::execute` (the segmentation library) is opaque. Each run's outcome is a given input: the error the run leaves, and whether cancel was set by its end. The float centroid-to-bin conversion of FindNeighborhoods is replaced by given bins.

`FindNeighborhoodsFilter.FindNeighborhoods.Execute` keeps the source's unsigned bin difference (`Wrapped`). The pair search, its invariants and the list lemmas are proved for both that difference and the absolute one (`Absolute`, the evident intent; see Findings).

The registry operations (`getPrereqArrayFromPath`, `createNonPrereqArrayFromPath`, `createNonPrereqAttributeMatrix`, `validateNumberOfTuples`, …) live in DataContainerArray.cpp, which is not part of this model. They are modelled from how the filters use them; where no call site decides a behaviour, such as the refusal of a name already taken, the model assumes one, and "## Left out" names each assumption. Each one leaves a non-negative error or a negative code, and on a negative code it leaves the registry unchanged. The concrete codes −90001 … −90004 are stand-ins, chosen apart from the filters' own codes; only their sign is relied on.

## Model

| member | source | states |
|---|---|---|
| DataContainers.PrereqArray | Source/Plugins/Statistics/StatisticsFilters/FindNeighborhoods.cpp:141-149 | a required array passes (0) exactly when it exists with the requested element type and component count; otherwise the missing-prerequisite code |
| DataContainers.PrereqAnyArray | Source/DREAM3DLib/CoreFilters/RemoveComponentFromArray.cpp:118 | an array of any type passes exactly when it exists |
| DataContainers.PrereqImageGeometry | Source/Plugins/Statistics/StatisticsFilters/FindNeighborhoods.cpp:131 | passes exactly when the container exists and carries an image geometry |
| DataContainers.PrereqMatrix | Source/Plugins/EMMPM/EMMPMFilters/MultiEmmpmFilter.cpp:185-189 | passes exactly when the attribute matrix exists |
| DataContainers.CreateArray | Source/Plugins/Statistics/StatisticsFilters/FindNeighborhoods.cpp:137-139 | succeeds exactly when the name is non-empty, the matrix exists and the name is free; then a zeroed array with the matrix's tuple count is stored; on failure a negative code and the registry unchanged; no other path, matrix or geometry changes |
| DataContainers.CreateArrayOnSettled | Source/Plugins/Statistics/StatisticsFilters/FindNeighborhoods.cpp:137-139 | creation at a path with an empty name, a missing matrix or a taken name fails and changes nothing; a taken name gives the duplicate-name code |
| DataContainers.CreateMatrix | Source/Plugins/EMMPM/EMMPMFilters/MultiEmmpmFilter.cpp:192-197 | succeeds exactly when the name is non-empty, the container exists and the name is free; then an empty matrix with the given tuple dimensions is added; on failure a negative code and the registry unchanged; every existing array stays |
| DataContainers.PutArray | Source/Plugins/EMMPM/EMMPMFilters/MultiEmmpmFilter.cpp:215 | the array is found at its path afterwards; every other path, matrix existence, tuple dimensions and geometry are unchanged |
| DataContainers.ValidateNumberOfTuples | Source/Plugins/Statistics/StatisticsFilters/FindNeighborhoods.cpp:162 | with two or more paths: missing-prerequisite exactly when some path does not resolve; 0 only when all resolve with one common tuple count |
| DataContainers.ValidateThree | Source/Plugins/Statistics/StatisticsFilters/FindNeighborhoods.cpp:141-162 | three co-varying arrays pass exactly when all three resolve with equal tuple counts |
| DataContainers.GetArrayShaped | Source/DREAM3DLib/CoreFilters/RemoveComponentFromArray.cpp:174-181 | in a well-shaped registry every array found has its matrix's tuple count and contents of that size, so indexed reads stay inside it |
| DataContainers.PutArrayShaped | Source/Plugins/EMMPM/EMMPMFilters/MultiEmmpmFilter.cpp:215 | storing an array of the matrix's tuple count keeps the registry well shaped |
| DataContainers.CreateArrayShaped | Source/Plugins/Statistics/StatisticsFilters/FindNeighborhoods.cpp:151-152 | creating an array keeps the registry well shaped |
| DataContainers.CreateMatrixShaped | Source/Plugins/EMMPM/EMMPMFilters/MultiEmmpmFilter.cpp:192-197 | creating an attribute matrix keeps the registry well shaped |
| FindNeighborhoodsFilter.SizeSub | Source/Plugins/Statistics/StatisticsFilters/FindNeighborhoods.cpp:254-256 | the `size_t` difference of two bins: the plain difference when it is non-negative, 2^64 minus the gap when it is not |
| FindNeighborhoodsFilter.NeighborsMembership | Source/Plugins/Statistics/StatisticsFilters/FindNeighborhoods.cpp:231-268 | a feature is in the list of k exactly when it lies in [1, n), is not k, and passes all three per-axis tests against the critical distance of k: no self-loops, no feature 0 |
| FindNeighborhoodsFilter.NeighborsIncreasing | Source/Plugins/Statistics/StatisticsFilters/FindNeighborhoods.cpp:231-268 | every list is strictly increasing, hence free of duplicates |
| FindNeighborhoodsFilter.EqualThresholdsSymmetric | Source/Plugins/Statistics/StatisticsFilters/FindNeighborhoods.cpp:258-268 | when two features have equal critical distances, each lists the other or neither does |
| FindNeighborhoodsFilter.AsymmetricExample | Source/Plugins/Statistics/StatisticsFilters/FindNeighborhoods.cpp:258-268 | each side is tested against its own distance, so feature 2 can list feature 1 while 1 does not list 2 |
| FindNeighborhoodsFilter.WrappedDifferenceBlocks | Source/Plugins/Statistics/StatisticsFilters/FindNeighborhoods.cpp:254-258 | as written, when the later feature has the smaller bin on some axis, a side accepts the pair only if its critical distance exceeds 2^64 minus the gap |
| FindNeighborhoodsFilter.WrappedMissesAdjacentPair | Source/Plugins/Statistics/StatisticsFilters/FindNeighborhoods.cpp:254-268 | as written, two features one bin apart, with distance 2 each, are not listed by either side |
| FindNeighborhoodsFilter.AbsoluteLinksAdjacentPair | Source/Plugins/Statistics/StatisticsFilters/FindNeighborhoods.cpp:254-268 | with the absolute difference the same pair is listed both ways |
| FindNeighborhoodsFilter.AbsoluteMeansClose | Source/Plugins/Statistics/StatisticsFilters/FindNeighborhoods.cpp:254-268 | with the absolute difference, k lists x exactly when x is in [1, n), is not k, and is closer than the critical distance of k on every axis, whatever their index order |
| FindNeighborhoodsFilter.CriticalDistances | Source/Plugins/Statistics/StatisticsFilters/FindNeighborhoods.cpp:194-205 | slot 0 is 0; every other slot is diameter × multiplier / average, where the average divides the sum over features 1..n-1 by n |
| FindNeighborhoodsFilter.ScaleAndSum | Source/Plugins/Statistics/StatisticsFilters/FindNeighborhoods.cpp:195-200 | the first loop: every slot from 1 holds diameter × multiplier, and the total is the sum of the diameters of features 1..n-1 |
| FindNeighborhoodsFilter.UniformDiameters | Source/Plugins/Statistics/StatisticsFilters/FindNeighborhoods.cpp:194-205 | with n equal positive diameters every critical distance is multiplier × n/(n−1), because feature 0 counts in the average but not in the sum |
| FindNeighborhoodsFilter.UniformSum | Source/Plugins/Statistics/StatisticsFilters/FindNeighborhoods.cpp:195-198 | the sum skips feature 0: n equal diameters sum to (n−1) × d |
| FindNeighborhoodsFilter.NeighborsStep | Source/Plugins/Statistics/StatisticsFilters/FindNeighborhoods.cpp:258-268 | pairing one more feature appends it to the list of k exactly when k accepts it |
| FindNeighborhoodsFilter.TestPair | Source/Plugins/Statistics/StatisticsFilters/FindNeighborhoods.cpp:254-268 | one pair (i, j): j is pushed to list i and counter i is incremented exactly when all three differences are below the distance of i, likewise for j; nothing else changes, and every counter still equals its list's length |
| FindNeighborhoodsFilter.PairedStart | Source/Plugins/Statistics/StatisticsFilters/FindNeighborhoods.cpp:231-247 | entering the inner loop of i, the lists hold exactly the pairs tested so far |
| FindNeighborhoodsFilter.PairedStep | Source/Plugins/Statistics/StatisticsFilters/FindNeighborhoods.cpp:247-269 | one inner iteration keeps that invariant |
| FindNeighborhoodsFilter.PairedDone | Source/Plugins/Statistics/StatisticsFilters/FindNeighborhoods.cpp:247-270 | the end of the inner loop of i is the start of the outer iteration i+1 |
| FindNeighborhoodsFilter.PairWithLater | Source/Plugins/Statistics/StatisticsFilters/FindNeighborhoods.cpp:247-269 | the inner loop pairs i with every later feature, keeps counters equal to list lengths, and leaves slot 0 alone |
| FindNeighborhoodsFilter.SearchPairs | Source/Plugins/Statistics/StatisticsFilters/FindNeighborhoods.cpp:195-197 | the counters of features 1..n-1 are reset, then every pair is tested once per side; afterwards counter 0 is unchanged, list 0 is empty, and for k ≥ 1 list k is the specified neighbour list and counter k its length |
| FindNeighborhoodsFilter.Step | Source/Plugins/Statistics/StatisticsFilters/FindNeighborhoods.cpp:131-162 | a failing step overwrites the error condition, a passing one leaves it; the result is non-negative exactly when both are |
| FindNeighborhoodsFilter.CheckPassedShapes | Source/Plugins/Statistics/StatisticsFilters/FindNeighborhoods.cpp:124-163 | a passing check guarantees an image-geometry container, diameters and phases with 1 component and centroids with 3, one common tuple count, and both outputs created beside the diameters: the neighbour list and the counter array, zeroed, with the diameters' matrix tuple count (the diameters' own count in a well-shaped registry) |
| FindNeighborhoodsFilter.CheckPassedSteps | Source/Plugins/Statistics/StatisticsFilters/FindNeighborhoods.cpp:124-163 | a passing check means every step passed, in order |
| FindNeighborhoodsFilter.CheckPasses | Source/Plugins/Statistics/StatisticsFilters/FindNeighborhoods.cpp:124-163 | conversely, an image-geometry container, the three inputs with the right types, components and one tuple count, and two distinct free output names pass with error 0 |
| FindNeighborhoodsFilter.NeighborhoodsCheck | Source/Plugins/Statistics/StatisticsFilters/FindNeighborhoods.cpp:124-163 | the error is 0 or negative, and no array other than the two outputs changes |
| FindNeighborhoodsFilter.NeighborhoodsCheckAgain | Source/Plugins/Statistics/StatisticsFilters/FindNeighborhoods.cpp:124-163 | a second check on the registry the first one left changes nothing, and after a passing check it fails with the taken-name code |
| FindNeighborhoodsFilter.ThresholdsComputed | Source/Plugins/Statistics/StatisticsFilters/FindNeighborhoods.cpp:194-205 | the distances the loops compute are the specified critical distances |
| FindNeighborhoodsFilter.SearchResults | Source/Plugins/Statistics/StatisticsFilters/FindNeighborhoods.cpp:271-277 | the stored counters and lists are the specified ones, with slot 0 left as created |
| FindNeighborhoodsFilter.FindNeighborhoodLists | Source/Plugins/Statistics/StatisticsFilters/FindNeighborhoods.cpp:181-278 | the whole search: the stored counters are the neighbour-list lengths, and the lists of features 1..n-1 are the specified neighbour lists, computed from the critical distances |
| FindNeighborhoodsFilter.FindNeighborhoods.constructor | Source/Plugins/Statistics/StatisticsFilters/FindNeighborhoods.cpp:50-66 | multiplier 1, output names NeighborhoodList and Neighborhoods, and the default feature-data input paths |
| FindNeighborhoodsFilter.FindNeighborhoods.DataCheck | Source/Plugins/Statistics/StatisticsFilters/FindNeighborhoods.cpp:124-163 | the error condition and the registry become the outcome of the check; a valid registry stays valid |
| FindNeighborhoodsFilter.FindNeighborhoods.Search | Source/Plugins/Statistics/StatisticsFilters/FindNeighborhoods.cpp:181-278 | on a validated registry, stores the specified counters and lists in the two created arrays |
| FindNeighborhoodsFilter.FindNeighborhoods.Execute | Source/Plugins/Statistics/StatisticsFilters/FindNeighborhoods.cpp:283-292 | the error is reset and the check runs; a negative error leaves the checked registry with no search; otherwise the search results are stored; the parameters are unchanged |
| SurfaceMesh.FacesUsingMembership | Source/DREAM3DLib/Common/SurfaceMeshDataContainer.cpp:73-77 | a triangle is linked to a vertex exactly when the vertex is one of its corners |
| SurfaceMesh.FacesUsingIncreasing | Source/DREAM3DLib/Common/SurfaceMeshDataContainer.cpp:73-77 | each vertex's triangles are listed in increasing order, without repetition |
| SurfaceMesh.VertexLinksExact | Source/DREAM3DLib/Common/SurfaceMeshDataContainer.cpp:73-77 | the link list of a vertex holds exactly the triangles that use it |
| SurfaceMesh.LexLessIrreflexive | Source/DREAM3DLib/Common/SurfaceMeshDataContainer.cpp:172-180 | the key order is irreflexive |
| SurfaceMesh.LexLessTransitive | Source/DREAM3DLib/Common/SurfaceMeshDataContainer.cpp:172-180 | the key order is transitive |
| SurfaceMesh.LexLessTotal | Source/DREAM3DLib/Common/SurfaceMeshDataContainer.cpp:172-180 | any two distinct keys are ordered |
| SurfaceMesh.Smallest | Source/DREAM3DLib/Common/SurfaceMeshDataContainer.cpp:172-180 | the next key a map iterates is the smallest remaining one |
| SurfaceMesh.AscendingKeys | Source/DREAM3DLib/Common/SurfaceMeshDataContainer.cpp:172-180 | a map's keys in iteration order: strictly ascending, each key exactly once |
| SurfaceMesh.SurfaceMeshDataContainer.constructor | Source/DREAM3DLib/Common/SurfaceMeshDataContainer.cpp:53-60 | no arrays, every tuple count 0, no mesh and no links |
| SurfaceMesh.SurfaceMeshDataContainer.BuildMeshVertLinks | Source/DREAM3DLib/Common/SurfaceMeshDataContainer.cpp:73-77 | the links become the vertex links of the current mesh |
| SurfaceMesh.SurfaceMeshDataContainer.BuildMeshTriangleNeighborLists | Source/DREAM3DLib/Common/SurfaceMeshDataContainer.cpp:82-96 | the neighbour lists are generated from existing links when there are some, otherwise from freshly built links that are then discarded; the stored links end as they started |
| SurfaceMesh.SurfaceMeshDataContainer.AddCellData | Source/DREAM3DLib/Common/SurfaceMeshDataContainer.cpp:117-128 | the array is renamed to the key and stored under it, replacing any previous entry; the cell tuple count becomes its tuple count |
| SurfaceMesh.SurfaceMeshDataContainer.GetCellData | Source/DREAM3DLib/Common/SurfaceMeshDataContainer.cpp:133-142 | the stored array, or null for an absent key |
| SurfaceMesh.SurfaceMeshDataContainer.RemoveCellData | Source/DREAM3DLib/Common/SurfaceMeshDataContainer.cpp:148-159 | returns the stored array (null when absent) and erases exactly that key; the tuple count is unchanged |
| SurfaceMesh.SurfaceMeshDataContainer.ClearCellData | Source/DREAM3DLib/Common/SurfaceMeshDataContainer.cpp:164-167 | the cell map is emptied; the tuple count is kept |
| SurfaceMesh.SurfaceMeshDataContainer.GetCellArrayNameList | Source/DREAM3DLib/Common/SurfaceMeshDataContainer.cpp:172-180 | the cell keys in ascending order, each once |
| SurfaceMesh.SurfaceMeshDataContainer.GetNumCellArrays | Source/DREAM3DLib/Common/SurfaceMeshDataContainer.cpp:185-188 | the number of cell arrays, equal to the name list's length |
| SurfaceMesh.SurfaceMeshDataContainer.GetFieldData | Source/DREAM3DLib/Common/SurfaceMeshDataContainer.cpp:196-205 | the stored array, or null for an absent key |
| SurfaceMesh.SurfaceMeshDataContainer.AddFieldData | Source/DREAM3DLib/Common/SurfaceMeshDataContainer.cpp:210-221 | the array is renamed to the key and stored under it, replacing any previous entry; the field tuple count becomes its tuple count |
| SurfaceMesh.SurfaceMeshDataContainer.RemoveFieldData | Source/DREAM3DLib/Common/SurfaceMeshDataContainer.cpp:226-237 | returns the stored array (null when absent) and erases exactly that key; the tuple count is unchanged |
| SurfaceMesh.SurfaceMeshDataContainer.ClearFieldData | Source/DREAM3DLib/Common/SurfaceMeshDataContainer.cpp:242-245 | the field map is emptied; the tuple count is kept |
| SurfaceMesh.SurfaceMeshDataContainer.GetFieldArrayNameList | Source/DREAM3DLib/Common/SurfaceMeshDataContainer.cpp:250-258 | the field keys in ascending order, each once |
| SurfaceMesh.SurfaceMeshDataContainer.GetNumFieldArrays | Source/DREAM3DLib/Common/SurfaceMeshDataContainer.cpp:263-266 | the number of field arrays |
| SurfaceMesh.SurfaceMeshDataContainer.ResizeFieldDataArrays | Source/DREAM3DLib/Common/SurfaceMeshDataContainer.cpp:271-281 | every field array is resized to n and keeps its name, the field tuple count becomes n, and the cell and ensemble data are untouched |
| SurfaceMesh.SurfaceMeshDataContainer.GetEnsembleData | Source/DREAM3DLib/Common/SurfaceMeshDataContainer.cpp:286-295 | the stored array, or null for an absent key |
| SurfaceMesh.SurfaceMeshDataContainer.AddEnsembleData | Source/DREAM3DLib/Common/SurfaceMeshDataContainer.cpp:300-311 | the array is renamed to the key and stored under it, replacing any previous entry; the ensemble tuple count becomes its tuple count |
| SurfaceMesh.SurfaceMeshDataContainer.RemoveEnsembleData | Source/DREAM3DLib/Common/SurfaceMeshDataContainer.cpp:317-328 | returns the stored array (null when absent) and erases exactly that key; the tuple count is unchanged |
| SurfaceMesh.SurfaceMeshDataContainer.ClearEnsembleData | Source/DREAM3DLib/Common/SurfaceMeshDataContainer.cpp:333-337 | the ensemble map is emptied and, unlike the other two, its tuple count is reset to 0 |
| SurfaceMesh.SurfaceMeshDataContainer.GetEnsembleArrayNameList | Source/DREAM3DLib/Common/SurfaceMeshDataContainer.cpp:342-350 | the ensemble keys in ascending order, each once |
| SurfaceMesh.SurfaceMeshDataContainer.GetNumEnsembleArrays | Source/DREAM3DLib/Common/SurfaceMeshDataContainer.cpp:355-358 | the number of ensemble arrays |
| RemoveComponentFromArrayFilter.GuardsDiffer | Source/DREAM3DLib/CoreFilters/RemoveComponentFromArray.cpp:137-143 | the guard as written and the intended one differ exactly on negative component numbers |
| RemoveComponentFromArrayFilter.NegativeCompNumberReadsOutside | Source/DREAM3DLib/CoreFilters/RemoveComponentFromArray.cpp:137-143 | as written, component −1 passes the guard (with a signed component count); the read index of tuple 0 wraps to 2^64 − 1, outside the input, and every later tuple reads the last component of the tuple before |
| RemoveComponentFromArrayFilter.ReadsInBounds | Source/DREAM3DLib/CoreFilters/RemoveComponentFromArray.cpp:179-182 | with the intended guard every read lies inside the input, and no wrap-around occurs |
| RemoveComponentFromArrayFilter.ColumnAt | Source/DREAM3DLib/CoreFilters/RemoveComponentFromArray.cpp:181 | entry i of the column is the input element at components × i + component |
| RemoveComponentFromArrayFilter.ExtractComponent | Source/DREAM3DLib/CoreFilters/RemoveComponentFromArray.cpp:167-183 | writes the chosen column into the new array when both arrays have the dispatched element type, leaves it unchanged otherwise, and keeps its type and shape |
| RemoveComponentFromArrayFilter.RemoveComponentCheck | Source/DREAM3DLib/CoreFilters/RemoveComponentFromArray.cpp:114-148 | the checks in order: an empty new name gives −11003 even when the input is missing; a missing input gives the prerequisite error; fewer than 2 components gives −11002; a component the input does not have gives −11003; success exactly when all pass and the name is free, and then a zeroed one-component array of the input's type is reserved beside the input; any failure leaves the registry unchanged |
| RemoveComponentFromArrayFilter.RemoveComponentCheckAgain | Source/DREAM3DLib/CoreFilters/RemoveComponentFromArray.cpp:114-148 | a second check on the registry the first one left changes nothing; after a passing check it fails with the taken-name code, after a failing one it repeats the same failure |
| RemoveComponentFromArrayFilter.Extracted | Source/DREAM3DLib/CoreFilters/RemoveComponentFromArray.cpp:188-197 | a successful run changes only the new array |
| RemoveComponentFromArrayFilter.ExtractedArrayAt | Source/DREAM3DLib/CoreFilters/RemoveComponentFromArray.cpp:179-182 | slot i of the written array is component c of tuple i of the input |
| RemoveComponentFromArrayFilter.ExtractedContents | Source/DREAM3DLib/CoreFilters/RemoveComponentFromArray.cpp:188-197 | after a successful run the new array holds, tuple by tuple, the chosen component of the unchanged input |
| RemoveComponentFromArrayFilter.RemoveComponentFromArray.constructor | Source/DREAM3DLib/CoreFilters/RemoveComponentFromArray.cpp:51-60 | empty input path and new name, component 0 |
| RemoveComponentFromArrayFilter.RemoveComponentFromArray.DataCheck | Source/DREAM3DLib/CoreFilters/RemoveComponentFromArray.cpp:114-148 | the error is reset, then the error condition and the registry become the outcome of the check |
| RemoveComponentFromArrayFilter.RemoveComponentFromArray.Execute | Source/DREAM3DLib/CoreFilters/RemoveComponentFromArray.cpp:188-197 | a negative check leaves the registry unchanged with no extraction; otherwise the new array holds the extracted component |
| MultiEmmpm.ArrayNames | Source/Plugins/EMMPM/EMMPMFilters/MultiEmmpmFilter.cpp:199-216 | the selected array names, one per path, in order |
| MultiEmmpm.ClassCountError | Source/Plugins/EMMPM/EMMPMFilters/MultiEmmpmFilter.cpp:218-231 | passes exactly for 2 to 15 classes; above gives −62000, below gives −62001 |
| MultiEmmpm.AddOutputsResult | Source/Plugins/EMMPM/EMMPMFilters/MultiEmmpmFilter.cpp:199-216 | the per-array loop combined: the three properties below |
| MultiEmmpm.AddOutputs | Source/Plugins/EMMPM/EMMPMFilters/MultiEmmpmFilter.cpp:199-216 | the per-array loop ends with 0 or the missing-prerequisite code |
| MultiEmmpm.AddOutputsFrame | Source/Plugins/EMMPM/EMMPMFilters/MultiEmmpmFilter.cpp:199-216 | the loop writes only into the output matrix, which stays |
| MultiEmmpm.AddOutputsErrors | Source/Plugins/EMMPM/EMMPMFilters/MultiEmmpmFilter.cpp:209-213 | the loop fails only with the prerequisite error, and exactly when some input is not a one-component uint8 array |
| MultiEmmpm.AddOutputsCreates | Source/Plugins/EMMPM/EMMPMFilters/MultiEmmpmFilter.cpp:209-215 | on success every input has a zeroed uint8 output named prefix + name in the output matrix |
| MultiEmmpm.AddOutputsKeeps | Source/Plugins/EMMPM/EMMPMFilters/MultiEmmpmFilter.cpp:215 | an output already in place stays as it is |
| MultiEmmpm.EmmpmCheck | Source/Plugins/EMMPM/EMMPMFilters/MultiEmmpmFilter.cpp:150-182 | no inputs gives −62003; inputs from different matrices give −62004; a missing container stops with only the recorded prefix error; an empty prefix always ends negative with the registry unchanged |
| MultiEmmpm.EmmpmCheckAgain | Source/Plugins/EMMPM/EMMPMFilters/MultiEmmpmFilter.cpp:192-197 | a second check on the registry the first one left changes nothing: once the output matrix exists its creation is refused |
| MultiEmmpm.CheckPasses | Source/Plugins/EMMPM/EMMPMFilters/MultiEmmpmFilter.cpp:150-231 | with the container present, the check passes exactly when the prefix is set, the inputs share one existing matrix, the output matrix can be created, every input is a one-component uint8 array, and the class count is 2..15; then every input has its zeroed output |
| MultiEmmpm.Processed | Source/Plugins/EMMPM/EMMPMFilters/MultiEmmpmFilter.cpp:270-300 | the number of arrays segmented, counting from k: at least k and at most the number of arrays |
| MultiEmmpm.ProcessedStops | Source/Plugins/EMMPM/EMMPMFilters/MultiEmmpmFilter.cpp:295-299 | the loop runs at least one array and stops right after the first run that fails or ends with cancel set; every earlier run succeeded uncancelled |
| MultiEmmpm.InitFor | Source/Plugins/EMMPM/EMMPMFilters/MultiEmmpmFilter.cpp:286-293 | manual initialisation exactly for the second array when the previous image's mu/sigma is used; basic otherwise |
| MultiEmmpm.FinalError | Source/Plugins/EMMPM/EMMPMFilters/MultiEmmpmFilter.cpp:303-309 | the error the filter ends with is non-negative or −60009, and it is −60009 exactly when the last run failed |
| MultiEmmpm.RunsForShape | Source/Plugins/EMMPM/EMMPMFilters/MultiEmmpmFilter.cpp:270-295 | run j reads array j of the input matrix, writes prefix + name into the output matrix, and uses the initialisation for counter j+1 |
| MultiEmmpm.RunsForStep | Source/Plugins/EMMPM/EMMPMFilters/MultiEmmpmFilter.cpp:270-295 | one more array appends exactly its own run |
| MultiEmmpm.AddOutputArrays | Source/Plugins/EMMPM/EMMPMFilters/MultiEmmpmFilter.cpp:199-216 | the in-place loop leaves the registry and error of the specified per-array step |
| MultiEmmpm.MultiEmmpmFilter.constructor | Source/Plugins/EMMPM/EMMPMFilters/MultiEmmpmFilter.cpp:24-31 | output matrix "EMMPM Output", prefix "Segmented_", previous mu/sigma used, no selection |
| MultiEmmpm.MultiEmmpmFilter.DataCheck | Source/Plugins/EMMPM/EMMPMFilters/MultiEmmpmFilter.cpp:120-233 | the error condition and the registry become the outcome of the check |
| MultiEmmpm.MultiEmmpmFilter.Execute | Source/Plugins/EMMPM/EMMPMFilters/MultiEmmpmFilter.cpp:252-313 | a negative check starts no run and leaves the input path, output path and initialisation as they were; otherwise the arrays are segmented in order until a run fails or cancel is set, every started run is recorded, the input path, output path and initialisation end as the last run's, and a failure ends as −60009 |
| MultiEmmpm.MultiEmmpmFilter.RunAll | Source/Plugins/EMMPM/EMMPMFilters/MultiEmmpmFilter.cpp:260-309 | the run loop: the runs recorded are exactly the planned runs up to the stopping point, the input path, output path and initialisation end as the last run's, and the final error is the specified one |
| MultiEmmpm.MultiEmmpmFilter.RunSelected | Source/Plugins/EMMPM/EMMPMFilters/MultiEmmpmFilter.cpp:268-300 | the `while` loop over the array names: it stops at the first failing or cancelled run, or after the last name, having recorded exactly the planned runs up to there; the error left is that of the last run, and the input path, output path and initialisation are the last run's |
| MultiEmmpm.MultiEmmpmFilter.SegmentOne | Source/Plugins/EMMPM/EMMPMFilters/MultiEmmpmFilter.cpp:272-296 | one pass of the loop body: the input path, output path and initialisation become the run's, the run is recorded, and the error condition becomes the run's own error |
| MultiEmmpm.MultiEmmpmFilter.NewFilterInstance | Source/Plugins/EMMPM/EMMPMFilters/MultiEmmpmFilter.cpp:351-375 | a fresh filter; with copying it takes the selection, segmentation parameters and output matrix name, but never the prefix or the previous-mu/sigma flag |
| UnaryOperators.ClosesAfterOpening | Source/SIMPLib/CoreFilters/util/UnaryOperator.cpp:84-90 | the closing parenthesis found lies strictly after the opening one |
| UnaryOperators.UnbalancedAccepted | Source/SIMPLib/CoreFilters/util/UnaryOperator.cpp:84-90 | nesting is not checked: `abs ( ( x )` is accepted |
| UnaryOperators.ShortRefused | Source/SIMPLib/CoreFilters/util/UnaryOperator.cpp:74-77 | a vector shorter than the index plus 4 is refused |
| UnaryOperators.UnaryOperator.constructor | Source/SIMPLib/CoreFilters/util/UnaryOperator.cpp:44-48 | the operator type is unary |
| UnaryOperators.UnaryOperator.Calculate | Source/SIMPLib/CoreFilters/util/UnaryOperator.cpp:61-65 | always 0 |
| UnaryOperators.UnaryOperator.CheckValidity | Source/SIMPLib/CoreFilters/util/UnaryOperator.cpp:70-94 | valid exactly when the vector is long enough, the next item opens a parenthesis, and some item from there on closes one |
| FilterCallback.ToInt | Source/Experimental/FilterCallback/FilterParameter.cpp:43 | a number with an exact 32-bit integer value reads as that value; anything else reads as the default |
| FilterCallback.ToDouble | Source/Experimental/FilterCallback/FilterParameter.cpp:87 | a number reads as its value, anything else as the default |
| FilterCallback.PathToJson | Source/Experimental/FilterCallback/FilterParameter.cpp:145 | a path becomes an object with exactly the container, matrix and array keys |
| FilterCallback.PathFromJson | Source/Experimental/FilterCallback/FilterParameter.cpp:131-133 | a non-empty path read back has its three names stored as strings under their keys |
| FilterCallback.PathJsonRoundTrip | Source/Experimental/FilterCallback/FilterParameter.cpp:133-145 | a path written to JSON reads back as itself |
| FilterCallback.Int32ReadValue | Source/Experimental/FilterCallback/FilterParameter.cpp:38-45 | the setter is called exactly when the key is present: with the integer stored there, or 0 when the value is not a number or not an exact 32-bit integer |
| FilterCallback.DoubleReadValue | Source/Experimental/FilterCallback/FilterParameter.cpp:82-89 | the setter is called exactly when the key is present and holds a number, with that number |
| FilterCallback.PathReadValue | Source/Experimental/FilterCallback/FilterParameter.cpp:126-139 | the setter is called exactly when the key is present, holds an object and a setter exists, with the path read from the object |
| FilterCallback.Int32RoundTrip | Source/Experimental/FilterCallback/FilterParameter.cpp:38-50 | writing an integer and reading it back hands the setter exactly that integer |
| FilterCallback.DoubleRoundTrip | Source/Experimental/FilterCallback/FilterParameter.cpp:82-94 | writing a double and reading it back hands the setter exactly that double |
| FilterCallback.PathRoundTrip | Source/Experimental/FilterCallback/FilterParameter.cpp:126-147 | writing a path and reading it back with a setter present hands the setter exactly that path |
| FilterCallback.Int32Parameter.constructor | Source/Experimental/FilterCallback/FilterParameter.cpp:52-59 | label, property name, category, group, default and callbacks are kept as given |
| FilterCallback.Int32Parameter.New | Source/Experimental/FilterCallback/FilterParameter.cpp:20-25 | a fresh parameter holding exactly what it was given |
| FilterCallback.Int32Parameter.ReadJson | Source/Experimental/FilterCallback/FilterParameter.cpp:38-45 | with a setter, its property receives the read value, or keeps its value when the setter is not called; an empty setter that would be called is reported as thrown |
| FilterCallback.Int32Parameter.WriteJson | Source/Experimental/FilterCallback/FilterParameter.cpp:47-50 | with a getter, its value is stored under the property name and no other key changes; an empty getter is reported as thrown and nothing is written |
| FilterCallback.DoubleParameter.constructor | Source/Experimental/FilterCallback/FilterParameter.cpp:96-103 | label, property name, category, group, default and callbacks are kept as given |
| FilterCallback.DoubleParameter.New | Source/Experimental/FilterCallback/FilterParameter.cpp:64-69 | a fresh parameter holding exactly what it was given |
| FilterCallback.DoubleParameter.ReadJson | Source/Experimental/FilterCallback/FilterParameter.cpp:82-89 | with a setter, its property receives the read value, or keeps its value when the setter is not called; an empty setter that would be called is reported as thrown |
| FilterCallback.DoubleParameter.WriteJson | Source/Experimental/FilterCallback/FilterParameter.cpp:91-94 | with a getter, its value is stored under the property name and no other key changes; an empty getter is reported as thrown and nothing is written |
| FilterCallback.DataArrayPathParameter.constructor | Source/Experimental/FilterCallback/FilterParameter.cpp:149-156 | label, property name, category, group, default and callbacks are kept as given |
| FilterCallback.DataArrayPathParameter.New | Source/Experimental/FilterCallback/FilterParameter.cpp:108-113 | a fresh parameter holding exactly what it was given |
| FilterCallback.DataArrayPathParameter.ReadJson | Source/Experimental/FilterCallback/FilterParameter.cpp:126-139 | with a setter, its property receives the path read from the object, or keeps its value when the key is absent or not an object |
| FilterCallback.DataArrayPathParameter.WriteJson | Source/Experimental/FilterCallback/FilterParameter.cpp:141-147 | with a getter, its path is stored as an object under the property name and no other key changes; without one nothing is written |
| FilterGroup11Filter.FilterGroup11.constructor | Source/SIMPLib/TestFilters/FilterGroup11.cpp:43-48 | a new filter has no error, no cancel, no parameters and is not preflighting |
| FilterGroup11Filter.FilterGroup11.Initialize | Source/SIMPLib/TestFilters/FilterGroup11.cpp:60-64 | error 0 and cancel cleared |
| FilterGroup11Filter.FilterGroup11.SetupFilterParameters | Source/SIMPLib/TestFilters/FilterGroup11.cpp:69-74 | the declared parameter list is empty |
| FilterGroup11Filter.FilterGroup11.DataCheck | Source/SIMPLib/TestFilters/FilterGroup11.cpp:79-82 | the error is left at 0 |
| FilterGroup11Filter.FilterGroup11.Preflight | Source/SIMPLib/TestFilters/FilterGroup11.cpp:87-96 | the check runs with the preflight flag raised, and the flag is lowered afterwards |
| FilterGroup11Filter.FilterGroup11.Execute | Source/SIMPLib/TestFilters/FilterGroup11.cpp:101-124 | a cancel raised before the run is cleared, the error stays 0, completion is reported, and the −99999999 branch is unreachable |
| TestFilters.ReadInt | Source/SIMPLib/TestFilters/TestFilters.cpp:65 | a missing group or key gives the default; a stored exact integer is read as itself |
| TestFilters.ReadFloat | Source/SIMPLib/TestFilters/TestFilters.cpp:64 | a missing group or key gives the default; a stored number is read as itself |
| TestFilters.TestParameters | Source/SIMPLib/TestFilters/TestFilters.cpp:38-54 | exactly two parameters, the integer first, then the float, both in the parameter category |
| TestFilters.Filt0.constructor | Source/SIMPLib/TestFilters/TestFilters.cpp:19-26 | float 6.6, integer 15, the default container name, the two parameters declared |
| TestFilters.Filt0.SetupFilterParameters | Source/SIMPLib/TestFilters/TestFilters.cpp:38-54 | the two parameters bound to Filt0_Integer and Filt0_Float |
| TestFilters.Filt0.ReadFilterParameters | Source/SIMPLib/TestFilters/TestFilters.cpp:59-67 | both values are read from the filter's group, falling back to 0 and not to the current value |
| TestFilters.Filt0.DataCheck | Source/SIMPLib/TestFilters/TestFilters.cpp:80-83 | the error is set to 0 |
| TestFilters.Filt0.Preflight | Source/SIMPLib/TestFilters/TestFilters.cpp:89-93 | only runs the check: the error is 0 |
| TestFilters.Filt0.Execute | Source/SIMPLib/TestFilters/TestFilters.cpp:98-117 | a missing data container gives −1 and no completion message; otherwise error 0 and completion reported |
| TestFilters.Filt1.constructor | Source/SIMPLib/TestFilters/TestFilters.cpp:122-129 | float 9.9, integer 123, the default container name, the two parameters declared |
| TestFilters.Filt1.SetupFilterParameters | Source/SIMPLib/TestFilters/TestFilters.cpp:141-157 | the two parameters bound to Filt1_Integer and Filt1_Float |
| TestFilters.Filt1.ReadFilterParameters | Source/SIMPLib/TestFilters/TestFilters.cpp:162-170 | both values are read from the filter's group, falling back to 0 and not to the current value |
| TestFilters.Filt1.DataCheck | Source/SIMPLib/TestFilters/TestFilters.cpp:183-186 | the error is set to 0 |
| TestFilters.Filt1.Preflight | Source/SIMPLib/TestFilters/TestFilters.cpp:192-196 | only runs the check: the error is 0 |
| TestFilters.Filt1.Execute | Source/SIMPLib/TestFilters/TestFilters.cpp:201-219 | a missing data container gives −1 and no completion message; otherwise error 0 and completion reported |

## Left out

- DataContainerArray.cpp, AttributeMatrix, DataArray and DataArrayPath.cpp are not part of this model. The registry steps are modelled from their call sites. The error codes −90001 (missing prerequisite), −90002 (invalid name), −90003 (tuple-count mismatch) and −90004 (name taken) are stand-ins.
- DataContainers.CreateArray: the refusal of a name already taken (DuplicateName) is an assumption about `createNonPrereqArrayFromPath`, which is not part of this model. As a consequence a check run a second time on the registry the first one left is refused with −90004 when the first one passed (`RemoveComponentCheckAgain`, `NeighborhoodsCheckAgain`); the registry itself does not change again.
- DataContainers.CreateMatrix: the refusal of a matrix name already taken is likewise an assumption about `createNonPrereqAttributeMatrix`, so a repeated MultiEmmpm check stops at the output matrix (`EmmpmCheckAgain` proves the registry does not change again).
- MultiEmmpm.EmmpmCheck: the matrix prerequisite at MultiEmmpmFilter.cpp:185-189 passes the positive code 10000 to the registry. Its real failure code is not visible here, so the model uses the stand-in missing-prerequisite code. If the library records the positive 10000 itself, `getErrorCondition() < 0` at :186 is false and the source goes on to read the tuple dimensions of a null matrix at :192; the model stops at the missing matrix instead.
- FilterCallback.PathToJson: the three JSON keys of a data array path ("Data Container Name", "Attribute Matrix Name", "Data Array Name") are assumed, because DataArrayPath.cpp is not part of this model. Only the round trip depends on them.
- FilterCommon: the default data container name "DataContainer" is an assumed value of the library default.
- FindNeighborhoods.cpp:207-225: the float centroid-to-bin conversion, including the `int32_t` cast. The bins are an input of `Search`/`Execute`.
- FindNeighborhoodsFilter.CriticalDistances: the distances are exact reals, not `float`. Rounding, and a zero average turning into infinities, are not modelled. The caller must supply a non-zero diameter sum when there are two or more features.
- FindNeighborhoodsFilter.FindNeighborhoods.Execute: requires bins of the right length and a non-zero diameter sum, where the source would read out of bounds or divide by zero. `fabsf` of the wrapped difference is compared exactly, without the rounding of a 2^64-scale value to `float`.
- FindNeighborhoods.cpp:168-176, RemoveComponentFromArray.cpp:153-161 and MultiEmmpmFilter.cpp:238-247 (`preflight` of the three real filters): these only raise a flag, emit signals and call `dataCheck`. `dataCheck` is modelled; the signals are not.
- RemoveComponentFromArray.cpp:72-110 and 202-210, and the matching `setupFilterParameters`, `readFilterParameters`, `writeFilterParameters` and `newFilterInstance` of FindNeighborhoods and MultiEmmpm, except MultiEmmpm's `newFilterInstance`: these are parameter persistence and user-interface declarations.
- The `EXECUTE_FUNCTION_TEMPLATE` type dispatch: one generic element type stands in for every `DataArray<T>`. A type mismatch is modelled as "nothing written". Integer element widths and their overflow are not modelled.
- The EM/MPM segmentation library behind `EMMPMFilter::execute`: each run's outcome is an input. The message prefix set per run (MultiEmmpmFilter.cpp:284-285) is not modelled.
- The completion status "Complete" is modelled only for FilterGroup11, Filt0 and Filt1, where it is the only effect of `execute`. The real filters' status messages (FindNeighborhoods.cpp:291, RemoveComponentFromArray.cpp:196, MultiEmmpmFilter.cpp:312), all error messages and all Qt `emit` signals are left out.
- UnaryOperators.UnaryOperator.CheckValidity: requires an index of at least −1. Below that the source reads `infixVector[currentIndex + 1]` outside the vector; the calculator only ever passes the operator's own position, which is at least 0.
- SurfaceMesh.SurfaceMeshDataContainer.BuildMeshTriangleNeighborLists: the neighbour-list generator is a parameter (MeshTriangleNeighbors is not part of this model).
- SurfaceMesh.SurfaceMeshDataContainer.ResizeFieldDataArrays: an array is a name and a tuple count; the values kept or dropped by `resize` are not modelled. Two keys sharing one array object are not considered.
- FilterCallback `getSetterCallback` / `getGetterCallback` (FilterParameter.cpp:29-36, 73-80, 117-124): plain field reads, modelled by the `setter`/`getter` fields themselves.
- FilterParameter.cpp:158-264: a second, malformed copy of the parameter definitions.
- FilterGroup11Filter.FilterGroup11.Execute: cancel set concurrently by another thread during the run is not modelled. FilterGroup11.cpp:129-137 (`newFilterInstance`) only creates a default filter and is not modelled.
- TestFilters.ReadFloat: the source reads through the `float` overload, which rounds the stored number to single precision. The model returns the stored number exactly, and the defaults 6.6 and 9.9 are held as exact reals rather than as the nearest `float`.
- FindNeighborhoodsFilter.FindNeighborhoods.constructor: the default names ("NeighborhoodList", "Neighborhoods") and default paths ("ImageDataContainer", "CellFeatureData", "EquivalentDiameters", "Phases", "Centroids") are assumed spellings of library constants that are not part of this model.
- SurfaceMesh.VertexLinks: MeshVertLinks::generateMeshVertLinks is not part of this model. The model lists each triangle once in the links of each vertex it uses, so a degenerate triangle that repeats a vertex is listed once for it; whether the library does the same is not known here.
- TestFilters.ReadInt: a stored value that is not an exact 32-bit integer reads as the default. This is the JSON reader's behaviour, which is not part of this model, so nothing more is promised.
- RemoveComponentFromArrayFilter.RemoveComponentCheck: refuses negative component numbers with −11003, which the source lets through (see Findings).

## Findings

| source | as written | input that shows it | evidently intended | confidence | as-written member | corrected member |
|---|---|---|---|---|---|---|
| Source/Plugins/Statistics/StatisticsFilters/FindNeighborhoods.cpp:254-256 | `fabsf(bin2x - bin1x)` subtracts two `size_t` bins, so a later feature with a smaller bin gives 2^64 minus the gap | features 1 and 2 at bins (1,0,0) and (0,0,0), critical distance 2 each: neither lists the other | the absolute per-axis bin distance, symmetric in the two features | high; not executed | FindNeighborhoodsFilter.WrappedMissesAdjacentPair | FindNeighborhoodsFilter.AbsoluteMeansClose |
| Source/DREAM3DLib/CoreFilters/RemoveComponentFromArray.cpp:137-143 | only `m_CompNumber >= components` is refused, so a negative component number passes, and `numComps * i + compNumber` in `size_t` wraps | component −1 on a 2-component array: tuple 0 reads at index 2^64 − 1, outside the input, and tuple i ≥ 1 reads component 1 of tuple i − 1; this assumes `getNumberOfComponents()` returns a signed `int` (its header is not part of this model), since an unsigned return would refuse −1 at :137 | refuse component numbers outside [0, components) | high; not executed | RemoveComponentFromArrayFilter.NegativeCompNumberReadsOutside | RemoveComponentFromArrayFilter.ReadsInBounds |

The whole search is proved for both bin differences. `FindNeighborhoodsFilter.FindNeighborhoods.Execute` keeps the difference as written, because it models the filter as it runs. `AbsoluteLinksAdjacentPair` and `AbsoluteMeansClose` state what the corrected search computes. `RemoveComponentFromArrayFilter.RemoveComponentCheck` uses the corrected guard `Accepts`, and `AcceptsAsWritten` and `GuardsDiffer` record the difference.
