/**
 * The surface-mesh data container: vertices and triangles, the links from each vertex to
 * the triangles that use it, and three name-keyed stores of attribute arrays (cell, field
 * and ensemble data), each with a cached tuple count.
 *
 * The stores hold shared array objects: adding an array under a key renames that very object
 * to the key, and resizing the field data resizes the stored objects in place.
 */
module SurfaceMesh {

  datatype Option<T> = None | Some(value: T)

  /** A stored array: its name and its tuple count (its values play no part here). */
  class AttributeArray {
    var name: string
    var numTuples: nat

    constructor (name: string, numTuples: nat)
      ensures this.name == name && this.numTuples == numTuples
    {
      this.name := name;
      this.numTuples := numTuples;
    }

    method SetName(name: string)
      modifies this
      ensures this.name == name && numTuples == old(numTuples)
    {
      this.name := name;
    }

    method Resize(size: nat)
      modifies this
      ensures numTuples == size && name == old(name)
    {
      numTuples := size;
    }
  }

  datatype Vertex = Vertex(x: real, y: real, z: real)

  /** A triangle, given by the indices of its three vertices. */
  datatype Face = Face(v0: nat, v1: nat, v2: nat)

  predicate Uses(f: Face, v: nat)
  {
    f.v0 == v || f.v1 == v || f.v2 == v
  }

  /** The indices, in increasing order, of the faces among `faces[..hi]` that use vertex `v`. */
  function FacesUsing(faces: seq<Face>, v: nat, hi: nat): seq<nat>
    requires hi <= |faces|
  {
    if hi == 0 then []
    else FacesUsing(faces, v, hi - 1) + (if Uses(faces[hi - 1], v) then [hi - 1] else [])
  }

  lemma {:induction false} FacesUsingMembership(faces: seq<Face>, v: nat, hi: nat, t: nat)
    requires hi <= |faces|
    ensures t in FacesUsing(faces, v, hi) <==> t < hi && Uses(faces[t], v)
  {
    if hi > 0 {
      FacesUsingMembership(faces, v, hi - 1, t);
    }
  }

  lemma {:induction false} FacesUsingIncreasing(faces: seq<Face>, v: nat, hi: nat)
    requires hi <= |faces|
    ensures forall a, b :: 0 <= a < b < |FacesUsing(faces, v, hi)| ==>
              FacesUsing(faces, v, hi)[a] < FacesUsing(faces, v, hi)[b]
  {
    if hi > 0 {
      FacesUsingIncreasing(faces, v, hi - 1);
      var before := FacesUsing(faces, v, hi - 1);
      forall a | 0 <= a < |before| ensures before[a] < hi - 1 {
        FacesUsingMembership(faces, v, hi - 1, before[a]);
      }
    }
  }

  /** The vertex links of a mesh: for each vertex, the triangles that use it. */
  function VertexLinks(numVertices: nat, faces: seq<Face>): (links: seq<seq<nat>>)
    ensures |links| == numVertices
  {
    seq(numVertices, v requires 0 <= v < numVertices => FacesUsing(faces, v, |faces|))
  }

  /** A triangle links to vertex `v` exactly when it is one of its corners. */
  lemma VertexLinksExact(numVertices: nat, faces: seq<Face>, v: nat, t: nat)
    requires v < numVertices
    ensures t in VertexLinks(numVertices, faces)[v] <==> t < |faces| && Uses(faces[t], v)
  {
    FacesUsingMembership(faces, v, |faces|, t);
  }

  /**
   * Lexicographic order on names, the order a `std::map<std::string, ...>` keeps its keys in:
   * the first differing character decides, and a proper prefix comes first.
   */
  predicate LexLess(a: string, b: string)
  {
    if |a| == 0 then |b| > 0
    else if |b| == 0 then false
    else a[0] < b[0] || (a[0] == b[0] && LexLess(a[1..], b[1..]))
  }

  lemma {:induction false} LexLessIrreflexive(a: string)
    ensures !LexLess(a, a)
  {
    if |a| > 0 {
      LexLessIrreflexive(a[1..]);
    }
  }

  lemma {:induction false} LexLessTransitive(a: string, b: string, c: string)
    requires LexLess(a, b) && LexLess(b, c)
    ensures LexLess(a, c)
  {
    if |a| > 0 && |b| > 0 && |c| > 0 && a[0] == b[0] && b[0] == c[0] {
      LexLessTransitive(a[1..], b[1..], c[1..]);
    }
  }

  lemma {:induction false} LexLessTotal(a: string, b: string)
    requires a != b
    ensures LexLess(a, b) || LexLess(b, a)
  {
    if |a| > 0 && |b| > 0 && a[0] == b[0] {
      assert a == [a[0]] + a[1..] && b == [b[0]] + b[1..];
      LexLessTotal(a[1..], b[1..]);
    }
  }

  /** Names in strictly ascending order, hence without repetition. */
  predicate Ascending(names: seq<string>)
  {
    forall i, j :: 0 <= i < j < |names| ==> LexLess(names[i], names[j])
  }

  /** The smallest of a non-empty set of names. */
  method Smallest(names: set<string>) returns (m: string)
    requires names != {}
    ensures m in names && forall k :: k in names && k != m ==> LexLess(m, k)
  {
    m :| m in names;
    var rest := names - {m};
    while rest != {}
      invariant rest <= names && m in names && m !in rest
      invariant forall k :: k in names && k !in rest && k != m ==> LexLess(m, k)
      decreases rest
    {
      var k :| k in rest;
      if LexLess(k, m) {
        forall j | j in names && j !in rest && j != k
          ensures LexLess(k, j)
        {
          if j != m {
            LexLessTransitive(k, m, j);
          }
        }
        m := k;
      } else {
        LexLessTotal(k, m);
      }
      rest := rest - {k};
    }
  }

  /** The keys of a map, in the order the map iterates them: ascending. */
  method AscendingKeys(keys: set<string>) returns (names: seq<string>)
    ensures Ascending(names)
    ensures forall k :: k in names <==> k in keys
    ensures |names| == |keys|
  {
    names := [];
    var rest := keys;
    while rest != {}
      invariant rest <= keys
      invariant Ascending(names)
      invariant forall k :: k in names <==> k in keys && k !in rest
      invariant forall i, k :: 0 <= i < |names| && k in rest ==> LexLess(names[i], k)
      invariant |names| + |rest| == |keys|
      decreases rest
    {
      var m := Smallest(rest);
      names := names + [m];
      rest := rest - {m};
    }
  }

  class SurfaceMeshDataContainer {
    var vertices: seq<Vertex>
    var faces: seq<Face>
    var meshVertLinks: Option<seq<seq<nat>>>
    var triangleNeighbors: Option<seq<seq<nat>>>

    var cellData: map<string, AttributeArray>
    var fieldData: map<string, AttributeArray>
    var ensembleData: map<string, AttributeArray>
    var numCellTuples: nat
    var numFieldTuples: nat
    var numEnsembleTuples: nat

    /** An empty container: no arrays and every tuple count 0. */
    constructor ()
      ensures cellData == map[] && fieldData == map[] && ensembleData == map[]
      ensures numCellTuples == 0 && numFieldTuples == 0 && numEnsembleTuples == 0
      ensures vertices == [] && faces == [] && meshVertLinks == None && triangleNeighbors == None
    {
      vertices, faces := [], [];
      meshVertLinks, triangleNeighbors := None, None;
      cellData, fieldData, ensembleData := map[], map[], map[];
      numCellTuples, numFieldTuples, numEnsembleTuples := 0, 0, 0;
    }

    /** Links every vertex to the triangles that use it. */
    method BuildMeshVertLinks()
      modifies this`meshVertLinks
      ensures meshVertLinks == Some(VertexLinks(|vertices|, faces))
    {
      meshVertLinks := Some(VertexLinks(|vertices|, faces));
    }

    /**
     * Generates the triangle neighbour lists from the vertex links; `generate` stands for the
     * neighbour-list generator, which is not part of this model.  Links built only for this
     * purpose are dropped again; links that were there before are kept.
     */
    method BuildMeshTriangleNeighborLists(generate: (seq<Vertex>, seq<Face>, seq<seq<nat>>) -> seq<seq<nat>>)
      modifies this`meshVertLinks, this`triangleNeighbors
      ensures meshVertLinks == old(meshVertLinks)
      ensures old(meshVertLinks).Some? ==>
                triangleNeighbors == Some(generate(vertices, faces, old(meshVertLinks).value))
      ensures old(meshVertLinks).None? ==>
                triangleNeighbors == Some(generate(vertices, faces, VertexLinks(|vertices|, faces)))
    {
      var deleteMeshVertLinks := false;
      if meshVertLinks.None? {
        BuildMeshVertLinks();
        deleteMeshVertLinks := true;
      }
      triangleNeighbors := Some(generate(vertices, faces, meshVertLinks.value));
      if deleteMeshVertLinks {
        meshVertLinks := None;
      }
    }

    // ---------------------------------------------------------------- cell data

    /** Stores `data` under `name`, renaming it to `name`, and takes its tuple count. */
    method AddCellData(name: string, data: AttributeArray)
      modifies this`cellData, this`numCellTuples, data
      ensures cellData == old(cellData)[name := data]
      ensures data.name == name && data.numTuples == old(data.numTuples)
      ensures numCellTuples == data.numTuples
    {
      if data.name != name {
        data.SetName(name);
      }
      cellData := cellData[name := data];
      numCellTuples := data.numTuples;
    }

    method GetCellData(name: string) returns (r: AttributeArray?)
      ensures name in cellData ==> r == cellData[name]
      ensures name !in cellData ==> r == null
    {
      r := if name in cellData then cellData[name] else null;
    }

    /** Takes the entry out of the store and returns it; the tuple count is left as it was. */
    method RemoveCellData(name: string) returns (r: AttributeArray?)
      modifies this`cellData
      ensures name in old(cellData) ==> r == old(cellData)[name]
      ensures name !in old(cellData) ==> r == null
      ensures cellData == old(cellData) - {name}
    {
      if name !in cellData {
        return null;
      }
      r := cellData[name];
      cellData := cellData - {name};
    }

    /** Empties the store; the cached tuple count is kept. */
    method ClearCellData()
      modifies this`cellData
      ensures cellData == map[]
    {
      cellData := map[];
    }

    method GetCellArrayNameList() returns (names: seq<string>)
      ensures Ascending(names)
      ensures forall k :: k in names <==> k in cellData
      ensures |names| == |cellData|
    {
      names := AscendingKeys(cellData.Keys);
    }

    method GetNumCellArrays() returns (n: nat)
      ensures n == |cellData|
    {
      n := |cellData|;
    }

    // --------------------------------------------------------------- field data

    method GetFieldData(name: string) returns (r: AttributeArray?)
      ensures name in fieldData ==> r == fieldData[name]
      ensures name !in fieldData ==> r == null
    {
      r := if name in fieldData then fieldData[name] else null;
    }

    /** Stores `data` under `name`, renaming it to `name`, and takes its tuple count. */
    method AddFieldData(name: string, data: AttributeArray)
      modifies this`fieldData, this`numFieldTuples, data
      ensures fieldData == old(fieldData)[name := data]
      ensures data.name == name && data.numTuples == old(data.numTuples)
      ensures numFieldTuples == data.numTuples
    {
      if data.name != name {
        data.SetName(name);
      }
      fieldData := fieldData[name := data];
      numFieldTuples := data.numTuples;
    }

    /** Takes the entry out of the store and returns it; the tuple count is left as it was. */
    method RemoveFieldData(name: string) returns (r: AttributeArray?)
      modifies this`fieldData
      ensures name in old(fieldData) ==> r == old(fieldData)[name]
      ensures name !in old(fieldData) ==> r == null
      ensures fieldData == old(fieldData) - {name}
    {
      if name !in fieldData {
        return null;
      }
      r := fieldData[name];
      fieldData := fieldData - {name};
    }

    /** Empties the store; the cached tuple count is kept. */
    method ClearFieldData()
      modifies this`fieldData
      ensures fieldData == map[]
    {
      fieldData := map[];
    }

    method GetFieldArrayNameList() returns (names: seq<string>)
      ensures Ascending(names)
      ensures forall k :: k in names <==> k in fieldData
      ensures |names| == |fieldData|
    {
      names := AscendingKeys(fieldData.Keys);
    }

    method GetNumFieldArrays() returns (n: nat)
      ensures n == |fieldData|
    {
      n := |fieldData|;
    }

    /**
     * Resizes every stored field array to `size` tuples and records `size` as the field tuple
     * count.  The stores themselves are not changed, and no array outside the field store is
     * touched (one stored in another store as well is resized with it).
     */
    method ResizeFieldDataArrays(size: nat)
      modifies this`numFieldTuples, fieldData.Values
      ensures numFieldTuples == size
      ensures forall k :: k in fieldData ==> fieldData[k].numTuples == size
      ensures forall a :: a in fieldData.Values ==> a.name == old(a.name)
    {
      var rest := fieldData.Keys;
      while rest != {}
        invariant rest <= fieldData.Keys
        invariant forall k :: k in fieldData && k !in rest ==> fieldData[k].numTuples == size
        invariant forall a :: a in fieldData.Values ==> a.name == old(a.name)
        decreases rest
      {
        var k :| k in rest;
        fieldData[k].Resize(size);
        rest := rest - {k};
      }
      numFieldTuples := size;
    }

    // ------------------------------------------------------------ ensemble data

    method GetEnsembleData(name: string) returns (r: AttributeArray?)
      ensures name in ensembleData ==> r == ensembleData[name]
      ensures name !in ensembleData ==> r == null
    {
      r := if name in ensembleData then ensembleData[name] else null;
    }

    /** Stores `data` under `name`, renaming it to `name`, and takes its tuple count. */
    method AddEnsembleData(name: string, data: AttributeArray)
      modifies this`ensembleData, this`numEnsembleTuples, data
      ensures ensembleData == old(ensembleData)[name := data]
      ensures data.name == name && data.numTuples == old(data.numTuples)
      ensures numEnsembleTuples == data.numTuples
    {
      if data.name != name {
        data.SetName(name);
      }
      ensembleData := ensembleData[name := data];
      numEnsembleTuples := data.numTuples;
    }

    /** Takes the entry out of the store and returns it; the tuple count is left as it was. */
    method RemoveEnsembleData(name: string) returns (r: AttributeArray?)
      modifies this`ensembleData
      ensures name in old(ensembleData) ==> r == old(ensembleData)[name]
      ensures name !in old(ensembleData) ==> r == null
      ensures ensembleData == old(ensembleData) - {name}
    {
      if name !in ensembleData {
        return null;
      }
      r := ensembleData[name];
      ensembleData := ensembleData - {name};
    }

    /** Empties the store and, unlike the other two stores, resets its tuple count to 0. */
    method ClearEnsembleData()
      modifies this`ensembleData, this`numEnsembleTuples
      ensures ensembleData == map[] && numEnsembleTuples == 0
    {
      ensembleData := map[];
      numEnsembleTuples := 0;
    }

    method GetEnsembleArrayNameList() returns (names: seq<string>)
      ensures Ascending(names)
      ensures forall k :: k in names <==> k in ensembleData
      ensures |names| == |ensembleData|
    {
      names := AscendingKeys(ensembleData.Keys);
    }

    method GetNumEnsembleArrays() returns (n: nat)
      ensures n == |ensembleData|
    {
      n := |ensembleData|;
    }
  }
}
