/**
 * MeshSaveUtility: the subset of the Wavefront OBJ text format the meshing
 * demo writes and reads back. A mesh is written as a "# " header, one
 * "v x y z" line per vertex, a blank line, one "vn x y z" line per normal,
 * a blank line, one "f a/a/a b/b/b c/c/c" line per triangle (1-based
 * indices) and a blank line. The labelled variant adds "#id", "#state" and
 * one "#l" line after each vertex.
 *
 * Floats and enum names are read and written through a Codec: the model
 * does not fix how a float is formatted, only that its token holds no
 * separator and reads back as itself (Faithful).
 */
module MeshSave {
  import opened Results
  import opened Text

  datatype Vector3<F> = Vector3(x: F, y: F, z: F)

  /** The parts of a Unity Mesh the files carry. */
  datatype Mesh<F> = Mesh(name: string, vertices: seq<Vector3<F>>,
                          normals: seq<Vector3<F>>, triangles: seq<Int32>)

  /** NRMeshInfo: a mesh block with its identifier, state and per-vertex labels. */
  datatype MeshInfo<F, S, L> = MeshInfo(identifier: UInt64, state: S, labels: seq<L>,
                                        baseMesh: Mesh<F>)

  /** How values of one kind become a token and are read back from one:
      float formatting and float.Parse, or an enum's ToString and Enum.Parse. */
  datatype Codec<!T> = Codec(show: T -> string, read: string -> Option<T>)

  /** The characters a line is split on when it is read. */
  const Seps: set<char> := {' ', '/'}

  /** Every value's token is a single token of its line and reads back as
      the value. */
  ghost predicate Faithful<T(!new)>(c: Codec<T>)
  {
    forall t :: NoneOf(c.show(t), Seps) && NoneOf(c.show(t), {'\n'}) && c.read(c.show(t)) == Some(t)
  }

  /* ---------- writing ---------- */

  /** "v x y z" or "vn x y z". */
  function VectorLine<F>(fc: Codec<F>, tag: string, v: Vector3<F>): string
  {
    tag + " " + fc.show(v.x) + " " + fc.show(v.y) + " " + fc.show(v.z)
  }

  function VectorLines<F>(fc: Codec<F>, tag: string, vs: seq<Vector3<F>>): (r: seq<string>)
    ensures |r| == |vs|
    decreases |vs|
  {
    if vs == [] then []
    else VectorLines(fc, tag, vs[..|vs| - 1]) + [VectorLine(fc, tag, vs[|vs| - 1])]
  }

  /** A triangle index as written: one-based, with unchecked int addition. */
  function IndexToken(t: Int32): string
  {
    IntToString(Inc32(t))
  }

  /** "f a/a/a b/b/b c/c/c". */
  function FaceLine(a: Int32, b: Int32, c: Int32): string
  {
    Face(IndexToken(a), IndexToken(b), IndexToken(c))
  }

  function Face(ta: string, tb: string, tc: string): string
  {
    "f " + ta + "/" + ta + "/" + ta + " " + tb + "/" + tb + "/" + tb + " " + tc + "/" + tc + "/" + tc
  }

  /** The lines of the first n triangles. */
  function FaceLines(tris: seq<Int32>, n: nat): (r: seq<string>)
    requires 3 * n <= |tris|
    ensures |r| == n
  {
    if n == 0 then []
    else FaceLines(tris, n - 1) + [FaceLine(tris[3 * n - 3], tris[3 * n - 2], tris[3 * n - 1])]
  }

  /** The lines both writers end with: a blank line, the normals, a blank
      line, the faces and a blank line. */
  function TailLines<F>(fc: Codec<F>, normals: seq<Vector3<F>>, tris: seq<Int32>): seq<string>
  {
    [""] + VectorLines(fc, "vn", normals) + [""] + FaceLines(tris, |tris| / 3) + [""]
  }

  /** The text MeshToString returns, or the exception it throws when the
      triangle array does not hold whole triples. */
  function MeshText<F>(fc: Codec<F>, m: Mesh<F>): Result<string, Exception>
  {
    if |m.triangles| % 3 != 0 then Err(IndexOutOfRange)
    else Ok(Lines(["# "] + VectorLines(fc, "v", m.vertices)
                  + TailLines(fc, m.normals, m.triangles)))
  }

  function LabelLine<L>(lc: Codec<L>, l: L): string
  {
    Glue(["#l", lc.show(l)], " ")
  }

  /** Each vertex line followed by the line of its label. */
  function LabelledLines<F, L>(fc: Codec<F>, lc: Codec<L>, vs: seq<Vector3<F>>, labels: seq<L>): (r: seq<string>)
    requires |vs| <= |labels|
    ensures |r| == 2 * |vs|
    decreases |vs|
  {
    if vs == [] then []
    else
      var n := |vs|;
      LabelledLines(fc, lc, vs[..n - 1], labels) + [VectorLine(fc, "v", vs[n - 1]), LabelLine(lc, labels[n - 1])]
  }

  function InfoHeader<S>(sc: Codec<S>, identifier: UInt64, state: S): seq<string>
  {
    ["# ", Glue(["#id", NatToString(identifier)], " "), Glue(["#state", sc.show(state)], " ")]
  }

  /** The text MeshInfoToString returns, or the exception it throws when a
      vertex has no label or the triangle array does not hold whole triples. */
  function InfoText<F, S, L>(fc: Codec<F>, sc: Codec<S>, lc: Codec<L>, info: MeshInfo<F, S, L>): Result<string, Exception>
  {
    var m := info.baseMesh;
    if |info.labels| < |m.vertices| || |m.triangles| % 3 != 0 then Err(IndexOutOfRange)
    else Ok(Lines(InfoHeader(sc, info.identifier, info.state)
                  + LabelledLines(fc, lc, m.vertices, info.labels)
                  + TailLines(fc, m.normals, m.triangles)))
  }

  /** MeshToString. */
  method MeshToString<F>(fc: Codec<F>, mesh: Mesh<F>) returns (r: Result<string, Exception>)
    ensures r == MeshText(fc, mesh)
  {
    var sb := "# \n";
    assert sb == Lines(["# "]);
    sb := AppendVectors(fc, "v", sb, ["# "], mesh.vertices);
    r := AppendTail(fc, sb, ["# "] + VectorLines(fc, "v", mesh.vertices), mesh.normals, mesh.triangles);
  }

  /** One "v" or "vn" line per vector, in order, appended to the text of
      the lines written so far. */
  method AppendVectors<F>(fc: Codec<F>, tag: string, sb0: string, ghost written0: seq<string>,
                          vs: seq<Vector3<F>>)
      returns (sb: string)
    requires sb0 == Lines(written0)
    ensures sb == Lines(written0 + VectorLines(fc, tag, vs))
  {
    sb := sb0;
    ghost var written := written0;
    for i := 0 to |vs|
      invariant written == written0 + VectorLines(fc, tag, vs[..i])
      invariant sb == Lines(written)
    {
      var line := VectorLine(fc, tag, vs[i]);
      LinesSnoc(written, line);
      sb := sb + line + "\n";
      written := written + [line];
      assert vs[..i + 1][..i] == vs[..i];
    }
    assert vs[..|vs|] == vs;
  }

  /** One "f" line per index triple, appended to the text written so
      far; an array that does not hold whole triples runs off its end. */
  method AppendFaces(sb0: string, triangles: seq<Int32>) returns (r: Result<string, Exception>)
    ensures |triangles| % 3 != 0 ==> r == Err(IndexOutOfRange)
    ensures |triangles| % 3 == 0 ==> r == Ok(sb0 + Lines(FaceLines(triangles, |triangles| / 3)))
  {
    var sb := sb0;
    var i := 0;
    ghost var faces := 0;
    while i < |triangles|
      invariant 0 <= i <= |triangles| && i == 3 * faces
      invariant sb == sb0 + Lines(FaceLines(triangles, faces))
    {
      if i + 2 >= |triangles| {
        assert |triangles| % 3 != 0 by { Triples(faces, |triangles| - i, |triangles|); }
        return Err(IndexOutOfRange);
      }
      var line := FaceLine(triangles[i], triangles[i + 1], triangles[i + 2]);
      FaceStep(sb0, triangles, faces);
      sb := sb + line + "\n";
      i := i + 3;
      faces := faces + 1;
    }
    Triples(faces, 0, |triangles|);
    r := Ok(sb);
  }

  lemma FaceStep(sb0: string, triangles: seq<Int32>, n: nat)
    requires 3 * n + 3 <= |triangles|
    ensures sb0 + Lines(FaceLines(triangles, n + 1))
            == sb0 + Lines(FaceLines(triangles, n))
               + FaceLine(triangles[3 * n], triangles[3 * n + 1], triangles[3 * n + 2]) + "\n"
  {
    var line := FaceLine(triangles[3 * n], triangles[3 * n + 1], triangles[3 * n + 2]);
    LinesSnoc(FaceLines(triangles, n), line);
  }

  lemma Triples(q: nat, d: nat, n: nat)
    requires d < 3 && n == 3 * q + d
    ensures n % 3 == d && n / 3 == q
  {
  }

  lemma Regroup(w: seq<string>, vs: seq<string>, fs: seq<string>)
    ensures w + [""] + vs + [""] + fs + [""] == w + ([""] + vs + [""] + fs + [""])
  {
  }

  /** The part the two writers share: the normals and the faces, appended
      to the text of the lines written so far. */
  method AppendTail<F>(fc: Codec<F>, sb0: string, ghost written0: seq<string>,
                       normals: seq<Vector3<F>>, triangles: seq<Int32>)
      returns (r: Result<string, Exception>)
    requires sb0 == Lines(written0)
    ensures |triangles| % 3 != 0 ==> r == Err(IndexOutOfRange)
    ensures |triangles| % 3 == 0 ==> r == Ok(Lines(written0 + TailLines(fc, normals, triangles)))
  {
    LinesSnoc(written0, "");
    var sb := AppendVectors(fc, "vn", sb0 + "\n", written0 + [""], normals);
    ghost var written := written0 + [""] + VectorLines(fc, "vn", normals);
    LinesSnoc(written, "");
    assert sb + "\n" == Lines(written + [""]);
    r := AppendFaces(sb + "\n", triangles);
    if r.Ok? {
      ghost var faces := FaceLines(triangles, |triangles| / 3);
      ghost var all := written + [""] + faces;
      LinesAppend(written + [""], faces);
      assert r.value == Lines(all);
      LinesSnoc(all, "");
      assert r.value + "\n" == Lines(all + [""]);
      Regroup(written0, VectorLines(fc, "vn", normals), faces);
      assert TailLines(fc, normals, triangles) == [""] + VectorLines(fc, "vn", normals) + [""] + faces + [""];
      r := Ok(r.value + "\n");
    }
  }

  /** MeshInfoToString. */
  method MeshInfoToString<F, S, L>(fc: Codec<F>, sc: Codec<S>, lc: Codec<L>, info: MeshInfo<F, S, L>)
      returns (r: Result<string, Exception>)
    ensures r == InfoText(fc, sc, lc, info)
  {
    var mesh := info.baseMesh;
    var labels := info.labels;
    var idLine := Glue(["#id", NatToString(info.identifier)], " ");
    var stateLine := Glue(["#state", sc.show(info.state)], " ");
    var sb := "# \n";
    assert sb == Lines(["# "]);
    LinesSnoc(["# "], idLine);
    sb := sb + idLine + "\n";
    LinesSnoc(["# ", idLine], stateLine);
    sb := sb + stateLine + "\n";
    ghost var written := InfoHeader(sc, info.identifier, info.state);
    assert ["# "] + [idLine] + [stateLine] == written;
    var vertices := mesh.vertices;
    var index := 0;
    while index < |vertices|
      invariant 0 <= index <= |vertices| && index <= |labels|
      invariant written == InfoHeader(sc, info.identifier, info.state)
                           + LabelledLines(fc, lc, vertices[..index], labels)
      invariant sb == Lines(written)
    {
      if index >= |labels| {
        return Err(IndexOutOfRange);
      }
      var vline := VectorLine(fc, "v", vertices[index]);
      var lline := LabelLine(lc, labels[index]);
      LinesSnoc(written, vline);
      LinesSnoc(written + [vline], lline);
      sb := sb + vline + "\n" + lline + "\n";
      assert written + [vline] + [lline] == written + [vline, lline];
      written := written + [vline, lline];
      assert vertices[..index + 1][..index] == vertices[..index];
      index := index + 1;
    }
    assert vertices[..index] == vertices;
    r := AppendTail(fc, sb, written, mesh.normals, mesh.triangles);
  }

  /* ---------- reading ---------- */

  /** The lists StringToMesh fills while it reads. */
  datatype Builder<F> = Builder(vertices: seq<Vector3<F>>, normals: seq<Vector3<F>>,
                                triangles: seq<Int32>)

  /** The token nums[k] read with a codec: IndexOutOfRange when the line has
      no such token, the given exception when the codec rejects it. */
  function ReadToken<T>(c: Codec<T>, nums: seq<string>, k: nat, failure: Exception): (r: Result<T, Exception>)
    ensures k >= |nums| ==> r == Err(IndexOutOfRange)
    ensures k < |nums| ==> (r.Ok? <==> c.read(nums[k]).Some?)
    ensures r.Ok? ==> Some(r.value) == c.read(nums[k])
    ensures r.Err? && k < |nums| ==> r.error == failure
  {
    if k < |nums| then
      match c.read(nums[k])
      case Some(x) => Ok(x)
      case None => Err(failure)
    else Err(IndexOutOfRange)
  }

  /** new Vector3(float.Parse(nums[1]), float.Parse(nums[2]), float.Parse(nums[3])),
      its arguments evaluated left to right. */
  function ReadVector<F>(fc: Codec<F>, nums: seq<string>): Result<Vector3<F>, Exception>
  {
    var x :- ReadToken(fc, nums, 1, Format);
    var y :- ReadToken(fc, nums, 2, Format);
    var z :- ReadToken(fc, nums, 3, Format);
    Ok(Vector3(x, y, z))
  }

  /** int.Parse(nums[k]) - 1, the subtraction unchecked. */
  function ReadIndex(nums: seq<string>, k: nat): Result<Int32, Exception>
  {
    if k < |nums| then
      var n :- ParseInt32(nums[k]);
      Ok(Dec32(n))
    else Err(IndexOutOfRange)
  }

  /** The three indices of a face line: tokens 1, 4 and 7. */
  function ReadFace(nums: seq<string>): Result<seq<Int32>, Exception>
  {
    var a :- ReadIndex(nums, 1);
    var b :- ReadIndex(nums, 4);
    var c :- ReadIndex(nums, 7);
    Ok([a, b, c])
  }

  /** The first token of a line: the switch of both readers. */
  function Head(line: string): string
  {
    Split(line, Seps)[0]
  }

  /** One line of StringToMesh's loop. A line whose first token is not
      "v", "vn" or "f" changes nothing. */
  function MeshLine<F>(fc: Codec<F>, b: Builder<F>, line: string): Result<Builder<F>, Exception>
  {
    var nums := Split(line, Seps);
    if nums[0] == "v" then
      var v :- ReadVector(fc, nums);
      Ok(b.(vertices := b.vertices + [v]))
    else if nums[0] == "vn" then
      var n :- ReadVector(fc, nums);
      Ok(b.(normals := b.normals + [n]))
    else if nums[0] == "f" then
      var t :- ReadFace(nums);
      Ok(b.(triangles := b.triangles + t))
    else Ok(b)
  }

  /** A line whose first token is not v, vn or f is skipped; any other line
      only appends to the lists, and appends one vertex (one normal)
      exactly when it is a v (vn) line. */
  lemma MeshLineEffect<F>(fc: Codec<F>, b: Builder<F>, line: string)
    ensures Head(line) !in {"v", "vn", "f"} ==> MeshLine(fc, b, line) == Ok(b)
    ensures MeshLine(fc, b, line).Ok? ==>
              var r := MeshLine(fc, b, line).value;
              && b.vertices <= r.vertices && b.normals <= r.normals && b.triangles <= r.triangles
              && |r.vertices| == |b.vertices| + (if Head(line) == "v" then 1 else 0)
              && |r.normals| == |b.normals| + (if Head(line) == "vn" then 1 else 0)
  {
  }

  /** StringToMesh's loop over the remaining lines: the first exception
      thrown, or the filled lists. */
  function MeshFold<F>(fc: Codec<F>, b: Builder<F>, lines: seq<string>): Result<Builder<F>, Exception>
    decreases |lines|
  {
    if lines == [] then Ok(b)
    else
      var b' :- MeshLine(fc, b, lines[0]);
      MeshFold(fc, b', lines[1..])
  }

  function NoLists<F>(): Builder<F>
  {
    Builder([], [], [])
  }

  /** What StringToMesh returns (a mesh with the default empty name) or throws. */
  function ParseMesh<F>(fc: Codec<F>, data: string): Result<Mesh<F>, Exception>
  {
    var b :- MeshFold(fc, NoLists(), Split(data, {'\n'}));
    Ok(Mesh("", b.vertices, b.normals, b.triangles))
  }

  /** StringToMesh. */
  method StringToMesh<F>(fc: Codec<F>, data: string) returns (r: Result<Mesh<F>, Exception>)
    ensures r == ParseMesh(fc, data)
  {
    var lines := Split(data, {'\n'});
    var verticeList, normalList, triangleList := [], [], [];
    for i := 0 to |lines|
      invariant MeshFold(fc, Builder(verticeList, normalList, triangleList), lines[i..])
                == MeshFold(fc, NoLists(), lines)
    {
      assert lines[i..][1..] == lines[i + 1..];
      var nums := Split(lines[i], Seps);
      if nums[0] == "v" {
        var v :- ReadVector(fc, nums);
        verticeList := verticeList + [v];
      } else if nums[0] == "vn" {
        var n :- ReadVector(fc, nums);
        normalList := normalList + [n];
      } else if nums[0] == "f" {
        var a :- ReadIndex(nums, 1);
        var b :- ReadIndex(nums, 4);
        var c :- ReadIndex(nums, 7);
        triangleList := triangleList + [a, b, c];
      }
    }
    return Ok(Mesh("", verticeList, normalList, triangleList));
  }

  /** The fields StringToMeshInfo fills: the mesh lists, then the identifier,
      state and labels of the NRMeshInfo it returns. */
  datatype InfoBuilder<F, S, L> = InfoBuilder(mesh: Builder<F>, identifier: UInt64, state: S,
                                              labels: seq<L>)

  /** ulong.Parse(nums[1]). */
  function ReadIdentifier(nums: seq<string>): Result<UInt64, Exception>
  {
    if 1 < |nums| then ParseUInt64(nums[1]) else Err(IndexOutOfRange)
  }

  /** One line of StringToMeshInfo's loop: the metadata lines, and every
      other line as StringToMesh reads it. */
  function InfoLine<F, S, L>(fc: Codec<F>, sc: Codec<S>, lc: Codec<L>, ib: InfoBuilder<F, S, L>, line: string)
      : Result<InfoBuilder<F, S, L>, Exception>
  {
    var nums := Split(line, Seps);
    if nums[0] == "#id" then
      var id :- ReadIdentifier(nums);
      Ok(ib.(identifier := id))
    else if nums[0] == "#state" then
      var s :- ReadToken(sc, nums, 1, Argument);
      Ok(ib.(state := s))
    else if nums[0] == "#l" then
      var l :- ReadToken(lc, nums, 1, Argument);
      Ok(ib.(labels := ib.labels + [l]))
    else
      var m :- MeshLine(fc, ib.mesh, line);
      Ok(ib.(mesh := m))
  }

  /** A line with no metadata head changes only the mesh, as StringToMesh would. */
  lemma InfoLinePlain<F, S, L>(fc: Codec<F>, sc: Codec<S>, lc: Codec<L>, ib: InfoBuilder<F, S, L>, line: string)
    requires Head(line) !in {"#id", "#state", "#l"}
    ensures InfoLine(fc, sc, lc, ib, line) == (var m :- MeshLine(fc, ib.mesh, line); Ok(ib.(mesh := m)))
  {
  }

  function InfoFold<F, S, L>(fc: Codec<F>, sc: Codec<S>, lc: Codec<L>, ib: InfoBuilder<F, S, L>, lines: seq<string>)
      : Result<InfoBuilder<F, S, L>, Exception>
    decreases |lines|
  {
    if lines == [] then Ok(ib)
    else
      var ib' :- InfoLine(fc, sc, lc, ib, lines[0]);
      InfoFold(fc, sc, lc, ib', lines[1..])
  }

  /** What StringToMeshInfo returns or throws. A new NRMeshInfo starts with
      identifier 0 and the state enum's zero value, `initial`; the mesh is
      named with the decimal digits of the identifier. */
  function ParseMeshInfo<F, S, L>(fc: Codec<F>, sc: Codec<S>, lc: Codec<L>, initial: S, data: string)
      : Result<MeshInfo<F, S, L>, Exception>
  {
    var ib :- InfoFold(fc, sc, lc, InfoBuilder(NoLists(), 0, initial, []), Split(data, {'\n'}));
    Ok(MeshInfo(ib.identifier, ib.state, ib.labels,
                Mesh(NatToString(ib.identifier), ib.mesh.vertices, ib.mesh.normals, ib.mesh.triangles)))
  }

  /** StringToMeshInfo. */
  method StringToMeshInfo<F, S, L>(fc: Codec<F>, sc: Codec<S>, lc: Codec<L>, initial: S, data: string)
      returns (r: Result<MeshInfo<F, S, L>, Exception>)
    ensures r == ParseMeshInfo(fc, sc, lc, initial, data)
  {
    var identifier: UInt64, state := 0, initial;
    var lines := Split(data, {'\n'});
    var verticeList, normalList, labelList, triangleList := [], [], [], [];
    for i := 0 to |lines|
      invariant InfoFold(fc, sc, lc, InfoBuilder(Builder(verticeList, normalList, triangleList),
                                                 identifier, state, labelList), lines[i..])
                == InfoFold(fc, sc, lc, InfoBuilder(NoLists(), 0, initial, []), lines)
    {
      assert lines[i..][1..] == lines[i + 1..];
      var nums := Split(lines[i], Seps);
      if nums[0] == "v" {
        var v :- ReadVector(fc, nums);
        verticeList := verticeList + [v];
      } else if nums[0] == "vn" {
        var n :- ReadVector(fc, nums);
        normalList := normalList + [n];
      } else if nums[0] == "f" {
        var a :- ReadIndex(nums, 1);
        var b :- ReadIndex(nums, 4);
        var c :- ReadIndex(nums, 7);
        triangleList := triangleList + [a, b, c];
      } else if nums[0] == "#id" {
        identifier :- ReadIdentifier(nums);
      } else if nums[0] == "#state" {
        state :- ReadToken(sc, nums, 1, Argument);
      } else if nums[0] == "#l" {
        var l :- ReadToken(lc, nums, 1, Argument);
        labelList := labelList + [l];
      }
    }
    var mesh := Mesh(NatToString(identifier), verticeList, normalList, triangleList);
    return Ok(MeshInfo(identifier, state, labelList, mesh));
  }
}
