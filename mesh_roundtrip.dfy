/**
 * What the OBJ reader recovers from the OBJ writer's text: the tokens of
 * every line the writer produces, the effect of each line on the reader,
 * and the round trips of whole meshes and labelled mesh blocks.
 */
module MeshRoundTrip {
  import opened Results
  import opened Text
  import opened MeshSave

  /* ---------- tokens of one line ---------- */

  lemma VectorLineTokens<F(!new)>(fc: Codec<F>, tag: string, v: Vector3<F>)
    requires Faithful(fc) && NoneOf(tag, Seps) && NoneOf(tag, {'\n'})
    ensures Split(VectorLine(fc, tag, v), Seps) == [tag, fc.show(v.x), fc.show(v.y), fc.show(v.z)]
    ensures NoneOf(VectorLine(fc, tag, v), {'\n'})
  {
    var parts := [tag, fc.show(v.x), fc.show(v.y), fc.show(v.z)];
    assert VectorLine(fc, tag, v) == Glue(parts, "   ") by {
      assert parts[1..][1..][1..] == [fc.show(v.z)];
      assert parts[1..][1..] == [fc.show(v.y), fc.show(v.z)];
    }
    SplitGlue(parts, "   ", Seps);
    GlueAvoids(parts, "   ", {'\n'});
  }

  /** The text after "f ": the three corners, each t/t/t. */
  function Corners(ta: string, tb: string, tc: string): string
  {
    ta + "/" + (ta + "/" + (ta + " " + (tb + "/" + (tb + "/" + (tb + " " + (tc + "/" + (tc + "/" + tc)))))))
  }

  lemma FaceCorners(ta: string, tb: string, tc: string)
    ensures Face(ta, tb, tc) == "f" + [' '] + Corners(ta, tb, tc)
  {
  }

  /** One corner, t/t/t, then a separator and the rest of the line. */
  lemma CornerTokens(t: string, c: char, rest: string)
    requires NoneOf(t, Seps) && c in Seps
    ensures Split(t + "/" + (t + "/" + (t + [c] + rest)), Seps) == [t, t, t] + Split(rest, Seps)
  {
    SplitAt(t, c, rest, Seps);
    SplitAt(t, '/', t + [c] + rest, Seps);
    SplitAt(t, '/', t + "/" + (t + [c] + rest), Seps);
  }

  /** The last corner, t/t/t, at the end of the line. */
  lemma LastCornerTokens(t: string)
    requires NoneOf(t, Seps)
    ensures Split(t + "/" + (t + "/" + t), Seps) == [t, t, t]
  {
    SplitNone(t, Seps);
    SplitAt(t, '/', t, Seps);
    SplitAt(t, '/', t + "/" + t, Seps);
  }

  lemma CornersTokens(ta: string, tb: string, tc: string)
    requires NoneOf(ta, Seps) && NoneOf(tb, Seps) && NoneOf(tc, Seps)
    ensures Split(Corners(ta, tb, tc), Seps) == [ta, ta, ta, tb, tb, tb, tc, tc, tc]
  {
    var r2 := tc + "/" + (tc + "/" + tc);
    var r1 := tb + "/" + (tb + "/" + (tb + [' '] + r2));
    LastCornerTokens(tc);
    CornerTokens(tb, ' ', r2);
    CornerTokens(ta, ' ', r1);
    assert Corners(ta, tb, tc) == ta + "/" + (ta + "/" + (ta + [' '] + r1));
  }

  /** A face line splits into "f" and each corner's index three times;
      the reader takes tokens 1, 4 and 7. */
  lemma FaceTokens(ta: string, tb: string, tc: string)
    requires NoneOf(ta, Seps) && NoneOf(tb, Seps) && NoneOf(tc, Seps)
    ensures Split(Face(ta, tb, tc), Seps) == ["f", ta, ta, ta, tb, tb, tb, tc, tc, tc]
    ensures var nums := Split(Face(ta, tb, tc), Seps);
            |nums| == 10 && nums[0] == "f" && nums[1] == ta && nums[4] == tb && nums[7] == tc
  {
    FaceCorners(ta, tb, tc);
    CornersTokens(ta, tb, tc);
    SplitAt("f", ' ', Corners(ta, tb, tc), Seps);
  }

  lemma FaceOneLine(ta: string, tb: string, tc: string)
    requires NoneOf(ta, {'\n'}) && NoneOf(tb, {'\n'}) && NoneOf(tc, {'\n'})
    ensures NoneOf(Face(ta, tb, tc), {'\n'})
  {
    var nl := {'\n'};
    Avoids(tc, "/", nl);
    Avoids(tc + "/", tc, nl);
    Avoids(tc, "/", nl);
    Avoids(tc + "/", tc + "/" + tc, nl);
    var s6 := tc + "/" + (tc + "/" + tc);
    Avoids(tb, " ", nl);
    Avoids(tb + " ", s6, nl);
    var s5 := tb + " " + s6;
    Avoids(tb, "/", nl);
    Avoids(tb + "/", s5, nl);
    var s4 := tb + "/" + s5;
    Avoids(tb + "/", s4, nl);
    var s3 := tb + "/" + s4;
    Avoids(ta, " ", nl);
    Avoids(ta + " ", s3, nl);
    var s2 := ta + " " + s3;
    Avoids(ta, "/", nl);
    Avoids(ta + "/", s2, nl);
    var s1 := ta + "/" + s2;
    Avoids(ta + "/", s1, nl);
    Avoids("f ", Corners(ta, tb, tc), nl);
    FaceCorners(ta, tb, tc);
  }

  /** A number as written holds only digits and perhaps a minus sign. */
  lemma NumberToken(i: int)
    ensures NoneOf(IntToString(i), Seps) && NoneOf(IntToString(i), {'\n'})
  {
    var s := IntToString(i);
    if i < 0 {
      var d := NatToString(-i);
      assert s == "-" + d;
      assert forall k :: 0 <= k < |s| ==> s[k] == '-' || IsDigit(s[k]) by {
        forall k | 0 <= k < |s|
          ensures s[k] == '-' || IsDigit(s[k])
        {
          if k > 0 {
            assert s[k] == d[k - 1];
          }
        }
      }
    }
  }

  lemma IndexTokenShape(t: Int32)
    ensures NoneOf(IndexToken(t), Seps) && NoneOf(IndexToken(t), {'\n'})
    ensures ParseInt32(IndexToken(t)) == Ok(Inc32(t))
  {
    NumberToken(Inc32(t));
    Int32RoundTrip(Inc32(t));
  }

  /* ---------- what the reader does with each written line ---------- */

  /** The vectors a block of "v" or "vn" lines adds to the reader's lists. */
  function AddVectors<F>(b: Builder<F>, tag: string, vs: seq<Vector3<F>>): Builder<F>
  {
    if tag == "v" then b.(vertices := b.vertices + vs) else b.(normals := b.normals + vs)
  }

  lemma VectorLineRead<F(!new)>(fc: Codec<F>, b: Builder<F>, tag: string, v: Vector3<F>)
    requires Faithful(fc) && (tag == "v" || tag == "vn")
    ensures Head(VectorLine(fc, tag, v)) == tag
    ensures MeshLine(fc, b, VectorLine(fc, tag, v)) == Ok(AddVectors(b, tag, [v]))
  {
    VectorLineTokens(fc, tag, v);
    var nums := Split(VectorLine(fc, tag, v), Seps);
    assert ReadVector(fc, nums) == Ok(v) by {
      assert fc.read(fc.show(v.x)) == Some(v.x);
      assert fc.read(fc.show(v.y)) == Some(v.y);
      assert fc.read(fc.show(v.z)) == Some(v.z);
    }
  }

  /** A line whose first token is "f" and whose tokens 1, 4 and 7 read as
      indices adds those indices. */
  lemma FaceTokensRead<F>(fc: Codec<F>, b: Builder<F>, line: string, x: Int32, y: Int32, z: Int32)
    requires Head(line) == "f"
    requires ReadFace(Split(line, Seps)) == Ok([x, y, z])
    ensures MeshLine(fc, b, line) == Ok(b.(triangles := b.triangles + [x, y, z]))
  {
  }

  /** The number written for index x reads back as x. */
  lemma IndexRead(nums: seq<string>, k: nat, x: Int32)
    requires k < |nums| && nums[k] == IndexToken(x)
    ensures ReadIndex(nums, k) == Ok(x)
  {
    IndexTokenShape(x);
    IncDec(x);
  }

  /** The tokens of a written face line read back as its three indices. */
  lemma FaceLineTokens(x: Int32, y: Int32, z: Int32)
    ensures Head(FaceLine(x, y, z)) == "f"
    ensures ReadFace(Split(FaceLine(x, y, z), Seps)) == Ok([x, y, z])
  {
    var ta, tb, tc := IndexToken(x), IndexToken(y), IndexToken(z);
    IndexTokenShape(x);
    IndexTokenShape(y);
    IndexTokenShape(z);
    FaceTokens(ta, tb, tc);
    var line := FaceLine(x, y, z);
    assert line == Face(ta, tb, tc);
    var nums := Split(line, Seps);
    IndexRead(nums, 1, x);
    IndexRead(nums, 4, y);
    IndexRead(nums, 7, z);
  }

  lemma FaceLineRead<F>(fc: Codec<F>, b: Builder<F>, x: Int32, y: Int32, z: Int32)
    ensures Head(FaceLine(x, y, z)) == "f"
    ensures MeshLine(fc, b, FaceLine(x, y, z)) == Ok(b.(triangles := b.triangles + [x, y, z]))
  {
    FaceLineTokens(x, y, z);
    FaceTokensRead(fc, b, FaceLine(x, y, z), x, y, z);
  }

  lemma BlankRead<F>(fc: Codec<F>, b: Builder<F>)
    ensures Head("") == "" && MeshFold(fc, b, [""]) == Ok(b)
  {
    assert [""][1..] == [];
  }

  lemma HeaderRead<F>(fc: Codec<F>, b: Builder<F>)
    ensures Head("# ") == "#" && MeshLine(fc, b, "# ") == Ok(b) && MeshFold(fc, b, ["# "]) == Ok(b)
  {
    SplitAt("#", ' ', "", Seps);
    assert "#" + [' '] + "" == "# ";
    assert ["# "][1..] == [];
  }

  /* ---------- folds over blocks of lines ---------- */

  /** Reading two runs of lines is reading the first, then the second from
      where the first left the lists. */
  lemma {:induction false} MeshFoldThen<F>(fc: Codec<F>, b: Builder<F>, p: seq<string>, q: seq<string>)
    ensures MeshFold(fc, b, p + q) == (var b1 :- MeshFold(fc, b, p); MeshFold(fc, b1, q))
    decreases |p|
  {
    if p == [] {
      assert p + q == q;
    } else {
      assert (p + q)[0] == p[0] && (p + q)[1..] == p[1..] + q;
      match MeshLine(fc, b, p[0])
      case Err(_) =>
      case Ok(b') => MeshFoldThen(fc, b', p[1..], q);
    }
  }

  lemma MeshFoldOne<F>(fc: Codec<F>, b: Builder<F>, line: string)
    ensures MeshFold(fc, b, [line]) == MeshLine(fc, b, line)
  {
    assert [line][1..] == [];
  }

  lemma MeshFoldSnoc<F>(fc: Codec<F>, b: Builder<F>, p: seq<string>, line: string, b1: Builder<F>)
    requires MeshFold(fc, b, p) == Ok(b1)
    ensures MeshFold(fc, b, p + [line]) == MeshLine(fc, b1, line)
  {
    MeshFoldThen(fc, b, p, [line]);
    MeshFoldOne(fc, b1, line);
  }

  lemma FaceSnoc<F>(fc: Codec<F>, b: Builder<F>, p: seq<string>, b1: Builder<F>, x: Int32, y: Int32, z: Int32)
    requires MeshFold(fc, b, p) == Ok(b1)
    ensures MeshFold(fc, b, p + [FaceLine(x, y, z)]) == Ok(b1.(triangles := b1.triangles + [x, y, z]))
  {
    FaceLineRead(fc, b1, x, y, z);
    MeshFoldSnoc(fc, b, p, FaceLine(x, y, z), b1);
  }

  lemma VectorSnoc<F(!new)>(fc: Codec<F>, b: Builder<F>, p: seq<string>, b1: Builder<F>, tag: string, v: Vector3<F>)
    requires Faithful(fc) && (tag == "v" || tag == "vn")
    requires MeshFold(fc, b, p) == Ok(b1)
    ensures MeshFold(fc, b, p + [VectorLine(fc, tag, v)]) == Ok(AddVectors(b1, tag, [v]))
  {
    VectorLineRead(fc, b1, tag, v);
    MeshFoldSnoc(fc, b, p, VectorLine(fc, tag, v), b1);
  }

  lemma AddVectorsSnoc<F>(b: Builder<F>, tag: string, vs: seq<Vector3<F>>)
    requires vs != []
    ensures AddVectors(AddVectors(b, tag, vs[..|vs| - 1]), tag, [vs[|vs| - 1]]) == AddVectors(b, tag, vs)
  {
    assert vs[..|vs| - 1] + [vs[|vs| - 1]] == vs;
    assert b.vertices + vs[..|vs| - 1] + [vs[|vs| - 1]] == b.vertices + vs;
    assert b.normals + vs[..|vs| - 1] + [vs[|vs| - 1]] == b.normals + vs;
  }

  lemma VectorStep<F(!new)>(fc: Codec<F>, b: Builder<F>, tag: string, vs: seq<Vector3<F>>)
    requires Faithful(fc) && (tag == "v" || tag == "vn") && vs != []
    requires MeshFold(fc, b, VectorLines(fc, tag, vs[..|vs| - 1])) == Ok(AddVectors(b, tag, vs[..|vs| - 1]))
    ensures MeshFold(fc, b, VectorLines(fc, tag, vs)) == Ok(AddVectors(b, tag, vs))
  {
    var n := |vs|;
    VectorSnoc(fc, b, VectorLines(fc, tag, vs[..n - 1]), AddVectors(b, tag, vs[..n - 1]), tag, vs[n - 1]);
    AddVectorsSnoc(b, tag, vs);
  }

  /** A block of written "v" or "vn" lines gives back its vectors, in order. */
  lemma {:induction false} VectorBlock<F(!new)>(fc: Codec<F>, b: Builder<F>, tag: string, vs: seq<Vector3<F>>)
    requires Faithful(fc) && (tag == "v" || tag == "vn")
    ensures MeshFold(fc, b, VectorLines(fc, tag, vs)) == Ok(AddVectors(b, tag, vs))
    decreases |vs|
  {
    if vs == [] {
      assert b.vertices + vs == b.vertices && b.normals + vs == b.normals;
    } else {
      VectorBlock(fc, b, tag, vs[..|vs| - 1]);
      VectorStep(fc, b, tag, vs);
    }
  }

  /** What the face lines of the first n triangles add to a builder. */
  function WithFaces<F>(b: Builder<F>, tris: seq<Int32>, n: nat): Builder<F>
    requires 3 * n <= |tris|
  {
    b.(triangles := b.triangles + tris[..3 * n])
  }

  lemma FaceBlockStep<F>(fc: Codec<F>, b: Builder<F>, tris: seq<Int32>, n: nat)
    requires 1 <= n && 3 * n <= |tris|
    requires MeshFold(fc, b, FaceLines(tris, n - 1)) == Ok(WithFaces(b, tris, n - 1))
    ensures MeshFold(fc, b, FaceLines(tris, n)) == Ok(WithFaces(b, tris, n))
  {
    var b1 := b.(triangles := b.triangles + tris[..3 * n - 3]);
    FaceSnoc(fc, b, FaceLines(tris, n - 1), b1, tris[3 * n - 3], tris[3 * n - 2], tris[3 * n - 1]);
    NextTriple(b.triangles, tris, n);
  }

  /** The face lines of the first n triangles give back their 3n indices. */
  lemma {:induction false} FaceBlock<F>(fc: Codec<F>, b: Builder<F>, tris: seq<Int32>, n: nat)
    requires 3 * n <= |tris|
    ensures MeshFold(fc, b, FaceLines(tris, n)) == Ok(WithFaces(b, tris, n))
  {
    if n == 0 {
      assert b.triangles + tris[..0] == b.triangles;
    } else {
      FaceBlock(fc, b, tris, n - 1);
      FaceBlockStep(fc, b, tris, n);
    }
  }

  lemma NextTriple(pre: seq<Int32>, tris: seq<Int32>, n: nat)
    requires 1 <= n && 3 * n <= |tris|
    ensures pre + tris[..3 * n - 3] + [tris[3 * n - 3], tris[3 * n - 2], tris[3 * n - 1]] == pre + tris[..3 * n]
  {
    assert tris[..3 * n - 3] + [tris[3 * n - 3], tris[3 * n - 2], tris[3 * n - 1]] == tris[..3 * n];
  }

  /* ---------- the lines of a written file ---------- */

  ghost predicate OneLines(ls: seq<string>)
  {
    forall k :: 0 <= k < |ls| ==> NoneOf(ls[k], {'\n'})
  }

  /** Lines the labelled reader treats exactly as the plain reader does. */
  ghost predicate Plain(ls: seq<string>)
  {
    forall k :: 0 <= k < |ls| ==> Head(ls[k]) !in {"#id", "#state", "#l"}
  }

  lemma Joined(a: seq<string>, b: seq<string>)
    ensures OneLines(a) && OneLines(b) ==> OneLines(a + b)
    ensures Plain(a) && Plain(b) ==> Plain(a + b)
  {
    assert forall k :: 0 <= k < |a + b| ==> (a + b)[k] == (if k < |a| then a[k] else b[k - |a|]);
  }

  lemma {:induction false} VectorLinesShape<F(!new)>(fc: Codec<F>, tag: string, vs: seq<Vector3<F>>)
    requires Faithful(fc) && (tag == "v" || tag == "vn")
    ensures OneLines(VectorLines(fc, tag, vs)) && Plain(VectorLines(fc, tag, vs))
    decreases |vs|
  {
    if vs != [] {
      var n := |vs|;
      VectorLinesShape(fc, tag, vs[..n - 1]);
      VectorLineTokens(fc, tag, vs[n - 1]);
      VectorLineRead(fc, NoLists(), tag, vs[n - 1]);
      Joined(VectorLines(fc, tag, vs[..n - 1]), [VectorLine(fc, tag, vs[n - 1])]);
    }
  }

  lemma FaceLineShape(x: Int32, y: Int32, z: Int32)
    ensures NoneOf(FaceLine(x, y, z), {'\n'}) && Head(FaceLine(x, y, z)) == "f"
  {
    IndexTokenShape(x);
    IndexTokenShape(y);
    IndexTokenShape(z);
    FaceOneLine(IndexToken(x), IndexToken(y), IndexToken(z));
    FaceTokens(IndexToken(x), IndexToken(y), IndexToken(z));
  }

  lemma {:induction false} FaceLinesShape(tris: seq<Int32>, n: nat)
    requires 3 * n <= |tris|
    ensures OneLines(FaceLines(tris, n)) && Plain(FaceLines(tris, n))
  {
    if n > 0 {
      FaceLinesShape(tris, n - 1);
      FaceLineShape(tris[3 * n - 3], tris[3 * n - 2], tris[3 * n - 1]);
      Joined(FaceLines(tris, n - 1), [FaceLine(tris[3 * n - 3], tris[3 * n - 2], tris[3 * n - 1])]);
    }
  }

  lemma TailShape<F(!new)>(fc: Codec<F>, normals: seq<Vector3<F>>, tris: seq<Int32>)
    requires Faithful(fc)
    ensures OneLines(TailLines(fc, normals, tris)) && Plain(TailLines(fc, normals, tris))
    ensures OneLines(TailLines(fc, normals, tris) + [""]) && Plain(TailLines(fc, normals, tris) + [""])
  {
    var ns := VectorLines(fc, "vn", normals);
    var fs := FaceLines(tris, |tris| / 3);
    VectorLinesShape(fc, "vn", normals);
    FaceLinesShape(tris, |tris| / 3);
    BlankRead(fc, NoLists());
    Joined([""], ns);
    Joined([""] + ns, [""]);
    Joined([""] + ns + [""], fs);
    Joined([""] + ns + [""] + fs, [""]);
    Joined([""] + ns + [""] + fs + [""], [""]);
  }

  /** The blank line, normals, blank line, faces and blank lines that end
      both kinds of file give back the normals and the triangles. */
  lemma TailRead<F(!new)>(fc: Codec<F>, b: Builder<F>, normals: seq<Vector3<F>>, tris: seq<Int32>)
    requires Faithful(fc) && |tris| % 3 == 0
    ensures MeshFold(fc, b, TailLines(fc, normals, tris) + [""])
            == Ok(b.(normals := b.normals + normals, triangles := b.triangles + tris))
  {
    var ns := VectorLines(fc, "vn", normals);
    var n := |tris| / 3;
    var fs := FaceLines(tris, n);
    var b1 := b.(normals := b.normals + normals);
    var b2 := b1.(triangles := b.triangles + tris);
    BlankRead(fc, b);
    BlankRead(fc, b1);
    BlankRead(fc, b2);
    VectorBlock(fc, b, "vn", normals);
    MeshFoldThen(fc, b, [""], ns);
    MeshFoldThen(fc, b, [""] + ns, [""]);
    Triples(n, 0, |tris|);
    assert tris[..3 * n] == tris;
    FaceBlock(fc, b1, tris, n);
    MeshFoldThen(fc, b, [""] + ns + [""], fs);
    MeshFoldThen(fc, b, [""] + ns + [""] + fs, [""]);
    MeshFoldThen(fc, b, [""] + ns + [""] + fs + [""], [""]);
  }

  /* ---------- round trips ---------- */

  /** Reading the text of newline-free lines folds the reader over those
      lines and one empty line after the last newline. */
  lemma ParseLines<F>(fc: Codec<F>, ls: seq<string>)
    requires OneLines(ls)
    ensures ParseMesh(fc, Lines(ls))
            == (var b :- MeshFold(fc, NoLists(), ls + [""]); Ok(Mesh("", b.vertices, b.normals, b.triangles)))
  {
    SplitLines(ls);
  }

  lemma MeshLinesShape<F(!new)>(fc: Codec<F>, m: Mesh<F>, vs: seq<string>, tail: seq<string>)
    requires Faithful(fc)
    requires vs == VectorLines(fc, "v", m.vertices) && tail == TailLines(fc, m.normals, m.triangles)
    ensures OneLines(["# "] + vs + tail)
  {
    VectorLinesShape(fc, "v", m.vertices);
    TailShape(fc, m.normals, m.triangles);
    Joined(["# "], vs);
    Joined(["# "] + vs, tail);
  }

  /** Two folds that succeed in turn make one fold over both blocks. */
  lemma Compose<F>(fc: Codec<F>, b: Builder<F>, p: seq<string>, q: seq<string>, b1: Builder<F>, b2: Builder<F>)
    requires MeshFold(fc, b, p) == Ok(b1) && MeshFold(fc, b1, q) == Ok(b2)
    ensures MeshFold(fc, b, p + q) == Ok(b2)
  {
    MeshFoldThen(fc, b, p, q);
  }

  /** The header line, then a block of vertex lines, then the tail. */
  lemma HeaderThen<F>(fc: Codec<F>, vs: seq<string>, tail: seq<string>, b1: Builder<F>, b2: Builder<F>)
    requires MeshFold(fc, NoLists(), vs) == Ok(b1) && MeshFold(fc, b1, tail + [""]) == Ok(b2)
    ensures MeshFold(fc, NoLists(), ["# "] + vs + tail + [""]) == Ok(b2)
  {
    assert ["# "] + vs + tail + [""] == (["# "] + vs) + (tail + [""]);
    HeaderRead(fc, NoLists());
    Compose(fc, NoLists(), ["# "], vs, NoLists(), b1);
    Compose(fc, NoLists(), ["# "] + vs, tail + [""], b1, b2);
  }

  lemma MeshChain<F>(fc: Codec<F>, m: Mesh<F>, vs: seq<string>, tail: seq<string>)
    requires MeshFold(fc, NoLists(), vs) == Ok(AddVectors(NoLists(), "v", m.vertices))
    requires MeshFold(fc, AddVectors(NoLists(), "v", m.vertices), tail + [""])
             == Ok(AddVectors(NoLists(), "v", m.vertices).(normals := [] + m.normals, triangles := [] + m.triangles))
    ensures MeshFold(fc, NoLists(), ["# "] + vs + tail + [""]) == Ok(Builder(m.vertices, m.normals, m.triangles))
  {
    var b1 := Builder(m.vertices, [], []);
    assert AddVectors(NoLists(), "v", m.vertices) == b1;
    assert b1.(normals := [] + m.normals, triangles := [] + m.triangles) == Builder(m.vertices, m.normals, m.triangles);
    HeaderThen(fc, vs, tail, b1, Builder(m.vertices, m.normals, m.triangles));
  }

  lemma MeshLinesFold<F(!new)>(fc: Codec<F>, m: Mesh<F>, vs: seq<string>, tail: seq<string>)
    requires Faithful(fc) && |m.triangles| % 3 == 0
    requires vs == VectorLines(fc, "v", m.vertices) && tail == TailLines(fc, m.normals, m.triangles)
    ensures MeshFold(fc, NoLists(), ["# "] + vs + tail + [""]) == Ok(Builder(m.vertices, m.normals, m.triangles))
  {
    VectorBlock(fc, NoLists(), "v", m.vertices);
    TailRead(fc, AddVectors(NoLists(), "v", m.vertices), m.normals, m.triangles);
    MeshChain(fc, m, vs, tail);
  }

  /** StringToMesh(MeshToString(m)) is m, unnamed, whenever the triangle
      array holds whole triples (otherwise MeshToString throws) and every
      coordinate's text reads back as that coordinate. */
  lemma MeshTextRoundTrip<F(!new)>(fc: Codec<F>, m: Mesh<F>)
    requires Faithful(fc)
    ensures MeshText(fc, m).Ok? <==> |m.triangles| % 3 == 0
    ensures MeshText(fc, m).Ok? ==> ParseMesh(fc, MeshText(fc, m).value) == Ok(m.(name := ""))
  {
    if |m.triangles| % 3 == 0 {
      var vs := VectorLines(fc, "v", m.vertices);
      var tail := TailLines(fc, m.normals, m.triangles);
      MeshLinesShape(fc, m, vs, tail);
      MeshLinesFold(fc, m, vs, tail);
      ParseLines(fc, ["# "] + vs + tail);
    }
  }
}
