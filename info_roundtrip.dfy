/**
 * What StringToMeshInfo recovers from MeshInfoToString's text: the
 * metadata lines (#id, #state, #l) and the geometry lines, which the
 * labelled reader handles exactly as the plain OBJ reader does.
 */
module InfoRoundTrip {
  import opened Results
  import opened Text
  import opened MeshSave
  import opened MeshRoundTrip

  /* ---------- folds ---------- */

  lemma {:induction false} InfoFoldThen<F, S, L>(fc: Codec<F>, sc: Codec<S>, lc: Codec<L>, ib: InfoBuilder<F, S, L>,
                                                 p: seq<string>, q: seq<string>)
    ensures InfoFold(fc, sc, lc, ib, p + q) == (var ib1 :- InfoFold(fc, sc, lc, ib, p); InfoFold(fc, sc, lc, ib1, q))
    decreases |p|
  {
    if p == [] {
      assert p + q == q;
    } else {
      assert (p + q)[0] == p[0] && (p + q)[1..] == p[1..] + q;
      match InfoLine(fc, sc, lc, ib, p[0])
      case Err(_) =>
      case Ok(ib1) => InfoFoldThen(fc, sc, lc, ib1, p[1..], q);
    }
  }

  /** Two labelled folds that succeed in turn make one fold over both blocks. */
  lemma InfoCompose<F, S, L>(fc: Codec<F>, sc: Codec<S>, lc: Codec<L>, ib: InfoBuilder<F, S, L>,
                             p: seq<string>, q: seq<string>, ib1: InfoBuilder<F, S, L>, ib2: InfoBuilder<F, S, L>)
    requires InfoFold(fc, sc, lc, ib, p) == Ok(ib1) && InfoFold(fc, sc, lc, ib1, q) == Ok(ib2)
    ensures InfoFold(fc, sc, lc, ib, p + q) == Ok(ib2)
  {
    InfoFoldThen(fc, sc, lc, ib, p, q);
  }

  /** Over lines with no metadata head the labelled reader changes only
      the mesh it builds, and changes it as the plain reader does. */
  lemma {:induction false} InfoLift<F, S, L>(fc: Codec<F>, sc: Codec<S>, lc: Codec<L>, ib: InfoBuilder<F, S, L>,
                                             ls: seq<string>)
    requires Plain(ls)
    ensures InfoFold(fc, sc, lc, ib, ls) == (var m :- MeshFold(fc, ib.mesh, ls); Ok(ib.(mesh := m)))
    decreases |ls|
  {
    if ls != [] {
      assert Head(ls[0]) !in {"#id", "#state", "#l"};
      assert Plain(ls[1..]) by {
        assert forall k :: 0 <= k < |ls| - 1 ==> ls[1..][k] == ls[k + 1];
      }
      InfoLinePlain(fc, sc, lc, ib, ls[0]);
      match MeshLine(fc, ib.mesh, ls[0])
      case Err(_) =>
      case Ok(m1) => InfoLift(fc, sc, lc, ib.(mesh := m1), ls[1..]);
    }
  }

  /* ---------- metadata lines ---------- */

  /** A metadata line is its tag, a space and one clean token. */
  lemma MetaTokens(tag: string, t: string)
    requires tag == "#id" || tag == "#state" || tag == "#l"
    requires NoneOf(t, Seps) && NoneOf(t, {'\n'})
    ensures Split(Glue([tag, t], " "), Seps) == [tag, t]
    ensures NoneOf(Glue([tag, t], " "), {'\n'})
    ensures Head(Glue([tag, t], " ")) == tag
  {
    SplitGlue([tag, t], " ", Seps);
    GlueAvoids([tag, t], " ", {'\n'});
  }

  lemma IdentifierLine<F, S, L>(fc: Codec<F>, sc: Codec<S>, lc: Codec<L>, ib: InfoBuilder<F, S, L>, id: UInt64)
    ensures NoneOf(Glue(["#id", NatToString(id)], " "), {'\n'})
    ensures InfoLine(fc, sc, lc, ib, Glue(["#id", NatToString(id)], " ")) == Ok(ib.(identifier := id))
  {
    NumberToken(id);
    assert IntToString(id) == NatToString(id);
    MetaTokens("#id", NatToString(id));
    UInt64RoundTrip(id);
  }

  lemma StateLine<F, S(!new), L>(fc: Codec<F>, sc: Codec<S>, lc: Codec<L>, ib: InfoBuilder<F, S, L>, st: S)
    requires Faithful(sc)
    ensures NoneOf(Glue(["#state", sc.show(st)], " "), {'\n'})
    ensures InfoLine(fc, sc, lc, ib, Glue(["#state", sc.show(st)], " ")) == Ok(ib.(state := st))
  {
    MetaTokens("#state", sc.show(st));
  }

  lemma LabelRead<F, S, L(!new)>(fc: Codec<F>, sc: Codec<S>, lc: Codec<L>, ib: InfoBuilder<F, S, L>, l: L)
    requires Faithful(lc)
    ensures NoneOf(LabelLine(lc, l), {'\n'})
    ensures InfoLine(fc, sc, lc, ib, LabelLine(lc, l)) == Ok(ib.(labels := ib.labels + [l]))
  {
    MetaTokens("#l", lc.show(l));
  }

  lemma InfoPair<F, S, L>(fc: Codec<F>, sc: Codec<S>, lc: Codec<L>, ib: InfoBuilder<F, S, L>, a: string, b: string,
                          ib1: InfoBuilder<F, S, L>, ib2: InfoBuilder<F, S, L>)
    requires InfoLine(fc, sc, lc, ib, a) == Ok(ib1) && InfoLine(fc, sc, lc, ib1, b) == Ok(ib2)
    ensures InfoFold(fc, sc, lc, ib, [a, b]) == Ok(ib2)
  {
    InfoSingle(fc, sc, lc, ib1, b, ib2);
    assert [a, b][1..] == [b];
  }

  lemma InfoSingle<F, S, L>(fc: Codec<F>, sc: Codec<S>, lc: Codec<L>, ib: InfoBuilder<F, S, L>, a: string,
                            ib1: InfoBuilder<F, S, L>)
    requires InfoLine(fc, sc, lc, ib, a) == Ok(ib1)
    ensures InfoFold(fc, sc, lc, ib, [a]) == Ok(ib1)
  {
    assert [a][1..] == [];
  }

  /** The three header lines set the identifier and the state and nothing else. */
  lemma HeaderBlock<F, S(!new), L>(fc: Codec<F>, sc: Codec<S>, lc: Codec<L>, ib: InfoBuilder<F, S, L>,
                                   id: UInt64, st: S)
    requires Faithful(sc)
    ensures OneLines(InfoHeader(sc, id, st))
    ensures InfoFold(fc, sc, lc, ib, InfoHeader(sc, id, st)) == Ok(ib.(identifier := id, state := st))
  {
    var h := InfoHeader(sc, id, st);
    HeaderRead(fc, ib.mesh);
    InfoLinePlain(fc, sc, lc, ib, "# ");
    IdentifierLine(fc, sc, lc, ib, id);
    StateLine(fc, sc, lc, ib.(identifier := id), st);
    InfoPair(fc, sc, lc, ib, h[1], h[2], ib.(identifier := id), ib.(identifier := id, state := st));
    assert h == ["# "] + [h[1], h[2]];
    assert InfoFold(fc, sc, lc, ib, ["# "]) == Ok(ib) by {
      assert ["# "][1..] == [];
    }
    InfoCompose(fc, sc, lc, ib, ["# "], [h[1], h[2]], ib, ib.(identifier := id, state := st));
  }

  /** A vertex line and the line of its label. */
  lemma LabelPair<F(!new), S, L(!new)>(fc: Codec<F>, sc: Codec<S>, lc: Codec<L>, ib: InfoBuilder<F, S, L>,
                                       v: Vector3<F>, l: L)
    requires Faithful(fc) && Faithful(lc)
    ensures OneLines([VectorLine(fc, "v", v), LabelLine(lc, l)])
    ensures InfoFold(fc, sc, lc, ib, [VectorLine(fc, "v", v), LabelLine(lc, l)])
            == Ok(ib.(mesh := AddVectors(ib.mesh, "v", [v]), labels := ib.labels + [l]))
  {
    var vl, ll := VectorLine(fc, "v", v), LabelLine(lc, l);
    VectorLineTokens(fc, "v", v);
    VectorLineRead(fc, ib.mesh, "v", v);
    var ib1 := ib.(mesh := AddVectors(ib.mesh, "v", [v]));
    InfoLinePlain(fc, sc, lc, ib, vl);
    LabelRead(fc, sc, lc, ib1, l);
    InfoPair(fc, sc, lc, ib, vl, ll, ib1, ib1.(labels := ib.labels + [l]));
  }

  lemma {:induction false} LabelledShape<F(!new), L(!new)>(fc: Codec<F>, lc: Codec<L>, vs: seq<Vector3<F>>, labels: seq<L>)
    requires Faithful(fc) && Faithful(lc) && |vs| <= |labels|
    ensures OneLines(LabelledLines(fc, lc, vs, labels))
    decreases |vs|
  {
    if vs != [] {
      var n := |vs|;
      LabelledShape(fc, lc, vs[..n - 1], labels);
      LabelPair(fc, lc, lc, InfoBuilder(NoLists(), 0, labels[0], []), vs[n - 1], labels[n - 1]);
      Joined(LabelledLines(fc, lc, vs[..n - 1], labels), [VectorLine(fc, "v", vs[n - 1]), LabelLine(lc, labels[n - 1])]);
    }
  }

  /** One more vertex line and its label line after a block already read. */
  lemma LabelSnoc<F(!new), S, L(!new)>(fc: Codec<F>, sc: Codec<S>, lc: Codec<L>, ib: InfoBuilder<F, S, L>,
                                       p: seq<string>, ib1: InfoBuilder<F, S, L>, v: Vector3<F>, l: L)
    requires Faithful(fc) && Faithful(lc) && InfoFold(fc, sc, lc, ib, p) == Ok(ib1)
    ensures InfoFold(fc, sc, lc, ib, p + [VectorLine(fc, "v", v), LabelLine(lc, l)])
            == Ok(ib1.(mesh := ib1.mesh.(vertices := ib1.mesh.vertices + [v]), labels := ib1.labels + [l]))
  {
    LabelPair(fc, sc, lc, ib1, v, l);
    InfoCompose(fc, sc, lc, ib, p, [VectorLine(fc, "v", v), LabelLine(lc, l)], ib1,
                ib1.(mesh := ib1.mesh.(vertices := ib1.mesh.vertices + [v]), labels := ib1.labels + [l]));
  }

  /** What the vertex and label lines of `vs` add to a labelled builder. */
  function WithLabelled<F, S, L>(ib: InfoBuilder<F, S, L>, vs: seq<Vector3<F>>, labels: seq<L>): InfoBuilder<F, S, L>
    requires |vs| <= |labels|
  {
    ib.(mesh := ib.mesh.(vertices := ib.mesh.vertices + vs), labels := ib.labels + labels[..|vs|])
  }

  lemma WithLabelledSnoc<F, S, L>(ib: InfoBuilder<F, S, L>, vs: seq<Vector3<F>>, labels: seq<L>)
    requires 0 < |vs| <= |labels|
    ensures WithLabelled(ib, vs, labels)
            == (var ib1 := WithLabelled(ib, vs[..|vs| - 1], labels);
                ib1.(mesh := ib1.mesh.(vertices := ib1.mesh.vertices + [vs[|vs| - 1]]),
                     labels := ib1.labels + [labels[|vs| - 1]]))
  {
    var n := |vs|;
    assert ib.mesh.vertices + vs[..n - 1] + [vs[n - 1]] == ib.mesh.vertices + vs by {
      assert vs[..n - 1] + [vs[n - 1]] == vs;
    }
    assert ib.labels + labels[..n - 1] + [labels[n - 1]] == ib.labels + labels[..n] by {
      assert labels[..n - 1] + [labels[n - 1]] == labels[..n];
    }
  }

  lemma LabelStep<F(!new), S, L(!new)>(fc: Codec<F>, sc: Codec<S>, lc: Codec<L>, ib: InfoBuilder<F, S, L>,
                                       vs: seq<Vector3<F>>, labels: seq<L>)
    requires Faithful(fc) && Faithful(lc) && 0 < |vs| <= |labels|
    requires InfoFold(fc, sc, lc, ib, LabelledLines(fc, lc, vs[..|vs| - 1], labels)) == Ok(WithLabelled(ib, vs[..|vs| - 1], labels))
    ensures InfoFold(fc, sc, lc, ib, LabelledLines(fc, lc, vs, labels)) == Ok(WithLabelled(ib, vs, labels))
  {
    var n := |vs|;
    LabelSnoc(fc, sc, lc, ib, LabelledLines(fc, lc, vs[..n - 1], labels), WithLabelled(ib, vs[..n - 1], labels),
              vs[n - 1], labels[n - 1]);
    WithLabelledSnoc(ib, vs, labels);
  }

  /** The vertex and label lines add the vertices and, for each of them, its label. */
  lemma {:induction false} LabelledBlock<F(!new), S, L(!new)>(fc: Codec<F>, sc: Codec<S>, lc: Codec<L>,
                                                             ib: InfoBuilder<F, S, L>, vs: seq<Vector3<F>>, labels: seq<L>)
    requires Faithful(fc) && Faithful(lc) && |vs| <= |labels|
    ensures InfoFold(fc, sc, lc, ib, LabelledLines(fc, lc, vs, labels)) == Ok(WithLabelled(ib, vs, labels))
    decreases |vs|
  {
    if vs == [] {
      assert ib.mesh.vertices + vs == ib.mesh.vertices && ib.labels + labels[..0] == ib.labels;
    } else {
      LabelledBlock(fc, sc, lc, ib, vs[..|vs| - 1], labels);
      LabelStep(fc, sc, lc, ib, vs, labels);
    }
  }

  /** The tail of a labelled file adds the normals and the triangles. */
  lemma InfoTail<F(!new), S, L>(fc: Codec<F>, sc: Codec<S>, lc: Codec<L>, ib: InfoBuilder<F, S, L>,
                                normals: seq<Vector3<F>>, tris: seq<Int32>)
    requires Faithful(fc) && |tris| % 3 == 0
    ensures InfoFold(fc, sc, lc, ib, TailLines(fc, normals, tris) + [""])
            == Ok(ib.(mesh := ib.mesh.(normals := ib.mesh.normals + normals, triangles := ib.mesh.triangles + tris)))
  {
    TailShape(fc, normals, tris);
    TailRead(fc, ib.mesh, normals, tris);
    InfoLift(fc, sc, lc, ib, TailLines(fc, normals, tris) + [""]);
  }

  /* ---------- round trip ---------- */

  lemma InfoThree<F, S, L>(fc: Codec<F>, sc: Codec<S>, lc: Codec<L>, ib: InfoBuilder<F, S, L>,
                           a: seq<string>, b: seq<string>, c: seq<string>,
                           ib1: InfoBuilder<F, S, L>, ib2: InfoBuilder<F, S, L>, ib3: InfoBuilder<F, S, L>)
    requires InfoFold(fc, sc, lc, ib, a) == Ok(ib1) && InfoFold(fc, sc, lc, ib1, b) == Ok(ib2)
    requires InfoFold(fc, sc, lc, ib2, c) == Ok(ib3)
    ensures InfoFold(fc, sc, lc, ib, a + b + c) == Ok(ib3)
  {
    InfoCompose(fc, sc, lc, ib, a, b, ib1, ib2);
    InfoCompose(fc, sc, lc, ib, a + b, c, ib2, ib3);
  }

  /** Reading the text of newline-free lines folds the labelled reader over
      those lines and one empty line after the last newline. */
  lemma ParseInfoLines<F, S, L>(fc: Codec<F>, sc: Codec<S>, lc: Codec<L>, initial: S, ls: seq<string>)
    requires OneLines(ls)
    ensures ParseMeshInfo(fc, sc, lc, initial, Lines(ls))
            == (var ib :- InfoFold(fc, sc, lc, InfoBuilder(NoLists(), 0, initial, []), ls + [""]);
                Ok(MeshInfo(ib.identifier, ib.state, ib.labels,
                            Mesh(NatToString(ib.identifier), ib.mesh.vertices, ib.mesh.normals, ib.mesh.triangles))))
  {
    SplitLines(ls);
  }

  lemma InfoLinesShape<F(!new), S(!new), L(!new)>(fc: Codec<F>, sc: Codec<S>, lc: Codec<L>, info: MeshInfo<F, S, L>,
                                                  h: seq<string>, ll: seq<string>, tail: seq<string>)
    requires Faithful(fc) && Faithful(sc) && Faithful(lc)
    requires |info.baseMesh.vertices| <= |info.labels|
    requires h == InfoHeader(sc, info.identifier, info.state)
    requires ll == LabelledLines(fc, lc, info.baseMesh.vertices, info.labels)
    requires tail == TailLines(fc, info.baseMesh.normals, info.baseMesh.triangles)
    ensures OneLines(h + ll + tail)
  {
    HeaderBlock(fc, sc, lc, InfoBuilder(NoLists(), 0, info.state, []), info.identifier, info.state);
    LabelledShape(fc, lc, info.baseMesh.vertices, info.labels);
    TailShape(fc, info.baseMesh.normals, info.baseMesh.triangles);
    Joined(h, ll);
    Joined(h + ll, tail);
  }

  lemma InfoChain<F, S, L>(fc: Codec<F>, sc: Codec<S>, lc: Codec<L>, info: MeshInfo<F, S, L>,
                           h: seq<string>, ll: seq<string>, tail: seq<string>,
                           ib0: InfoBuilder<F, S, L>, ib1: InfoBuilder<F, S, L>, ib2: InfoBuilder<F, S, L>,
                           ib3: InfoBuilder<F, S, L>)
    requires |info.baseMesh.vertices| <= |info.labels|
    requires ib1 == ib0.(identifier := info.identifier, state := info.state)
    requires ib2 == InfoBuilder(Builder(info.baseMesh.vertices, [], []), info.identifier, info.state,
                                info.labels[..|info.baseMesh.vertices|])
    requires ib3 == ib2.(mesh := ib2.mesh.(normals := info.baseMesh.normals, triangles := info.baseMesh.triangles))
    requires ib0.mesh == NoLists() && ib0.labels == []
    requires InfoFold(fc, sc, lc, ib0, h) == Ok(ib1)
    requires InfoFold(fc, sc, lc, ib1, ll) == Ok(WithLabelled(ib1, info.baseMesh.vertices, info.labels))
    requires InfoFold(fc, sc, lc, ib2, tail + [""])
             == Ok(ib2.(mesh := ib2.mesh.(normals := ib2.mesh.normals + info.baseMesh.normals,
                                          triangles := ib2.mesh.triangles + info.baseMesh.triangles)))
    ensures InfoFold(fc, sc, lc, ib0, h + ll + tail + [""]) == Ok(ib3)
  {
    assert WithLabelled(ib1, info.baseMesh.vertices, info.labels) == ib2;
    assert ib2.mesh.normals + info.baseMesh.normals == info.baseMesh.normals;
    assert ib2.mesh.triangles + info.baseMesh.triangles == info.baseMesh.triangles;
    InfoThree(fc, sc, lc, ib0, h, ll, tail + [""], ib1, ib2, ib3);
    assert h + ll + (tail + [""]) == h + ll + tail + [""];
  }

  lemma InfoLinesFold<F(!new), S(!new), L(!new)>(fc: Codec<F>, sc: Codec<S>, lc: Codec<L>, info: MeshInfo<F, S, L>,
                                                 initial: S, h: seq<string>, ll: seq<string>, tail: seq<string>)
    requires Faithful(fc) && Faithful(sc) && Faithful(lc)
    requires |info.baseMesh.vertices| <= |info.labels| && |info.baseMesh.triangles| % 3 == 0
    requires h == InfoHeader(sc, info.identifier, info.state)
    requires ll == LabelledLines(fc, lc, info.baseMesh.vertices, info.labels)
    requires tail == TailLines(fc, info.baseMesh.normals, info.baseMesh.triangles)
    ensures InfoFold(fc, sc, lc, InfoBuilder(NoLists(), 0, initial, []), h + ll + tail + [""])
            == Ok(InfoBuilder(Builder(info.baseMesh.vertices, info.baseMesh.normals, info.baseMesh.triangles),
                              info.identifier, info.state, info.labels[..|info.baseMesh.vertices|]))
  {
    var m := info.baseMesh;
    var ib0 := InfoBuilder(NoLists(), 0, initial, []);
    var ib1 := InfoBuilder(NoLists(), info.identifier, info.state, []);
    var ib2 := InfoBuilder(Builder(m.vertices, [], []), info.identifier, info.state, info.labels[..|m.vertices|]);
    var ib3 := InfoBuilder(Builder(m.vertices, m.normals, m.triangles), info.identifier, info.state,
                           info.labels[..|m.vertices|]);
    HeaderBlock(fc, sc, lc, ib0, info.identifier, info.state);
    LabelledBlock(fc, sc, lc, ib1, m.vertices, info.labels);
    InfoTail(fc, sc, lc, ib2, m.normals, m.triangles);
    InfoChain(fc, sc, lc, info, h, ll, tail, ib0, ib1, ib2, ib3);
  }

  /** StringToMeshInfo(MeshInfoToString(info)) gives back the identifier,
      the state, the label of every vertex and the mesh, named with the
      identifier's digits, whenever every vertex has a label and the
      triangle array holds whole triples (otherwise MeshInfoToString
      throws); labels beyond the vertex count are not written. */
  lemma InfoTextRoundTrip<F(!new), S(!new), L(!new)>(fc: Codec<F>, sc: Codec<S>, lc: Codec<L>,
                                                     info: MeshInfo<F, S, L>, initial: S)
    requires Faithful(fc) && Faithful(sc) && Faithful(lc)
    ensures InfoText(fc, sc, lc, info).Ok?
            <==> |info.baseMesh.vertices| <= |info.labels| && |info.baseMesh.triangles| % 3 == 0
    ensures InfoText(fc, sc, lc, info).Ok? ==>
              ParseMeshInfo(fc, sc, lc, initial, InfoText(fc, sc, lc, info).value)
              == Ok(MeshInfo(info.identifier, info.state, info.labels[..|info.baseMesh.vertices|],
                             info.baseMesh.(name := NatToString(info.identifier))))
  {
    var m := info.baseMesh;
    if |m.vertices| <= |info.labels| && |m.triangles| % 3 == 0 {
      var h := InfoHeader(sc, info.identifier, info.state);
      var ll := LabelledLines(fc, lc, m.vertices, info.labels);
      var tail := TailLines(fc, m.normals, m.triangles);
      InfoLinesShape(fc, sc, lc, info, h, ll, tail);
      InfoLinesFold(fc, sc, lc, info, initial, h, ll, tail);
      ParseInfoLines(fc, sc, lc, initial, h + ll + tail);
    }
  }
}
