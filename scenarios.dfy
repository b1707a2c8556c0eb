/** Concrete files worked through the loader's specification. */
module Scenarios {
  import opened Obj

  const Zero: Float := 0x0000_0000   // 0.0f
  const One: Float := 0x3F80_0000    // 1.0f

  function N(f: Float): Token { Number(f) }

  /** One triangle: three positions, a normal, and a texcoord per corner. */
  function TriangleFile(): seq<Line>
  {
    [ Line("v", [N(Zero), N(Zero), N(Zero)]),
      Line("v", [N(One), N(Zero), N(Zero)]),
      Line("v", [N(Zero), N(One), N(Zero)]),
      Line("vn", [N(Zero), N(Zero), N(One)]),
      Line("vt", [N(Zero), N(Zero)]),
      Line("vt", [N(Zero), N(Zero)]),
      Line("vt", [N(Zero), N(Zero)]),
      Line("f", [Ref(1, 1, 1), Ref(2, 2, 1), Ref(3, 3, 1)]) ]
  }

  /** The triangle gives three vertices (33 floats) with positions (0,0,0),
      (1,0,0) and (0,1,0), in the order of the face's corners. */
  lemma TriangleLoads(c: Rgb)
    ensures Load(Some(TriangleFile()), c) == Ok(Mesh(TriangleBuffer(c), 3))
  {
    var lines := TriangleFile();
    var st := TriangleState();
    TriangleAttributes(c);
    TriangleFace(c);
    ParseStep(lines, 7, c);
    assert StepLine(st, lines[7], 7, c) == Ok(st.(vBuffer := TriangleBuffer(c))) by {
      assert [] + TriangleBuffer(c) == TriangleBuffer(c);
    }
    assert lines[..8] == lines;
  }

  /** The 33 floats of the triangle: three records of position, colour,
      normal (0,0,1) and texcoord (0,0). */
  function TriangleBuffer(c: Rgb): seq<Float>
  {
    [Zero, Zero, Zero, c.r, c.g, c.b, Zero, Zero, One, Zero, Zero,
     One, Zero, Zero, c.r, c.g, c.b, Zero, Zero, One, Zero, Zero,
     Zero, One, Zero, c.r, c.g, c.b, Zero, Zero, One, Zero, Zero]
  }

  /** The face line resolves its three corners, in order, against the arrays. */
  lemma TriangleFace(c: Rgb)
    ensures EmitCorners(TriangleState(), TriangleFile()[7].args, c, 7) == Ok(TriangleBuffer(c))
  {
    var st := TriangleState();
    var p0, p1, p2 := Vec3(Zero, Zero, Zero), Vec3(One, Zero, Zero), Vec3(Zero, One, Zero);
    var nz, t0 := Vec3(Zero, Zero, One), Vec2(Zero, Zero);
    var args := TriangleFile()[7].args;
    assert args[1..] == [Ref(2, 2, 1), Ref(3, 3, 1)] && args[1..][1..] == [Ref(3, 3, 1)];
    assert args[1..][1..][1..] == [];
    var r0, r1, r2 := Record(p0, c, nz, t0), Record(p1, c, nz, t0), Record(p2, c, nz, t0);
    assert Corner(st, args[0], c, 7) == Ok(r0);
    assert Corner(st, args[1], c, 7) == Ok(r1);
    assert Corner(st, args[2], c, 7) == Ok(r2);
    assert EmitCorners(st, args[1..][1..], c, 7) == Ok(r2) by { assert r2 + [] == r2; }
    assert EmitCorners(st, args[1..], c, 7) == Ok(r1 + r2);
    assert EmitCorners(st, args, c, 7) == Ok(r0 + (r1 + r2));
    TriangleRecords(c);
  }

  lemma TriangleRecords(c: Rgb)
    ensures var p0, p1, p2 := Vec3(Zero, Zero, Zero), Vec3(One, Zero, Zero), Vec3(Zero, One, Zero);
            var nz, t0 := Vec3(Zero, Zero, One), Vec2(Zero, Zero);
            Record(p0, c, nz, t0) + (Record(p1, c, nz, t0) + Record(p2, c, nz, t0)) == TriangleBuffer(c)
  {
  }

  /** The state after the seven lines before the face. */
  function TriangleState(): State
  {
    var t0 := Vec2(Zero, Zero);
    State([Vec3(Zero, Zero, Zero), Vec3(One, Zero, Zero), Vec3(Zero, One, Zero)],
          [t0, t0, t0], [Vec3(Zero, Zero, One)], [])
  }

  /** The three `v` lines fill the position array in file order. */
  lemma TrianglePositions(c: Rgb)
    ensures ParseLines(TriangleFile()[..3], c) ==
              Ok(State([Vec3(Zero, Zero, Zero), Vec3(One, Zero, Zero), Vec3(Zero, One, Zero)], [], [], []))
  {
    var lines := TriangleFile();
    var p0, p1, p2 := Vec3(Zero, Zero, Zero), Vec3(One, Zero, Zero), Vec3(Zero, One, Zero);
    var s1 := State([p0], [], [], []);
    var s2 := State([p0, p1], [], [], []);
    var s3 := State([p0, p1, p2], [], [], []);
    assert lines[..0] == [];
    assert StepLine(Start, lines[0], 0, c) == Ok(s1) by { assert [] + [p0] == [p0]; }
    Advance(lines, 0, c, Start, s1);
    assert StepLine(s1, lines[1], 1, c) == Ok(s2) by { assert [p0] + [p1] == [p0, p1]; }
    Advance(lines, 1, c, s1, s2);
    assert StepLine(s2, lines[2], 2, c) == Ok(s3) by { assert [p0, p1] + [p2] == [p0, p1, p2]; }
    Advance(lines, 2, c, s2, s3);
  }

  /** The `vn` line and the first `vt` line then start the other two arrays. */
  lemma TriangleNormal(c: Rgb)
    ensures var t0 := Vec2(Zero, Zero);
            ParseLines(TriangleFile()[..5], c) ==
              Ok(State([Vec3(Zero, Zero, Zero), Vec3(One, Zero, Zero), Vec3(Zero, One, Zero)],
                       [t0], [Vec3(Zero, Zero, One)], []))
  {
    var lines := TriangleFile();
    TrianglePositions(c);
    var p0, p1, p2 := Vec3(Zero, Zero, Zero), Vec3(One, Zero, Zero), Vec3(Zero, One, Zero);
    var nz, t0 := Vec3(Zero, Zero, One), Vec2(Zero, Zero);
    var s3 := State([p0, p1, p2], [], [], []);
    var s4 := State([p0, p1, p2], [], [nz], []);
    var s5 := State([p0, p1, p2], [t0], [nz], []);
    assert StepLine(s3, lines[3], 3, c) == Ok(s4) by { assert [] + [nz] == [nz]; }
    Advance(lines, 3, c, s3, s4);
    assert StepLine(s4, lines[4], 4, c) == Ok(s5) by { assert [] + [t0] == [t0]; }
    Advance(lines, 4, c, s4, s5);
  }

  /** The other two `vt` lines complete the texcoord array. */
  lemma TriangleAttributes(c: Rgb)
    ensures ParseLines(TriangleFile()[..7], c) == Ok(TriangleState())
  {
    var lines := TriangleFile();
    TriangleNormal(c);
    var p0, p1, p2 := Vec3(Zero, Zero, Zero), Vec3(One, Zero, Zero), Vec3(Zero, One, Zero);
    var nz, t0 := Vec3(Zero, Zero, One), Vec2(Zero, Zero);
    var s5 := State([p0, p1, p2], [t0], [nz], []);
    var s6 := State([p0, p1, p2], [t0, t0], [nz], []);
    assert StepLine(s5, lines[5], 5, c) == Ok(s6) by { assert [t0] + [t0] == [t0, t0]; }
    Advance(lines, 5, c, s5, s6);
    assert StepLine(s6, lines[6], 6, c) == Ok(TriangleState()) by { assert [t0, t0] + [t0] == [t0, t0, t0]; }
    Advance(lines, 6, c, s6, TriangleState());
  }

  /** One position, one texcoord, one normal, and a face naming them four times. */
  function QuadFile(): seq<Line>
  {
    [ Line("v", [N(Zero), N(Zero), N(Zero)]),
      Line("vt", [N(Zero), N(Zero)]),
      Line("vn", [N(Zero), N(Zero), N(One)]),
      Line("f", [Ref(1, 1, 1), Ref(1, 1, 1), Ref(1, 1, 1), Ref(1, 1, 1)]) ]
  }

  /** A face with four corners is not triangulated: it gives four vertices. */
  lemma QuadGivesFourVertices(c: Rgb)
    ensures Load(Some(QuadFile()), c).Ok? && Load(Some(QuadFile()), c).value.nVertices == 4
  {
    var quad := QuadFile();
    var st := State([Vec3(Zero, Zero, Zero)], [Vec2(Zero, Zero)], [Vec3(Zero, Zero, One)], []);
    QuadPrefix(c);
    var args := quad[3].args;
    EmitCornersFault(st, args, c, 3);
    assert FaceFault(1, 1, 1, args) == None by {
      assert args[1..][1..][1..][1..] == [];
    }
    ParseStep(quad, 3, c);
    assert quad[..4] == quad;
    LoadResult(Some(quad), c);
    assert Corners(quad) == Corners(quad[..3]) + args;
    assert Corners(quad[..3]) == [] by {
      assert quad[..3][..2] == quad[..2] && quad[..2][..1] == quad[..1] && quad[..1][..0] == [];
    }
  }

  /** The three lines before the face fill one entry of each array. */
  lemma QuadPrefix(c: Rgb)
    ensures ParseLines(QuadFile()[..3], c) ==
              Ok(State([Vec3(Zero, Zero, Zero)], [Vec2(Zero, Zero)], [Vec3(Zero, Zero, One)], []))
  {
    var quad := QuadFile();
    var st := State([Vec3(Zero, Zero, Zero)], [Vec2(Zero, Zero)], [Vec3(Zero, Zero, One)], []);
    assert quad[..0] == [];
    assert StepLine(Start, quad[0], 0, c) == Ok(st.(texCoords := [], normals := [])) by {
      assert [] + [Vec3(Zero, Zero, Zero)] == [Vec3(Zero, Zero, Zero)];
    }
    Advance(quad, 0, c, Start, st.(texCoords := [], normals := []));
    assert StepLine(st.(texCoords := [], normals := []), quad[1], 1, c) == Ok(st.(normals := [])) by {
      assert [] + [Vec2(Zero, Zero)] == [Vec2(Zero, Zero)];
    }
    Advance(quad, 1, c, st.(texCoords := [], normals := []), st.(normals := []));
    assert StepLine(st.(normals := []), quad[2], 2, c) == Ok(st) by {
      assert [] + [Vec3(Zero, Zero, One)] == [Vec3(Zero, Zero, One)];
    }
    Advance(quad, 2, c, st.(normals := []), st);
  }

  /** A face that names a texcoord before any `vt` line fails with
      `MalformedReference` instead of reading outside the array. */
  lemma ReferenceBeforeDefinitionFails(c: Rgb)
    ensures var file := [ Line("v", [N(Zero), N(Zero), N(Zero)]),
                          Line("vn", [N(Zero), N(Zero), N(One)]),
                          Line("f", [Ref(1, 1, 1)]),
                          Line("vt", [N(Zero), N(Zero)]) ];
            Load(Some(file), c) == Err(MalformedReference(2))
  {
    var file := [ Line("v", [N(Zero), N(Zero), N(Zero)]),
                  Line("vn", [N(Zero), N(Zero), N(One)]),
                  Line("f", [Ref(1, 1, 1)]),
                  Line("vt", [N(Zero), N(Zero)]) ];
    assert file[..0] == [];
    var s1 := State([Vec3(Zero, Zero, Zero)], [], [], []);
    var s2 := s1.(normals := [Vec3(Zero, Zero, One)]);
    assert StepLine(Start, file[0], 0, c) == Ok(s1) by {
      assert [] + [Vec3(Zero, Zero, Zero)] == [Vec3(Zero, Zero, Zero)];
    }
    Advance(file, 0, c, Start, s1);
    assert StepLine(s1, file[1], 1, c) == Ok(s2) by {
      assert [] + [Vec3(Zero, Zero, One)] == [Vec3(Zero, Zero, One)];
    }
    Advance(file, 1, c, s1, s2);
    assert ParseLines(file[..2], c) == Ok(s2);
    ParseStep(file, 2, c);
    assert ParseLines(file[..3], c) == Err(MalformedReference(2));
    ParseErrorPersists(file, 3, c);
  }

  /** One line more of a file whose prefix is already parsed. */
  lemma Advance(lines: seq<Line>, k: nat, c: Rgb, before: State, after: State)
    requires k < |lines|
    requires ParseLines(lines[..k], c) == Ok(before)
    requires StepLine(before, lines[k], k, c) == Ok(after)
    ensures ParseLines(lines[..k + 1], c) == Ok(after)
  {
    ParseStep(lines, k, c);
  }
}
