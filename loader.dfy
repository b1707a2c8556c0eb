/** `loadSimpleOBJ` as the loop it is: one pass over the lines, `push_back` on
    four local vectors, and an inner loop over the words of each `f` line. */
module Loader {
  import opened Obj

  /** `file` is `None` when the file cannot be opened. The result is the mesh
      `Obj.Load` describes: see `Obj.LoadResult`, `Obj.ParsedContents` and
      `Obj.ParseOutcome` for what that mesh is. */
  method LoadSimpleObj(file: Option<seq<Line>>, color: Rgb) returns (r: Result<Mesh>)
    ensures r == Load(file, color)
  {
    if file.None? {
      return Err(FileNotFound);
    }
    var lines := file.value;
    var vertices: seq<Vec3> := [];
    var texCoords: seq<Vec2> := [];
    var normals: seq<Vec3> := [];
    var vBuffer: seq<Float> := [];
    var i := 0;
    while i < |lines|
      invariant 0 <= i <= |lines|
      invariant ParseLines(lines[..i], color) == Ok(State(vertices, texCoords, normals, vBuffer))
    {
      var line := lines[i];
      var word := line.tag;
      var args := line.args;
      assert lines[..i + 1][..i] == lines[..i];
      var failed: Option<LoadError> := None;
      if word == "v" {
        if |args| < 3 || !args[0].Number? || !args[1].Number? || !args[2].Number? {
          failed := Some(MalformedNumber(i));
        } else {
          vertices := vertices + [Vec3(args[0].value, args[1].value, args[2].value)];
        }
      }
      if word == "vt" {
        if |args| < 2 || !args[0].Number? || !args[1].Number? {
          failed := Some(MalformedNumber(i));
        } else {
          texCoords := texCoords + [Vec2(args[0].value, args[1].value)];
        }
      }
      if word == "vn" {
        if |args| < 3 || !args[0].Number? || !args[1].Number? || !args[2].Number? {
          failed := Some(MalformedNumber(i));
        } else {
          normals := normals + [Vec3(args[0].value, args[1].value, args[2].value)];
        }
      } else if word == "f" {
        var face := AppendCorners(vertices, texCoords, normals, vBuffer, args, color, i);
        match face {
          case Ok(buf) => vBuffer := buf;
          case Err(e) => failed := Some(e);
        }
      }
      if failed.Some? {
        ParseErrorPersists(lines, i + 1, color);
        return Err(failed.value);
      }
      i := i + 1;
    }
    assert lines[..i] == lines;
    var nVertices := |vBuffer| / 11;
    r := Ok(Mesh(vBuffer, nVertices));
  }

  /** The inner loop over the words `p/t/n` of one `f` line: each one is decoded
      to 0-based indices and its 11 floats are pushed onto `vBuffer` at once. */
  method AppendCorners(vertices: seq<Vec3>, texCoords: seq<Vec2>, normals: seq<Vec3>, vBuffer: seq<Float>,
                       args: seq<Token>, color: Rgb, lineNo: nat)
    returns (r: Result<seq<Float>>)
    ensures r == Prepend(vBuffer, EmitCorners(State(vertices, texCoords, normals, vBuffer), args, color, lineNo))
  {
    ghost var st := State(vertices, texCoords, normals, vBuffer);
    ghost var acc: seq<Float> := [];
    var buf := vBuffer;
    var j := 0;
    assert args[j..] == args;
    PrependNothing(EmitCorners(st, args, color, lineNo));
    while j < |args|
      invariant 0 <= j <= |args|
      invariant buf == vBuffer + acc
      invariant EmitCorners(st, args, color, lineNo) == Prepend(acc, EmitCorners(st, args[j..], color, lineNo))
    {
      var tok := args[j];
      NextCorner(st, args, j, acc, color, lineNo);
      if !tok.Ref? {
        return Err(MalformedNumber(lineNo));
      }
      var vi, ti, ni := tok.p - 1, tok.t - 1, tok.n - 1;
      if !(0 <= vi < |vertices| && 0 <= ti < |texCoords| && 0 <= ni < |normals|) {
        return Err(MalformedReference(lineNo));
      }
      ghost var rec := Record(vertices[vi], color, normals[ni], texCoords[ti]);
      buf := PushRecord(buf, vertices[vi], color, normals[ni], texCoords[ti]);
      acc := acc + rec;
      j := j + 1;
    }
    assert args[j..] == [];
    assert EmitCorners(st, args, color, lineNo) == Ok(acc + []);
    assert acc + [] == acc;
    r := Ok(buf);
  }

  /** The eleven `push_back` calls for one corner, in the order of the source. */
  method PushRecord(buf: seq<Float>, v: Vec3, color: Rgb, n: Vec3, t: Vec2) returns (out: seq<Float>)
    ensures out == buf + Record(v, color, n, t)
  {
    out := buf + [v.x, v.y, v.z];
    out := out + [color.r, color.g, color.b];
    out := out + [n.x, n.y, n.z];
    out := out + [t.s, t.t];
  }

  lemma PrependNothing(r: Result<seq<Float>>)
    ensures Prepend([], r) == r
  {
    if r.Ok? {
      assert [] + r.value == r.value;
    }
  }

  /** One turn of the inner loop, on the specification side: the corner at `j`
      either fails the line or contributes its record before the rest. */
  lemma NextCorner(st: State, args: seq<Token>, j: nat, acc: seq<Float>, color: Rgb, lineNo: nat)
    requires j < |args|
    ensures var here := Prepend(acc, EmitCorners(st, args[j..], color, lineNo));
            match Corner(st, args[j], color, lineNo)
            case Err(e) => here == Err(e)
            case Ok(rec) => here == Prepend(acc + rec, EmitCorners(st, args[j + 1..], color, lineNo))
  {
    assert args[j..][0] == args[j] && args[j..][1..] == args[j + 1..];
    var rest := EmitCorners(st, args[j + 1..], color, lineNo);
    if Corner(st, args[j], color, lineNo).Ok? && rest.Ok? {
      var rec := Corner(st, args[j], color, lineNo).value;
      assert acc + (rec + rest.value) == (acc + rec) + rest.value;
    }
  }
}
