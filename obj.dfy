/** The subset of Wavefront OBJ that `loadSimpleOBJ` reads, and the flattened
    interleaved vertex buffer it builds from it.

    A file is a sequence of lines; each line is its first word (`tag`) and the
    words after it, already lexed. Floats are only ever copied by the loader,
    never computed with, so they are kept as their 32-bit patterns. */
module Obj {

  /** A 32-bit float (`GLfloat`), held as its bit pattern. */
  type Float = bv32

  datatype Option<T> = None | Some(value: T)

  datatype Vec3 = Vec3(x: Float, y: Float, z: Float)
  datatype Vec2 = Vec2(s: Float, t: Float)
  datatype Rgb = Rgb(r: Float, g: Float, b: Float)

  /** A whitespace-separated word after a line's tag. */
  datatype Token =
    | Number(value: Float)          // a word that reads as a float
    | Ref(p: int, t: int, n: int)   // `p/t/n`: three integers as written, 1-based
    | Word(text: string)            // anything else

  /** One line of the file; an empty line has the empty tag. */
  datatype Line = Line(tag: string, args: seq<Token>)

  /** Why one line cannot be taken in. */
  datatype Fault = NumberFault | ReferenceFault

  /** Why a load fails; `line` is the 0-based index of the offending line. */
  datatype LoadError =
    | FileNotFound
    | MalformedNumber(line: nat)
    | MalformedReference(line: nat)

  datatype Result<T> = Ok(value: T) | Err(error: LoadError)

  /** The loader's four local vectors. */
  datatype State = State(vertices: seq<Vec3>, texCoords: seq<Vec2>, normals: seq<Vec3>, vBuffer: seq<Float>)

  /** What a successful load hands to the caller: the buffer and `nVertices`. */
  datatype Mesh = Mesh(vBuffer: seq<Float>, nVertices: int)

  /** Floats per emitted vertex, and where each attribute starts within one. */
  const Stride: nat := 11
  const PositionOffset: nat := 0
  const ColorOffset: nat := 3
  const NormalOffset: nat := 6
  const TexCoordOffset: nat := 9

  const Start := State([], [], [], [])

  // ---------------------------------------------------------------- records

  /** The 11 floats emitted for one face corner: position, colour, normal, texcoord. */
  function Record(v: Vec3, c: Rgb, n: Vec3, t: Vec2): seq<Float>
  {
    [v.x, v.y, v.z, c.r, c.g, c.b, n.x, n.y, n.z, t.s, t.t]
  }

  /** The emitted record agrees with the attribute layout handed to the GPU
      (stride 11; position at 0, colour at 3, normal at 6, texcoord at 9). */
  lemma RecordLayout(v: Vec3, c: Rgb, n: Vec3, t: Vec2)
    ensures var r := Record(v, c, n, t);
            |r| == Stride &&
            r[PositionOffset] == v.x && r[PositionOffset + 1] == v.y && r[PositionOffset + 2] == v.z &&
            r[ColorOffset] == c.r && r[ColorOffset + 1] == c.g && r[ColorOffset + 2] == c.b &&
            r[NormalOffset] == n.x && r[NormalOffset + 1] == n.y && r[NormalOffset + 2] == n.z &&
            r[TexCoordOffset] == t.s && r[TexCoordOffset + 1] == t.t
  {
  }

  // ---------------------------------------------------------- reading a line

  /** Reads the three floats after a `v` or `vn` tag; extra words are ignored. */
  function ReadVec3(args: seq<Token>): Option<Vec3>
  {
    if |args| >= 3 && args[0].Number? && args[1].Number? && args[2].Number?
    then Some(Vec3(args[0].value, args[1].value, args[2].value))
    else None
  }

  /** Reads the two floats after a `vt` tag; extra words are ignored. */
  function ReadVec2(args: seq<Token>): Option<Vec2>
  {
    if |args| >= 2 && args[0].Number? && args[1].Number?
    then Some(Vec2(args[0].value, args[1].value))
    else None
  }

  /** A face corner: decode `p/t/n` to 0-based indices, look each up in the
      arrays built so far, and emit its record. */
  function Corner(st: State, tok: Token, c: Rgb, line: nat): Result<seq<Float>>
  {
    if !tok.Ref? then Err(MalformedNumber(line))
    else
      var vi, ti, ni := tok.p - 1, tok.t - 1, tok.n - 1;
      if 0 <= vi < |st.vertices| && 0 <= ti < |st.texCoords| && 0 <= ni < |st.normals|
      then Ok(Record(st.vertices[vi], c, st.normals[ni], st.texCoords[ti]))
      else Err(MalformedReference(line))
  }

  function Prepend(prefix: seq<Float>, r: Result<seq<Float>>): Result<seq<Float>>
  {
    match r
    case Ok(rest) => Ok(prefix + rest)
    case Err(e) => Err(e)
  }

  /** The records of all corners of one `f` line, in order; the first bad corner fails it. */
  function EmitCorners(st: State, args: seq<Token>, c: Rgb, line: nat): Result<seq<Float>>
    decreases |args|
  {
    if args == [] then Ok([])
    else
      match Corner(st, args[0], c, line)
      case Err(e) => Err(e)
      case Ok(rec) => Prepend(rec, EmitCorners(st, args[1..], c, line))
  }

  /** One pass of the loop body: classify the line by its tag and take it in. */
  function StepLine(st: State, line: Line, lineNo: nat, c: Rgb): Result<State>
  {
    if line.tag == "v" then
      (match ReadVec3(line.args)
       case Some(v) => Ok(st.(vertices := st.vertices + [v]))
       case None => Err(MalformedNumber(lineNo)))
    else if line.tag == "vt" then
      (match ReadVec2(line.args)
       case Some(t) => Ok(st.(texCoords := st.texCoords + [t]))
       case None => Err(MalformedNumber(lineNo)))
    else if line.tag == "vn" then
      (match ReadVec3(line.args)
       case Some(n) => Ok(st.(normals := st.normals + [n]))
       case None => Err(MalformedNumber(lineNo)))
    else if line.tag == "f" then
      (match EmitCorners(st, line.args, c, lineNo)
       case Ok(recs) => Ok(st.(vBuffer := st.vBuffer + recs))
       case Err(e) => Err(e))
    else
      Ok(st)
  }

  /** The state after the whole file, one line after the other. */
  function ParseLines(lines: seq<Line>, c: Rgb): Result<State>
    decreases |lines|
  {
    if lines == [] then Ok(Start)
    else
      var n := |lines| - 1;
      match ParseLines(lines[..n], c)
      case Err(e) => Err(e)
      case Ok(st) => StepLine(st, lines[n], n, c)
  }

  /** `loadSimpleOBJ`: `None` stands for a file that cannot be opened. */
  function Load(file: Option<seq<Line>>, c: Rgb): Result<Mesh>
  {
    match file
    case None => Err(FileNotFound)
    case Some(lines) =>
      match ParseLines(lines, c)
      case Err(e) => Err(e)
      case Ok(st) => Ok(Mesh(st.vBuffer, |st.vBuffer| / Stride))
  }

  // ------------------------------------------- reference definitions on the file

  /** The positions of the file's `v` lines, in file order. */
  function Positions(lines: seq<Line>): seq<Vec3>
    decreases |lines|
  {
    if lines == [] then []
    else
      var n := |lines| - 1;
      var v := ReadVec3(lines[n].args);
      Positions(lines[..n]) + (if lines[n].tag == "v" && v.Some? then [v.value] else [])
  }

  /** The texture coordinates of the file's `vt` lines, in file order. */
  function TexCoords(lines: seq<Line>): seq<Vec2>
    decreases |lines|
  {
    if lines == [] then []
    else
      var n := |lines| - 1;
      var t := ReadVec2(lines[n].args);
      TexCoords(lines[..n]) + (if lines[n].tag == "vt" && t.Some? then [t.value] else [])
  }

  /** The normals of the file's `vn` lines, in file order. */
  function Normals(lines: seq<Line>): seq<Vec3>
    decreases |lines|
  {
    if lines == [] then []
    else
      var n := |lines| - 1;
      var v := ReadVec3(lines[n].args);
      Normals(lines[..n]) + (if lines[n].tag == "vn" && v.Some? then [v.value] else [])
  }

  /** Every word of every `f` line, in file order: one per emitted vertex. */
  function Corners(lines: seq<Line>): seq<Token>
    decreases |lines|
  {
    if lines == [] then []
    else
      var n := |lines| - 1;
      Corners(lines[..n]) + (if lines[n].tag == "f" then lines[n].args else [])
  }

  /** A 1-based reference that names an existing position, texcoord and normal. */
  predicate Resolves(nv: nat, nt: nat, nn: nat, tok: Token)
  {
    tok.Ref? && 1 <= tok.p <= nv && 1 <= tok.t <= nt && 1 <= tok.n <= nn
  }

  function TokenFault(nv: nat, nt: nat, nn: nat, tok: Token): Option<Fault>
  {
    if !tok.Ref? then Some(NumberFault)
    else if !Resolves(nv, nt, nn, tok) then Some(ReferenceFault)
    else None
  }

  /** The fault of the first bad word of a face line, if any. */
  function FaceFault(nv: nat, nt: nat, nn: nat, args: seq<Token>): Option<Fault>
    decreases |args|
  {
    if args == [] then None
    else if TokenFault(nv, nt, nn, args[0]).Some? then TokenFault(nv, nt, nn, args[0])
    else FaceFault(nv, nt, nn, args[1..])
  }

  /** What is wrong with a line, given how many positions, texcoords and normals precede it. */
  function LineFault(nv: nat, nt: nat, nn: nat, line: Line): Option<Fault>
  {
    if line.tag == "v" || line.tag == "vn" then
      (if ReadVec3(line.args).None? then Some(NumberFault) else None)
    else if line.tag == "vt" then
      (if ReadVec2(line.args).None? then Some(NumberFault) else None)
    else if line.tag == "f" then
      FaceFault(nv, nt, nn, line.args)
    else
      None
  }

  /** The fault of line `L`, judged against the lines before it only. */
  function FaultAt(lines: seq<Line>, L: nat): Option<Fault>
    requires L < |lines|
  {
    var before := lines[..L];
    LineFault(|Positions(before)|, |TexCoords(before)|, |Normals(before)|, lines[L])
  }

  function Blame(f: Fault, line: nat): LoadError
  {
    match f
    case NumberFault => MalformedNumber(line)
    case ReferenceFault => MalformedReference(line)
  }

  /** `e` reports the first line of the file that has a fault. */
  predicate MarksFirstFault(lines: seq<Line>, e: LoadError)
  {
    !e.FileNotFound? && e.line < |lines| && FaultAt(lines, e.line).Some? &&
    e == Blame(FaultAt(lines, e.line).value, e.line) &&
    forall L :: 0 <= L < e.line ==> FaultAt(lines, L).None?
  }

  /** `rec` is the record that `tok` stands for, looked up in the arrays of `st`. */
  ghost predicate RecordOf(st: State, tok: Token, c: Rgb, rec: seq<Float>)
  {
    Resolves(|st.vertices|, |st.texCoords|, |st.normals|, tok) &&
    rec == Record(st.vertices[tok.p - 1], c, st.normals[tok.n - 1], st.texCoords[tok.t - 1])
  }

  /** `buf` is the records of `toks`, one 11-float block per word, in order. */
  ghost predicate Records(st: State, toks: seq<Token>, c: Rgb, buf: seq<Float>)
  {
    |buf| == Stride * |toks| &&
    forall k :: 0 <= k < |toks| ==> RecordOf(st, toks[k], c, buf[Stride * k .. Stride * k + Stride])
  }

  /** The attribute arrays of `st2` extend those of `st`. */
  ghost predicate Extends(st: State, st2: State)
  {
    st.vertices <= st2.vertices && st.texCoords <= st2.texCoords && st.normals <= st2.normals
  }

  // ----------------------------------------------------------------- lemmas

  lemma RecordsConcat(st: State, t1: seq<Token>, b1: seq<Float>, t2: seq<Token>, b2: seq<Float>, c: Rgb)
    requires Records(st, t1, c, b1) && Records(st, t2, c, b2)
    ensures Records(st, t1 + t2, c, b1 + b2)
  {
    var T, B := t1 + t2, b1 + b2;
    forall k | 0 <= k < |T|
      ensures RecordOf(st, T[k], c, B[Stride * k .. Stride * k + Stride])
    {
      if k < |t1| {
        assert B[Stride * k .. Stride * k + Stride] == b1[Stride * k .. Stride * k + Stride];
        assert T[k] == t1[k];
      } else {
        var j := k - |t1|;
        assert B[Stride * k .. Stride * k + Stride] == b2[Stride * j .. Stride * j + Stride];
        assert T[k] == t2[j];
      }
    }
  }

  /** Records stay valid when later lines add positions, texcoords or normals. */
  lemma RecordsExtend(st: State, st2: State, toks: seq<Token>, c: Rgb, buf: seq<Float>)
    requires Records(st, toks, c, buf) && Extends(st, st2)
    ensures Records(st2, toks, c, buf)
  {
    forall k | 0 <= k < |toks|
      ensures RecordOf(st2, toks[k], c, buf[Stride * k .. Stride * k + Stride])
    {
      var tok := toks[k];
      assert RecordOf(st, tok, c, buf[Stride * k .. Stride * k + Stride]);
      assert st2.vertices[tok.p - 1] == st.vertices[tok.p - 1];
      assert st2.texCoords[tok.t - 1] == st.texCoords[tok.t - 1];
      assert st2.normals[tok.n - 1] == st.normals[tok.n - 1];
    }
  }

  /** A face line fails exactly when some word is not a reference to existing
      entries, and then the error blames the first such word's fault. */
  lemma {:induction false} EmitCornersFault(st: State, args: seq<Token>, c: Rgb, line: nat)
    ensures var r := EmitCorners(st, args, c, line);
            var f := FaceFault(|st.vertices|, |st.texCoords|, |st.normals|, args);
            (r.Ok? <==> f.None?) && (r.Err? ==> r.error == Blame(f.value, line))
    decreases |args|
  {
    if args != [] {
      EmitCornersFault(st, args[1..], c, line);
    }
  }

  /** A face line that succeeds emits exactly one record per word, in order. */
  lemma {:induction false} EmitCornersRecords(st: State, args: seq<Token>, c: Rgb, line: nat)
    requires EmitCorners(st, args, c, line).Ok?
    ensures Records(st, args, c, EmitCorners(st, args, c, line).value)
    decreases |args|
  {
    if args != [] {
      EmitCornersRecords(st, args[1..], c, line);
      var rec := Corner(st, args[0], c, line).value;
      var rest := EmitCorners(st, args[1..], c, line).value;
      assert Records(st, [args[0]], c, rec) by {
        assert rec[Stride * 0 .. Stride * 0 + Stride] == rec;
      }
      RecordsConcat(st, [args[0]], rec, args[1..], rest, c);
      assert [args[0]] + args[1..] == args;
    }
  }

  /** What one line does: a `v`, `vt` or `vn` line appends exactly one entry to its
      own array and touches nothing else; an `f` line appends one record per word to
      the buffer and touches no array; any other first word changes nothing. The
      line fails exactly when it has a fault, and the error names that fault. */
  lemma LineEffect(st: State, line: Line, lineNo: nat, c: Rgb)
    ensures var r := StepLine(st, line, lineNo, c);
            var f := LineFault(|st.vertices|, |st.texCoords|, |st.normals|, line);
            (r.Ok? <==> f.None?) &&
            (r.Err? ==> r.error == Blame(f.value, lineNo)) &&
            (r.Ok? ==> Extends(st, r.value) && st.vBuffer <= r.value.vBuffer)
    ensures var r := StepLine(st, line, lineNo, c);
            r.Ok? && line.tag == "v" ==>
              r.value.vertices == st.vertices + [ReadVec3(line.args).value] &&
              r.value.texCoords == st.texCoords && r.value.normals == st.normals &&
              r.value.vBuffer == st.vBuffer
    ensures var r := StepLine(st, line, lineNo, c);
            r.Ok? && line.tag == "vt" ==>
              r.value.texCoords == st.texCoords + [ReadVec2(line.args).value] &&
              r.value.vertices == st.vertices && r.value.normals == st.normals &&
              r.value.vBuffer == st.vBuffer
    ensures var r := StepLine(st, line, lineNo, c);
            r.Ok? && line.tag == "vn" ==>
              r.value.normals == st.normals + [ReadVec3(line.args).value] &&
              r.value.vertices == st.vertices && r.value.texCoords == st.texCoords &&
              r.value.vBuffer == st.vBuffer
    ensures var r := StepLine(st, line, lineNo, c);
            r.Ok? && line.tag == "f" ==>
              r.value.vertices == st.vertices && r.value.texCoords == st.texCoords &&
              r.value.normals == st.normals &&
              |r.value.vBuffer| == |st.vBuffer| + Stride * |line.args| &&
              Records(st, line.args, c, r.value.vBuffer[|st.vBuffer|..])
    ensures line.tag !in {"v", "vt", "vn", "f"} ==> StepLine(st, line, lineNo, c) == Ok(st)
  {
    if line.tag == "f" {
      EmitCornersFault(st, line.args, c, lineNo);
      var r := StepLine(st, line, lineNo, c);
      if r.Ok? {
        EmitCornersRecords(st, line.args, c, lineNo);
        var recs := EmitCorners(st, line.args, c, lineNo).value;
        assert r.value.vBuffer[|st.vBuffer|..] == recs;
      }
    }
  }

  /** Parsing one more line of a file extends the parse of the lines before it. */
  lemma ParseStep(lines: seq<Line>, k: nat, c: Rgb)
    requires k < |lines|
    ensures ParseLines(lines[..k], c).Err? ==> ParseLines(lines[..k + 1], c) == ParseLines(lines[..k], c)
    ensures ParseLines(lines[..k], c).Ok? ==>
              ParseLines(lines[..k + 1], c) == StepLine(ParseLines(lines[..k], c).value, lines[k], k, c)
  {
    assert lines[..k + 1][..k] == lines[..k];
  }

  /** Once some prefix of the file fails, the whole file fails with the same error. */
  lemma {:induction false} ParseErrorPersists(lines: seq<Line>, i: nat, c: Rgb)
    requires i <= |lines| && ParseLines(lines[..i], c).Err?
    ensures ParseLines(lines, c) == ParseLines(lines[..i], c)
    decreases |lines|
  {
    if i == |lines| {
      assert lines[..i] == lines;
    } else {
      var n := |lines| - 1;
      assert lines[..n][..i] == lines[..i];
      ParseErrorPersists(lines[..n], i, c);
    }
  }

  /** After a successful parse the arrays hold exactly the file's `v`, `vt` and `vn`
      entries in file order, and the buffer is exactly one record per face word,
      in file order, each built from the entries its 1-based indices name. */
  lemma {:induction false} ParsedContents(lines: seq<Line>, c: Rgb)
    requires ParseLines(lines, c).Ok?
    ensures var st := ParseLines(lines, c).value;
            st.vertices == Positions(lines) && st.texCoords == TexCoords(lines) &&
            st.normals == Normals(lines) && Records(st, Corners(lines), c, st.vBuffer)
    decreases |lines|
  {
    if lines != [] {
      var n := |lines| - 1;
      var init := lines[..n];
      ParsedContents(init, c);
      var st0 := ParseLines(init, c).value;
      var line := lines[n];
      var st := StepLine(st0, line, n, c).value;
      assert ParseLines(lines, c).value == st;
      LineEffect(st0, line, n, c);
      ParsedArrays(init, line, st0, st, n, c);
      assert lines == init + [line];
      RecordsExtend(st0, st, Corners(init), c, st0.vBuffer);
      if line.tag == "f" {
        var tail := st.vBuffer[|st0.vBuffer|..];
        RecordsExtend(st0, st, line.args, c, tail);
        RecordsConcat(st, Corners(init), st0.vBuffer, line.args, tail, c);
        assert st0.vBuffer + tail == st.vBuffer;
        assert Corners(lines) == Corners(init) + line.args;
      } else {
        assert st.vBuffer == st0.vBuffer;
        assert Corners(lines) == Corners(init);
      }
    }
  }

  /** The array part of one step of `ParsedContents`. */
  lemma ParsedArrays(init: seq<Line>, line: Line, st0: State, st: State, n: nat, c: Rgb)
    requires n == |init| && StepLine(st0, line, n, c) == Ok(st)
    requires st0.vertices == Positions(init) && st0.texCoords == TexCoords(init) && st0.normals == Normals(init)
    ensures st.vertices == Positions(init + [line]) && st.texCoords == TexCoords(init + [line]) &&
            st.normals == Normals(init + [line])
  {
    var lines := init + [line];
    assert lines[..n] == init && lines[n] == line;
    LineEffect(st0, line, n, c);
  }

  /** A file loads exactly when none of its lines has a fault judged against the
      lines before it (every reference names an entry of an EARLIER line); when it
      does not load, the error names the first faulty line and its fault. */
  lemma {:induction false} ParseOutcome(lines: seq<Line>, c: Rgb)
    ensures ParseLines(lines, c).Ok? <==> forall L :: 0 <= L < |lines| ==> FaultAt(lines, L).None?
    ensures ParseLines(lines, c).Err? ==> MarksFirstFault(lines, ParseLines(lines, c).error)
    decreases |lines|
  {
    if lines != [] {
      var n := |lines| - 1;
      var init := lines[..n];
      ParseOutcome(init, c);
      forall L | 0 <= L < n
        ensures FaultAt(lines, L) == FaultAt(init, L)
      {
        assert lines[..L] == init[..L];
      }
      match ParseLines(init, c)
      case Err(e) =>
        assert ParseLines(lines, c) == Err(e);
        assert !FaultAt(init, e.line).None?;
      case Ok(st0) =>
        ParsedContents(init, c);
        LineEffect(st0, lines[n], n, c);
        assert lines[..n] == init;
        assert FaultAt(lines, n) == LineFault(|st0.vertices|, |st0.texCoords|, |st0.normals|, lines[n]);
        if ParseLines(lines, c).Ok? {
          forall L | 0 <= L < |lines| ensures FaultAt(lines, L).None? {
            if L < n { assert FaultAt(init, L).None?; }
          }
        }
    }
  }

  /** How buffer entry `i` is determined by the word it comes from. */
  lemma RecordsAt(st: State, toks: seq<Token>, c: Rgb, buf: seq<Float>, i: nat)
    requires Records(st, toks, c, buf) && i < |buf|
    ensures i / Stride < |toks|
    ensures var tok := toks[i / Stride];
            Resolves(|st.vertices|, |st.texCoords|, |st.normals|, tok) &&
            buf[i] == Record(st.vertices[tok.p - 1], c, st.normals[tok.n - 1], st.texCoords[tok.t - 1])[i % Stride]
  {
    var k := i / Stride;
    assert Stride * k <= i < Stride * k + Stride;
    assert RecordOf(st, toks[k], c, buf[Stride * k .. Stride * k + Stride]);
    assert buf[i] == buf[Stride * k .. Stride * k + Stride][i - Stride * k];
  }

  /** Every emitted vertex carries the caller's colour at offsets 3, 4 and 5. */
  lemma ColourFieldsAreCallerColour(lines: seq<Line>, c: Rgb)
    requires ParseLines(lines, c).Ok?
    ensures var buf := ParseLines(lines, c).value.vBuffer;
            forall i :: 0 <= i < |buf| ==>
              (i % Stride == ColorOffset ==> buf[i] == c.r) &&
              (i % Stride == ColorOffset + 1 ==> buf[i] == c.g) &&
              (i % Stride == ColorOffset + 2 ==> buf[i] == c.b)
  {
    var st := ParseLines(lines, c).value;
    ParsedContents(lines, c);
    forall i | 0 <= i < |st.vBuffer|
      ensures (i % Stride == ColorOffset ==> st.vBuffer[i] == c.r) &&
              (i % Stride == ColorOffset + 1 ==> st.vBuffer[i] == c.g) &&
              (i % Stride == ColorOffset + 2 ==> st.vBuffer[i] == c.b)
    {
      ColourAt(st, Corners(lines), c, i);
    }
  }

  lemma ColourAt(st: State, toks: seq<Token>, c: Rgb, i: nat)
    requires Records(st, toks, c, st.vBuffer) && i < |st.vBuffer|
    ensures (i % Stride == ColorOffset ==> st.vBuffer[i] == c.r) &&
            (i % Stride == ColorOffset + 1 ==> st.vBuffer[i] == c.g) &&
            (i % Stride == ColorOffset + 2 ==> st.vBuffer[i] == c.b)
  {
    RecordsAt(st, toks, c, st.vBuffer, i);
  }

  /** Loading one file with two colours: both succeed or both fail with the same
      error. */
  lemma ColourDoesNotDecideOutcome(lines: seq<Line>, c1: Rgb, c2: Rgb)
    ensures ParseLines(lines, c1).Ok? <==> ParseLines(lines, c2).Ok?
    ensures ParseLines(lines, c1).Err? ==> ParseLines(lines, c1).error == ParseLines(lines, c2).error
  {
    ParseOutcome(lines, c1);
    ParseOutcome(lines, c2);
  }

  /** Two successful loads of one file with different colours agree on the
      arrays, and their buffers agree everywhere except at the colour offsets
      3, 4 and 5 of each record. */
  lemma ColourOnlyAffectsColourFields(lines: seq<Line>, c1: Rgb, c2: Rgb)
    requires ParseLines(lines, c1).Ok? && ParseLines(lines, c2).Ok?
    ensures var s1, s2 := ParseLines(lines, c1).value, ParseLines(lines, c2).value;
            s1.vertices == s2.vertices && s1.texCoords == s2.texCoords && s1.normals == s2.normals &&
            |s1.vBuffer| == |s2.vBuffer| &&
            forall i :: 0 <= i < |s1.vBuffer| && !(ColorOffset <= i % Stride < ColorOffset + 3) ==>
              s1.vBuffer[i] == s2.vBuffer[i]
  {
    ParsedContents(lines, c1);
    ParsedContents(lines, c2);
    var s1, s2 := ParseLines(lines, c1).value, ParseLines(lines, c2).value;
    forall i | 0 <= i < |s1.vBuffer| && !(ColorOffset <= i % Stride < ColorOffset + 3)
      ensures s1.vBuffer[i] == s2.vBuffer[i]
    {
      BuffersAgreeAt(s1, s2, Corners(lines), c1, c2, i);
    }
  }

  lemma BuffersAgreeAt(s1: State, s2: State, toks: seq<Token>, c1: Rgb, c2: Rgb, i: nat)
    requires Records(s1, toks, c1, s1.vBuffer) && Records(s2, toks, c2, s2.vBuffer)
    requires s1.vertices == s2.vertices && s1.texCoords == s2.texCoords && s1.normals == s2.normals
    requires i < |s1.vBuffer| && !(ColorOffset <= i % Stride < ColorOffset + 3)
    ensures s1.vBuffer[i] == s2.vBuffer[i]
  {
    RecordsAt(s1, toks, c1, s1.vBuffer, i);
    RecordsAt(s2, toks, c2, s2.vBuffer, i);
    var tok := toks[i / Stride];
    var v, n, t := s1.vertices[tok.p - 1], s1.normals[tok.n - 1], s1.texCoords[tok.t - 1];
    var o := i % Stride;
    RecordColourFree(v, c1, c2, n, t, o);
    calc {
      s1.vBuffer[i];
      Record(v, c1, n, t)[o];
      Record(v, c2, n, t)[o];
      s2.vBuffer[i];
    }
  }

  /** Outside offsets 3, 4 and 5, a record does not depend on the colour. */
  lemma RecordColourFree(v: Vec3, c1: Rgb, c2: Rgb, n: Vec3, t: Vec2, o: nat)
    requires o < Stride && !(ColorOffset <= o < ColorOffset + 3)
    ensures Record(v, c1, n, t)[o] == Record(v, c2, n, t)[o]
  {
  }

  /** A load that cannot open its file fails with `FileNotFound`; a successful load
      reports `nVertices` = buffer length / 11 with no remainder, one vertex per face
      word of the file; any other failure is a malformed number or reference. */
  lemma LoadResult(file: Option<seq<Line>>, c: Rgb)
    ensures file.None? ==> Load(file, c) == Err(FileNotFound)
    ensures file.Some? && Load(file, c).Ok? ==>
              var m := Load(file, c).value;
              |m.vBuffer| == Stride * m.nVertices && m.nVertices == |Corners(file.value)|
    ensures file.Some? && Load(file, c).Err? ==> !Load(file, c).error.FileNotFound?
  {
    if file.Some? {
      ParseOutcome(file.value, c);
      if ParseLines(file.value, c).Ok? {
        ParsedContents(file.value, c);
      }
    }
  }
}
