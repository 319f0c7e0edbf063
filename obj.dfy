/** The OBJ loading pipeline: decoding of `v`, `vt`, `vn` and `f` records
    into four append-only pools, and the flattening pass that resolves the
    face references into position-aligned attribute streams. */
module ObjLoader {
  import opened Results
  import opened Tokens
  import opened Algebra

  /** `ivec3`: one face-vertex reference, already made 0-based. */
  datatype IVec3 = IVec3(v: int, t: int, n: int)

  /** The four global vectors the loader fills. */
  datatype Pools = Pools(vertices: seq<Vec3>, textCoords: seq<Vec2>, normals: seq<Vec3>, indexes: seq<IVec3>)

  /** Why a record could not be read. In the source the first two are the
      exceptions of `std::stoi`; the last two are reads past the end of a
      token vector. */
  datatype LoadError =
    | NotANumber(token: string)
    | IndexOutOfIntRange(token: string)
    | MissingIndexField(group: string)
    | MissingCoordinate(line: string)

  // ---------------------------------------------------------------------
  // parseVector2 / parseVector3
  // ---------------------------------------------------------------------

  /** `parseVector2`: the two space-separated tokens after the record tag,
      converted by `stof`; further tokens are ignored. */
  function ParseVector2(line: string, stof: string -> real): (r: Result<Vec2, LoadError>)
    ensures r.Success? <==> |Split(line, ' ')| >= 3
  {
    var tokens := Split(line, ' ');
    if |tokens| < 3 then Failure(MissingCoordinate(line))
    else Success(Vec2(stof(tokens[1]), stof(tokens[2])))
  }

  /** `parseVector3`: the three space-separated tokens after the record tag. */
  function ParseVector3(line: string, stof: string -> real): (r: Result<Vec3, LoadError>)
    ensures r.Success? <==> |Split(line, ' ')| >= 4
  {
    var tokens := Split(line, ' ');
    if |tokens| < 4 then Failure(MissingCoordinate(line))
    else Success(Vec3(stof(tokens[1]), stof(tokens[2]), stof(tokens[3])))
  }

  /** A record written as tag and fields separated by single spaces yields
      the converted first two fields. */
  lemma ParseVector2OfFields(fields: seq<string>, stof: string -> real)
    requires |fields| >= 3 && WellFormedTokens(fields, ' ')
    ensures ParseVector2(Join(fields, ' '), stof) == Success(Vec2(stof(fields[1]), stof(fields[2])))
  {
    SplitJoin(fields, ' ');
  }

  /** A record written as tag and fields separated by single spaces yields
      the converted first three fields. */
  lemma ParseVector3OfFields(fields: seq<string>, stof: string -> real)
    requires |fields| >= 4 && WellFormedTokens(fields, ' ')
    ensures ParseVector3(Join(fields, ' '), stof)
         == Success(Vec3(stof(fields[1]), stof(fields[2]), stof(fields[3])))
  {
    SplitJoin(fields, ' ');
  }

  /** The dispatch accepts a tab after `v`, but the fields are split on
      spaces only: with a tab there the tag and the first coordinate form one
      token, and the record is one coordinate short. */
  lemma TabSeparatedVertexIsShort(stof: string -> real)
    ensures ParseVector3("v\t1 2 3", stof) == Failure(MissingCoordinate("v\t1 2 3"))
  {
    assert "v\t1 2 3" == "v\t1" + [' '] + "2 3";
    assert "2 3" == "2" + [' '] + "3";
    SplitLeadingToken("v\t1", "2 3", ' ');
    SplitLeadingToken("2", "3", ' ');
    SplitSingle("3", ' ');
  }

  // ---------------------------------------------------------------------
  // createFace
  // ---------------------------------------------------------------------

  /** `stoi(field) - 1`: a 1-based index made 0-based. */
  function ParseIndex(field: string): (r: Result<int, LoadError>)
    ensures r.Success? <==> Stoi(field).Success?
    ensures r.Success? ==> r.value == Stoi(field).value - 1
  {
    match Stoi(field)
    case Success(k) => Success(k - 1)
    case Failure(InvalidArgument) => Failure(NotANumber(field))
    case Failure(OutOfRange) => Failure(IndexOutOfIntRange(field))
  }

  /** One index group of a face record, split on `/` with empty fields
      dropped. Two fields are stored as (first, 0, second); three or more as
      the first three. The fields are converted left to right, so with one
      field a rejection by `stoi` comes before the missing second field. */
  function DecodeGroup(group: string): Result<IVec3, LoadError> {
    var fields := Split(group, '/');
    if |fields| == 1 then
      var _ :- ParseIndex(fields[0]);
      Failure(MissingIndexField(group))
    else if |fields| == 2 then
      var a :- ParseIndex(fields[0]);
      var b :- ParseIndex(fields[1]);
      Success(IVec3(a, 0, b))
    else if |fields| >= 3 then
      var a :- ParseIndex(fields[0]);
      var b :- ParseIndex(fields[1]);
      var c :- ParseIndex(fields[2]);
      Success(IVec3(a, b, c))
    else
      Failure(MissingIndexField(group))
  }

  lemma NoSlashInNumber(k: nat)
    ensures '/' !in ShowNat(k)
  {
    var s := ShowNat(k);
    forall i | 0 <= i < |s|
      ensures s[i] != '/'
    {
      assert IsDigit(s[i]);
    }
  }

  /** A rendered index has no `/` and reads back as itself minus one. */
  lemma RenderedIndex(k: nat)
    requires k <= INT_MAX
    ensures '/' !in ShowNat(k) && ShowNat(k) != []
    ensures ParseIndex(ShowNat(k)) == Success(k - 1)
  {
    NoSlashInNumber(k);
    StoiShowNat(k);
  }

  lemma DecodeTwoFields(group: string, x: string, y: string, a: int, b: int)
    requires Split(group, '/') == [x, y]
    requires ParseIndex(x) == Success(a) && ParseIndex(y) == Success(b)
    ensures DecodeGroup(group) == Success(IVec3(a, 0, b))
  {
  }

  lemma DecodeThreeFields(group: string, x: string, y: string, z: string, a: int, b: int, c: int)
    requires Split(group, '/') == [x, y, z]
    requires ParseIndex(x) == Success(a) && ParseIndex(y) == Success(b) && ParseIndex(z) == Success(c)
    ensures DecodeGroup(group) == Success(IVec3(a, b, c))
  {
  }

  /** `v//n`: the empty texture field is dropped, so the normal index lands in
      the normal slot and the texture slot holds 0. */
  lemma DecodePositionNormal(a: nat, b: nat)
    requires a <= INT_MAX && b <= INT_MAX
    ensures DecodeGroup(ShowNat(a) + "//" + ShowNat(b)) == Success(IVec3(a - 1, 0, b - 1))
  {
    RenderedIndex(a);
    RenderedIndex(b);
    DecodeDoubleSlashed(ShowNat(a), ShowNat(b), a - 1, b - 1);
  }

  lemma DecodeDoubleSlashed(x: string, y: string, a: int, b: int)
    requires x != [] && y != [] && '/' !in x && '/' !in y
    requires ParseIndex(x) == Success(a) && ParseIndex(y) == Success(b)
    ensures DecodeGroup(x + "//" + y) == Success(IVec3(a, 0, b))
  {
    var g := x + "//" + y;
    assert g == x + ['/'] + (['/'] + y);
    SplitLeadingToken(x, ['/'] + y, '/');
    SplitLeadingDelimiter(y, '/');
    SplitSingle(y, '/');
    DecodeTwoFields(g, x, y, a, b);
  }

  /** `v/t`: two fields as well, so the texture index is stored in the
      normal slot and the texture slot holds 0. */
  lemma DecodePositionTexture(a: nat, b: nat)
    requires a <= INT_MAX && b <= INT_MAX
    ensures DecodeGroup(ShowNat(a) + "/" + ShowNat(b)) == Success(IVec3(a - 1, 0, b - 1))
  {
    RenderedIndex(a);
    RenderedIndex(b);
    DecodeSingleSlashed(ShowNat(a), ShowNat(b), a - 1, b - 1);
  }

  lemma DecodeSingleSlashed(x: string, y: string, a: int, b: int)
    requires x != [] && y != [] && '/' !in x && '/' !in y
    requires ParseIndex(x) == Success(a) && ParseIndex(y) == Success(b)
    ensures DecodeGroup(x + "/" + y) == Success(IVec3(a, 0, b))
  {
    var g := x + "/" + y;
    assert g == x + ['/'] + y;
    SplitLeadingToken(x, y, '/');
    SplitSingle(y, '/');
    DecodeTwoFields(g, x, y, a, b);
  }

  /** `v/t/n`: the three indices, each made 0-based, in their own slots. */
  lemma DecodeFullTriple(a: nat, b: nat, c: nat)
    requires a <= INT_MAX && b <= INT_MAX && c <= INT_MAX
    ensures DecodeGroup(ShowNat(a) + "/" + ShowNat(b) + "/" + ShowNat(c))
         == Success(IVec3(a - 1, b - 1, c - 1))
  {
    RenderedIndex(a);
    RenderedIndex(b);
    RenderedIndex(c);
    DecodeSlashed(ShowNat(a), ShowNat(b), ShowNat(c), a - 1, b - 1, c - 1);
  }

  lemma DecodeSlashed(x: string, y: string, z: string, a: int, b: int, c: int)
    requires x != [] && y != [] && z != [] && '/' !in x && '/' !in y && '/' !in z
    requires ParseIndex(x) == Success(a) && ParseIndex(y) == Success(b) && ParseIndex(z) == Success(c)
    ensures DecodeGroup(x + "/" + y + "/" + z) == Success(IVec3(a, b, c))
  {
    var g := x + "/" + y + "/" + z;
    assert g == x + ['/'] + (y + ['/'] + z);
    SplitThree(x, y, z, '/');
    DecodeThreeFields(g, x, y, z, a, b, c);
  }

  lemma SplitThree(x: string, y: string, z: string, d: char)
    requires x != [] && y != [] && z != [] && d !in x && d !in y && d !in z
    ensures Split(x + [d] + (y + [d] + z), d) == [x, y, z]
  {
    SplitLeadingToken(x, y + [d] + z, d);
    SplitLeadingToken(y, z, d);
    SplitSingle(z, d);
  }

  /** A group of one field: the field is converted first, and only when
      `stoi` accepts it is the missing second field the error. */
  lemma DecodeOneField(x: string)
    requires x != [] && '/' !in x
    ensures ParseIndex(x).Failure? ==> DecodeGroup(x) == Failure(ParseIndex(x).error)
    ensures ParseIndex(x).Success? ==> DecodeGroup(x) == Failure(MissingIndexField(x))
  {
    SplitSingle(x, '/');
  }

  /** The group of `f x`: `stoi` rejects `x` before the second field is
      looked for. */
  lemma NonNumericGroup()
    ensures DecodeGroup("x") == Failure(NotANumber("x"))
  {
    DecodeOneField("x");
    StoiInvalid("x");
  }

  /** A group with no field at all, such as `/`, has nothing to convert. */
  lemma DecodeNoField(group: string)
    requires Split(group, '/') == []
    ensures DecodeGroup(group) == Failure(MissingIndexField(group))
  {
  }

  /** A bare `v` has one field, which the source cannot decode: an index
      within the `int` range is short of its second field, a larger one is
      rejected by `stoi` first. */
  lemma DecodePositionOnly(a: nat)
    ensures a <= INT_MAX ==> DecodeGroup(ShowNat(a)) == Failure(MissingIndexField(ShowNat(a)))
    ensures a > INT_MAX ==> DecodeGroup(ShowNat(a)) == Failure(IndexOutOfIntRange(ShowNat(a)))
  {
    NoSlashInNumber(a);
    DecodeOneField(ShowNat(a));
    if a <= INT_MAX {
      StoiShowNat(a);
    } else {
      StoiTooLarge(a);
    }
  }

  /** References decoded from the groups of one face record, in order, up to
      the first group that fails, together with that failure. */
  datatype Decoded = Decoded(refs: seq<IVec3>, failure: Option<LoadError>)

  /** The groups of a face record decoded by `decode`, left to right, up to
      the first failure. */
  function DecodeEach(groups: seq<string>, decode: string -> Result<IVec3, LoadError>): (r: Decoded)
    ensures |r.refs| <= |groups|
    ensures r.failure == None ==> |r.refs| == |groups|
    decreases |groups|
  {
    if groups == [] then Decoded([], None)
    else
      var before := DecodeEach(groups[..|groups| - 1], decode);
      if before.failure != None then before
      else match decode(groups[|groups| - 1])
        case Success(ref) => Decoded(before.refs + [ref], None)
        case Failure(e) => Decoded(before.refs, Some(e))
  }

  function DecodeGroups(groups: seq<string>): Decoded {
    DecodeEach(groups, DecodeGroup)
  }

  lemma {:induction false} DecodeEachSound(groups: seq<string>, decode: string -> Result<IVec3, LoadError>)
    ensures var r := DecodeEach(groups, decode);
      && (forall i :: 0 <= i < |r.refs| ==> decode(groups[i]) == Success(r.refs[i]))
      && (r.failure != None ==> |r.refs| < |groups| && decode(groups[|r.refs|]) == Failure(r.failure.value))
    decreases |groups|
  {
    if groups != [] {
      var init := groups[..|groups| - 1];
      DecodeEachSound(init, decode);
      var before := DecodeEach(init, decode);
      forall i | 0 <= i < |before.refs|
        ensures groups[i] == init[i]
      {
      }
      if before.failure == None {
        assert |before.refs| == |init|;
      }
    }
  }

  /** Reference `i` is what group `i` decodes to; when decoding stopped
      early, the failure is that of the group right after the decoded ones. */
  lemma DecodeGroupsSound(groups: seq<string>)
    ensures var r := DecodeGroups(groups);
      && (forall i :: 0 <= i < |r.refs| ==> DecodeGroup(groups[i]) == Success(r.refs[i]))
      && (r.failure != None ==> |r.refs| < |groups| && DecodeGroup(groups[|r.refs|]) == Failure(r.failure.value))
  {
    DecodeEachSound(groups, DecodeGroup);
  }

  lemma DecodeEachNext(groups: seq<string>, k: nat, decode: string -> Result<IVec3, LoadError>)
    requires k < |groups| && DecodeEach(groups[..k], decode).failure == None
    ensures var before, d := DecodeEach(groups[..k], decode), decode(groups[k]);
      && (d.Success? ==> DecodeEach(groups[..k + 1], decode) == Decoded(before.refs + [d.value], None))
      && (d.Failure? ==> DecodeEach(groups[..k + 1], decode) == Decoded(before.refs, Some(d.error)))
  {
    var g := groups[..k + 1];
    assert g[..|g| - 1] == groups[..k];
    assert g[|g| - 1] == groups[k];
  }

  /** One step of the face loop: with the groups before `k` all decoded,
      group `k` either adds its reference or ends decoding with its error. */
  lemma DecodeGroupsNext(groups: seq<string>, k: nat, d: Result<IVec3, LoadError>)
    requires k < |groups| && DecodeGroups(groups[..k]).failure == None
    requires DecodeGroup(groups[k]) == d
    ensures d.Success? ==> DecodeGroups(groups[..k + 1]) == Decoded(DecodeGroups(groups[..k]).refs + [d.value], None)
    ensures d.Failure? ==> DecodeGroups(groups[..k + 1]) == Decoded(DecodeGroups(groups[..k]).refs, Some(d.error))
  {
    DecodeEachNext(groups, k, DecodeGroup);
  }

  lemma {:induction false} DecodeEachStops(groups: seq<string>, k: nat, decode: string -> Result<IVec3, LoadError>)
    requires k <= |groups| && DecodeEach(groups[..k], decode).failure != None
    ensures DecodeEach(groups, decode) == DecodeEach(groups[..k], decode)
    decreases |groups| - k
  {
    if k < |groups| {
      var g := groups[..k + 1];
      assert g[..|g| - 1] == groups[..k];
      assert DecodeEach(g, decode) == DecodeEach(groups[..k], decode);
      DecodeEachStops(groups, k + 1, decode);
    } else {
      assert groups[..k] == groups;
    }
  }

  /** Once a group has failed, later groups are not looked at. */
  lemma DecodeGroupsStops(groups: seq<string>, k: nat)
    requires k <= |groups| && DecodeGroups(groups[..k]).failure != None
    ensures DecodeGroups(groups) == DecodeGroups(groups[..k])
  {
    DecodeEachStops(groups, k, DecodeGroup);
  }

  /** The index groups of a face record: every token after the first. */
  function FaceGroups(line: string): seq<string> {
    var tokens := Split(line, ' ');
    if tokens == [] then [] else tokens[1..]
  }

  function DecodeFace(line: string): Decoded {
    DecodeGroups(FaceGroups(line))
  }

  // ---------------------------------------------------------------------
  // line dispatch of loadObj
  // ---------------------------------------------------------------------

  datatype LineKind = Ignored | TexCoordLine | NormalLine | VertexLine | FaceLine

  /** The `switch` of `loadObj` on the first two characters of a line. */
  function Kind(line: string): LineKind {
    if |line| < 2 then Ignored
    else if line[0] == 'v' then
      if line[1] == 't' then TexCoordLine
      else if line[1] == 'n' then NormalLine
      else if line[1] == ' ' || line[1] == '\t' then VertexLine
      else Ignored
    else if line[0] == 'f' then FaceLine
    else Ignored
  }

  /** The pools after one line, and the failure that ends loading, if any. */
  datatype Step = Step(pools: Pools, failure: Option<LoadError>)

  /** `after` is `before` with exactly one element appended. */
  predicate AppendsOne<T(==)>(before: seq<T>, after: seq<T>) {
    |after| == |before| + 1 && before <= after
  }

  /** What one line does to the pools. */
  function ApplyLine(p: Pools, line: string, stof: string -> real): (r: Step)
    // short lines and unrecognised tags change nothing
    ensures Kind(line) == Ignored ==> r == Step(p, None)
    // a record that cannot be read changes nothing, except a face record,
    // which keeps the references decoded before the failing group
    ensures r.failure != None && Kind(line) != FaceLine ==> r.pools == p
    ensures Kind(line) == TexCoordLine ==>
      && r.pools.(textCoords := p.textCoords) == p
      && (r.failure == None <==> AppendsOne(p.textCoords, r.pools.textCoords))
      && (r.failure == None <==> ParseVector2(line, stof).Success?)
      && (r.failure == None ==> r.pools.textCoords == p.textCoords + [ParseVector2(line, stof).value])
    ensures Kind(line) == NormalLine ==>
      && r.pools.(normals := p.normals) == p
      && (r.failure == None <==> AppendsOne(p.normals, r.pools.normals))
      && (r.failure == None <==> ParseVector3(line, stof).Success?)
      && (r.failure == None ==> r.pools.normals == p.normals + [ParseVector3(line, stof).value])
    ensures Kind(line) == VertexLine ==>
      && r.pools.(vertices := p.vertices) == p
      && (r.failure == None <==> AppendsOne(p.vertices, r.pools.vertices))
      && (r.failure == None <==> ParseVector3(line, stof).Success?)
      && (r.failure == None ==> r.pools.vertices == p.vertices + [ParseVector3(line, stof).value])
    ensures Kind(line) == FaceLine ==>
      && r.pools.(indexes := p.indexes) == p
      && r.pools.indexes == p.indexes + DecodeFace(line).refs
      && r.failure == DecodeFace(line).failure
  {
    match Kind(line)
    case Ignored => Step(p, None)
    case TexCoordLine =>
      (match ParseVector2(line, stof)
       case Success(t) => Step(p.(textCoords := p.textCoords + [t]), None)
       case Failure(e) => Step(p, Some(e)))
    case NormalLine =>
      (match ParseVector3(line, stof)
       case Success(n) => Step(p.(normals := p.normals + [n]), None)
       case Failure(e) => Step(p, Some(e)))
    case VertexLine =>
      (match ParseVector3(line, stof)
       case Success(v) => Step(p.(vertices := p.vertices + [v]), None)
       case Failure(e) => Step(p, Some(e)))
    case FaceLine =>
      var d := DecodeFace(line);
      Step(p.(indexes := p.indexes + d.refs), d.failure)
  }

  /** The lines in order, stopping at the first that fails. */
  function LoadAll(p: Pools, lines: seq<string>, stof: string -> real): Step
    decreases |lines|
  {
    if lines == [] then Step(p, None)
    else
      var s := ApplyLine(p, lines[0], stof);
      if s.failure != None then s else LoadAll(s.pools, lines[1..], stof)
  }

  /** Every pool is a prefix of its value after `b`. */
  predicate Extends(a: Pools, b: Pools) {
    && a.vertices <= b.vertices
    && a.textCoords <= b.textCoords
    && a.normals <= b.normals
    && a.indexes <= b.indexes
  }

  /** The pools are append-only during loading. */
  lemma {:induction false} LoadAllExtends(p: Pools, lines: seq<string>, stof: string -> real)
    ensures Extends(p, LoadAll(p, lines, stof).pools)
    decreases |lines|
  {
    if lines != [] {
      var s := ApplyLine(p, lines[0], stof);
      assert Extends(p, s.pools) by {
        match Kind(lines[0])
        case TexCoordLine =>
          if s.failure == None { assert s.pools.textCoords[..|p.textCoords|] == p.textCoords; }
        case NormalLine =>
          if s.failure == None { assert s.pools.normals[..|p.normals|] == p.normals; }
        case VertexLine =>
          if s.failure == None { assert s.pools.vertices[..|p.vertices|] == p.vertices; }
        case FaceLine =>
        case Ignored =>
      }
      if s.failure == None {
        LoadAllExtends(s.pools, lines[1..], stof);
      }
    }
  }

  /** How many of the lines are of the given kind. */
  function CountKind(lines: seq<string>, k: LineKind): nat
    decreases |lines|
  {
    if lines == [] then 0 else (if Kind(lines[0]) == k then 1 else 0) + CountKind(lines[1..], k)
  }

  /** How many index groups the face lines carry. */
  function CountGroups(lines: seq<string>): nat
    decreases |lines|
  {
    if lines == [] then 0
    else (if Kind(lines[0]) == FaceLine then |FaceGroups(lines[0])| else 0) + CountGroups(lines[1..])
  }

  /** A load that succeeds adds one position per `v` line, one texture
      coordinate per `vt` line, one normal per `vn` line and one reference
      per index group of the `f` lines. */
  lemma {:induction false} LoadAllCounts(p: Pools, lines: seq<string>, stof: string -> real)
    requires LoadAll(p, lines, stof).failure == None
    ensures var q := LoadAll(p, lines, stof).pools;
      && |q.vertices| == |p.vertices| + CountKind(lines, VertexLine)
      && |q.textCoords| == |p.textCoords| + CountKind(lines, TexCoordLine)
      && |q.normals| == |p.normals| + CountKind(lines, NormalLine)
      && |q.indexes| == |p.indexes| + CountGroups(lines)
    decreases |lines|
  {
    if lines != [] {
      var s := ApplyLine(p, lines[0], stof);
      assert s.failure == None;
      LoadAllCounts(s.pools, lines[1..], stof);
    }
  }

  /** What `pick` keeps of each line, concatenated in line order. */
  function Picked<T>(lines: seq<string>, pick: string -> seq<T>): seq<T>
    decreases |lines|
  {
    if lines == [] then [] else pick(lines[0]) + Picked(lines[1..], pick)
  }

  lemma AppendAssoc<T>(a: seq<T>, b: seq<T>, c: seq<T>)
    ensures a + (b + c) == (a + b) + c
  {
  }

  lemma PickedStep<T>(lines: seq<string>, pick: string -> seq<T>)
    requires lines != []
    ensures Picked(lines, pick) == pick(lines[0]) + Picked(lines[1..], pick)
  {
  }

  /** The position a `v` line records, if it can be read. */
  function VertexRecord(stof: string -> real): string -> seq<Vec3> {
    line => if Kind(line) == VertexLine && ParseVector3(line, stof).Success? then [ParseVector3(line, stof).value] else []
  }

  /** The texture coordinate a `vt` line records, if it can be read. */
  function TexCoordRecord(stof: string -> real): string -> seq<Vec2> {
    line => if Kind(line) == TexCoordLine && ParseVector2(line, stof).Success? then [ParseVector2(line, stof).value] else []
  }

  /** The normal a `vn` line records, if it can be read. */
  function NormalRecord(stof: string -> real): string -> seq<Vec3> {
    line => if Kind(line) == NormalLine && ParseVector3(line, stof).Success? then [ParseVector3(line, stof).value] else []
  }

  /** The references an `f` line records. */
  function FaceRecord(line: string): seq<IVec3> {
    if Kind(line) == FaceLine then DecodeFace(line).refs else []
  }

  /** One line that loads without error appends what it records to its own
      pool and nothing to the others. */
  lemma ApplyLineRecords(p: Pools, line: string, stof: string -> real)
    requires ApplyLine(p, line, stof).failure == None
    ensures var q := ApplyLine(p, line, stof).pools;
      && q.vertices == p.vertices + VertexRecord(stof)(line)
      && q.textCoords == p.textCoords + TexCoordRecord(stof)(line)
      && q.normals == p.normals + NormalRecord(stof)(line)
      && q.indexes == p.indexes + FaceRecord(line)
  {
    var q := ApplyLine(p, line, stof).pools;
    match Kind(line)
    case Ignored =>
      assert q == p;
    case TexCoordLine =>
      assert q.(textCoords := p.textCoords) == p;
    case NormalLine =>
      assert q.(normals := p.normals) == p;
    case VertexLine =>
      assert q.(vertices := p.vertices) == p;
    case FaceLine =>
      assert q.(indexes := p.indexes) == p;
  }

  /** The pools after the first line of a load with no error, and what
      that line added to each of them. */
  lemma LoadAllFirst(p: Pools, lines: seq<string>, stof: string -> real) returns (q: Pools)
    requires lines != [] && LoadAll(p, lines, stof).failure == None
    ensures LoadAll(q, lines[1..], stof) == LoadAll(p, lines, stof)
    ensures q.vertices == p.vertices + VertexRecord(stof)(lines[0])
    ensures q.textCoords == p.textCoords + TexCoordRecord(stof)(lines[0])
    ensures q.normals == p.normals + NormalRecord(stof)(lines[0])
    ensures q.indexes == p.indexes + FaceRecord(lines[0])
  {
    var s := ApplyLine(p, lines[0], stof);
    assert s.failure == None;
    ApplyLineRecords(p, lines[0], stof);
    q := s.pools;
  }

  /** After a load with no error every pool holds what it held before,
      followed by the records of its own kind in the order of the lines. */
  lemma LoadAllContents(p: Pools, lines: seq<string>, stof: string -> real)
    requires LoadAll(p, lines, stof).failure == None
    ensures var q := LoadAll(p, lines, stof).pools;
      && q.vertices == p.vertices + Picked(lines, VertexRecord(stof))
      && q.textCoords == p.textCoords + Picked(lines, TexCoordRecord(stof))
      && q.normals == p.normals + Picked(lines, NormalRecord(stof))
      && q.indexes == p.indexes + Picked(lines, FaceRecord)
  {
    LoadAllVertices(p, lines, stof);
    LoadAllTexCoords(p, lines, stof);
    LoadAllNormals(p, lines, stof);
    LoadAllIndexes(p, lines, stof);
  }

  lemma {:induction false} LoadAllVertices(p: Pools, lines: seq<string>, stof: string -> real)
    requires LoadAll(p, lines, stof).failure == None
    ensures LoadAll(p, lines, stof).pools.vertices == p.vertices + Picked(lines, VertexRecord(stof))
    decreases |lines|
  {
    if lines != [] {
      var q := LoadAllFirst(p, lines, stof);
      LoadAllVertices(q, lines[1..], stof);
      PickedStep(lines, VertexRecord(stof));
      AppendAssoc(p.vertices, VertexRecord(stof)(lines[0]), Picked(lines[1..], VertexRecord(stof)));
    }
  }

  lemma {:induction false} LoadAllTexCoords(p: Pools, lines: seq<string>, stof: string -> real)
    requires LoadAll(p, lines, stof).failure == None
    ensures LoadAll(p, lines, stof).pools.textCoords == p.textCoords + Picked(lines, TexCoordRecord(stof))
    decreases |lines|
  {
    if lines != [] {
      var q := LoadAllFirst(p, lines, stof);
      LoadAllTexCoords(q, lines[1..], stof);
      PickedStep(lines, TexCoordRecord(stof));
      AppendAssoc(p.textCoords, TexCoordRecord(stof)(lines[0]), Picked(lines[1..], TexCoordRecord(stof)));
    }
  }

  lemma {:induction false} LoadAllNormals(p: Pools, lines: seq<string>, stof: string -> real)
    requires LoadAll(p, lines, stof).failure == None
    ensures LoadAll(p, lines, stof).pools.normals == p.normals + Picked(lines, NormalRecord(stof))
    decreases |lines|
  {
    if lines != [] {
      var q := LoadAllFirst(p, lines, stof);
      LoadAllNormals(q, lines[1..], stof);
      PickedStep(lines, NormalRecord(stof));
      AppendAssoc(p.normals, NormalRecord(stof)(lines[0]), Picked(lines[1..], NormalRecord(stof)));
    }
  }

  lemma {:induction false} LoadAllIndexes(p: Pools, lines: seq<string>, stof: string -> real)
    requires LoadAll(p, lines, stof).failure == None
    ensures LoadAll(p, lines, stof).pools.indexes == p.indexes + Picked(lines, FaceRecord)
    decreases |lines|
  {
    if lines != [] {
      var q := LoadAllFirst(p, lines, stof);
      LoadAllIndexes(q, lines[1..], stof);
      PickedStep(lines, FaceRecord);
      AppendAssoc(p.indexes, FaceRecord(lines[0]), Picked(lines[1..], FaceRecord));
    }
  }

  // ---------------------------------------------------------------------
  // generateNewIndexes
  // ---------------------------------------------------------------------

  datatype Slot = PositionSlot | TexCoordSlot | NormalSlot

  function Ref(r: IVec3, s: Slot): int {
    match s
    case PositionSlot => r.v
    case TexCoordSlot => r.t
    case NormalSlot => r.n
  }

  predicate RefsIn<T>(pool: seq<T>, refs: seq<IVec3>, s: Slot) {
    forall i :: 0 <= i < |refs| ==> 0 <= Ref(refs[i], s) < |pool|
  }

  /** The pool entries the references select, in reference order. */
  function Gather<T>(pool: seq<T>, refs: seq<IVec3>, s: Slot): (r: seq<T>)
    requires RefsIn(pool, refs, s)
    ensures |r| == |refs|
    ensures forall i :: 0 <= i < |refs| ==> r[i] == pool[Ref(refs[i], s)]
    decreases |refs|
  {
    if refs == [] then []
    else Gather(pool, refs[..|refs| - 1], s) + [pool[Ref(refs[|refs| - 1], s)]]
  }

  /** Gathering one more reference appends the entry it selects. */
  lemma GatherNext<T>(pool: seq<T>, refs: seq<IVec3>, s: Slot, i: nat)
    requires RefsIn(pool, refs, s) && i < |refs|
    ensures RefsIn(pool, refs[..i], s) && RefsIn(pool, refs[..i + 1], s)
    ensures Gather(pool, refs[..i + 1], s) == Gather(pool, refs[..i], s) + [pool[Ref(refs[i], s)]]
  {
    assert forall k :: 0 <= k <= i ==> refs[..i + 1][k] == refs[k];
    assert refs[..i + 1][..i] == refs[..i];
  }

  /** What the source relies on and never checks: every reference is inside
      its pool; texture references only matter when there are texture
      coordinates. */
  predicate IndicesInRange(p: Pools) {
    && RefsIn(p.vertices, p.indexes, PositionSlot)
    && RefsIn(p.normals, p.indexes, NormalSlot)
    && (|p.textCoords| > 0 ==> RefsIn(p.textCoords, p.indexes, TexCoordSlot))
  }

  /** The pools after `generateNewIndexes`. */
  function Flatten(p: Pools): (r: Pools)
    requires IndicesInRange(p)
    ensures r.indexes == p.indexes
    ensures |r.vertices| == |p.indexes| && |r.normals| == |p.indexes|
    ensures |r.textCoords| == if |p.textCoords| > 0 then |p.indexes| else 0
    ensures forall i :: 0 <= i < |p.indexes| ==>
      && r.vertices[i] == p.vertices[p.indexes[i].v]
      && r.normals[i] == p.normals[p.indexes[i].n]
      && (|p.textCoords| > 0 ==> r.textCoords[i] == p.textCoords[p.indexes[i].t])
  {
    Pools(
      Gather(p.vertices, p.indexes, PositionSlot),
      if |p.textCoords| > 0 then Gather(p.textCoords, p.indexes, TexCoordSlot) else [],
      Gather(p.normals, p.indexes, NormalSlot),
      p.indexes)
  }

  // ---------------------------------------------------------------------
  // the global pools
  // ---------------------------------------------------------------------

  /** The body of the loop of `createFace` for one group, as the statements
      the source runs: split it on `/` with the tokenising loop and convert
      the fields it uses. It is the imperative counterpart of `DecodeGroup`,
      which states the same case split as a value. */
  method ReadGroup(group: string) returns (decoded: Result<IVec3, LoadError>)
    ensures decoded == DecodeGroup(group)
  {
    var fields := SplitTokens(group, '/');
    if |fields| == 1 {
      var a := ParseIndex(fields[0]);
      decoded := if a.Failure? then Failure(a.error)
                 else Failure(MissingIndexField(group));
    } else if |fields| == 2 {
      var a := ParseIndex(fields[0]);
      var b := ParseIndex(fields[1]);
      decoded := if a.Failure? then Failure(a.error)
                 else if b.Failure? then Failure(b.error)
                 else Success(IVec3(a.value, 0, b.value));
    } else if |fields| >= 3 {
      var a := ParseIndex(fields[0]);
      var b := ParseIndex(fields[1]);
      var c := ParseIndex(fields[2]);
      decoded := if a.Failure? then Failure(a.error)
                 else if b.Failure? then Failure(b.error)
                 else if c.Failure? then Failure(c.error)
                 else Success(IVec3(a.value, b.value, c.value));
    } else {
      decoded := Failure(MissingIndexField(group));
    }
  }

  /** The loop of `generateNewIndexes`: for every reference in order, push
      the position, the normal and, when there are any, the texture
      coordinate it selects. */
  method FlattenLoop(p: Pools) returns (r: Pools)
    requires IndicesInRange(p)
    ensures r == Flatten(p)
  {
    var newVertices: seq<Vec3> := [];
    var newTextCoords: seq<Vec2> := [];
    var newNormals: seq<Vec3> := [];
    var i := 0;
    while i < |p.indexes|
      invariant 0 <= i <= |p.indexes|
      invariant RefsIn(p.vertices, p.indexes[..i], PositionSlot) && RefsIn(p.normals, p.indexes[..i], NormalSlot)
      invariant |p.textCoords| > 0 ==> RefsIn(p.textCoords, p.indexes[..i], TexCoordSlot)
      invariant newVertices == Gather(p.vertices, p.indexes[..i], PositionSlot)
      invariant newNormals == Gather(p.normals, p.indexes[..i], NormalSlot)
      invariant newTextCoords == if |p.textCoords| > 0 then Gather(p.textCoords, p.indexes[..i], TexCoordSlot) else []
    {
      GatherNext(p.vertices, p.indexes, PositionSlot, i);
      GatherNext(p.normals, p.indexes, NormalSlot, i);
      var vertexIndex := p.indexes[i].v;
      var normalIndex := p.indexes[i].n;
      newVertices := newVertices + [p.vertices[vertexIndex]];
      newNormals := newNormals + [p.normals[normalIndex]];
      if |p.textCoords| > 0 {
        GatherNext(p.textCoords, p.indexes, TexCoordSlot, i);
        var textCoordIndex := p.indexes[i].t;
        newTextCoords := newTextCoords + [p.textCoords[textCoordIndex]];
      }
      i := i + 1;
    }
    assert p.indexes[..i] == p.indexes;
    r := Pools(newVertices, newTextCoords, newNormals, p.indexes);
  }

  /** The vectors `vertices`, `textCoords`, `normals` and `indexes`. */
  class Mesh {
    var vertices: seq<Vec3>
    var textCoords: seq<Vec2>
    var normals: seq<Vec3>
    var indexes: seq<IVec3>

    function State(): Pools
      reads this
    {
      Pools(vertices, textCoords, normals, indexes)
    }

    constructor ()
      ensures State() == Pools([], [], [], [])
    {
      vertices, textCoords, normals, indexes := [], [], [], [];
    }

    /** `createFace`: one reference per group after the tag, pushed in
      order; a group that cannot be decoded ends the record. */
    method CreateFace(line: string) returns (failure: Option<LoadError>)
      modifies this
      ensures vertices == old(vertices) && textCoords == old(textCoords) && normals == old(normals)
      ensures indexes == old(indexes) + DecodeFace(line).refs
      ensures failure == DecodeFace(line).failure
    {
      var tokens := SplitTokens(line, ' ');
      failure := None;
      if |tokens| == 0 {
        return;
      }
      ghost var groups := tokens[1..];
      assert groups[..0] == [];
      var i := 1;
      while i < |tokens|
        invariant 1 <= i <= |tokens|
        invariant vertices == old(vertices) && textCoords == old(textCoords) && normals == old(normals)
        invariant DecodeGroups(groups[..i - 1]).failure == None
        invariant indexes == old(indexes) + DecodeGroups(groups[..i - 1]).refs
      {
        var decoded := ReadGroup(tokens[i]);
        DecodeGroupsNext(groups, i - 1, decoded);
        if decoded.Failure? {
          failure := Some(decoded.error);
          assert groups[..i] == groups[..i - 1 + 1];
          DecodeGroupsStops(groups, i);
          return;
        }
        indexes := indexes + [decoded.value];
        i := i + 1;
      }
      assert groups[..i - 1] == groups;
    }

    /** One iteration of the reading loop of `loadObj`. */
    method LoadLine(line: string, stof: string -> real) returns (failure: Option<LoadError>)
      modifies this
      ensures State() == ApplyLine(old(State()), line, stof).pools
      ensures failure == ApplyLine(old(State()), line, stof).failure
    {
      failure := None;
      if |line| < 2 {
        return;
      }
      if line[0] == 'v' {
        if line[1] == 't' {
          var t := ParseVector2(line, stof);
          if t.Failure? {
            failure := Some(t.error);
          } else {
            textCoords := textCoords + [t.value];
          }
        } else if line[1] == 'n' {
          var n := ParseVector3(line, stof);
          if n.Failure? {
            failure := Some(n.error);
          } else {
            normals := normals + [n.value];
          }
        } else if line[1] == ' ' || line[1] == '\t' {
          var v := ParseVector3(line, stof);
          if v.Failure? {
            failure := Some(v.error);
          } else {
            vertices := vertices + [v.value];
          }
        }
      } else if line[0] == 'f' {
        failure := CreateFace(line);
      }
    }

    /** The reading loop of `loadObj` over lines already read from the file;
      the first record that fails ends it. */
    method LoadLines(lines: seq<string>, stof: string -> real) returns (failure: Option<LoadError>)
      modifies this
      ensures State() == LoadAll(old(State()), lines, stof).pools
      ensures failure == LoadAll(old(State()), lines, stof).failure
    {
      failure := None;
      var i := 0;
      while i < |lines|
        invariant 0 <= i <= |lines|
        invariant failure == None
        invariant LoadAll(old(State()), lines, stof) == LoadAll(State(), lines[i..], stof)
      {
        assert lines[i..][1..] == lines[i + 1..];
        failure := LoadLine(lines[i], stof);
        if failure != None {
          return;
        }
        i := i + 1;
      }
    }

    /** `generateNewIndexes`: three new vectors gathered by direct lookup of
      every reference, texture coordinates only when there are any; they
      then replace the pools. */
    method GenerateNewIndexes()
      requires IndicesInRange(State())
      modifies this
      ensures State() == Flatten(old(State()))
    {
      var flat := FlattenLoop(State());
      vertices := flat.vertices;
      textCoords := flat.textCoords;
      normals := flat.normals;
    }
  }
}
