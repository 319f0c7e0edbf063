/** A whole load followed by flattening, on a triangle given by three
    positions, one normal and one face in `v//n` form. */
module ObjScenario {
  import opened Results
  import opened Tokens
  import opened Algebra
  import opened ObjLoader

  const TriangleLines: seq<string> := ["v 0 0 0", "v 1 0 0", "v 0 1 0", "vn 0 0 1", "f 1//1 2//1 3//1"]

  lemma JoinFour(a: string, b: string, c: string, e: string, d: char)
    ensures Join([a, b, c, e], d) == a + [d] + b + [d] + c + [d] + e
  {
    var ts := [a, b, c, e];
    assert ts[1..] == [b, c, e] && ts[1..][1..] == [c, e] && ts[1..][1..][1..] == [e];
    assert Join([c, e], d) == c + [d] + e;
    assert Join([b, c, e], d) == b + [d] + (c + [d] + e);
    assert Join(ts, d) == a + [d] + (b + [d] + (c + [d] + e));
  }

  lemma RecordLine(tag: string, x: string, y: string, z: string, stof: string -> real)
    requires tag != [] && x != [] && y != [] && z != []
    requires ' ' !in tag && ' ' !in x && ' ' !in y && ' ' !in z
    ensures ParseVector3(tag + " " + x + " " + y + " " + z, stof) == Success(Vec3(stof(x), stof(y), stof(z)))
  {
    JoinFour(tag, x, y, z, ' ');
    assert tag + " " + x + " " + y + " " + z == tag + [' '] + x + [' '] + y + [' '] + z;
    ParseVector3OfFields([tag, x, y, z], stof);
  }

  lemma DecodeEachThree(g0: string, g1: string, g2: string, r0: IVec3, r1: IVec3, r2: IVec3,
                        decode: string -> Result<IVec3, LoadError>)
    requires decode(g0) == Success(r0) && decode(g1) == Success(r1) && decode(g2) == Success(r2)
    ensures DecodeEach([g0, g1, g2], decode) == Decoded([r0, r1, r2], None)
  {
    var gs := [g0, g1, g2];
    assert gs[..0] == [];
    DecodeEachNext(gs, 0, decode);
    DecodeEachNext(gs, 1, decode);
    DecodeEachNext(gs, 2, decode);
    assert gs[..3] == gs;
  }

  lemma DecodeGroupsThree(g0: string, g1: string, g2: string, r0: IVec3, r1: IVec3, r2: IVec3)
    requires DecodeGroup(g0) == Success(r0) && DecodeGroup(g1) == Success(r1) && DecodeGroup(g2) == Success(r2)
    ensures DecodeGroups([g0, g1, g2]) == Decoded([r0, r1, r2], None)
  {
    DecodeEachThree(g0, g1, g2, r0, r1, r2, DecodeGroup);
  }

  /** The three groups of the triangle's face, as rendered numbers. */
  function TriangleGroups(): seq<string> {
    [ShowNat(1) + "//" + ShowNat(1), ShowNat(2) + "//" + ShowNat(1), ShowNat(3) + "//" + ShowNat(1)]
  }

  /** Three `p//1` groups name their positions, less one, and the first normal. */
  lemma FirstNormalGroups(a: nat, b: nat, c: nat)
    requires 1 <= a <= INT_MAX && 1 <= b <= INT_MAX && 1 <= c <= INT_MAX
    ensures DecodeGroups([ShowNat(a) + "//" + ShowNat(1), ShowNat(b) + "//" + ShowNat(1), ShowNat(c) + "//" + ShowNat(1)])
         == Decoded([IVec3(a - 1, 0, 0), IVec3(b - 1, 0, 0), IVec3(c - 1, 0, 0)], None)
  {
    DecodePositionNormal(a, 1);
    DecodePositionNormal(b, 1);
    DecodePositionNormal(c, 1);
    DecodeGroupsThree(ShowNat(a) + "//" + ShowNat(1), ShowNat(b) + "//" + ShowNat(1), ShowNat(c) + "//" + ShowNat(1),
                      IVec3(a - 1, 0, 0), IVec3(b - 1, 0, 0), IVec3(c - 1, 0, 0));
  }

  lemma TriangleGroupsDecode()
    ensures DecodeGroups(TriangleGroups()) == Decoded([IVec3(0, 0, 0), IVec3(1, 0, 0), IVec3(2, 0, 0)], None)
  {
    FirstNormalGroups(1, 2, 3);
  }

  lemma TriangleGroupsRendered()
    ensures TriangleGroups() == ["1//1", "2//1", "3//1"]
  {
    assert DigitChar(1) == '1' && DigitChar(2) == '2' && DigitChar(3) == '3';
    assert ShowNat(1) == "1" && ShowNat(2) == "2" && ShowNat(3) == "3";
    var gs := TriangleGroups();
    assert gs[0] == "1//1" && gs[1] == "2//1" && gs[2] == "3//1";
  }

  lemma TriangleFaceJoined()
    ensures Join(["f", "1//1", "2//1", "3//1"], ' ') == "f 1//1 2//1 3//1"
  {
    JoinFour("f", "1//1", "2//1", "3//1", ' ');
  }

  /** A record of a tag and three groups, one space apart, has those groups. */
  lemma FaceGroupsOfJoin(tag: string, g0: string, g1: string, g2: string)
    requires WellFormedTokens([tag, g0, g1, g2], ' ')
    ensures FaceGroups(Join([tag, g0, g1, g2], ' ')) == [g0, g1, g2]
  {
    SplitJoin([tag, g0, g1, g2], ' ');
    assert [tag, g0, g1, g2][1..] == [g0, g1, g2];
  }

  lemma TriangleFaceSplit()
    ensures FaceGroups("f 1//1 2//1 3//1") == TriangleGroups()
  {
    TriangleGroupsRendered();
    TriangleFaceJoined();
    FaceGroupsOfJoin("f", "1//1", "2//1", "3//1");
  }

  lemma TriangleFace()
    ensures DecodeFace("f 1//1 2//1 3//1") == Decoded([IVec3(0, 0, 0), IVec3(1, 0, 0), IVec3(2, 0, 0)], None)
  {
    TriangleFaceSplit();
    TriangleGroupsDecode();
  }

  /** The pools after the first `k` lines of `TriangleLines` have been loaded. */
  function TriangleAfter(stof: string -> real, k: nat): Pools
    requires k <= |TriangleLines|
  {
    var zero, one := stof("0"), stof("1");
    var positions := [Vec3(zero, zero, zero), Vec3(one, zero, zero), Vec3(zero, one, zero)];
    Pools(positions[..if k < 3 then k else 3], [],
          if k < 4 then [] else [Vec3(zero, zero, one)],
          if k < 5 then [] else [IVec3(0, 0, 0), IVec3(1, 0, 0), IVec3(2, 0, 0)])
  }

  /** The pools a load of `TriangleLines` is expected to build. */
  function TrianglePools(stof: string -> real): Pools
  {
    TriangleAfter(stof, 5)
  }

  lemma TriangleStep0(stof: string -> real)
    ensures ApplyLine(TriangleAfter(stof, 0), TriangleLines[0], stof) == Step(TriangleAfter(stof, 1), None)
  {
    var zero, one := stof("0"), stof("1");
    var p := TriangleAfter(stof, 0);
    assert TriangleLines[0] == "v" + " " + "0" + " " + "0" + " " + "0";
    RecordLine("v", "0", "0", "0", stof);
    ApplyVertexLine(p, TriangleLines[0], Vec3(zero, zero, zero), stof);
    assert TriangleAfter(stof, 1).vertices == p.vertices + [Vec3(zero, zero, zero)];
  }

  lemma TriangleStep1(stof: string -> real)
    ensures ApplyLine(TriangleAfter(stof, 1), TriangleLines[1], stof) == Step(TriangleAfter(stof, 2), None)
  {
    var zero, one := stof("0"), stof("1");
    var p := TriangleAfter(stof, 1);
    assert TriangleLines[1] == "v" + " " + "1" + " " + "0" + " " + "0";
    RecordLine("v", "1", "0", "0", stof);
    ApplyVertexLine(p, TriangleLines[1], Vec3(one, zero, zero), stof);
    assert TriangleAfter(stof, 2).vertices == p.vertices + [Vec3(one, zero, zero)];
  }

  lemma TriangleStep2(stof: string -> real)
    ensures ApplyLine(TriangleAfter(stof, 2), TriangleLines[2], stof) == Step(TriangleAfter(stof, 3), None)
  {
    var zero, one := stof("0"), stof("1");
    var p := TriangleAfter(stof, 2);
    assert TriangleLines[2] == "v" + " " + "0" + " " + "1" + " " + "0";
    RecordLine("v", "0", "1", "0", stof);
    ApplyVertexLine(p, TriangleLines[2], Vec3(zero, one, zero), stof);
    assert TriangleAfter(stof, 3).vertices == p.vertices + [Vec3(zero, one, zero)];
  }

  lemma TriangleStep3(stof: string -> real)
    ensures ApplyLine(TriangleAfter(stof, 3), TriangleLines[3], stof) == Step(TriangleAfter(stof, 4), None)
  {
    var zero, one := stof("0"), stof("1");
    var p := TriangleAfter(stof, 3);
    assert TriangleLines[3] == "vn" + " " + "0" + " " + "0" + " " + "1";
    RecordLine("vn", "0", "0", "1", stof);
    ApplyNormalLine(p, TriangleLines[3], Vec3(zero, zero, one), stof);
  }

  lemma TriangleStep4(stof: string -> real)
    ensures ApplyLine(TriangleAfter(stof, 4), TriangleLines[4], stof) == Step(TriangleAfter(stof, 5), None)
  {
    TriangleFace();
    ApplyFaceLine(TriangleAfter(stof, 4), TriangleLines[4], stof);
  }

  lemma TriangleStep(stof: string -> real, k: nat)
    requires k < |TriangleLines|
    ensures ApplyLine(TriangleAfter(stof, k), TriangleLines[k], stof) == Step(TriangleAfter(stof, k + 1), None)
  {
    if k == 0 { TriangleStep0(stof); }
    else if k == 1 { TriangleStep1(stof); }
    else if k == 2 { TriangleStep2(stof); }
    else if k == 3 { TriangleStep3(stof); }
    else { TriangleStep4(stof); }
  }

  lemma {:induction false} TriangleLoadFrom(stof: string -> real, k: nat)
    requires k <= |TriangleLines|
    ensures LoadAll(TriangleAfter(stof, k), TriangleLines[k..], stof) == Step(TrianglePools(stof), None)
    decreases |TriangleLines| - k
  {
    if k < |TriangleLines| {
      TriangleStep(stof, k);
      LoadAllStep(TriangleAfter(stof, k), TriangleLines[k..], stof);
      assert TriangleLines[k..][1..] == TriangleLines[k + 1..];
      TriangleLoadFrom(stof, k + 1);
    }
  }

  /** Loading gives three positions, no texture coordinates, one normal and
      three references, and stops with no error. */
  lemma TriangleLoad(stof: string -> real)
    ensures LoadAll(Pools([], [], [], []), TriangleLines, stof) == Step(TrianglePools(stof), None)
  {
    TriangleLoadFrom(stof, 0);
    assert TriangleLines[0..] == TriangleLines;
  }

  /** Flattening the loaded triangle gives its three positions in face order,
      each paired with the one normal, and no texture coordinates. */
  lemma TriangleFlatten(stof: string -> real)
    ensures var zero, one := stof("0"), stof("1");
      var p := TrianglePools(stof);
      && IndicesInRange(p)
      && Flatten(p)
         == Pools([Vec3(zero, zero, zero), Vec3(one, zero, zero), Vec3(zero, one, zero)],
                  [], [Vec3(zero, zero, one), Vec3(zero, zero, one), Vec3(zero, zero, one)],
                  [IVec3(0, 0, 0), IVec3(1, 0, 0), IVec3(2, 0, 0)])
  {
    var p := TrianglePools(stof);
    assert IndicesInRange(p);
    var f := Flatten(p);
    assert f.vertices == p.vertices;
    assert f.normals == [p.normals[0], p.normals[0], p.normals[0]];
  }

  lemma ApplyVertexLine(p: Pools, line: string, v: Vec3, stof: string -> real)
    requires Kind(line) == VertexLine && ParseVector3(line, stof) == Success(v)
    ensures ApplyLine(p, line, stof) == Step(p.(vertices := p.vertices + [v]), None)
  {
  }

  lemma ApplyNormalLine(p: Pools, line: string, n: Vec3, stof: string -> real)
    requires Kind(line) == NormalLine && ParseVector3(line, stof) == Success(n)
    ensures ApplyLine(p, line, stof) == Step(p.(normals := p.normals + [n]), None)
  {
  }

  lemma ApplyFaceLine(p: Pools, line: string, stof: string -> real)
    requires Kind(line) == FaceLine
    ensures ApplyLine(p, line, stof)
         == Step(p.(indexes := p.indexes + DecodeFace(line).refs), DecodeFace(line).failure)
  {
  }

  lemma LoadAllStep(p: Pools, lines: seq<string>, stof: string -> real)
    requires lines != [] && ApplyLine(p, lines[0], stof).failure == None
    ensures LoadAll(p, lines, stof) == LoadAll(ApplyLine(p, lines[0], stof).pools, lines[1..], stof)
  {
  }
}
