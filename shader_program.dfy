/**
 * Program sources and vertex inputs.  One source file holds both shader
 * stages; each stage is compiled from the version line, a define naming the
 * program, a define naming the stage, and the file's text.  The program's
 * vertex inputs are read back from the linked program, one per active
 * attribute.
 */
module ShaderProgram {
  import opened Wrappers
  import opened EngineTypes

  const VersionLine: string := "#version 430\n"
  const DefinePrefix: string := "#define "
  const VertexDefine: string := "#define VERTEX\n"
  const FragmentDefine: string := "#define FRAGMENT\n"

  /** Size of the buffer the program-name define is formatted into, terminating zero included. */
  const NameDefineCapacity: nat := 128

  datatype Stage = Vertex | Fragment

  /** The formatted `#define <name>` line, with its terminating zero, fits its buffer. */
  predicate NameFits(name: string)
  {
    |DefinePrefix| + |name| + 1 + 1 <= NameDefineCapacity
  }

  function NameDefine(name: string): string
  {
    DefinePrefix + name + "\n"
  }

  function StageDefine(stage: Stage): string
  {
    match stage
    case Vertex => VertexDefine
    case Fragment => FragmentDefine
  }

  /** The text a stage is compiled from: its four segments one after another. */
  function StageSource(body: string, name: string, stage: Stage): string
    requires NameFits(name)
  {
    VersionLine + NameDefine(name) + StageDefine(stage) + body
  }

  /** What a stage source declares: the program name, the stage, and the shared body. */
  datatype Header = Header(name: string, stage: Stage, body: string)

  /** Position of the first line break of `s`, or `|s|` when there is none. */
  function LineEnd(s: string): (r: nat)
    ensures r <= |s|
    ensures r < |s| ==> s[r] == '\n'
    ensures forall k :: 0 <= k < r ==> s[k] != '\n'
    decreases |s|
  {
    if s == [] then 0 else if s[0] == '\n' then 0 else 1 + LineEnd(s[1..])
  }

  /** Reads the header back from a stage source; `None` when it is not laid out as one. */
  function ParseStageSource(src: string): Option<Header>
  {
    if !(VersionLine <= src) then None
    else
      var afterVersion := src[|VersionLine|..];
      if !(DefinePrefix <= afterVersion) then None
      else
        var afterDefine := afterVersion[|DefinePrefix|..];
        var n := LineEnd(afterDefine);
        if n == |afterDefine| then None
        else
          match ParseStageLine(afterDefine[n + 1..])
          case None => None
          case Some((stage, body)) => Some(Header(afterDefine[..n], stage, body))
  }

  /** Reads the stage define and the body that follows it. */
  function ParseStageLine(rest: string): Option<(Stage, string)>
  {
    if VertexDefine <= rest then Some((Vertex, rest[|VertexDefine|..]))
    else if FragmentDefine <= rest then Some((Fragment, rest[|FragmentDefine|..]))
    else None
  }

  /**
   * A stage source gives back the program name, the stage and the body it was
   * assembled from, provided the name is a single line; the two stages of one
   * program therefore differ exactly in their stage.
   */
  lemma {:induction false} StageSourceRoundTrip(body: string, name: string, stage: Stage)
    requires NameFits(name) && '\n' !in name
    ensures ParseStageSource(StageSource(body, name, stage)) == Some(Header(name, stage, body))
    ensures |StageSource(body, name, stage)| == |VersionLine| + |DefinePrefix| + |name| + 1 + |StageDefine(stage)| + |body|
  {
    var src := StageSource(body, name, stage);
    var t := StageDefine(stage) + body;
    var afterDefine := name + ("\n" + t);
    assert src == VersionLine + (DefinePrefix + afterDefine) by {
      Assoc(VersionLine + NameDefine(name), StageDefine(stage), body);
      Assoc(VersionLine, NameDefine(name), t);
      Assoc(DefinePrefix, name, "\n");
      Assoc(DefinePrefix + name, "\n", t);
      Assoc(DefinePrefix, name, "\n" + t);
    }
    Split(VersionLine, DefinePrefix + afterDefine);
    var afterVersion := src[|VersionLine|..];
    Split(DefinePrefix, afterDefine);
    assert afterVersion[|DefinePrefix|..] == afterDefine;
    LineEndOfName(name, t);
    Split(name, "\n" + t);
    var rest := afterDefine[|name| + 1..];
    assert rest == t by {
      assert ("\n" + t)[1..] == t;
    }
    StageLineRoundTrip(stage, body);
  }

  lemma {:induction false} StageLineRoundTrip(stage: Stage, body: string)
    ensures ParseStageLine(StageDefine(stage) + body) == Some((stage, body))
  {
    var rest := StageDefine(stage) + body;
    Split(StageDefine(stage), body);
    if stage == Fragment {
      assert !(VertexDefine <= rest) by {
        assert rest[8] == 'F';
      }
    }
  }

  lemma Assoc<T>(a: seq<T>, b: seq<T>, c: seq<T>)
    ensures a + b + c == a + (b + c)
  {
  }

  lemma Split<T>(a: seq<T>, b: seq<T>)
    ensures a <= a + b
    ensures (a + b)[..|a|] == a && (a + b)[|a|..] == b
  {
  }

  lemma {:induction false} LineEndOfName(name: string, tail: string)
    requires '\n' !in name
    ensures LineEnd(name + ("\n" + tail)) == |name|
    decreases |name|
  {
    if name != [] {
      assert (name + ("\n" + tail))[1..] == name[1..] + ("\n" + tail);
      LineEndOfName(name[1..], tail);
    }
  }

  /** GL type codes of the two vector inputs the engine distinguishes. */
  const GL_FLOAT_VEC2: nat := 0x8B50
  const GL_FLOAT_VEC3: nat := 0x8B51

  /** What the linked program reports for one active attribute: its location (-1 when absent) and type. */
  datatype ActiveAttribute = ActiveAttribute(location: int, attributeType: nat)

  /** Floats an input consumes: 3 for a 3-vector, 2 for a 2-vector, 1 for anything else. */
  function ComponentCount(attributeType: nat): (r: nat)
    ensures r == 3 <==> attributeType == GL_FLOAT_VEC3
    ensures r == 2 <==> attributeType == GL_FLOAT_VEC2
    ensures r == 1 <==> attributeType != GL_FLOAT_VEC3 && attributeType != GL_FLOAT_VEC2
  {
    if attributeType == GL_FLOAT_VEC3 then 3 else if attributeType == GL_FLOAT_VEC2 then 2 else 1
  }

  /** Conversion to an unsigned 8-bit field: the value modulo 256. */
  function ToU8(x: int): (r: nat)
    ensures IsU8(r)
    ensures IsU8(x) ==> r == x
    ensures (x - r) % 256 == 0
  {
    x % 256
  }

  /** The vertex input recorded for one active attribute. */
  function InputOf(a: ActiveAttribute): VertexShaderAttribute
  {
    VertexShaderAttribute(ToU8(a.location), ComponentCount(a.attributeType))
  }

  /** Records one vertex input per active attribute, in the order the program reports them. */
  method ReadVertexInputs(active: seq<ActiveAttribute>) returns (inputs: seq<VertexShaderAttribute>)
    ensures |inputs| == |active|
    ensures forall i :: 0 <= i < |active| ==>
      inputs[i].location == ToU8(active[i].location) && inputs[i].componentCount == ComponentCount(active[i].attributeType)
  {
    inputs := [];
    for i := 0 to |active|
      invariant |inputs| == i
      invariant forall k :: 0 <= k < i ==> inputs[k] == InputOf(active[k])
    {
      var attributeLocation := ToU8(active[i].location);
      var componentCount := if active[i].attributeType == GL_FLOAT_VEC3 then 3
                            else if active[i].attributeType == GL_FLOAT_VEC2 then 2 else 1;
      inputs := inputs + [VertexShaderAttribute(attributeLocation, componentCount)];
    }
  }

  /** An attribute the program reports as absent (location -1) is recorded at location 255. */
  lemma {:induction false} AbsentLocationWraps(attributeType: nat)
    ensures InputOf(ActiveAttribute(-1, attributeType)).location == 255
  {
    assert ToU8(-1) == 255;
  }
}
