/**
 * Shader source assembly, src/shader.ts (and its copy in src/wggl.js:1-33):
 * `vs`/`fs` wrap the given GLSL text in a fixed header and return a function
 * that pairs that source with the shader's attribute/uniform descriptors.
 */
module Shaders {
  import opened Wrappers
  import opened Descriptors

  /** A shader's `attrs`: its (name, descriptor) pairs in `Object.keys` order. */
  type ShaderAttrs = seq<(string, Descriptor)>

  datatype Shader = Shader(attrs: ShaderAttrs, src: string)

  /** The argument of vs/fs: a string, or an array of strings (for a tagged template, its literal parts). */
  datatype ShaderText = Text(s: string) | Parts(strings: seq<string>)

  /** `if (typeof strings === 'string') strings = [strings]`. */
  function Pieces(t: ShaderText): seq<string> {
    match t
    case Text(s) => [s]
    case Parts(ss) => ss
  }

  /** `strings.join('')`. */
  function Join(ss: seq<string>): string
    decreases |ss|
  {
    if |ss| == 0 then "" else ss[0] + Join(ss[1..])
  }

  /** The text of the template literal before and after `${strings.join('')}`. */
  const Header: string := "\n    precision mediump float;\n\n    "
  const Trailer: string := "\n  "

  function Source(t: ShaderText): string {
    Header + Join(Pieces(t)) + Trailer
  }

  /** The closure vs/fs return; all it has captured is `src`. */
  datatype ShaderBuilder = ShaderBuilder(src: string)

  /**
   * vs (src/shader.ts:11-25): the captured source is the fixed header, the
   * pieces joined with nothing between them, and the fixed trailer.
   */
  function Vs(strings: ShaderText): (b: ShaderBuilder)
    ensures |b.src| == |Header| + |Join(Pieces(strings))| + |Trailer|
    ensures b.src[..|Header|] == Header && b.src[|b.src| - |Trailer|..] == Trailer
    ensures b.src[|Header|..|b.src| - |Trailer|] == Join(Pieces(strings))
  {
    var src := Source(strings);
    assert src[..|Header|] == Header;
    assert src[|src| - |Trailer|..] == Trailer;
    assert src[|Header|..|src| - |Trailer|] == Join(Pieces(strings));
    ShaderBuilder(src)
  }

  /** fs (src/shader.ts:28-42): its body is the text of vs, so it is vs. */
  function Fs(strings: ShaderText): (b: ShaderBuilder)
    ensures |b.src| == |Header| + |Join(Pieces(strings))| + |Trailer|
    ensures b.src[..|Header|] == Header && b.src[|b.src| - |Trailer|..] == Trailer
    ensures b.src[|Header|..|b.src| - |Trailer|] == Join(Pieces(strings))
  {
    Vs(strings)
  }

  /** Calling the returned function: `attrs` as given, and the captured source. */
  function Apply(b: ShaderBuilder, attrs: ShaderAttrs): (s: Shader)
    ensures s.attrs == attrs && s.src == b.src
  {
    Shader(attrs, b.src)
  }

  /** Joining splits at any index: the empty separator adds nothing between the two halves. */
  lemma {:induction false} JoinSplit(ss: seq<string>, i: nat)
    requires i <= |ss|
    ensures Join(ss) == Join(ss[..i]) + Join(ss[i..])
    decreases i
  {
    if i == 0 {
      assert ss[..0] == [] && ss[0..] == ss;
    } else {
      var tail := ss[1..];
      JoinSplit(tail, i - 1);
      assert ss[..i][0] == ss[0] && ss[..i][1..] == tail[..i - 1];
      assert tail[i - 1..] == ss[i..];
      SeqAppendAssoc(ss[0], Join(tail[..i - 1]), Join(ss[i..]));
    }
  }

  /** Where the parts of a three-part concatenation sit. */
  lemma ThreeParts(p: string, m: string, q: string)
    ensures |p + m + q| == |p| + |m| + |q|
    ensures (p + m + q)[..|p|] == p
    ensures (p + m + q)[|p| + |m|..] == q
    ensures (p + m + q)[|p|..|p| + |m|] == m
  {
  }

  /** Join of one piece is that piece. */
  lemma JoinSingleton(s: string)
    ensures Join([s]) == s
  {
    assert [s][1..] == [];
  }

  /** Join splits around piece i. */
  lemma JoinAround(ss: seq<string>, i: nat)
    requires i < |ss|
    ensures Join(ss) == Join(ss[..i]) + ss[i] + Join(ss[i + 1..])
  {
    JoinSplit(ss, i);
    var rest := ss[i..];
    assert rest[0] == ss[i] && rest[1..] == ss[i + 1..];
    SeqAppendAssoc(Join(ss[..i]), ss[i], Join(ss[i + 1..]));
  }

  lemma Regroup(h: string, a: string, b: string, c: string, t: string)
    ensures h + (a + b + c) + t == (h + a) + b + (c + t)
  {
  }

  /** Piece i of ss, wrapped between h and t, starts after h and the pieces before it. */
  lemma WrappedPiece(h: string, ss: seq<string>, t: string, i: nat)
    requires i < |ss|
    ensures var src := h + Join(ss) + t; var start := |h| + |Join(ss[..i])|;
      && |src| == |h| + |Join(ss)| + |t|
      && src[..|h|] == h
      && src[|src| - |t|..] == t
      && start + |ss[i]| <= |src| - |t|
      && src[start..start + |ss[i]|] == ss[i]
  {
    var a, b, c := Join(ss[..i]), ss[i], Join(ss[i + 1..]);
    JoinAround(ss, i);
    ThreeParts(h, Join(ss), t);
    Regroup(h, a, b, c, t);
    ThreeParts(h + a, b, c + t);
  }

  /**
   * The source is the header, then every piece in turn with nothing between them,
   * then the trailer: piece i starts right after the header and the pieces before it.
   */
  lemma PieceAtOffset(ss: seq<string>, i: nat)
    requires i < |ss|
    ensures var src := Source(Parts(ss)); var start := |Header| + |Join(ss[..i])|;
      && |src| == |Header| + |Join(ss)| + |Trailer|
      && src[..|Header|] == Header
      && src[|src| - |Trailer|..] == Trailer
      && start + |ss[i]| <= |src| - |Trailer|
      && src[start..start + |ss[i]|] == ss[i]
  {
    WrappedPiece(Header, ss, Trailer, i);
  }

  /** A string argument is the one-element array holding it. */
  lemma StringIsSingleton(s: string, attrs: ShaderAttrs)
    ensures Apply(Vs(Text(s)), attrs) == Apply(Vs(Parts([s])), attrs)
    ensures Source(Text(s)) == Header + s + Trailer
  {
    JoinSingleton(s);
  }
}
