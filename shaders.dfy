/** The shader-variant cache: keyword hashing, `#define` prefixing of fragment
    sources, and the material that compiles one program per keyword set and
    keeps the active one. */
module Shaders {
  import opened Common
  import opened Gl

  /** The UTF-16 code units of one character, as `charCodeAt` reads them: a
      character of the Basic Multilingual Plane is one unit, any other is a
      surrogate pair. */
  function Utf16(c: char): (u: seq<int>)
    ensures c as int < 0x10000 ==> u == [c as int]
    ensures c as int >= 0x10000 ==> |u| == 2 && 0xD800 <= u[0] < 0xDC00 <= u[1] < 0xE000
    ensures forall i :: 0 <= i < |u| ==> 0 <= u[i] < 0x10000
  {
    var v := c as int;
    if v < 0x10000 then [v] else [0xD800 + (v - 0x10000) / 0x400, 0xDC00 + (v - 0x10000) % 0x400]
  }

  /** A surrogate pair decodes back to the character it encodes. */
  lemma SurrogatePairDecodes(c: char)
    requires c as int >= 0x10000
    ensures var u := Utf16(c); (u[0] - 0xD800) * 0x400 + (u[1] - 0xDC00) + 0x10000 == c as int
  {
    var v := c as int - 0x10000;
    DivModUnique(v, 0x400, v / 0x400, v % 0x400);
  }

  /** A string as JavaScript stores it: the code units of its characters, in
      order; `str.length` counts these units. */
  function CodeUnits(s: string): (u: seq<int>)
    ensures |u| >= |s|
    ensures forall i :: 0 <= i < |u| ==> 0 <= u[i] < 0x10000
  {
    if |s| == 0 then [] else CodeUnits(s[..|s| - 1]) + Utf16(s[|s| - 1])
  }

  /** A string without characters beyond U+FFFF has one unit per character,
      its code point. */
  lemma {:induction false} BmpCodeUnits(s: string)
    requires forall i :: 0 <= i < |s| ==> s[i] as int < 0x10000
    ensures |CodeUnits(s)| == |s|
    ensures forall i :: 0 <= i < |s| ==> CodeUnits(s)[i] == s[i] as int
  {
    if |s| > 0 {
      BmpCodeUnits(s[..|s| - 1]);
    }
  }

  /** One step of `hashCode`: `(hash << 5) - hash + chr`, then `hash |= 0`. */
  function HashStep(hash: int, unit: int): (r: int)
    ensures IsInt32(r)
  {
    ToInt32(ToInt32(ToInt32(hash) * 32) - hash + unit)
  }

  /** The hash of a sequence of code units, folded in order. */
  function HashUnits(u: seq<int>): (r: int)
    ensures IsInt32(r)
  {
    if |u| == 0 then 0 else HashStep(HashUnits(u[..|u| - 1]), u[|u| - 1])
  }

  /** The value `hashCode(s)` computes. */
  function HashOf(s: string): (r: int)
    ensures IsInt32(r)
  {
    HashUnits(CodeUnits(s))
  }

  /** `hashCode`: the empty string hashes to 0; otherwise the loop folds every
      code unit in, staying a signed 32-bit value after each step. */
  method HashCode(s: string) returns (hash: int)
    ensures hash == HashOf(s)
    ensures IsInt32(hash)
  {
    var str := CodeUnits(s);
    if |str| == 0 {
      return 0;
    }
    hash := 0;
    for i := 0 to |str|
      invariant hash == HashUnits(str[..i])
    {
      assert str[..i + 1][..i] == str[..i];
      var chr := str[i];
      hash := ToInt32(ToInt32(hash) * 32) - hash + chr;
      hash := ToInt32(hash);
    }
    assert str[..|str|] == str;
  }

  /** The polynomial `sum u[i] * 31^(n-1-i)` of Java's `String.hashCode` over
      the code units, unreduced. */
  function Polynomial(u: seq<int>): int {
    if |u| == 0 then 0 else 31 * Polynomial(u[..|u| - 1]) + u[|u| - 1]
  }

  lemma MultipleOfModulus(j: int)
    ensures (j * TwoTo32) % TwoTo32 == 0
  {
    DivModUnique(j * TwoTo32, TwoTo32, j, 0);
  }

  /** A step is `31 * hash + unit` reduced to 32 bits, whatever the shift wraps. */
  lemma HashStepIsLinear(hash: int, unit: int)
    requires IsInt32(hash)
    ensures HashStep(hash, unit) == ToInt32(31 * hash + unit)
  {
    var shifted := ToInt32(hash * 32);
    var k := (shifted - hash * 32) / TwoTo32;
    assert shifted - hash * 32 == k * TwoTo32;
    assert (shifted - hash + unit) - (31 * hash + unit) == k * TwoTo32;
    MultipleOfModulus(k);
    ToInt32Congruent(shifted - hash + unit, 31 * hash + unit);
  }

  /** Folding the steps over code units is the 31-polynomial reduced to 32 bits. */
  lemma {:induction false} HashUnitsPolynomial(u: seq<int>)
    ensures HashUnits(u) == ToInt32(Polynomial(u))
  {
    if |u| > 0 {
      var p := u[..|u| - 1];
      var c := u[|u| - 1];
      HashUnitsPolynomial(p);
      HashStepIsLinear(HashUnits(p), c);
      var x := Polynomial(p);
      var k := (ToInt32(x) - x) / TwoTo32;
      assert ToInt32(x) - x == k * TwoTo32;
      assert (31 * ToInt32(x) + c) - (31 * x + c) == (31 * k) * TwoTo32;
      MultipleOfModulus(31 * k);
      ToInt32Congruent(31 * ToInt32(x) + c, 31 * x + c);
    }
  }

  /** `hashCode` agrees with Java's `String.hashCode`: the 31-polynomial of the
      string's UTF-16 code units, reduced to a signed 32-bit integer; for a
      string within the Basic Multilingual Plane those units are its
      characters' code points. */
  lemma HashIsJavaHash(s: string)
    ensures HashOf(s) == ToInt32(Polynomial(CodeUnits(s)))
    ensures (forall i :: 0 <= i < |s| ==> s[i] as int < 0x10000) ==>
      HashOf(s) == ToInt32(Polynomial(seq(|s|, i requires 0 <= i < |s| => s[i] as int)))
  {
    HashUnitsPolynomial(CodeUnits(s));
    if forall i :: 0 <= i < |s| ==> s[i] as int < 0x10000 {
      BmpCodeUnits(s);
      assert CodeUnits(s) == seq(|s|, i requires 0 <= i < |s| => s[i] as int);
    }
  }

  /** The variant key: the plain sum of the keyword hashes (no 32-bit wrap). */
  function KeySum(keywords: seq<string>): int {
    if keywords == [] then 0 else KeySum(keywords[..|keywords| - 1]) + HashOf(keywords[|keywords| - 1])
  }

  lemma {:induction false} KeySumAppend(a: seq<string>, b: seq<string>)
    ensures KeySum(a + b) == KeySum(a) + KeySum(b)
  {
    if b == [] {
      assert a + b == a;
    } else {
      assert (a + b)[..|a + b| - 1] == a + b[..|b| - 1];
      KeySumAppend(a, b[..|b| - 1]);
    }
  }

  /** The key does not depend on the order of the keywords: any rearrangement
      of the same keywords selects the same cached program. */
  lemma {:induction false} KeySumPermutation(a: seq<string>, b: seq<string>)
    requires multiset(a) == multiset(b)
    ensures KeySum(a) == KeySum(b)
  {
    if a != [] {
      var n := |a| - 1;
      var x := a[n];
      assert a == a[..n] + [x];
      assert x in multiset(b);
      var j :| 0 <= j < |b| && b[j] == x;
      var rest := b[..j] + b[j + 1..];
      assert b == b[..j] + [x] + b[j + 1..];
      assert multiset(b) == multiset(rest) + multiset{x} by {
        assert multiset(b) == multiset(b[..j]) + multiset{x} + multiset(b[j + 1..]);
      }
      assert multiset(rest) == multiset(b[..j]) + multiset(b[j + 1..]);
      assert multiset(a) == multiset(a[..n]) + multiset{x};
      assert multiset(a[..n]) == multiset(a) - multiset{x};
      assert multiset(rest) == multiset(b) - multiset{x};
      KeySumPermutation(a[..n], rest);
      KeySumAppend(b[..j] + [x], b[j + 1..]);
      KeySumAppend(b[..j], [x]);
      KeySumAppend(b[..j], b[j + 1..]);
      assert KeySum([x]) == HashOf(x) by {
        assert [x][..0] == [];
      }
    }
  }

  /** The line `#define K` for one keyword. */
  function DefineLine(k: string): string {
    "#define " + k + "\n"
  }

  /** The prefix `compileShader` builds: one `#define` line per keyword, in order. */
  function Defines(keywords: seq<string>): string {
    if keywords == [] then "" else Defines(keywords[..|keywords| - 1]) + DefineLine(keywords[|keywords| - 1])
  }

  lemma {:induction false} DefinesAppend(a: seq<string>, b: seq<string>)
    ensures Defines(a + b) == Defines(a) + Defines(b)
  {
    if b == [] {
      assert a + b == a;
    } else {
      var init, x := b[..|b| - 1], b[|b| - 1];
      assert (a + b)[..|a + b| - 1] == a + init;
      assert Defines(a + b) == Defines(a + init) + DefineLine(x);
      DefinesAppend(a, init);
      assert Defines(b) == Defines(init) + DefineLine(x);
      assert Defines(a) + Defines(init) + DefineLine(x) == Defines(a) + (Defines(init) + DefineLine(x));
    }
  }

  /** The text handed to the compiler: the source, preceded by the keyword
      lines when a keyword list is given (an empty list leaves it as it is). */
  function ShaderText(source: string, keywords: Option<seq<string>>): (text: string)
    ensures |text| >= |source| && text[|text| - |source|..] == source
    ensures keywords.None? || keywords.value == [] ==> text == source
    ensures keywords.Some? && keywords.value != [] ==>
      |DefineLine(keywords.value[0])| <= |text| &&
      text[..|DefineLine(keywords.value[0])|] == DefineLine(keywords.value[0])
  {
    if keywords.Some? then
      if keywords.value != [] then
        var ks := keywords.value;
        DefinesAppend([ks[0]], ks[1..]);
        assert [ks[0]] + ks[1..] == ks;
        assert Defines([ks[0]]) == DefineLine(ks[0]) by {
          assert [ks[0]][..0] == [];
        }
        Defines(ks) + source
      else
        Defines(keywords.value) + source
    else
      source
  }

  /** The prefixing part of `compileShader`: the `forEach` loop that
      accumulates the `#define` lines, then the concatenation. */
  method PrefixKeywords(source: string, keywords: Option<seq<string>>) returns (text: string)
    ensures text == ShaderText(source, keywords)
  {
    text := source;
    if keywords.Some? {
      var ks := keywords.value;
      var prefix := "";
      for i := 0 to |ks|
        invariant prefix == Defines(ks[..i])
      {
        assert ks[..i + 1][..i] == ks[..i];
        prefix := prefix + "#define " + ks[i] + "\n";
      }
      assert ks[..|ks|] == ks;
      text := prefix + source;
    }
  }

  /** The cache as data: compiled programs by key, the active program and the
      program whose uniform table was last fetched. */
  datatype MaterialState = MaterialState(programs: map<int, nat>, active: Option<nat>, uniforms: Option<nat>)

  /** `setKeywords` on the cache: compile (as program `next`) only on a miss,
      never replace an entry, then make the key's program active, fetching its
      uniforms unless it already was active. */
  function AfterSetKeywords(st: MaterialState, key: int, next: nat): (r: MaterialState)
    ensures r.programs.Keys == st.programs.Keys + {key}
    ensures forall k :: k in st.programs ==> r.programs[k] == st.programs[k]
    ensures key !in st.programs ==> r.programs[key] == next
    ensures r.active == Some(r.programs[key])
    ensures r.uniforms == (if st.active == r.active then st.uniforms else r.active)
  {
    var programs := if key in st.programs then st.programs else st.programs[key := next];
    var p := programs[key];
    if st.active == Some(p) then st.(programs := programs)
    else MaterialState(programs, Some(p), Some(p))
  }

  /** Setting the same keywords again, in any order, changes nothing. */
  lemma SetKeywordsIdempotent(st: MaterialState, a: seq<string>, b: seq<string>, f1: nat, f2: nat)
    requires multiset(a) == multiset(b)
    ensures var once := AfterSetKeywords(st, KeySum(a), f1);
      AfterSetKeywords(once, KeySum(b), f2) == once
  {
    KeySumPermutation(a, b);
  }

  /** The key loop of `setKeywords`: `hash += hashCode(keyword)` over the keywords. */
  method VariantKey(keywords: seq<string>) returns (hash: int)
    ensures hash == KeySum(keywords)
  {
    hash := 0;
    for i := 0 to |keywords|
      invariant hash == KeySum(keywords[..i])
    {
      assert keywords[..i + 1][..i] == keywords[..i];
      var h := HashCode(keywords[i]);
      hash := hash + h;
    }
    assert keywords[..|keywords|] == keywords;
  }

  /** A material: one fragment source compiled per keyword set on demand. */
  class Material {
    const gl: Context
    const fragmentShaderSource: string
    var programs: map<int, nat>
    var activeProgram: Option<nat>
    var uniforms: Option<nat>

    function State(): MaterialState
      reads this
    {
      MaterialState(programs, activeProgram, uniforms)
    }

    /** `createMaterial`: nothing compiled, nothing active. */
    constructor (gl: Context, fragmentShaderSource: string)
      ensures this.gl == gl && this.fragmentShaderSource == fragmentShaderSource
      ensures State() == MaterialState(map[], None, None)
    {
      this.gl := gl;
      this.fragmentShaderSource := fragmentShaderSource;
      programs, activeProgram, uniforms := map[], None, None;
    }

    /** `setKeywords`: sum the keyword hashes, compile the prefixed source only
        when no program is cached under that key, then activate it. */
    method SetKeywords(keywords: seq<string>)
      modifies this, gl
      ensures State() == AfterSetKeywords(old(State()), KeySum(keywords), old(gl.nextProgram))
      ensures gl.compiled == old(gl.compiled) +
        (if KeySum(keywords) in old(programs) then [] else [ShaderText(fragmentShaderSource, Some(keywords))])
      ensures gl.nextProgram == old(gl.nextProgram) + (if KeySum(keywords) in old(programs) then 0 else 1)
      ensures gl.nextTexture == old(gl.nextTexture)
      ensures gl.passes == old(gl.passes) && gl.blend == old(gl.blend)
    {
      var hash := VariantKey(keywords);
      var program: nat;
      if hash in programs {
        program := programs[hash];
      } else {
        var text := PrefixKeywords(fragmentShaderSource, Some(keywords));
        program := gl.CompileProgram(text);
        programs := programs[hash := program];
      }
      if Some(program) != activeProgram {
        uniforms := Some(program);
        activeProgram := Some(program);
      }
    }
  }

  /** The display material's keywords: SHADING, then BLOOM, each when enabled. */
  function DisplayKeywords(shading: bool, bloom: bool): (ks: seq<string>)
    ensures "SHADING" in ks <==> shading
    ensures "BLOOM" in ks <==> bloom
    ensures |ks| == (if shading then 1 else 0) + (if bloom then 1 else 0)
  {
    (if shading then ["SHADING"] else []) + (if bloom then ["BLOOM"] else [])
  }

  lemma HashOfShading()
    ensures HashOf("SHADING") == -1523179638
  {
    var u := [83, 72, 65, 68, 73, 78, 71];
    BmpCodeUnits("SHADING");
    assert CodeUnits("SHADING") == u;
    assert u[..1][..0] == [];
    assert Polynomial(u[..1]) == 83;
    assert u[..2][..1] == u[..1];
    assert Polynomial(u[..2]) == 2645;
    assert u[..3][..2] == u[..2];
    assert Polynomial(u[..3]) == 82060;
    assert u[..4][..3] == u[..3];
    assert Polynomial(u[..4]) == 2543928;
    assert u[..5][..4] == u[..4];
    assert Polynomial(u[..5]) == 78861841;
    assert u[..6][..5] == u[..5];
    assert Polynomial(u[..6]) == 2444717149;
    assert u[..7][..6] == u[..6];
    assert Polynomial(u[..7]) == 75786231690;
    assert u[..7] == u;
    HashIsJavaHash("SHADING");
    DivModUnique(75786231690 + TwoTo31, TwoTo32, 18, 624304010);
  }

  lemma HashOfBloom()
    ensures HashOf("BLOOM") == 63294947
  {
    var u := [66, 76, 79, 79, 77];
    BmpCodeUnits("BLOOM");
    assert CodeUnits("BLOOM") == u;
    assert u[..1][..0] == [];
    assert Polynomial(u[..1]) == 66;
    assert u[..2][..1] == u[..1];
    assert Polynomial(u[..2]) == 2122;
    assert u[..3][..2] == u[..2];
    assert Polynomial(u[..3]) == 65861;
    assert u[..4][..3] == u[..3];
    assert Polynomial(u[..4]) == 2041770;
    assert u[..5][..4] == u[..4];
    assert Polynomial(u[..5]) == 63294947;
    assert u[..5] == u;
    HashIsJavaHash("BLOOM");
  }

  /** The display key is the sum of the hashes of the keywords enabled. */
  lemma DisplayKeySum(shading: bool, bloom: bool)
    ensures KeySum(DisplayKeywords(shading, bloom))
      == (if shading then HashOf("SHADING") else 0) + (if bloom then HashOf("BLOOM") else 0)
  {
    var a: seq<string> := if shading then ["SHADING"] else [];
    var b: seq<string> := if bloom then ["BLOOM"] else [];
    KeySumAppend(a, b);
    if shading {
      assert a[..0] == [];
    }
    if bloom {
      assert b[..0] == [];
    }
  }

  /** The four display variants get four different cache keys, so the sum-of-
      hashes key never hands one variant's program to another. */
  lemma DisplayKeysDistinct()
    ensures forall shading1: bool, bloom1: bool, shading2: bool, bloom2: bool ::
      KeySum(DisplayKeywords(shading1, bloom1)) == KeySum(DisplayKeywords(shading2, bloom2))
      ==> shading1 == shading2 && bloom1 == bloom2
  {
    HashOfShading();
    HashOfBloom();
    forall shading1: bool, bloom1: bool, shading2: bool, bloom2: bool
      ensures KeySum(DisplayKeywords(shading1, bloom1)) == KeySum(DisplayKeywords(shading2, bloom2))
        ==> shading1 == shading2 && bloom1 == bloom2
    {
      DisplayKeySum(shading1, bloom1);
      DisplayKeySum(shading2, bloom2);
    }
  }
}
