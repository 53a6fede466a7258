/**
 * Shader keyword handling of the fluid simulation: the 32-bit string hash
 * `hashCode`, the `#define` prefixing of `addKeywords`, and the program cache
 * of `Material.setKeywords`, keyed by the sum of the keyword hashes.
 */
module ShaderKeywords {
  import opened JsNumbers
  import opened Options

  /**
   * The UTF-16 code units of one character, as a JavaScript string holds
   * it: one unit for a character of the Basic Multilingual Plane, a
   * surrogate pair for any other.
   */
  function CharUnits(c: char): (u: seq<int>)
    ensures c as int < 0x1_0000 ==> u == [c as int]
    ensures c as int >= 0x1_0000 ==>
              && |u| == 2 && 0xD800 <= u[0] < 0xDC00 && 0xDC00 <= u[1] < 0xE000
              && 0x1_0000 + (u[0] - 0xD800) * 0x400 + (u[1] - 0xDC00) == c as int
    ensures forall i | 0 <= i < |u| :: 0 <= u[i] < 0x1_0000
  {
    var n := c as int;
    if n < 0x1_0000 then [n] else [0xD800 + (n - 0x1_0000) / 0x400, 0xDC00 + (n - 0x1_0000) % 0x400]
  }

  /** The code units of a string, the sequence `charCodeAt(i)` reads for i below `length`. */
  function CodeUnits(s: string): (u: seq<int>)
    ensures |u| >= |s|
    ensures forall i | 0 <= i < |u| :: 0 <= u[i] < 0x1_0000
    decreases |s|
  {
    if |s| == 0 then [] else CodeUnits(s[..|s| - 1]) + CharUnits(s[|s| - 1])
  }

  /** A string of Basic Multilingual Plane characters has one code unit per character. */
  lemma {:induction false} CodeUnitsOfBmp(s: string)
    requires forall i | 0 <= i < |s| :: s[i] as int < 0x1_0000
    ensures |CodeUnits(s)| == |s|
    ensures forall i | 0 <= i < |s| :: CodeUnits(s)[i] == s[i] as int
    decreases |s|
  {
    if |s| > 0 {
      CodeUnitsOfBmp(s[..|s| - 1]);
    }
  }

  /** The hash fold over code units: h := ToInt32(31 * h + unit), starting from 0. */
  function HashOfUnits(u: seq<int>): (h: int)
    ensures u == [] ==> h == 0
    ensures -TwoTo31 <= h < TwoTo31
    decreases |u|
  {
    if |u| == 0 then 0 else ToInt32(31 * HashOfUnits(u[..|u| - 1]) + u[|u| - 1])
  }

  /** The value hashCode computes for a string: the fold over its UTF-16 code units. */
  function HashOf(s: string): (h: int)
    ensures s == [] ==> h == 0
    ensures -TwoTo31 <= h < TwoTo31
  {
    HashOfUnits(CodeUnits(s))
  }

  /** One step of the source loop, `(hash << 5) - hash + c` then `| 0`, is ToInt32(31 * hash + c). */
  lemma {:induction false} HashStep(hash: int, c: int)
    ensures ToInt32(ShiftLeft5(hash) - hash + c) == ToInt32(31 * hash + c)
  {
    assert (ShiftLeft5(hash) - hash + c) - (31 * hash + c) == ShiftLeft5(hash) - 32 * hash;
    ToInt32Congruent(ShiftLeft5(hash) - hash + c, 31 * hash + c);
  }

  /**
   * hashCode, with the shift and the `| 0` truncation written out; the loop
   * runs over `str.length` code units.
   */
  method HashCode(s: string) returns (hash: int)
    ensures hash == HashOf(s)
  {
    var units := CodeUnits(s);
    if |units| == 0 {
      return 0;
    }
    hash := 0;
    for i := 0 to |units|
      invariant hash == HashOfUnits(units[..i])
    {
      assert units[..i + 1][..i] == units[..i];
      HashStep(hash, units[i]);
      hash := ShiftLeft5(hash) - hash + units[i];
      hash := ToInt32(hash);
    }
    assert units[..|units|] == units;
  }

  /** Two different keywords with the same hash (the textbook collision of this hash). */
  lemma HashCollision()
    ensures HashOf("Aa") == HashOf("BB") == 2112
  {
    TwoUnits('A', 'a');
    TwoUnits('B', 'B');
    HashOfTwo(65, 97);
    HashOfTwo(66, 66);
  }

  /** Two Basic Multilingual Plane characters are two code units. */
  lemma TwoUnits(a: char, b: char)
    requires a as int < 0x1_0000 && b as int < 0x1_0000
    ensures CodeUnits([a, b]) == [a as int, b as int]
  {
    assert [a, b][..1] == [a];
    assert [a][..0] == [];
    assert CodeUnits([a]) == CodeUnits([]) + CharUnits(a) == [a as int];
    assert CodeUnits([a, b]) == CodeUnits([a]) + CharUnits(b);
  }

  /** The hash of two code units. */
  lemma HashOfTwo(x: int, y: int)
    requires 0 <= x < 0x1_0000 && 0 <= y < 0x1_0000
    ensures HashOfUnits([x, y]) == 31 * x + y
  {
    assert [x, y][..1] == [x];
    assert [x][..0] == [];
    ToInt32OfInt32(x);
    ToInt32OfInt32(31 * x + y);
  }

  /** A character outside the Basic Multilingual Plane is hashed as its two surrogates, not as its code point. */
  lemma HashOfAstral()
    ensures CodeUnits("\U{1F600}") == [0xD83D, 0xDE00]
    ensures HashOf("\U{1F600}") == 31 * 0xD83D + 0xDE00
  {
    assert "\U{1F600}"[..0] == [];
    assert [0xD83D, 0xDE00][..1] == [0xD83D];
  }

  /** The `#define` lines addKeywords puts in front of a shader source. */
  function Defines(keywords: seq<string>): string
    decreases |keywords|
  {
    if |keywords| == 0 then ""
    else Defines(keywords[..|keywords| - 1]) + "#define " + keywords[|keywords| - 1] + "\n"
  }

  function DefineLine(keyword: string): string {
    "#define " + keyword + "\n"
  }

  /** The define block of a concatenation is the concatenation of the define blocks. */
  lemma {:induction false} DefinesAppend(a: seq<string>, b: seq<string>)
    ensures Defines(a + b) == Defines(a) + Defines(b)
    decreases |b|
  {
    if |b| == 0 {
      assert a + b == a;
    } else {
      var b' := b[..|b| - 1];
      assert (a + b)[..|a + b| - 1] == a + b';
      assert (a + b)[|a + b| - 1] == b[|b| - 1];
      DefinesAppend(a, b');
    }
  }

  /** addKeywords: a null keyword list leaves the source alone; otherwise one `#define` line per keyword is prepended. */
  method AddKeywords(source: string, keywords: Option<seq<string>>) returns (r: string)
    ensures keywords.None? ==> r == source
    ensures keywords.Some? ==> r == Defines(keywords.value) + source
  {
    if keywords.None? {
      return source;
    }
    var keywordsString := "";
    var ks := keywords.value;
    for i := 0 to |ks|
      invariant keywordsString == Defines(ks[..i])
    {
      assert ks[..i + 1][..i] == ks[..i];
      keywordsString := keywordsString + "#define " + ks[i] + "\n";
    }
    assert ks[..|ks|] == ks;
    r := keywordsString + source;
  }

  /** The sum of the keyword hashes that Material.setKeywords uses as its cache key (no wrap-around: numbers are doubles). */
  function KeywordsHash(keywords: seq<string>): int
    decreases |keywords|
  {
    if |keywords| == 0 then 0 else KeywordsHash(keywords[..|keywords| - 1]) + HashOf(keywords[|keywords| - 1])
  }

  /** The summing loop at the head of setKeywords. */
  method SumOfHashes(keywords: seq<string>) returns (hash: int)
    ensures hash == KeywordsHash(keywords)
  {
    hash := 0;
    for i := 0 to |keywords|
      invariant hash == KeywordsHash(keywords[..i])
    {
      assert keywords[..i + 1][..i] == keywords[..i];
      var k := HashCode(keywords[i]);
      hash := hash + k;
    }
    assert keywords[..|keywords|] == keywords;
  }

  /** A linked program: its creation number, its vertex shader and its fragment source. */
  datatype Program = Program(id: nat, vertexShader: int, fragmentSource: string)

  /**
   * Material: a fragment shader source compiled on demand, one program per
   * keyword hash. The GL program objects are modelled by their sources and a
   * creation number, so that two compilations are never the same program.
   */
  class Material {
    const vertexShader: int
    const fragmentShaderSource: string
    var programs: map<int, Program>
    var activeProgram: Option<Program>
    /** The program whose uniform locations were last read. */
    var uniformsOf: Option<Program>
    /** The number of programs compiled so far. */
    var compiled: nat

    ghost predicate Valid()
      reads this
    {
      && (forall h | h in programs :: programs[h].vertexShader == vertexShader && programs[h].id < compiled)
      && (activeProgram.Some? ==> activeProgram.value in programs.Values)
      && uniformsOf == activeProgram
    }

    constructor (vertexShader: int, fragmentShaderSource: string)
      ensures Valid()
      ensures this.vertexShader == vertexShader && this.fragmentShaderSource == fragmentShaderSource
      ensures programs == map[] && activeProgram == None && compiled == 0
    {
      this.vertexShader := vertexShader;
      this.fragmentShaderSource := fragmentShaderSource;
      programs := map[];
      activeProgram := None;
      uniformsOf := None;
      compiled := 0;
    }

    /**
     * setKeywords: look the keyword hash up in the cache, compile and cache a
     * program on a miss, and make the cached program the active one.
     */
    method SetKeywords(keywords: seq<string>)
      requires Valid()
      modifies this
      ensures Valid()
      ensures var h := KeywordsHash(keywords);
        && h in programs && activeProgram == Some(programs[h])
        && (h in old(programs) ==> programs == old(programs) && compiled == old(compiled))
        && (h !in old(programs) ==>
              && programs == old(programs)[h := Program(old(compiled), vertexShader, Defines(keywords) + fragmentShaderSource)]
              && compiled == old(compiled) + 1)
    {
      var hash := SumOfHashes(keywords);
      var program: Program;
      if hash in programs {
        program := programs[hash];
      } else {
        var fragment := AddKeywords(fragmentShaderSource, Some(keywords));
        program := Program(compiled, vertexShader, fragment);
        compiled := compiled + 1;
        programs := programs[hash := program];
      }
      assert program in programs.Values by {
        assert hash in programs && programs[hash] == program;
      }
      if activeProgram == Some(program) {
        return;
      }
      uniformsOf := Some(program);
      activeProgram := Some(program);
    }
  }

  /**
   * Two keyword sets whose hashes collide share one cache entry: after
   * selecting ["Aa"] and then ["BB"], the active program is still the one
   * compiled with `#define Aa`.
   */
  method CollidingKeywordsShareProgram(vertexShader: int, source: string) returns (fragment: string)
    ensures fragment == DefineLine("Aa") + source
    ensures fragment != DefineLine("BB") + source
  {
    var m := new Material(vertexShader, source);
    m.SetKeywords(["Aa"]);
    HashCollision();
    assert KeywordsHash(["Aa"]) == KeywordsHash(["BB"]) by {
      assert ["Aa"][..0] == [] && ["BB"][..0] == [];
    }
    m.SetKeywords(["BB"]);
    fragment := m.activeProgram.value.fragmentSource;
    assert Defines(["Aa"]) == DefineLine("Aa") by {
      assert ["Aa"][..0] == [];
    }
    assert (DefineLine("BB") + source)[8] == 'B';
  }
}
