/** The two prompt templates of app.py: `explain_contract`'s (lines 26-33)
    and the inline generate prompt (lines 56-60). Each is a fixed prefix, the
    user's text verbatim, and a fixed suffix, so the text can be read back. */
module Prompts {
  import opened Wrappers
  import opened Text

  /** A template: the text between a fixed prefix and a fixed suffix. */
  function Fill(prefix: string, x: string, suffix: string): (p: string)
    ensures StartsWith(p, prefix)
    ensures OccursAt(p, x, |prefix|)
    ensures OccursAt(p, suffix, |prefix| + |x|)
    ensures |p| == |prefix| + |x| + |suffix|
  {
    ConcatPieces(prefix, x, suffix);
    prefix + x + suffix
  }

  /** The text a filled template was filled with, if `p` has the template's shape. */
  function Unfill(prefix: string, suffix: string, p: string): Option<string>
  {
    if |prefix| + |suffix| <= |p| && p[..|prefix|] == prefix && p[|p| - |suffix|..] == suffix
    then Some(p[|prefix|..|p| - |suffix|])
    else None
  }

  /** Filling then reading back gives the text that was put in. */
  lemma UnfillFill(prefix: string, x: string, suffix: string)
    ensures Unfill(prefix, suffix, Fill(prefix, x, suffix)) == Some(x)
  {
  }

  /** Whatever reads back as `x` is the template filled with `x`. */
  lemma FillUnfill(prefix: string, suffix: string, p: string, x: string)
    requires Unfill(prefix, suffix, p) == Some(x)
    ensures Fill(prefix, x, suffix) == p
  {
  }

  // ---- explain_contract (lines 26-33) ----

  const ExplainPrefix: string := "Analyze the following smart contract code:\n"
  const ExplainHeading: string := "\n\nOutput a plain-English explanation:\n"
  const PointWhat: string := "1. What the contract does.\n"
  const PointFunctions: string := "2. Key functions and permissions.\n"
  const PointSecurity: string := "3. Security concerns.\n"
  /** What follows the code, piece by piece. */
  const ExplainLayout: seq<string> := [ExplainHeading, PointWhat, PointFunctions, PointSecurity]
  const ExplainSuffix: string := Concat(ExplainLayout)

  /** The prompt `explain_contract` writes to the engine. */
  function ExplainPrompt(code: string): (p: string)
    ensures StartsWith(p, ExplainPrefix)
    ensures OccursAt(p, code, |ExplainPrefix|)
    ensures OccursAt(p, ExplainSuffix, |ExplainPrefix| + |code|)
    ensures |p| == |ExplainPrefix| + |code| + |ExplainSuffix|
  {
    Fill(ExplainPrefix, code, ExplainSuffix)
  }


  /** The code an explain prompt was rendered from. */
  function ExplainedCode(p: string): Option<string>
  {
    Unfill(ExplainPrefix, ExplainSuffix, p)
  }

  /** The code can be read back from the prompt, and only explain prompts read back:
      rendering is a bijection between codes and prompts of this shape. */
  lemma ExplainPromptRoundTrip(code: string, p: string)
    ensures ExplainedCode(ExplainPrompt(code)) == Some(code)
    ensures ExplainedCode(p) == Some(code) ==> ExplainPrompt(code) == p
  {
    UnfillFill(ExplainPrefix, code, ExplainSuffix);
    if ExplainedCode(p) == Some(code) {
      FillUnfill(ExplainPrefix, ExplainSuffix, p, code);
    }
  }

  /** Distinct codes give distinct prompts. */
  lemma ExplainPromptInjective(c1: string, c2: string)
    requires ExplainPrompt(c1) == ExplainPrompt(c2)
    ensures c1 == c2
  {
  }

  /** After the code come the heading and the three numbered points, in that order,
      and the prompt ends with the third. */
  lemma ExplainPointsInOrder(code: string)
    ensures OccurInOrder(ExplainPrompt(code), [ExplainHeading, PointWhat, PointFunctions, PointSecurity],
                         |ExplainPrefix| + |code|)
    ensures OccursAt(ExplainPrompt(code), PointSecurity, |ExplainPrompt(code)| - |PointSecurity|)
  {
    var p := ExplainPrompt(code);
    ConcatOccursInOrder(p, ExplainLayout, |ExplainPrefix| + |code|);
    ConcatEndsWithLast(ExplainLayout);
    OccursShift(ExplainSuffix, PointSecurity, |ExplainSuffix| - |PointSecurity|, ExplainPrefix + code, []);
    assert ExplainPrefix + code + ExplainSuffix + [] == p;
  }

  // ---- the generate prompt (lines 56-60) ----

  const GeneratePrefix: string := "Instruction: "
  /** The f-string's continuation lines keep the indentation of the code around it: 20 spaces. */
  const LineBreak: string := "\n                    "
  const FormatHeader: string := "Output format:"
  const SolidityMarker: string := "[Solidity Code]"
  const ExplanationMarker: string := "[Explanation]"
  const TradeoffsMarker: string := "[Security Tradeoffs]"
  /** What follows the instruction, piece by piece; the prompt has no final line break. */
  const GenerateLayout: seq<string> :=
    [LineBreak, FormatHeader, LineBreak, SolidityMarker, LineBreak, ExplanationMarker, LineBreak, TradeoffsMarker]
  const GenerateSuffix: string := Concat(GenerateLayout)

  /** The prompt the "Generate Solidity" action writes to the engine. */
  function GeneratePrompt(instruction: string): (p: string)
    ensures StartsWith(p, GeneratePrefix + instruction)
    ensures OccursAt(p, instruction, |GeneratePrefix|)
    ensures OccursAt(p, GenerateSuffix, |GeneratePrefix| + |instruction|)
    ensures |p| == |GeneratePrefix| + |instruction| + |GenerateSuffix|
  {
    assert Fill(GeneratePrefix, instruction, GenerateSuffix)[..|GeneratePrefix| + |instruction|] == GeneratePrefix + instruction;
    Fill(GeneratePrefix, instruction, GenerateSuffix)
  }


  /** The instruction a generate prompt was rendered from. */
  function GeneratedInstruction(p: string): Option<string>
  {
    Unfill(GeneratePrefix, GenerateSuffix, p)
  }

  /** The instruction can be read back from the prompt, and only generate prompts read back. */
  lemma GeneratePromptRoundTrip(instruction: string, p: string)
    ensures GeneratedInstruction(GeneratePrompt(instruction)) == Some(instruction)
    ensures GeneratedInstruction(p) == Some(instruction) ==> GeneratePrompt(instruction) == p
  {
    UnfillFill(GeneratePrefix, instruction, GenerateSuffix);
    if GeneratedInstruction(p) == Some(instruction) {
      FillUnfill(GeneratePrefix, GenerateSuffix, p, instruction);
    }
  }

  /** After the instruction come "Output format:" and the three markers, each on its own
      indented line, and the prompt ends with the last marker. */
  lemma GenerateLayoutInOrder(instruction: string)
    ensures OccurInOrder(GeneratePrompt(instruction), GenerateLayout, |GeneratePrefix| + |instruction|)
    ensures OccursAt(GeneratePrompt(instruction), TradeoffsMarker, |GeneratePrompt(instruction)| - |TradeoffsMarker|)
  {
    var p := GeneratePrompt(instruction);
    ConcatOccursInOrder(p, GenerateLayout, |GeneratePrefix| + |instruction|);
    ConcatEndsWithLast(GenerateLayout);
    OccursShift(GenerateSuffix, TradeoffsMarker, |GenerateSuffix| - |TradeoffsMarker|, GeneratePrefix + instruction, []);
    assert GeneratePrefix + instruction + GenerateSuffix + [] == p;
  }

  /** "Output format:" and the three markers occur in this order after the instruction. */
  lemma GenerateMarkersInOrder(instruction: string)
    ensures OccurInOrder(GeneratePrompt(instruction),
                         [FormatHeader, SolidityMarker, ExplanationMarker, TradeoffsMarker],
                         |GeneratePrefix| + |instruction|)
  {
    GenerateLayoutInOrder(instruction);
    OddsOfEight(LineBreak, FormatHeader, LineBreak, SolidityMarker, LineBreak, ExplanationMarker, LineBreak, TradeoffsMarker);
    OccurInOrderSkips(GeneratePrompt(instruction), GenerateLayout, |GeneratePrefix| + |instruction|);
  }

  /** The odd-indexed elements of an eight-element layout. */
  lemma OddsOfEight(a: string, b: string, c: string, d: string, e: string, f: string, g: string, h: string)
    ensures |[a, b, c, d, e, f, g, h]| % 2 == 0
    ensures Odds([a, b, c, d, e, f, g, h]) == [b, d, f, h]
  {
    var ts := [a, b, c, d, e, f, g, h];
    assert ts[2..] == [c, d, e, f, g, h];
    assert ts[2..][2..] == [e, f, g, h];
    assert ts[2..][2..][2..] == [g, h];
    assert ts[2..][2..][2..][2..] == [];
    assert Odds([g, h]) == [h];
    assert Odds([e, f, g, h]) == [f, h];
    assert Odds([c, d, e, f, g, h]) == [d, f, h];
  }
}
