/**
 * MessageOfTheDay.getPuzzleSolution: the answer to the puzzle the message-of-the-day server
 * sets. Java strings are sequences of UTF-16 code units, so the puzzle and its solution are
 * sequences of 16-bit values here; fetching the puzzle and the message is network I/O and
 * not part of this model.
 */
module PuzzleCipher {

  /** A Java char: one UTF-16 code unit. */
  type CodeUnit = n: int | 0 <= n < 0x1_0000

  const CapitalA: CodeUnit := 65
  const CapitalZ: CodeUnit := 90

  predicate IsCapital(c: CodeUnit) { CapitalA <= c <= CapitalZ }

  /**
   * What the solution holds at position i: at an odd position the code unit one below,
   * anything under 'A' becoming 'Z'; at an even position the code unit one above, anything
   * over 'Z' becoming 'A'.
   */
  function Solved(c: CodeUnit, i: nat): (r: CodeUnit)
    ensures i % 2 == 1 ==> r <= c || r == CapitalZ
    ensures i % 2 == 0 ==> r >= c || r == CapitalA
  {
    if i % 2 == 1 then
      if c - 1 < CapitalA then CapitalZ else c - 1
    else
      if c + 1 > CapitalZ then CapitalA else c + 1
  }

  /** getPuzzleSolution: each code unit of the puzzle in turn, solved at its position. */
  method GetPuzzleSolution(puzzleCode: seq<CodeUnit>) returns (solution: seq<CodeUnit>)
    ensures |solution| == |puzzleCode|
    ensures forall i | 0 <= i < |puzzleCode| :: solution[i] == Solved(puzzleCode[i], i)
  {
    solution := [];
    var i := 0;
    while i < |puzzleCode|
      invariant 0 <= i <= |puzzleCode| && |solution| == i
      invariant forall k | 0 <= k < i :: solution[k] == Solved(puzzleCode[k], k)
    {
      solution := solution + [Solved(puzzleCode[i], i)];
      i := i + 1;
    }
  }

  /**
   * On capital letters the cipher is a Caesar shift round the alphabet: one letter on at
   * even positions ('Z' to 'A'), one letter back at odd ones ('A' to 'Z').
   */
  lemma CaesarShift(c: CodeUnit, i: nat)
    requires IsCapital(c)
    ensures IsCapital(Solved(c, i))
    ensures Solved(c, i) - CapitalA == (c - CapitalA + (if i % 2 == 0 then 1 else -1)) % 26
  {
  }

  /**
   * The server's side: the puzzle it would set for an intended answer, shifting each letter
   * the other way.
   */
  function Posed(c: CodeUnit, i: nat): (r: CodeUnit)
    requires IsCapital(c)
    ensures IsCapital(r)
  {
    if i % 2 == 1 then
      if c == CapitalZ then CapitalA else c + 1
    else
      if c == CapitalA then CapitalZ else c - 1
  }

  /** A puzzle and solution of capital letters: each determines the other. */
  lemma SolvedPosed(c: CodeUnit, i: nat)
    requires IsCapital(c)
    ensures Solved(Posed(c, i), i) == c && Posed(Solved(c, i), i) == c
  {
  }

  /**
   * A puzzle of capital letters has a solution of capital letters, the same length, from
   * which the puzzle can be recovered letter by letter; different puzzles of capitals have
   * different solutions.
   */
  lemma SolutionOfCapitals(puzzle: seq<CodeUnit>, solution: seq<CodeUnit>)
    requires forall i | 0 <= i < |puzzle| :: IsCapital(puzzle[i])
    requires |solution| == |puzzle| && forall i | 0 <= i < |puzzle| :: solution[i] == Solved(puzzle[i], i)
    ensures forall i | 0 <= i < |solution| :: IsCapital(solution[i]) && Posed(solution[i], i) == puzzle[i]
  {
    forall i | 0 <= i < |solution|
      ensures IsCapital(solution[i]) && Posed(solution[i], i) == puzzle[i]
    {
      CaesarShift(puzzle[i], i);
      SolvedPosed(puzzle[i], i);
    }
  }

  /** Two puzzles of capitals with the same solution are the same puzzle. */
  lemma SolutionDeterminesPuzzle(p: seq<CodeUnit>, q: seq<CodeUnit>)
    requires |p| == |q|
    requires forall i | 0 <= i < |p| :: IsCapital(p[i]) && IsCapital(q[i]) && Solved(p[i], i) == Solved(q[i], i)
    ensures p == q
  {
    forall i | 0 <= i < |p| ensures p[i] == q[i] {
      SolvedPosed(p[i], i);
      SolvedPosed(q[i], i);
    }
  }
}
