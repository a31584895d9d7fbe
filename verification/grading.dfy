/**
 The letter grade the review engines attach to a 0-100 quality score.
 */
module Grading {

  datatype Grade = A | B | C | D | F {
    /** Position of the grade, best first. */
    function Rank(): nat {
      match this
      case A => 0
      case B => 1
      case C => 2
      case D => 3
      case F => 4
    }
  }

  /** At least 90 is A, at least 80 B, at least 70 C, at least 60 D, else F. */
  function LetterGrade(score: int): (g: Grade)
    ensures g == A <==> 90 <= score
    ensures g == B <==> 80 <= score < 90
    ensures g == C <==> 70 <= score < 80
    ensures g == D <==> 60 <= score < 70
    ensures g == F <==> score < 60
  {
    if score >= 90 then A
    else if score >= 80 then B
    else if score >= 70 then C
    else if score >= 60 then D
    else F
  }

  /** A higher score never gives a worse grade. */
  lemma GradeMonotone(s1: int, s2: int)
    requires s1 <= s2
    ensures LetterGrade(s2).Rank() <= LetterGrade(s1).Rank()
  {
  }
}
