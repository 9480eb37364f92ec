/**
 * The operator's confirmation test: a record goes ahead only when the
 * answer, lower-cased and NOT trimmed, is exactly "y".
 */
module Confirmation {

  /** Lower-case one character (letters A to Z; every other character is kept). */
  function LowerChar(c: char): (d: char)
    ensures 'A' <= c <= 'Z' ==> d as int == c as int + 32
    ensures !('A' <= c <= 'Z') ==> d == c
  {
    if 'A' <= c <= 'Z' then (c as int + 32) as char else c
  }

  /** `toLowerCase()`: same length, each character lower-cased. */
  function Lower(s: string): (t: string)
    ensures |t| == |s|
    ensures forall i :: 0 <= i < |s| ==> t[i] == LowerChar(s[i])
  {
    if s == [] then [] else [LowerChar(s[0])] + Lower(s[1..])
  }

  /** The answer to "Confirm update? (y/N)" accepts the change. */
  predicate Confirmed(answer: string)
    ensures Confirmed(answer) ==> |answer| == 1 && answer[0] in {'y', 'Y'}
  {
    Lower(answer) == "y"
  }

  /** Exactly "y" and "Y" accept; anything else, including "", " y", "y " and "yes", declines. */
  lemma ConfirmedIff(answer: string)
    ensures Confirmed(answer) <==> answer == "y" || answer == "Y"
  {
  }

  /** The answers the prompt's "(y/N)" suggests, and the near misses an untrimmed test rejects. */
  lemma ConfirmedExamples()
    ensures Confirmed("y") && Confirmed("Y")
    ensures !Confirmed("") && !Confirmed("n") && !Confirmed(" y") && !Confirmed("y ") && !Confirmed("yes")
  {
  }
}
