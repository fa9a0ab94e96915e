/** A summary printed as JSON, in a response that quotes whatever it likes. */
module PrintedSummary {
  import opened Characters
  import opened ObjectScanner
  import opened Candidates
  import opened JsonText

  /** Behind the closing terminator, in a fence, a printed JSON object is among the candidates:
      however it is printed, whatever the scratchpad quotes, and even if the object quotes the
      terminator itself. */
  lemma PrintedSummaryIsCandidate(scratch: string, blank1: string, blank2: string, v: Json, text: string, rest: string)
    requires Blank(blank1) && Blank(blank2) && Without(rest, "</analysis>")
    requires v.Object? && Prints(v, text)
    ensures text in JsonCandidates(scratch + "</analysis>" + (blank1 + "```json" + blank2 + (text + rest)))
  {
    PrintedIsObject(v, text);
    var b :| Legal(b) && text == ObjectText(b);
    hide *;
    FencedSummaryIsCandidate(scratch, blank1, blank2, b, rest);
  }
}
