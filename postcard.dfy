/**
 * The post card's `timeAgo` (frontend/src/components/PostCard.tsx), with
 * English labels. The input is `now - created` in whole milliseconds.
 */
module PostCard {
  import opened JsString
  import opened RelativeTime

  function TimeAgo(elapsedMs: int): (r: string)
    ensures ElapsedSeconds(elapsedMs) < 60 ==> r == "just now"
    ensures 60 <= ElapsedSeconds(elapsedMs) < 3600 ==>
      r == NatToDecimal(ElapsedSeconds(elapsedMs) / 60) + "m ago"
    ensures 3600 <= ElapsedSeconds(elapsedMs) < 86400 ==>
      r == NatToDecimal(ElapsedSeconds(elapsedMs) / 3600) + "h ago"
    ensures 86400 <= ElapsedSeconds(elapsedMs) ==>
      r == NatToDecimal(ElapsedSeconds(elapsedMs) / 86400) + "d ago"
  {
    FloorSecondsThen(elapsedMs, 60);
    FloorSecondsThen(elapsedMs, 3600);
    FloorSecondsThen(elapsedMs, 86400);
    EnglishLabel(Classify(elapsedMs))
  }
}
