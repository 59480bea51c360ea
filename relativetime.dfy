/**
 * The relative-time bucket shared by the three `timeAgo` copies
 * (post detail, post card, comment item). Each copy takes the elapsed
 * time `now - created` in integer milliseconds, floors it to seconds, and
 * picks the first bucket whose upper bound the seconds are below.
 */
module RelativeTime {
  import opened JsString

  datatype Span = JustNow | Minutes(n: nat) | Hours(n: nat) | Days(n: nat)

  const MinuteMs: int := 60 * 1000
  const HourMs: int := 60 * 60 * 1000
  const DayMs: int := 24 * 60 * 60 * 1000

  /** `Math.floor(ms / 1000)`: Dafny's `/` by a positive divisor is floor division. */
  function ElapsedSeconds(elapsedMs: int): (s: int)
    ensures 1000 * s <= elapsedMs < 1000 * (s + 1)
  {
    elapsedMs / 1000
  }

  /** Flooring to seconds and then to a coarser unit is flooring to that unit directly. */
  lemma FloorSecondsThen(elapsedMs: int, unit: int)
    requires unit == 60 || unit == 3600 || unit == 86400
    ensures (elapsedMs / 1000) / unit == elapsedMs / (1000 * unit)
  {
    var q := elapsedMs / 1000;
    var q2 := q / unit;
    assert 1000 * q <= elapsedMs < 1000 * q + 1000;
    assert unit * q2 <= q < unit * q2 + unit;
    assert (1000 * unit) * q2 <= elapsedMs < (1000 * unit) * q2 + 1000 * unit;
  }

  /** The bucket for an elapsed time: future dates and anything under a
      minute are "just now"; otherwise the count is the floor of the elapsed
      time in the bucket's unit, and every count stays below the next unit. */
  function Classify(elapsedMs: int): (b: Span)
    ensures b == JustNow <==> elapsedMs < MinuteMs
    ensures b.Minutes? <==> MinuteMs <= elapsedMs < HourMs
    ensures b.Hours? <==> HourMs <= elapsedMs < DayMs
    ensures b.Days? <==> DayMs <= elapsedMs
    ensures b.Minutes? ==> b.n == elapsedMs / MinuteMs && 1 <= b.n < 60
    ensures b.Hours? ==> b.n == elapsedMs / HourMs && 1 <= b.n < 24
    ensures b.Days? ==> b.n == elapsedMs / DayMs && 1 <= b.n
  {
    var seconds := ElapsedSeconds(elapsedMs);
    FloorSecondsThen(elapsedMs, 60);
    FloorSecondsThen(elapsedMs, 3600);
    FloorSecondsThen(elapsedMs, 86400);
    if seconds < 60 then JustNow
    else if seconds < 3600 then Minutes(seconds / 60)
    else if seconds < 86400 then Hours(seconds / 3600)
    else Days(seconds / 86400)
  }

  /** Within a bucket the count is the unit count that the elapsed time spans. */
  lemma ClassifyBounds(elapsedMs: int)
    ensures match Classify(elapsedMs)
      case JustNow => true
      case Minutes(n) => MinuteMs * n <= elapsedMs < MinuteMs * (n + 1)
      case Hours(n) => HourMs * n <= elapsedMs < HourMs * (n + 1)
      case Days(n) => DayMs * n <= elapsedMs < DayMs * (n + 1)
  {
  }

  /** A later moment never falls into an earlier bucket, and within a
      bucket the count never decreases. */
  lemma ClassifyMonotonic(a: int, b: int)
    requires a <= b
    ensures Rank(Classify(a)) <= Rank(Classify(b))
    ensures Rank(Classify(a)) == Rank(Classify(b)) && !Classify(a).JustNow? ==>
      Classify(a).n <= Classify(b).n
  {
    assert a / MinuteMs <= b / MinuteMs;
    assert a / HourMs <= b / HourMs;
    assert a / DayMs <= b / DayMs;
  }

  function Rank(b: Span): nat {
    match b
    case JustNow => 0
    case Minutes(_) => 1
    case Hours(_) => 2
    case Days(_) => 3
  }

  /** The English labels of the post card. */
  function EnglishLabel(b: Span): (r: string)
    ensures |r| > 0 && (b.JustNow? <==> !IsDigit(r[0]))
  {
    match b
    case JustNow => "just now"
    case Minutes(n) => NatToDecimal(n) + "m ago"
    case Hours(n) => NatToDecimal(n) + "h ago"
    case Days(n) => NatToDecimal(n) + "d ago"
  }

  /** The Chinese labels of the post detail page and the comment item. */
  function ChineseLabel(b: Span): (r: string)
    ensures |r| > 0 && (b.JustNow? <==> !IsDigit(r[0]))
  {
    match b
    case JustNow => "刚刚"
    case Minutes(n) => NatToDecimal(n) + " 分钟前"
    case Hours(n) => NatToDecimal(n) + " 小时前"
    case Days(n) => NatToDecimal(n) + " 天前"
  }

  /** Two counts rendered in front of suffixes of one length give the same
      text only when counts and suffixes agree. */
  lemma DecimalThenSuffix(m: nat, n: nat, t: string, u: string)
    requires |t| == |u|
    requires NatToDecimal(m) + t == NatToDecimal(n) + u
    ensures m == n && t == u
  {
    var x := NatToDecimal(m) + t;
    assert NatToDecimal(m) == x[..|x| - |t|];
    assert NatToDecimal(n) == x[..|x| - |u|];
    NatToDecimalRoundTrip(m);
    NatToDecimalRoundTrip(n);
    assert t == x[|x| - |t|..];
  }

  /** A label names its bucket and count: distinct spans never read alike. */
  lemma EnglishLabelInjective(a: Span, b: Span)
    requires EnglishLabel(a) == EnglishLabel(b)
    ensures a == b
  {
    if !a.JustNow? && !b.JustNow? {
      DecimalThenSuffix(a.n, b.n, EnglishLabel(a)[|NatToDecimal(a.n)|..], EnglishLabel(b)[|NatToDecimal(b.n)|..]);
    }
  }

  /** Only the day suffix has a space three characters from the end. */
  lemma ChineseDaySuffix(b: Span)
    requires !b.JustNow?
    ensures var x := ChineseLabel(b); |x| >= 3 && (x[|x| - 3] == ' ' <==> b.Days?)
  {
    var x := ChineseLabel(b);
    if b.Days? {
      assert x[|x| - 3] == " 天前"[0];
    } else if b.Hours? {
      assert x[|x| - 3] == " 小时前"[1];
    } else {
      assert x[|x| - 3] == " 分钟前"[1];
    }
  }

  /** The same for the Chinese labels, whose day suffix is one character shorter. */
  lemma ChineseLabelInjective(a: Span, b: Span)
    requires ChineseLabel(a) == ChineseLabel(b)
    ensures a == b
  {
    var r := ChineseLabel(a);
    if !a.JustNow? && !b.JustNow? {
      ChineseDaySuffix(a);
      ChineseDaySuffix(b);
      DecimalThenSuffix(a.n, b.n, r[|NatToDecimal(a.n)|..], r[|NatToDecimal(b.n)|..]);
    }
  }
}
