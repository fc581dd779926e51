/**
 * The severity levels of the logger and their fixed display tags.
 *
 * The enumeration declares Error, Warn, Info in that order, and its
 * comparison is the derived one, which orders variants by declaration:
 * Error < Warn < Info. A message passes the filter when its level is
 * at most the threshold, so Error is the most restrictive threshold and
 * Info the most permissive.
 */
module Levels {
  import opened Wrappers

  datatype LogLevel = Error | Warn | Info

  /** Position of a level in declaration order. */
  function Rank(level: LogLevel): (r: nat)
    ensures r < 3
    ensures r == 0 <==> level == Error
    ensures r == 2 <==> level == Info
  {
    match level
    case Error => 0
    case Warn => 1
    case Info => 2
  }

  /**
   * `a <= b` under the derived order, written out case by case: Error is
   * below everything, everything is below Info, and Warn is below itself.
   */
  predicate Le(a: LogLevel, b: LogLevel)
    ensures Le(a, b) <==> Rank(a) <= Rank(b)
  {
    a == Error || b == Info || (a == Warn && b == Warn)
  }

  /** The derived order is a total order on the three levels. */
  lemma LeIsTotalOrder()
    ensures forall a :: Le(a, a)
    ensures forall a, b :: Le(a, b) && Le(b, a) ==> a == b
    ensures forall a, b, c :: Le(a, b) && Le(b, c) ==> Le(a, c)
    ensures forall a, b :: Le(a, b) || Le(b, a)
  {
  }

  /** The bracketed six-character tag printed for a level. */
  function Tag(level: LogLevel): (t: string)
    ensures |t| == 6 && t[0] == '[' && t[5] == ']'
  {
    match level
    case Error => "[ERRR]"
    case Warn => "[WARN]"
    case Info => "[INFO]"
  }

  /** Reads a tag back; anything that is not one of the three tags gives None. */
  function LevelOfTag(t: string): (r: Option<LogLevel>)
    ensures r.Some? ==> Tag(r.value) == t
  {
    if t == "[ERRR]" then Some(Error)
    else if t == "[WARN]" then Some(Warn)
    else if t == "[INFO]" then Some(Info)
    else None
  }

  /** Every tag reads back as its own level, so distinct levels have distinct tags. */
  lemma TagRoundTrip(level: LogLevel)
    ensures LevelOfTag(Tag(level)) == Some(level)
    ensures forall other :: Tag(other) == Tag(level) ==> other == level
  {
  }
}
