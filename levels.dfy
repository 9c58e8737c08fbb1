/** The two pure decisions `GameManager.InitGame` makes when a level starts:
    whether it is a boss level, and which title card text is shown. The
    random draws (`Random.Range`, integer overload, maximum exclusive) are
    inputs; `UnityRange` states what the engine guarantees about them. */
module Levels {

  /** Unity's `Random.Range(min, max)` on ints returns some `r` with
      `min <= r < max`. */
  predicate UnityRange(min: int, max: int, r: int) {
    min <= r < max
  }

  /** `Random.Range(1, 10) < 3 && level > 2` with the draw given as `roll`. */
  predicate IsBoss(roll: int, level: int) {
    roll < 3 && level > 2
  }

  /** No boss on the first two levels, whatever the draw. */
  lemma NoBossEarly(roll: int, level: int)
    requires level <= 2
    ensures !IsBoss(roll, level)
  {
  }

  /** From level 3 on, exactly the draws 1 and 2 of the nine draws 1..9 give a
      boss level (probability 2/9). */
  lemma BossRolls(level: int)
    ensures level > 2 ==> (set r | 1 <= r < 10 && IsBoss(r, level)) == {1, 2}
    ensures level <= 2 ==> (set r | 1 <= r < 10 && IsBoss(r, level)) == {}
    ensures |set r | 1 <= r < 10 && IsBoss(r, level)| == if level > 2 then 2 else 0
  {
  }

  const BossTitle: string := "What is that menacing noise?"

  const BeginningThoughts: seq<string> := [
    "Where is my money..!",
    "I miss raiding...",
    "Am I the only one?",
    "What lies ahead..?",
    "Stop the voices..!",
    "By gods...",
    "To the darkest void...",
    "Is this before time?",
    "There are only monsters...",
    "Emil osaa koodata"
  ]

  const MiddleThoughts: seq<string> := [
    "It never ends...",
    "I don't want to stay anylonger",
    "Guide me home...",
    "I hate stairs...",
    "Death awaits...",
    "Deeper and deeper...",
    "Rest...",
    "Bottomless...",
    "When does this end?"
  ]

  const EndThoughts: seq<string> := [
    "Die die die!",
    "I am Death..!",
    "No defeat...",
    "Odin.. allfather",
    "Do you see me now?"
  ]

  /** The stage of the descent a non-boss level belongs to. */
  datatype Band = Beginning | Middle | End {
    function Rank(): nat {
      match this
      case Beginning => 0
      case Middle => 1
      case End => 2
    }

    function Thoughts(): (t: seq<string>)
      ensures |t| > 0
    {
      match this
      case Beginning => BeginningThoughts
      case Middle => MiddleThoughts
      case End => EndThoughts
    }
  }

  /** The branches `level <= 10`, `level > 10 && level < 20` and the final
      `else` of `InitGame`. */
  function BandOf(level: int): Band {
    if level <= 10 then Beginning
    else if level > 10 && level < 20 then Middle
    else End
  }

  /** The array a non-boss title is drawn from, and how many entries it has,
      for each band; each band draws from its own array. */
  lemma BandThoughts(level: int)
    ensures BandOf(level).Thoughts() == BeginningThoughts <==> level <= 10
    ensures BandOf(level).Thoughts() == MiddleThoughts <==> 11 <= level <= 19
    ensures BandOf(level).Thoughts() == EndThoughts <==> level >= 20
    ensures |BandOf(level).Thoughts()| == if level <= 10 then 10 else if level < 20 then 9 else 5
  {
  }

  /** A deeper level never goes back to an earlier band of thoughts. */
  lemma BandMonotone(level: int, deeper: int)
    requires level <= deeper
    ensures BandOf(level).Rank() <= BandOf(deeper).Rank()
  {
  }

  /** What `Random.Range(0, thoughts.Length)` must return for the title
      lookup to be in bounds; the engine's range guarantees it. */
  predicate TextRollOk(isBoss: bool, level: int, textRoll: int) {
    !isBoss ==> UnityRange(0, |BandOf(level).Thoughts()|, textRoll)
  }

  /** The title card text `InitGame` writes to `levelText`. */
  function TitleText(isBoss: bool, level: int, textRoll: int): (t: string)
    requires TextRollOk(isBoss, level, textRoll)
    ensures isBoss ==> t == BossTitle
    ensures !isBoss ==> t in BandOf(level).Thoughts()
  {
    if isBoss then BossTitle
    else BandOf(level).Thoughts()[textRoll]
  }

  /** The engine always has a draw to make for the title lookup: each band's
      array is nonempty, so `Random.Range(0, Length)` has a nonempty range. */
  lemma TextRollAlwaysInBounds(isBoss: bool, level: int)
    ensures |BandOf(level).Thoughts()| > 0
    ensures exists k :: TextRollOk(isBoss, level, k)
  {
    assert TextRollOk(isBoss, level, 0);
  }

  /** The boss line is shown exactly on boss levels: it is none of the
      ordinary thoughts. */
  lemma TitleRevealsBoss(isBoss: bool, level: int, textRoll: int)
    requires TextRollOk(isBoss, level, textRoll)
    ensures TitleText(isBoss, level, textRoll) == BossTitle <==> isBoss
  {
  }
}
