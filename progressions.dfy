/** The decline-button text progression shared by both decline buttons. */
module Progressions {

  /** `BUTTON_PROGRESSIONS`: the text shown after 0, 1, 2, ... clicks. */
  const ButtonProgressions: seq<string> := [
    "Let me think \U{1F605}",
    "Are you sure?",
    "Don't do this \U{1F62D}",
    "Last chance \U{1F440}",
    "Fine... if you must \U{1F494}"
  ]

  /** The progression length, which both buttons use as their click budget. */
  const N: nat := |ButtonProgressions|

  /**
   * `Math.min(clickCount, N - 1)`: the progression entry shown after
   * `clickCount` clicks. It is always a valid index, follows the count while
   * the count is below the last index, and stays on the last entry after.
   */
  function TextIndex(clickCount: nat): (i: nat)
    ensures i < |ButtonProgressions|
    ensures clickCount <= N - 1 ==> i == clickCount
    ensures clickCount >= N - 1 ==> i == N - 1
  {
    if clickCount < N - 1 then clickCount else N - 1
  }

  /**
   * The button text after `clickCount` clicks, the same expression in both
   * decline buttons: always an entry of the progression, entry `clickCount`
   * up to the last index and the last entry afterwards.
   */
  function ProgressionText(clickCount: nat): (t: string)
    ensures t in ButtonProgressions
    ensures clickCount <= N - 1 ==> t == ButtonProgressions[clickCount]
    ensures clickCount >= N - 1 ==> t == ButtonProgressions[N - 1]
  {
    ButtonProgressions[TextIndex(clickCount)]
  }
}
