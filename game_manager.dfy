/**
 * The score keeper of the scene (`GameManager`): a 32-bit running score, the
 * text of the score label that mirrors it, and the first-wins rule that keeps
 * a single manager registered in the static `Instance` field.
 *
 * Unity's lifecycle is made explicit: the static field is an `InstanceSlot`
 * object passed to `Awake`, `Destroy(gameObject)` sets the manager's
 * `destroyed` flag, and the label's `text` property is a string field.
 */
module GameManagement {

  import opened IntFormat

  /** C#'s `int`. */
  newtype Int32 = x: int | -0x8000_0000 <= x < 0x8000_0000

  const Modulus: int := 0x1_0000_0000

  /** Unchecked C# `int` arithmetic: the exact result brought back into range modulo 2^32. */
  function Wrap32(x: int): (r: Int32)
    ensures -0x8000_0000 <= x < 0x8000_0000 ==> r as int == x
    ensures (x - r as int) % Modulus == 0
  {
    ((x + 0x8000_0000) % Modulus - 0x8000_0000) as Int32
  }

  /** The score after `score += amount`. */
  function AddWrapped(score: Int32, amount: Int32): (r: Int32)
    ensures -0x8000_0000 <= score as int + amount as int < 0x8000_0000 ==> r as int == score as int + amount as int
    ensures (score as int + amount as int - r as int) % Modulus == 0
  {
    Wrap32(score as int + amount as int)
  }

  const Prefix: string := "Score: "

  /** What `UpdateScoreText` writes into the label: `"Score: " + score.ToString()`. */
  function ScoreText(score: Int32): (r: string)
    ensures |r| > |Prefix| && r[..|Prefix|] == Prefix
    ensures ParseInt(r[|Prefix|..]) == Some(score as int)
  {
    var r := Prefix + IntToString(score as int);
    assert r[|Prefix|..] == IntToString(score as int);
    ParseIntToString(score as int);
    r
  }

  /** Two additions in a row leave the score where one addition of the sum would, wrap-around included. */
  lemma AddScoreTwice(score: Int32, a: Int32, b: Int32)
    ensures AddWrapped(AddWrapped(score, a), b) == Wrap32(score as int + a as int + b as int)
  {
  }

  /** Two additions to a fresh score of 0 give the wrapped sum. */
  lemma ScoreFromZero(a: Int32, b: Int32)
    ensures AddWrapped(AddWrapped(0, a), b) == Wrap32(a as int + b as int)
  {
    AddScoreTwice(0, a, b);
  }

  /** The label determines the score: different scores never show the same text. */
  lemma ScoreTextInjective(a: Int32, b: Int32)
    requires ScoreText(a) == ScoreText(b)
    ensures a == b
  {
  }

  class GameManager {
    var score: Int32
    /** `scoreText.text`: the string the score label shows. */
    var text: string
    /** Set by `Destroy(gameObject)`. */
    var destroyed: bool

    /** The label shows the current score. */
    predicate DisplayInSync()
      reads this
    {
      text == ScoreText(score)
    }

    /** A manager as the scene loads it: score 0 and whatever the label was authored with. */
    constructor (initialText: string)
      ensures score == 0 && text == initialText && !destroyed
    {
      score := 0;
      text := initialText;
      destroyed := false;
    }

    /**
     * The first manager to wake up is registered; any later one, while the
     * registered one is alive, destroys itself. A destroyed manager compares
     * equal to null under Unity's overloaded `==`, so a slot whose manager is
     * destroyed counts as empty.
     */
    method Awake(slot: InstanceSlot)
      modifies this, slot
      ensures old(slot.IsEmpty()) ==> slot.Instance == this && destroyed == old(destroyed)
      ensures !old(slot.IsEmpty()) ==> slot.Instance == old(slot.Instance) && destroyed
      ensures !old(slot.IsEmpty()) && old(slot.Instance) != this ==> !slot.IsEmpty()
      ensures score == old(score) && text == old(text)
      ensures old(destroyed) ==> destroyed
    {
      if slot.IsEmpty() {
        slot.Instance := this;
      } else {
        destroyed := true;
      }
    }

    method AddScore(amount: Int32)
      modifies this
      ensures score == AddWrapped(old(score), amount)
      ensures DisplayInSync() && text[..|Prefix|] == Prefix
      ensures destroyed == old(destroyed)
    {
      score := Wrap32(score as int + amount as int);
      UpdateScoreText();
    }

    method UpdateScoreText()
      modifies this`text
      ensures DisplayInSync()
    {
      text := ScoreText(score);
    }
  }

  /** The static field `GameManager.Instance`. */
  class InstanceSlot {
    var Instance: GameManager?

    /** Static fields start out null. */
    constructor ()
      ensures Instance == null
    {
      Instance := null;
    }

    /** `Instance == null` as Unity evaluates it: no manager, or a destroyed one. */
    predicate IsEmpty()
      reads this, Instance
    {
      Instance == null || Instance.destroyed
    }
  }

  /**
   * A scene loading two managers: the first is registered, the second destroys
   * itself, and scores added through the registered one accumulate.
   */
  method SceneWithTwoManagers(a: Int32, b: Int32)
    returns (slot: InstanceSlot, first: GameManager, second: GameManager, shown: string)
    ensures first != second && slot.Instance == first
    ensures !first.destroyed && second.destroyed
    ensures first.score == Wrap32(a as int + b as int) && second.score == 0
    ensures shown == ScoreText(Wrap32(a as int + b as int))
  {
    slot := new InstanceSlot();
    first := new GameManager("Score: 0");
    second := new GameManager("Score: 0");
    first.Awake(slot);
    second.Awake(slot);
    slot.Instance.AddScore(a);
    slot.Instance.AddScore(b);
    ScoreFromZero(a, b);
    shown := slot.Instance.text;
  }
}
