/**
 * `getNewFileName` (utils/file.ts): the dialog loop that asks the user what to
 * do when the conversion target already exists.
 */
module FileDialog {
  import opened Common

  /**
   * One pass of the loop: the label of the button pressed on the "File already
   * exists" dialog and, when that was "New Name", whether the text dialog was
   * accepted and the text typed.
   */
  datatype Round = Round(button: string, accept: bool, value: string)

  /** What the loop returns (`null` is `Answered(None)`), or that it is still asking. */
  datatype Answer = Answered(name: Option<string>) | StillPrompting

  /** A round that shows the "same name" error and asks again. */
  predicate Reprompts(current: string, r: Round)
  {
    r.button == "New Name" && r.accept && r.value != "" && r.value == current
  }

  /** What a round that does not ask again returns. */
  function RoundAnswer(current: string, r: Round): Option<string>
  {
    if r.button == "New Name" then
      if r.accept && r.value != "" then Some(r.value + ".mlx") else None
    else if r.button == "Overwrite" then Some(current)
    else None
  }

  /**
   * The loop over the user's answers: each round either asks again or decides.
   * `used` is the number of rounds shown.
   */
  method GetNewFileName(current: string, rounds: seq<Round>) returns (answer: Answer, used: nat)
    ensures used <= |rounds|
    ensures forall k :: 0 <= k < used - 1 ==> Reprompts(current, rounds[k])
    ensures answer.StillPrompting? <==> used == |rounds| && forall k :: 0 <= k < |rounds| ==> Reprompts(current, rounds[k])
    ensures answer.Answered? ==>
      used >= 1 && !Reprompts(current, rounds[used - 1]) && answer.name == RoundAnswer(current, rounds[used - 1])
    ensures answer.Answered? && answer.name.Some? ==>
      var n := answer.name.value;
      n == current || (EndsWith(n, ".mlx") && |n| > 4 && n[..|n| - 4] != current)
  {
    var i := 0;
    while i < |rounds|
      invariant 0 <= i <= |rounds|
      invariant forall k :: 0 <= k < i ==> Reprompts(current, rounds[k])
    {
      var r := rounds[i];
      if r.button == "New Name" {
        if r.accept && r.value != "" {
          if r.value == current {
            i := i + 1;
            continue;
          }
          assert (r.value + ".mlx")[..|r.value|] == r.value;
          return Answered(Some(r.value + ".mlx")), i + 1;
        } else {
          return Answered(None), i + 1;
        }
      } else if r.button == "Overwrite" {
        return Answered(Some(current)), i + 1;
      } else {
        return Answered(None), i + 1;
      }
    }
    return StillPrompting, |rounds|;
  }

  /** 'Overwrite' on the first dialog returns the current name unchanged. */
  method OverwriteKeepsName(current: string) returns (answer: Answer)
    ensures answer == Answered(Some(current))
  {
    var rounds := [Round("Overwrite", false, "")];
    assert "Overwrite" != "New Name" && !Reprompts(current, rounds[0]);
    var used;
    answer, used := GetNewFileName(current, rounds);
  }

  /** Typing the current name again is refused once; a different name then wins. */
  method SameNameAsksAgain(current: string, other: string) returns (answer: Answer, used: nat)
    requires current != "" && other != "" && other != current
    ensures answer == Answered(Some(other + ".mlx")) && used == 2
  {
    var rounds := [Round("New Name", true, current), Round("New Name", true, other)];
    assert Reprompts(current, rounds[0]) && !Reprompts(current, rounds[1]);
    answer, used := GetNewFileName(current, rounds);
  }
}
