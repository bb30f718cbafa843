/** The OTP digit boxes: a fixed number of one-character slots, one slot
    overwritten per keystroke, and a focus that moves forward after a
    character is typed and back on backspace in an empty box. The code the
    component reports is the slots joined in order. */
module OtpInputBox {

  const DefaultLength := 4
  const Backspace := "Backspace"

  /** `code.join('')`: the slots concatenated in order, so the code starts
      with the first slot and ends with the last. */
  function Join(slots: seq<string>): (r: string)
    ensures slots == [] ==> r == ""
    ensures |slots| > 0 ==> slots[0] <= r
    ensures |slots| > 0 ==> |slots[|slots| - 1]| <= |r| && r[|r| - |slots[|slots| - 1]|..] == slots[|slots| - 1]
  {
    if slots == [] then ""
    else
      var init := slots[..|slots| - 1];
      assert |init| > 0 ==> init[0] == slots[0];
      Join(init) + slots[|slots| - 1]
  }

  predicate SingleCharSlots(slots: seq<string>)
  {
    forall i :: 0 <= i < |slots| ==> |slots[i]| <= 1
  }

  /** The number of slots that hold a character. */
  function Filled(slots: seq<string>): (n: nat)
    ensures n <= |slots|
  {
    if slots == [] then 0
    else Filled(slots[..|slots| - 1]) + (if slots[|slots| - 1] != "" then 1 else 0)
  }

  /** With one character at most per slot, the joined code is as long as
      the number of filled slots. */
  lemma {:induction false} JoinLength(slots: seq<string>)
    requires SingleCharSlots(slots)
    ensures |Join(slots)| == Filled(slots)
  {
    if slots != [] {
      JoinLength(slots[..|slots| - 1]);
    }
  }

  /** All slots count as filled exactly when none of them is empty. */
  lemma {:induction false} FilledAll(slots: seq<string>)
    ensures Filled(slots) == |slots| <==> forall i :: 0 <= i < |slots| ==> slots[i] != ""
  {
    if slots != [] {
      var init := slots[..|slots| - 1];
      FilledAll(init);
      if forall i :: 0 <= i < |slots| ==> slots[i] != "" {
        assert forall i :: 0 <= i < |init| ==> init[i] != "" by {
          forall i | 0 <= i < |init| ensures init[i] != "" {
            assert init[i] == slots[i];
          }
        }
      }
      if Filled(slots) == |slots| {
        forall i | 0 <= i < |slots| ensures slots[i] != "" {
          if i < |init| {
            assert init[i] == slots[i];
          }
        }
      }
    }
  }

  /** The joined code reaches the full length exactly when every slot holds
      a character: the OTP screen's length gate accepts only a complete
      code. */
  lemma CodeCompleteIffAllFilled(slots: seq<string>)
    requires SingleCharSlots(slots)
    ensures |Join(slots)| == |slots| <==> forall i :: 0 <= i < |slots| ==> slots[i] != ""
  {
    JoinLength(slots);
    FilledAll(slots);
  }

  /** When every slot holds one character, the code's i-th character is the
      i-th slot's: the slots are concatenated in order. */
  lemma {:induction false} JoinInOrder(slots: seq<string>, i: nat)
    requires forall k :: 0 <= k < |slots| ==> |slots[k]| == 1
    requires i < |slots|
    ensures |Join(slots)| == |slots| && Join(slots)[i] == slots[i][0]
  {
    var init := slots[..|slots| - 1];
    assert forall k :: 0 <= k < |init| ==> |init[k]| == 1 by {
      forall k | 0 <= k < |init| ensures |init[k]| == 1 {
        assert init[k] == slots[k];
      }
    }
    if i < |slots| - 1 {
      JoinInOrder(init, i);
      assert slots[i] == init[i];
    } else if |init| > 0 {
      JoinInOrder(init, 0);
    }
  }

  /** Empty slots count as unfilled. */
  lemma {:induction false} ZeroFilled(slots: seq<string>)
    requires forall i :: 0 <= i < |slots| ==> slots[i] == ""
    ensures Filled(slots) == 0
  {
    if slots != [] {
      ZeroFilled(slots[..|slots| - 1]);
    }
  }

  class OtpInput {
    /** The number of boxes. */
    const length: nat
    /** The box contents. */
    const slots: array<string>
    /** The focused box. */
    var focus: nat

    ghost predicate Valid()
      reads this, slots
    {
      && slots.Length == length
      && (length > 0 ==> focus < length)
      && SingleCharSlots(slots[..])
    }

    /** The reported code. */
    function Code(): string
      reads this, slots
    {
      Join(slots[..])
    }

    /** `length` empty boxes, the first focused. */
    constructor (length: nat)
      ensures Valid() && fresh(slots)
      ensures this.length == length && focus == 0
      ensures slots[..] == seq(length, _ => "")
      ensures Code() == ""
    {
      this.length := length;
      slots := new string[length](_ => "");
      focus := 0;
      new;
      JoinLength(slots[..]);
      FilledAll(slots[..]);
      assert Filled(slots[..]) == 0 by {
        ZeroFilled(slots[..]);
      }
    }

    /** The component's default of four empty boxes. */
    constructor Default()
      ensures Valid() && fresh(slots)
      ensures length == DefaultLength && focus == 0
      ensures slots[..] == seq(DefaultLength, _ => "")
      ensures Code() == ""
    {
      length := DefaultLength;
      slots := new string[DefaultLength](_ => "");
      focus := 0;
      new;
      JoinLength(slots[..]);
      assert Filled(slots[..]) == 0 by {
        ZeroFilled(slots[..]);
      }
    }

    /** Typing into box `index` replaces that box only; a non-empty text
        moves the focus to the next box unless `index` is the last one. The
        box accepts one character at most. */
    method HandleChangeText(text: string, index: nat)
      requires Valid() && index < length && |text| <= 1
      modifies slots, this`focus
      ensures Valid()
      ensures slots[..] == old(slots[..])[index := text]
      ensures text != "" && index < length - 1 ==> focus == index + 1
      ensures !(text != "" && index < length - 1) ==> focus == old(focus)
    {
      slots[index] := text;
      if text != "" && index < length - 1 {
        focus := index + 1;
      }
    }

    /** Backspace in an empty box other than the first moves the focus back;
        any other key press changes nothing. The boxes are never touched. */
    method HandleKeyPress(key: string, index: nat)
      requires Valid() && index < length
      modifies this`focus
      ensures Valid()
      ensures key == Backspace && slots[index] == "" && index > 0 ==> focus == index - 1
      ensures !(key == Backspace && slots[index] == "" && index > 0) ==> focus == old(focus)
    {
      if key == Backspace && slots[index] == "" && index > 0 {
        focus := index - 1;
      }
    }
  }
}
