/**
 * The client's six-slot OTP entry: the digit filter, the per-slot change and
 * Backspace handlers, the paste handler and the join that forms the submitted
 * code. Focus moves (scheduled with setTimeout in the page) are returned as the
 * slot index to focus.
 */
module OtpEntry {

  import opened Optional
  import opened Decimal

  const SLOTS: nat := 6

  /** What a slot may hold: nothing, or one digit character. */
  predicate IsSlot(s: string) {
    s == "" || (|s| == 1 && IsDigit(s[0]))
  }

  /** s.replace(/[^0-9]/g, ""): the digits of s in their order. */
  function KeepDigits(s: string): (r: string)
    ensures AllDigits(r) && |r| <= |s|
    decreases |s|
  {
    if s == [] then []
    else if IsDigit(s[|s| - 1]) then KeepDigits(s[..|s| - 1]) + [s[|s| - 1]]
    else KeepDigits(s[..|s| - 1])
  }

  /** A single character is kept exactly when it is a digit. */
  lemma KeepDigitsChar(c: char)
    ensures KeepDigits([c]) == if IsDigit(c) then [c] else []
  {
    assert [c][..0] == [];
  }

  /**
   * The filter distributes over concatenation; with KeepDigitsChar this makes
   * it the subsequence of the input's digits, every one of them, in order.
   */
  lemma {:induction false} KeepDigitsAppend(a: string, b: string)
    ensures KeepDigits(a + b) == KeepDigits(a) + KeepDigits(b)
    decreases |b|
  {
    if b == [] {
      assert a + b == a;
    } else {
      var b' := b[..|b| - 1];
      assert (a + b)[..|a + b| - 1] == a + b';
      assert (a + b)[|a + b| - 1] == b[|b| - 1];
      KeepDigitsAppend(a, b');
    }
  }

  /** The filter keeps a digit string as it is. */
  lemma {:induction false} KeepDigitsOfDigits(s: string)
    requires AllDigits(s)
    ensures KeepDigits(s) == s
    decreases |s|
  {
    if s != [] {
      KeepDigitsOfDigits(s[..|s| - 1]);
    }
  }

  /** The filter is empty exactly when the input has no digit. */
  lemma {:induction false} KeepDigitsEmpty(s: string)
    ensures KeepDigits(s) == [] <==> forall k :: 0 <= k < |s| ==> !IsDigit(s[k])
    decreases |s|
  {
    if s != [] {
      var p := s[..|s| - 1];
      KeepDigitsEmpty(p);
      assert forall k :: 0 <= k < |p| ==> p[k] == s[k];
    }
  }

  /** j is the position of the last digit of s. */
  predicate LastDigitAt(s: string, j: int) {
    0 <= j < |s| && IsDigit(s[j]) && forall k :: j < k < |s| ==> !IsDigit(s[k])
  }

  /** The last character the filter keeps is the last digit of the input. */
  lemma {:induction false} KeepDigitsLast(s: string)
    requires KeepDigits(s) != []
    ensures exists j :: LastDigitAt(s, j) && KeepDigits(s)[|KeepDigits(s)| - 1] == s[j]
    decreases |s|
  {
    if IsDigit(s[|s| - 1]) {
      assert LastDigitAt(s, |s| - 1);
    } else {
      var p := s[..|s| - 1];
      KeepDigitsLast(p);
      var j :| LastDigitAt(p, j) && KeepDigits(p)[|KeepDigits(p)| - 1] == p[j];
      assert LastDigitAt(s, j);
    }
  }

  /**
   * The value handleChange stores: the last digit of the input, or "" when the
   * input has none.
   */
  function ChangedSlot(input: string): (slot: string)
    ensures IsSlot(slot)
    ensures slot == "" <==> forall k :: 0 <= k < |input| ==> !IsDigit(input[k])
    ensures slot != "" ==> exists j :: LastDigitAt(input, j) && slot == [input[j]]
  {
    var inputVal := KeepDigits(input);
    KeepDigitsEmpty(input);
    if inputVal != "" then
      KeepDigitsLast(input);
      [inputVal[|inputVal| - 1]]
    else
      ""
  }

  /** The pasted text as handlePaste keeps it: its first six digits at most. */
  function Pasted(text: string): (pasted: string)
    ensures AllDigits(pasted)
    ensures |pasted| == if |KeepDigits(text)| < SLOTS then |KeepDigits(text)| else SLOTS
    ensures pasted <= KeepDigits(text)
  {
    var digits := KeepDigits(text);
    if |digits| <= SLOTS then digits else digits[..SLOTS]
  }

  /** The slots after a paste: slot i holds digit i of the pasted text, later slots keep their values. */
  function PastedSlots(slots: seq<string>, pasted: string): (r: seq<string>)
    requires |slots| == SLOTS && |pasted| <= SLOTS
    ensures |r| == SLOTS
  {
    seq(SLOTS, i requires 0 <= i < SLOTS => if i < |pasted| then [pasted[i]] else slots[i])
  }

  /** The focus target after a paste: Math.min(pasted.length, 5). */
  function PasteFocus(pasted: string): (index: nat)
    ensures index < SLOTS
    ensures index == |pasted| || (index == SLOTS - 1 && |pasted| >= SLOTS)
  {
    if |pasted| < SLOTS - 1 then |pasted| else SLOTS - 1
  }

  /** formData.otp.join(""): the slots concatenated in index order. */
  function Join(slots: seq<string>): (code: string)
    ensures (forall i :: 0 <= i < |slots| ==> |slots[i]| == 1) ==> |code| == |slots|
    decreases |slots|
  {
    if slots == [] then "" else slots[0] + Join(slots[1..])
  }

  /** Slots that each hold "" or a digit join to a digit string no longer than the number of slots. */
  lemma {:induction false} JoinOfSlots(slots: seq<string>)
    requires forall i :: 0 <= i < |slots| ==> IsSlot(slots[i])
    ensures AllDigits(Join(slots)) && |Join(slots)| <= |slots|
    decreases |slots|
  {
    if slots != [] {
      JoinOfSlots(slots[1..]);
    }
  }

  /** Filled slots join to the code whose character i is the digit of slot i. */
  lemma {:induction false} JoinOfFilled(slots: seq<string>)
    requires forall i :: 0 <= i < |slots| ==> |slots[i]| == 1
    ensures |Join(slots)| == |slots|
    ensures forall i :: 0 <= i < |slots| ==> Join(slots)[i] == slots[i][0]
    decreases |slots|
  {
    if slots != [] {
      JoinOfFilled(slots[1..]);
    }
  }

  /** Pasting text with at least six digits and submitting sends exactly those first six digits. */
  lemma PasteThenJoin(slots: seq<string>, text: string)
    requires |slots| == SLOTS && |KeepDigits(text)| >= SLOTS
    ensures Join(PastedSlots(slots, Pasted(text))) == KeepDigits(text)[..SLOTS]
  {
    var pasted := Pasted(text);
    var r := PastedSlots(slots, pasted);
    JoinOfFilled(r);
    assert Join(r) == pasted;
  }

  /** A six-digit code issued by the server, pasted from the mail, is submitted unchanged. */
  lemma IssuedCodeSubmitted(slots: seq<string>, draw: nat)
    requires |slots| == SLOTS && 100000 <= draw <= 999999
    ensures Join(PastedSlots(slots, Pasted(DecimalString(draw)))) == DecimalString(draw)
  {
    var code := DecimalString(draw);
    OtpCodeOfDraw(draw);
    KeepDigitsOfDigits(code);
    PasteThenJoin(slots, code);
  }

  /** The six slots of the form; each handler overwrites slots in place. */
  class OtpForm {
    const otp: array<string>

    ghost predicate Valid()
      reads this, otp
    {
      otp.Length == SLOTS && forall i :: 0 <= i < SLOTS ==> IsSlot(otp[i])
    }

    /** Array(6).fill(""). */
    constructor ()
      ensures Valid() && fresh(otp)
      ensures forall i :: 0 <= i < SLOTS ==> otp[i] == ""
    {
      otp := new string[SLOTS](_ => "");
    }

    /** DigitInput.handleChange on slot index with the input's new text. */
    method HandleChange(index: nat, input: string) returns (focus: Option<nat>)
      requires Valid() && index < SLOTS
      modifies otp
      ensures Valid()
      ensures otp[..] == old(otp[..])[index := ChangedSlot(input)]
      ensures focus.Some? <==> otp[index] != "" && index < SLOTS - 1
      ensures focus.Some? ==> focus.value == index + 1
    {
      var inputVal := KeepDigits(input);
      if inputVal != "" {
        otp[index] := [inputVal[|inputVal| - 1]];
        focus := if index < SLOTS - 1 then Some(index + 1) else None;
      } else {
        otp[index] := "";
        focus := None;
      }
    }

    /** DigitInput.handleKeyDown on slot index: only Backspace acts. */
    method HandleKeyDown(index: nat, key: string) returns (focus: Option<nat>)
      requires Valid() && index < SLOTS
      modifies otp
      ensures Valid()
      ensures key != "Backspace" ==> otp[..] == old(otp[..]) && focus == None
      ensures key == "Backspace" ==>
        if old(otp[index]) == "" && index > 0 then
          otp[..] == old(otp[..]) && focus == Some(index - 1)
        else
          otp[..] == old(otp[..])[index := ""] && focus == None
    {
      focus := None;
      if key == "Backspace" {
        if otp[index] == "" && index > 0 {
          focus := Some(index - 1);
        } else {
          otp[index] := "";
        }
      }
    }

    /** DigitInput.handlePaste: whichever slot receives it, the paste fills the slots from the first. */
    method HandlePaste(text: string) returns (focus: nat)
      requires Valid()
      modifies otp
      ensures Valid()
      ensures otp[..] == PastedSlots(old(otp[..]), Pasted(text))
      ensures focus == PasteFocus(Pasted(text))
    {
      var pasted := Pasted(text);
      for i := 0 to |pasted|
        invariant otp.Length == SLOTS
        invariant forall k :: 0 <= k < i ==> otp[k] == [pasted[k]]
        invariant forall k :: i <= k < SLOTS ==> otp[k] == old(otp[k])
      {
        otp[i] := [pasted[i]];
      }
      focus := if |pasted| < SLOTS - 1 then |pasted| else SLOTS - 1;
    }

    /**
     * handleSubmit(onSubmitHandler): the slot rules (required, one digit) let the
     * submission through only when every slot is filled; the submitted code is
     * then the six slots joined in index order.
     */
    method Submit() returns (code: Option<string>)
      requires Valid()
      ensures code.Some? <==> forall i :: 0 <= i < SLOTS ==> otp[i] != ""
      ensures code.Some? ==> code.value == Join(otp[..])
      ensures code.Some? ==> |code.value| == SLOTS && AllDigits(code.value)
      ensures code.Some? ==> forall i :: 0 <= i < SLOTS ==> code.value[i] == otp[i][0]
    {
      if forall i :: 0 <= i < SLOTS ==> |otp[i]| == 1 && IsDigit(otp[i][0]) {
        var slots := otp[..];
        JoinOfFilled(slots);
        JoinOfSlots(slots);
        code := Some(Join(slots));
      } else {
        code := None;
      }
    }
  }
}
