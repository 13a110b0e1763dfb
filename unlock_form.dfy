/** The lead-capture dialog of src/components/result/unlock-form.tsx: the
    name must be non-empty, the phone must match the mainland-China mobile
    pattern `^1[3-9]\d{9}$`, and a valid submission hands the values to the
    unlock callback and closes the dialog. */
module UnlockForm {
  import opened Wrappers
  import opened Strings

  datatype LeadValues = LeadValues(name: string, phone: string)

  /** One character class of an anchored, repetition-free pattern. */
  datatype CharClass = Exactly(literal: char) | Between(lo: char, hi: char)

  predicate InClass(c: char, k: CharClass)
  {
    if k.Exactly? then c == k.literal else k.lo <= c && c <= k.hi
  }

  /** The whole string matches the pattern, one character per class. */
  predicate MatchesWhole(pattern: seq<CharClass>, s: string)
    decreases |pattern|
  {
    if pattern == [] then s == []
    else s != [] && InClass(s[0], pattern[0]) && MatchesWhole(pattern[1..], s[1..])
  }

  /** The class `\d`: ASCII digits. */
  const Digit := Between('0', '9')

  /** `/^1[3-9]\d{9}$/`, with `\d{9}` written out as nine digit classes. */
  const PhonePattern: seq<CharClass> :=
    [Exactly('1'), Between('3', '9'), Digit, Digit, Digit, Digit, Digit, Digit, Digit, Digit, Digit]

  predicate ValidPhone(phone: string)
  {
    MatchesWhole(PhonePattern, phone)
  }

  /** `z.string().min(1)`. */
  predicate ValidName(name: string)
  {
    |name| >= 1
  }

  lemma {:induction false} MatchesWholeIff(pattern: seq<CharClass>, s: string)
    ensures MatchesWhole(pattern, s) <==>
              |s| == |pattern| && forall i :: 0 <= i < |s| ==> InClass(s[i], pattern[i])
    decreases |pattern|
  {
    if pattern != [] && s != [] {
      MatchesWholeIff(pattern[1..], s[1..]);
      if |s| == |pattern| && forall i :: 0 <= i < |s| ==> InClass(s[i], pattern[i]) {
        assert forall i :: 0 <= i < |s[1..]| ==> InClass(s[1..][i], pattern[1..][i]) by {
          forall i | 0 <= i < |s[1..]| ensures InClass(s[1..][i], pattern[1..][i]) {
            assert InClass(s[i + 1], pattern[i + 1]);
          }
        }
      }
      if MatchesWhole(pattern, s) {
        forall i | 0 <= i < |s| ensures InClass(s[i], pattern[i]) {
          if i > 0 { assert InClass(s[1..][i - 1], pattern[1..][i - 1]); }
        }
      }
    }
  }

  /** A phone is valid exactly when it has 11 characters: '1', then a digit
      from 3 to 9, then nine ASCII digits. */
  lemma ValidPhoneShape(phone: string)
    ensures ValidPhone(phone) <==>
              |phone| == 11 && phone[0] == '1' && '3' <= phone[1] <= '9'
              && forall i :: 2 <= i < 11 ==> IsAsciiDigit(phone[i])
  {
    MatchesWholeIff(PhonePattern, phone);
    assert forall i :: 2 <= i < 11 ==> PhonePattern[i] == Digit;
  }

  /** Every valid phone is eleven ASCII digits. */
  lemma ValidPhoneIsDigits(phone: string)
    requires ValidPhone(phone)
    ensures |phone| == 11 && forall i :: 0 <= i < |phone| ==> IsAsciiDigit(phone[i])
  {
    ValidPhoneShape(phone);
  }

  datatype LeadIssue = NameRequired | InvalidPhone

  /** The schema check: the values pass unchanged, or the failing fields are
      reported in field order. */
  function Validate(values: LeadValues): (r: Result<LeadValues, seq<LeadIssue>>)
    ensures r.Ok? <==> ValidName(values.name) && ValidPhone(values.phone)
    ensures r.Ok? ==> r.value == values
    ensures r.Err? ==> (NameRequired in r.error <==> !ValidName(values.name))
                       && (InvalidPhone in r.error <==> !ValidPhone(values.phone))
  {
    var issues: seq<LeadIssue> := (if ValidName(values.name) then [] else [NameRequired])
                  + (if ValidPhone(values.phone) then [] else [InvalidPhone]);
    if issues == [] then Ok(values) else Err(issues)
  }

  const DefaultValues := LeadValues("", "")

  /** The untouched form fails on both fields, so it cannot be submitted. */
  lemma DefaultValuesRejected()
    ensures Validate(DefaultValues) == Err([NameRequired, InvalidPhone])
  {
    var issues: seq<LeadIssue> := [NameRequired] + [InvalidPhone];
    assert !ValidName(DefaultValues.name) && !ValidPhone(DefaultValues.phone);
    assert issues == [NameRequired, InvalidPhone];
  }

  /** The dialog's `open` flag. */
  class UnlockDialog {
    var open: bool

    constructor ()
      ensures !open
    {
      open := false;
    }

    /** The trigger button and the dialog's own close control. */
    method SetOpen(open: bool)
      modifies this
      ensures this.open == open
    {
      this.open := open;
    }

    /** `form.handleSubmit(onSubmit)`: on valid values, return them for the
        `onUnlock` callback and close the dialog; on invalid values nothing
        is handed on and the dialog stays as it was. */
    method Submit(values: LeadValues) returns (unlock: Option<LeadValues>)
      modifies this
      ensures Validate(values).Ok? ==> unlock == Some(values) && !open
      ensures Validate(values).Err? ==> unlock == None && open == old(open)
    {
      var checked := Validate(values);
      if checked.Ok? {
        unlock := Some(checked.value);
        open := false;
      } else {
        unlock := None;
      }
    }
  }
}
