/**
 * The agent registration form (frontend/src/pages/Register.tsx): the name
 * checks, the request payload and the state `handleSubmit` leaves behind.
 * The name is checked as typed; the trimmed name is what is sent.
 */
module Register {
  import opened Types
  import opened JsString
  import opened Forms

  const MinNameLength: nat := 3
  const MaxNameLength: nat := 30

  /** The character class `[a-zA-Z0-9_-]`. */
  predicate NameChar(c: char) {
    ('a' <= c <= 'z') || ('A' <= c <= 'Z') || ('0' <= c <= '9') || c == '_' || c == '-'
  }

  /** `/^[a-zA-Z0-9_-]+$/.test(name)`. */
  predicate MatchesNamePattern(name: string) {
    |name| >= 1 && forall k :: 0 <= k < |name| ==> NameChar(name[k])
  }

  /** Which guard of `handleSubmit` a name stops at. */
  datatype NameCheck = NameBlank | NameLength | NameFormat | NameAccepted

  /** The guards in source order: blank, then the length in UTF-16 code
      units, then the pattern. */
  function CheckName(name: string): (r: NameCheck)
    ensures r == NameBlank <==> AllWhitespace(name)
    ensures r == NameLength <==>
      !AllWhitespace(name) && (Utf16Length(name) < MinNameLength || Utf16Length(name) > MaxNameLength)
    ensures r == NameFormat <==>
      !AllWhitespace(name) && MinNameLength <= Utf16Length(name) <= MaxNameLength && !MatchesNamePattern(name)
  {
    if Blank(name) then NameBlank
    else if Utf16Length(name) < MinNameLength || Utf16Length(name) > MaxNameLength then NameLength
    else if !MatchesNamePattern(name) then NameFormat
    else NameAccepted
  }

  /** Characters of the class are single UTF-16 units and are not whitespace. */
  lemma NameCharsPlain(name: string)
    requires MatchesNamePattern(name)
    ensures Utf16Length(name) == |name|
    ensures Trim(name) == name
  {
    assert forall k :: 0 <= k < |name| ==> name[k] as int < 0x1_0000 && !IsWhitespace(name[k]);
    TrimNoWhitespace(name);
  }

  /** Every accepted name has 3 to 30 characters, all from the class, and
      trimming it changes nothing, so the name sent is the name checked. */
  lemma AcceptedName(name: string)
    requires CheckName(name) == NameAccepted
    ensures MinNameLength <= |name| <= MaxNameLength
    ensures forall k :: 0 <= k < |name| ==> NameChar(name[k])
    ensures Trim(name) == name
  {
    NameCharsPlain(name);
  }

  /** The length guard comes first: a short name with a bad character
      reports the length. */
  lemma LengthCheckedFirst()
    ensures CheckName("a!") == NameLength
  {
    assert !IsWhitespace('a');
    assert Utf16Length("a!") == 2;
  }

  /** The pattern is tried on the name as typed, so surrounding spaces are
      reported as a format error rather than trimmed away. */
  lemma PaddedNameRejected()
    ensures CheckName(" abc") == NameFormat
  {
    assert !IsWhitespace('a');
    assert Utf16Length(" abc") == 4;
    assert !NameChar(" abc"[0]);
  }

  datatype RegisterRequest = RegisterRequest(name: string, description: Option<string>)

  /** `registerAgent(name.trim(), description.trim() || undefined)`. */
  function RegisterPayload(name: string, description: string): (p: RegisterRequest)
    ensures p.name == Trim(name)
    ensures p.description.None? <==> AllWhitespace(description)
    ensures p.description.Some? ==> p.description.value == Trim(description) && Unpadded(p.description.value)
  {
    var d := Trim(description);
    RegisterRequest(Trim(name), if d == [] then None else Some(d))
  }

  /** The response's message, the part the result page shows. */
  datatype RegisterResponse = RegisterResponse(message: string)

  datatype RegisterOutcome = Registered(response: RegisterResponse) | RegisterFailed(err: Thrown)

  /** After a successful registration the form calls `addAgent` from the
      layout context, which the layout never supplies: the call throws a
      `TypeError`, and the catch shows its message. The text is the one
      V8-based engines produce. */
  const AddAgentMissing: string := "addAgent is not a function"

  class RegisterForm {
    var name: string
    var description: string
    var submitting: bool
    var error: Notice
    var result: Option<RegisterResponse>

    constructor ()
      ensures name == "" && description == "" && !submitting && error == NoNotice && result.None?
    {
      name, description, submitting, error, result := "", "", false, NoNotice, None;
    }

    /** `handleSubmit`, with the request's outcome as an input. Returns the
        request sent, if any. */
    method HandleSubmit(outcome: RegisterOutcome) returns (sent: Option<RegisterRequest>)
      modifies this
      ensures name == old(name) && description == old(description)
      ensures CheckName(name) != NameAccepted ==> sent.None? && submitting == old(submitting) && result == old(result)
      ensures CheckName(name) == NameBlank ==> error == old(error)
      ensures CheckName(name) == NameLength ==> error == Translated("nameLength")
      ensures CheckName(name) == NameFormat ==> error == Translated("nameFormat")
      ensures CheckName(name) == NameAccepted ==>
        sent == Some(RegisterPayload(name, description)) && !submitting &&
        (outcome.Registered? ==> result == Some(outcome.response) && error == ErrorText(AddAgentMissing)) &&
        (outcome.RegisterFailed? ==> result == old(result) && error == CaughtNotice(outcome.err, "registerFailed"))
    {
      var check := CheckName(name);
      if check == NameBlank {
        return None;
      }
      if check == NameLength {
        error := Translated("nameLength");
        return None;
      }
      if check == NameFormat {
        error := Translated("nameFormat");
        return None;
      }
      submitting := true;
      error := NoNotice;
      sent := Some(RegisterPayload(name, description));
      match outcome {
        case Registered(response) =>
          result := Some(response);
          error := CaughtNotice(ThrownError(AddAgentMissing), "registerFailed");
        case RegisterFailed(err) =>
          error := CaughtNotice(err, "registerFailed");
      }
      submitting := false;
    }
  }
}
