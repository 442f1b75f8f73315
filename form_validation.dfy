/** The contact form's field validation, identical in the full and the
    optimised site scripts: the value is trimmed, then checked by the rule
    for the field's type (an e-mail shape, a phone shape, or a minimum
    length), and a required field left empty is always rejected. The two
    patterns are stated as string predicates, each proved equal to a
    description in the pattern's own terms. */
module FormValidation {
  import opened Strings

  const EmailMessage := "Por favor, introduce un email válido"
  const PhoneMessage := "Por favor, introduce un teléfono válido"
  const RequiredMessage := "Este campo es requerido"

  datatype Validation = Validation(valid: bool, message: string)

  // ---------------------------------------------------------------------
  // The e-mail pattern ^[^\s@]+@[^\s@]+\.[^\s@]+$

  /** A character of the class `[^\s@]`. */
  predicate EmailChar(c: char)
  {
    !IsSpace(c) && c != '@'
  }

  /** One or more characters of `[^\s@]`. */
  predicate EmailRun(s: string)
  {
    |s| > 0 && forall k :: 0 <= k < |s| ==> EmailChar(s[k])
  }

  /** The pattern read literally: a run, `@`, a run, `.`, a run. */
  ghost predicate MatchesEmailPattern(s: string)
  {
    exists a: string, b: string, c: string ::
      s == a + "@" + b + "." + c && EmailRun(a) && EmailRun(b) && EmailRun(c)
  }

  /** The same test by positions: no blanks, exactly one `@` that is not first,
      and a dot with at least one character on each side after it. */
  predicate IsEmail(s: string)
  {
    NoSpace(s) &&
    exists i :: 0 < i < |s| && s[i] == '@' &&
      (forall k :: 0 <= k < |s| && k != i ==> s[k] != '@') &&
      (exists j :: i + 1 < j < |s| - 1 && s[j] == '.')
  }

  lemma EmailPatternSufficient(s: string, a: string, b: string, c: string)
    requires s == a + "@" + b + "." + c && EmailRun(a) && EmailRun(b) && EmailRun(c)
    ensures IsEmail(s)
  {
    var i := |a|;
    var j := |a| + 1 + |b|;
    assert s[i] == '@';
    assert s[j] == '.';
    forall k | 0 <= k < |s| ensures !IsSpace(s[k]) && (k != i ==> s[k] != '@') {
      if k < i {
        assert s[k] == a[k];
      } else if i < k < j {
        assert s[k] == b[k - i - 1];
      } else if k > j {
        assert s[k] == c[k - j - 1];
      }
    }
  }

  lemma EmailPatternNecessary(s: string)
    requires IsEmail(s)
    ensures MatchesEmailPattern(s)
  {
    var i :| 0 < i < |s| && s[i] == '@' &&
      (forall k :: 0 <= k < |s| && k != i ==> s[k] != '@') &&
      (exists j :: i + 1 < j < |s| - 1 && s[j] == '.');
    var j :| i + 1 < j < |s| - 1 && s[j] == '.';
    var a, b, c := s[..i], s[i + 1..j], s[j + 1..];
    assert s == a + "@" + b + "." + c;
    assert EmailRun(a) by {
      forall k | 0 <= k < |a| ensures EmailChar(a[k]) { assert a[k] == s[k]; }
    }
    assert EmailRun(b) by {
      forall k | 0 <= k < |b| ensures EmailChar(b[k]) { assert b[k] == s[i + 1 + k]; }
    }
    assert EmailRun(c) by {
      forall k | 0 <= k < |c| ensures EmailChar(c[k]) { assert c[k] == s[j + 1 + k]; }
    }
  }

  /** The positional test accepts exactly the strings the pattern matches. */
  lemma IsEmailIffPattern(s: string)
    ensures IsEmail(s) <==> MatchesEmailPattern(s)
  {
    if IsEmail(s) {
      EmailPatternNecessary(s);
    }
    if MatchesEmailPattern(s) {
      var a: string, b: string, c: string :|
        s == a + "@" + b + "." + c && EmailRun(a) && EmailRun(b) && EmailRun(c);
      EmailPatternSufficient(s, a, b, c);
    }
  }

  // ---------------------------------------------------------------------
  // The phone pattern ^[\+]?[0-9\s\-\(\)]{9,}$

  /** A character of the class `[0-9\s\-\(\)]`. */
  predicate PhoneChar(c: char)
  {
    ('0' <= c <= '9') || IsSpace(c) || c == '-' || c == '(' || c == ')'
  }

  /** The pattern read literally: an optional `+`, then nine or more phone characters. */
  ghost predicate MatchesPhonePattern(s: string)
  {
    exists p: string, body: string ::
      s == p + body && (p == [] || p == "+") && |body| >= 9 &&
      forall k :: 0 <= k < |body| ==> PhoneChar(body[k])
  }

  /** What follows a leading `+`, or the whole string. */
  function PhoneDigits(s: string): (r: string)
    ensures r == s || (s != [] && s[0] == '+' && r == s[1..])
  {
    if |s| > 0 && s[0] == '+' then s[1..] else s
  }

  predicate IsPhone(s: string)
  {
    var body := PhoneDigits(s);
    |body| >= 9 && forall k :: 0 <= k < |body| ==> PhoneChar(body[k])
  }

  /** The direct test accepts exactly the strings the pattern matches: a leading `+` can
      only be the optional sign, since it is not a phone character. */
  lemma IsPhoneIffPattern(s: string)
    ensures IsPhone(s) <==> MatchesPhonePattern(s)
  {
    if IsPhone(s) {
      var body := PhoneDigits(s);
      var p := if |s| > 0 && s[0] == '+' then "+" else [];
      assert s == p + body;
    }
    if MatchesPhonePattern(s) {
      var p: string, body: string :|
        s == p + body && (p == [] || p == "+") && |body| >= 9 &&
        forall k :: 0 <= k < |body| ==> PhoneChar(body[k]);
      if p == [] {
        assert body == s;
        assert s[0] == body[0] && PhoneChar(body[0]);
      } else {
        assert s[1..] == body;
      }
    }
  }

  // ---------------------------------------------------------------------
  // validateField

  /** The verdict on a field of the given type whose raw value is `raw`. */
  function ValidateField(fieldType: string, raw: string, required: bool): (v: Validation)
    ensures required && Trim(raw) == [] ==> v == Validation(false, RequiredMessage)
    ensures !(required && Trim(raw) == []) ==>
      v.valid == (if fieldType == "email" then IsEmail(Trim(raw))
                  else if fieldType == "tel" then IsPhone(Trim(raw))
                  else |Trim(raw)| >= 2)
  {
    var value := Trim(raw);
    var byType :=
      if fieldType == "email" then Validation(IsEmail(value), EmailMessage)
      else if fieldType == "tel" then Validation(IsPhone(value), PhoneMessage)
      else Validation(|value| >= 2, RequiredMessage);
    if required && value == [] then Validation(false, RequiredMessage) else byType
  }

  /** Whatever its type, a field accepted by validation holds something besides blanks. */
  lemma ValidFieldIsNotBlank(fieldType: string, raw: string, required: bool)
    requires ValidateField(fieldType, raw, required).valid
    ensures Trim(raw) != []
    ensures exists i :: 0 <= i < |raw| && !IsSpace(raw[i])
  {
    TrimEmptyIffBlank(raw);
  }

  /** Blanks around the value never change the verdict. */
  lemma SurroundingBlanksIgnored(fieldType: string, raw: string, required: bool)
    ensures ValidateField(fieldType, " " + raw + " ", required) == ValidateField(fieldType, raw, required)
  {
    TrimSurroundingBlanks(raw);
  }

  lemma TrimSurroundingBlanks(raw: string)
    ensures Trim(" " + raw + " ") == Trim(raw)
  {
    assert (" " + raw + " ")[1..] == raw + " ";
    assert TrimStart(" " + raw + " ") == TrimStart(raw + " ");
    TrimStartAppendBlank(raw);
  }

  lemma {:induction false} TrimStartAppendBlank(s: string)
    ensures TrimEnd(TrimStart(s + " ")) == TrimEnd(TrimStart(s))
    decreases |s|
  {
    if s == [] {
      assert TrimStart(" ") == TrimStart(" "[1..]);
    } else if IsSpace(s[0]) {
      assert (s + " ")[1..] == s[1..] + " ";
      TrimStartAppendBlank(s[1..]);
    } else {
      var t := s + " ";
      assert TrimStart(t) == t;
      assert TrimStart(s) == s;
      assert t[..|t| - 1] == s;
    }
  }

  /** An error message is produced exactly when the field is rejected, and a rejected
      required field that is empty names the requirement. */
  lemma RejectedFieldMessages(fieldType: string, raw: string, required: bool)
    ensures var v := ValidateField(fieldType, raw, required);
      !v.valid && fieldType == "email" && Trim(raw) != [] ==> v.message == EmailMessage
    ensures var v := ValidateField(fieldType, raw, required);
      !v.valid && fieldType == "tel" && Trim(raw) != [] ==> v.message == PhoneMessage
    ensures var v := ValidateField(fieldType, raw, required);
      fieldType != "email" && fieldType != "tel" ==> v.message == RequiredMessage
  {
  }

  // ---------------------------------------------------------------------
  // The field on the page

  /** An input element with the error elements that follow it in its parent.
      `marksAria` tells the optimised site, which also maintains `aria-invalid`,
      from the full site, which does not. */
  class Field {
    const fieldType: string
    const required: bool
    const marksAria: bool
    var value: string
    var errors: seq<string>
    var borderColor: string
    var ariaInvalid: Option<string>

    constructor (fieldType: string, required: bool, marksAria: bool, value: string)
      ensures this.fieldType == fieldType && this.required == required && this.marksAria == marksAria
      ensures this.value == value && errors == [] && borderColor == [] && ariaInvalid.None?
    {
      this.fieldType := fieldType;
      this.required := required;
      this.marksAria := marksAria;
      this.value := value;
      errors := [];
      borderColor := [];
      ariaInvalid := None;
    }

    /** `showFieldValidation`: drop the first existing error, then add one when invalid. */
    method ShowFieldValidation(isValid: bool, message: string)
      modifies this
      ensures errors == (if old(errors) == [] then [] else old(errors)[1..]) + (if isValid then [] else [message])
      ensures borderColor == (if isValid then "#4ecdc4" else "#ff6b6b")
      ensures ariaInvalid == (if marksAria then Some(if isValid then "false" else "true") else old(ariaInvalid))
      ensures value == old(value)
    {
      if errors != [] {
        errors := errors[1..];
      }
      if !isValid {
        borderColor := "#ff6b6b";
        if marksAria {
          ariaInvalid := Some("true");
        }
        errors := errors + [message];
      } else {
        borderColor := "#4ecdc4";
        if marksAria {
          ariaInvalid := Some("false");
        }
      }
    }

    /** `validateField`: judge the current value and show the verdict. */
    method Validate() returns (isValid: bool)
      modifies this
      ensures isValid == ValidateField(fieldType, value, required).valid
      ensures |old(errors)| <= 1 ==>
        errors == (if isValid then [] else [ValidateField(fieldType, value, required).message])
      ensures marksAria ==> ariaInvalid == Some(if isValid then "false" else "true")
      ensures !marksAria ==> ariaInvalid == old(ariaInvalid)
      ensures errors == (if old(errors) == [] then [] else old(errors)[1..]) +
        (if isValid then [] else [ValidateField(fieldType, value, required).message])
      ensures borderColor == (if isValid then "#4ecdc4" else "#ff6b6b")
      ensures value == old(value)
    {
      var v := ValidateField(fieldType, value, required);
      ShowFieldValidation(v.valid, v.message);
      isValid := v.valid;
    }

    /** `clearErrors`: on input, the first error goes and the marks are cleared. */
    method ClearErrors()
      modifies this
      ensures errors == if old(errors) == [] then [] else old(errors)[1..]
      ensures borderColor == []
      ensures ariaInvalid == if marksAria then None else old(ariaInvalid)
      ensures value == old(value)
    {
      if errors != [] {
        errors := errors[1..];
      }
      borderColor := [];
      if marksAria {
        ariaInvalid := None;
      }
    }
  }
}
