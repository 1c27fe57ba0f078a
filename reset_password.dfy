/** The new-password dialog (components/ResetPasswordModal.tsx): two pure
    checks on the typed passwords, and the submit handler split at its `await`
    into the part before the auth update and the part after its answer. The
    auth update's answer is an input; the updates asked for are recorded. */
module ResetPasswordModal {
  import opened Js

  datatype Kind = ErrorMessage | SuccessMessage

  datatype Message = Message(kind: Kind, text: string)

  const TOO_SHORT: string := "La contraseña debe tener al menos 6 caracteres."
  const MISMATCH: string := "Las contraseñas no coinciden."
  const UPDATE_FAILED: string := "No pudimos actualizar tu contraseña. Intenta de nuevo."
  const UPDATE_THREW: string := "Ocurrió un error. Intenta de nuevo."
  const UPDATED: string := "¡Contraseña actualizada con éxito!"

  const MIN_LENGTH: int := 6

  /** The length check: at least six UTF-16 code units (`password.length`). */
  predicate LongEnough(password: string)
  {
    Length(password) >= MIN_LENGTH
  }

  /** The match check: the confirmation is the same text. */
  predicate Matches(password: string, confirm: string)
  {
    password == confirm
  }

  /** The two checks in the handler's order: the first that fails gives the
      error shown, so a short password is reported as short even when the
      confirmation differs. */
  function ValidationError(password: string, confirm: string): (err: Option<string>)
    ensures err.None? <==> LongEnough(password) && Matches(password, confirm)
    ensures !LongEnough(password) ==> err == Some(TOO_SHORT)
    ensures LongEnough(password) && !Matches(password, confirm) ==> err == Some(MISMATCH)
  {
    if !LongEnough(password) then Some(TOO_SHORT)
    else if !Matches(password, confirm) then Some(MISMATCH)
    else None
  }

  /** A short pair that also differs reports the length error. */
  lemma LengthCheckedFirst()
    ensures ValidationError("abc", "abd") == Some(TOO_SHORT)
    ensures ValidationError("abcdef", "abcdeg") == Some(MISMATCH)
    ensures ValidationError("abcdef", "abcdef").None?
  {
  }

  /** Three emoji are six code units, so they pass the length check. */
  lemma AstralPasswordLongEnough()
    ensures ValidationError("😀😀😀", "😀😀😀").None?
  {
    var e: string := "😀";
    assert Astral(e[0]) && e[..0] == [];
    assert Length(e) == 2;
    assert (e + e)[..1] == e && Length(e + e) == 4;
    assert (e + e + e)[..2] == e + e && Length(e + e + e) == 6;
    assert "😀😀😀" == e + e + e;
  }

  /** The answer of `supabase.auth.updateUser`. */
  datatype UpdateOutcome = Updated | UpdateError | UpdateThrew

  class ResetForm {
    var password: string
    var confirmPassword: string
    var isSubmitting: bool
    var message: Option<Message>
    /** The passwords sent to the auth service, in order. */
    var updates: seq<string>
    /** The 1.5-second timer before `onSuccess()` is pending. */
    var successTimer: bool
    var successCalls: nat

    constructor()
      ensures password == "" && confirmPassword == "" && !isSubmitting && message.None?
      ensures updates == [] && !successTimer && successCalls == 0
    {
      password := "";
      confirmPassword := "";
      isSubmitting := false;
      message := None;
      updates := [];
      successTimer := false;
      successCalls := 0;
    }

    /** Typing into the two fields. */
    method Type(p: string, c: string)
      modifies this
      ensures password == p && confirmPassword == c
      ensures isSubmitting == old(isSubmitting) && message == old(message) && updates == old(updates)
      ensures successTimer == old(successTimer) && successCalls == old(successCalls)
    {
      password := p;
      confirmPassword := c;
    }

    /** `handleSubmit` up to the update: a failed check shows its error and
        sends nothing; otherwise the form is submitting and exactly one update
        with the typed password is sent. */
    method BeginSubmit() returns (sent: bool)
      modifies this
      ensures sent <==> ValidationError(old(password), old(confirmPassword)).None?
      ensures !sent ==> message == Some(Message(ErrorMessage, ValidationError(old(password), old(confirmPassword)).value))
                        && updates == old(updates) && isSubmitting == old(isSubmitting)
      ensures sent ==> message.None? && isSubmitting && updates == old(updates) + [old(password)]
      ensures password == old(password) && confirmPassword == old(confirmPassword)
      ensures successTimer == old(successTimer) && successCalls == old(successCalls)
    {
      message := None;
      var err := ValidationError(password, confirmPassword);
      if err.Some? {
        message := Some(Message(ErrorMessage, err.value));
        return false;
      }
      isSubmitting := true;
      updates := updates + [password];
      return true;
    }

    /** `handleSubmit` after the answer: on success both fields are cleared,
        the success message shows and the timer starts; on failure the error
        shows and the fields stay; either way submitting ends. */
    method FinishSubmit(outcome: UpdateOutcome)
      modifies this
      ensures !isSubmitting
      ensures outcome == Updated ==> password == "" && confirmPassword == ""
                                     && message == Some(Message(SuccessMessage, UPDATED)) && successTimer
      ensures outcome == UpdateError ==> message == Some(Message(ErrorMessage, UPDATE_FAILED))
      ensures outcome == UpdateThrew ==> message == Some(Message(ErrorMessage, UPDATE_THREW))
      ensures outcome != Updated ==> password == old(password) && confirmPassword == old(confirmPassword)
                                     && successTimer == old(successTimer)
      ensures updates == old(updates) && successCalls == old(successCalls)
    {
      match outcome {
        case Updated =>
          message := Some(Message(SuccessMessage, UPDATED));
          password := "";
          confirmPassword := "";
          successTimer := true;
        case UpdateError =>
          message := Some(Message(ErrorMessage, UPDATE_FAILED));
        case UpdateThrew =>
          message := Some(Message(ErrorMessage, UPDATE_THREW));
      }
      isSubmitting := false;
    }

    /** The timer firing: the message goes away and `onSuccess()` is called. */
    method SuccessTimerFires()
      modifies this
      ensures old(successTimer) ==> message.None? && successCalls == old(successCalls) + 1
      ensures !old(successTimer) ==> message == old(message) && successCalls == old(successCalls)
      ensures !successTimer
      ensures password == old(password) && confirmPassword == old(confirmPassword)
      ensures isSubmitting == old(isSubmitting) && updates == old(updates)
    {
      if successTimer {
        successTimer := false;
        message := None;
        successCalls := successCalls + 1;
      }
    }
  }

  /** One submission from a fresh form, as a whole: the update is sent
      exactly when both checks pass, and submitting is over at the end
      whatever the answer. */
  method SubmitOnce(p: string, c: string, outcome: UpdateOutcome)
    returns (updates: seq<string>, submitting: bool, message: Option<Message>, password: string)
    ensures updates == (if ValidationError(p, c).None? then [p] else [])
    ensures !submitting
    ensures ValidationError(p, c).Some? ==> message == Some(Message(ErrorMessage, ValidationError(p, c).value))
    ensures password == (if ValidationError(p, c).None? && outcome == Updated then "" else p)
  {
    var f := new ResetForm();
    f.Type(p, c);
    var sent := f.BeginSubmit();
    if sent {
      f.FinishSubmit(outcome);
    }
    updates, submitting, message, password := f.updates, f.isSubmitting, f.message, f.password;
  }
}
