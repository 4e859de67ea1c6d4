/**
 * The cancel-appointment dialog of
 * src/app/modals/cancel-cita/cancel-cita.component.ts: a four-state machine
 * that reports the user's answer to the page that opened it.
 */
module CancelCita {
  import Wrappers

  datatype ModalState = Idle | Loading | Success | Error

  /** The message shown when the page gives none, spelled as the component spells it. */
  const DefaultErrorMessage := "Ocurri\U{221A}\U{2265} un error"

  class CancelCitaComponent {
    var state: ModalState
    var errorMessage: Wrappers.Option<string>
    /** Every value sent on the `confirmed` output, oldest first. */
    var emitted: seq<bool>

    /** In the error state there is always a message to show. */
    ghost predicate Valid()
      reads this
    {
      state == Error ==> errorMessage.Some?
    }

    constructor()
      ensures state == Idle && errorMessage.None? && emitted == []
      ensures Valid()
    {
      state, errorMessage, emitted := Idle, Wrappers.None, [];
    }

    /** `onConfirm`: waiting for the page, which is told the user confirmed. */
    method OnConfirm()
      requires Valid()
      modifies this`state, this`emitted
      ensures Valid()
      ensures state == Loading && emitted == old(emitted) + [true]
    {
      state := Loading;
      emitted := emitted + [true];
    }

    /** `onClose`: back to idle from any state, the message cleared, the page told the user declined. */
    method OnClose()
      modifies this`state, this`errorMessage, this`emitted
      ensures Valid()
      ensures state == Idle && errorMessage.None? && emitted == old(emitted) + [false]
    {
      state := Idle;
      errorMessage := Wrappers.None;
      emitted := emitted + [false];
    }

    /** `showSuccess`: the cancellation went through; the message is left as it was. */
    method ShowSuccess()
      requires Valid()
      modifies this`state
      ensures Valid()
      ensures state == Success
    {
      state := Success;
    }

    /** `showError`: the given message, or the default one when it is missing or empty. */
    method ShowError(message: Wrappers.Option<string>)
      modifies this`state, this`errorMessage
      ensures Valid()
      ensures state == Error
      ensures message.Some? && message.value != "" ==> errorMessage == message
      ensures message.None? || message == Wrappers.Some("") ==> errorMessage == Wrappers.Some(DefaultErrorMessage)
    {
      state := Error;
      errorMessage := if message.Some? && message.value != "" then message else Wrappers.Some(DefaultErrorMessage);
    }
  }
}
