/** The password-recovery form: an e-mail address and a reason are required, then the
    backend's `success` flag decides between going back to the start screen and an error. */
module ForgotPassword {

  import opened Wrappers
  import opened Text
  import opened Http
  import opened Ui

  const EmailRequired := "El correo electrónico es obligatorio"
  const ReasonRequired := "El motivo es obligatorio"
  const RequestProblem := "Hubo un problema al enviar tu solicitud."
  const ConnectionError := "Error al conectarse con el servidor. Intenta más tarde."
  const Sent := Alert("Éxito", "Tu solicitud ha sido enviada correctamente.")

  /** The body of the recovery request. */
  datatype RecoveryRequest = RecoveryRequest(email: string, reason: string)

  /** The first blank field, in the order the handler checks them. */
  function MissingField(email: string, reason: string): Option<string> {
    if IsBlank(email) then Some(EmailRequired)
    else if IsBlank(reason) then Some(ReasonRequired)
    else None
  }

  /** How `handleForgotPassword` ends: the error it sets, or `None` when it goes back to 'Inicio'.
      The reply's body is whether `response.data.success` was truthy. */
  function RecoveryError(email: string, reason: string, reply: Reply<bool>): Option<string> {
    match MissingField(email, reason)
    case Some(m) => Some(m)
    case None =>
      match reply
      case Response(_, success) => if success then None else Some(RequestProblem)
      case Thrown(_) => Some(ConnectionError)
  }

  /** The request succeeds exactly when neither field is blank and the server reports success;
      a blank e-mail is reported first whatever the rest, a blank reason next, and any thrown
      error is a connection error. */
  lemma RecoveryErrorSpec(email: string, reason: string, reply: Reply<bool>)
    ensures RecoveryError(email, reason, reply).None? <==>
      !IsBlank(email) && !IsBlank(reason) && reply.Response? && reply.body
    ensures IsBlank(email) ==> RecoveryError(email, reason, reply) == Some(EmailRequired)
    ensures !IsBlank(email) && IsBlank(reason) ==> RecoveryError(email, reason, reply) == Some(ReasonRequired)
    ensures !IsBlank(email) && !IsBlank(reason) && reply.Thrown? ==> RecoveryError(email, reason, reply) == Some(ConnectionError)
    ensures !IsBlank(email) && !IsBlank(reason) && reply.Response? && !reply.body ==>
      RecoveryError(email, reason, reply) == Some(RequestProblem)
  {
  }

  class ForgotPasswordScreen {
    var email: string
    var reason: string
    var error: string

    constructor ()
      ensures email == "" && reason == "" && error == ""
    {
      email, reason, error := "", "", "";
    }

    method SetEmail(v: string)
      modifies this`email
      ensures email == v
    {
      email := v;
    }

    method SetReason(v: string)
      modifies this`reason
      ensures reason == v
    {
      reason := v;
    }

    /** `handleForgotPassword`: a blank field sets its error and sends nothing; otherwise the two
        fields are posted as typed; success alerts and goes back to 'Inicio', leaving any earlier
        error in place; a failure sets its message. */
    method HandleForgotPassword(reply: Reply<bool>)
      returns (sent: Option<RecoveryRequest>, alert: Option<Alert>, navigateTo: Option<string>)
      modifies this`error
      ensures sent.Some? <==> MissingField(email, reason).None?
      ensures sent.Some? ==> sent.value == RecoveryRequest(email, reason)
      ensures RecoveryError(email, reason, reply).None? ==>
        alert == Some(Sent) && navigateTo == Some("Inicio") && error == old(error)
      ensures RecoveryError(email, reason, reply).Some? ==>
        alert == None && navigateTo == None && error == RecoveryError(email, reason, reply).value
    {
      var missing := MissingField(email, reason);
      if missing.Some? {
        error := missing.value;
        return None, None, None;
      }
      sent := Some(RecoveryRequest(email, reason));
      if reply.Thrown? {
        error := ConnectionError;
        alert, navigateTo := None, None;
      } else if reply.body {
        alert, navigateTo := Some(Sent), Some("Inicio");
      } else {
        error := RequestProblem;
        alert, navigateTo := None, None;
      }
    }
  }
}
