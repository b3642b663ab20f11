/** Error values of the deployment commands, after the github.com/pkg/errors
    package the source uses: a leaf error, or a message wrapped around a cause. */
module Errors {

  datatype Option<+T> = None | Some(value: T)

  /** A value, or the error that prevented it (a Go `(T, error)` pair). */
  datatype Result<+T> = Ok(value: T) | Err(error: Error)

  /** The text the model gives the remote-command sentinel; util is not part of this model. */
  const RemoteCmdFailedText := "remote command failed"

  datatype Error =
    /** errors.New(msg) */
    | Fundamental(msg: string)
    /** errors.Wrap(cause, msg) and errors.Wrapf(cause, format, ...) */
    | Wrapped(msg: string, cause: Error)
    /** the sentinel util.ErrRemoteCmdFailed: the command ran in the pod and exited non-zero */
    | RemoteCmdFailed
    /** an error produced by a collaborator: the cluster client, the file system, flag parsing */
    | External(text: string)
    /** util.WrapWithStderrViewPrompt(err, stderr) */
    | StderrPrompt(err: Error, stderr: string)
  {
    /** errors.Cause: unwraps every message layer down to the root error. */
    function Cause(): (r: Error)
      ensures !r.Wrapped?
      ensures !Wrapped? ==> r == this
      ensures Wrapped? ==> r == cause.Cause()
    {
      match this
      case Wrapped(_, c) => c.Cause()
      case _ => this
    }

    /** err.Error(): a wrapped error reads "msg: " followed by its cause's text, so the
        text opens with the outermost message and ends with the root cause's text. */
    function Message(): (r: string)
      ensures Wrapped? ==> |msg| + 2 <= |r| && r[..|msg|] == msg && r[|msg|..|msg| + 2] == ": "
    {
      match this
      case Fundamental(m) => m
      case Wrapped(m, c) => m + ": " + c.Message()
      case RemoteCmdFailed => RemoteCmdFailedText
      case External(t) => t
      case StderrPrompt(e, _) => e.Message()
    }

    /** `errors.Cause(err) == util.ErrRemoteCmdFailed`: the command itself failed, as
        opposed to the channel to the pod. */
    predicate IsRemoteCmdFailure()
    {
      Cause() == RemoteCmdFailed
    }
  }

  /** Wrapping never changes whether an error is a remote-command failure, however deep
      the sentinel sits. */
  lemma {:induction false} WrapKeepsClassification(msgs: seq<string>, e: Error)
    ensures Wraps(msgs, e).IsRemoteCmdFailure() <==> e.IsRemoteCmdFailure()
    ensures Wraps(msgs, e).Cause() == e.Cause()
  {
    if msgs != [] {
      WrapKeepsClassification(msgs[1..], e);
    }
  }

  /** However deeply an error is wrapped, its text ends with its root cause's text. */
  lemma {:induction false} MessageEndsWithCause(e: Error)
    ensures var root, text := e.Cause().Message(), e.Message();
      |root| <= |text| && text[|text| - |root|..] == root
  {
    if e.Wrapped? {
      MessageEndsWithCause(e.cause);
    }
  }

  /** e wrapped once per message, the last message outermost. */
  function Wraps(msgs: seq<string>, e: Error): Error
  {
    if msgs == [] then e else Wrapped(msgs[0], Wraps(msgs[1..], e))
  }
}
