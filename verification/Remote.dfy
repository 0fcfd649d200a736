/** The controller's side of another node: src/executor/remote.rs. */
module Remote {
  import opened Wrappers
  import opened Controller
  import opened Executor

  /** Sends worker requests through the node's tunnel. */
  class RemoteExecutor {
    var online: bool // shared with the tunnel's health check

    constructor (online: bool)
      ensures this.online == online
    {
      this.online := online;
    }

    /** No usable reply: the node counts as offline from here on. */
    method Lost() returns (error: ExecutorError)
      modifies this
      ensures !online && error == NodeUnreachable
    {
      online := false;
      return NodeUnreachable;
    }

    /** Opens a stream to the node, without which no request goes out. */
    method Connect(connects: bool) returns (r: Result<(), ExecutorError>)
      modifies this
      ensures r == if old(online) && connects then Success(()) else Failure(NodeUnreachable)
      ensures online == (old(online) && connects)
    {
      if !online {
        return Failure(NodeUnreachable);
      }
      if !connects {
        var error := Lost();
        return Failure(error);
      }
      return Success(());
    }

    /** Send one request; `answer` is None when the stream breaks or the reply is late. An error reply is an error. */
    method Exchange(answer: Option<Response>) returns (r: Result<Response, ExecutorError>)
      modifies this
      ensures r == match answer
                   case None => Failure(NodeUnreachable)
                   case Some(ErrorReply) => Failure(ExecutorError.Remote)
                   case Some(reply) => Success(reply)
      ensures online == (old(online) && answer.Some?)
    {
      match answer
      case Some(ErrorReply) => return Failure(ExecutorError.Remote);
      case Some(reply) => return Success(reply);
      case None =>
        var error := Lost();
        return Failure(error);
    }

    /** Unreachable exactly when the request was not sent; a lost reply is no error. */
    method Launch(connects: bool, answer: Option<Response>) returns (r: Result<(), ExecutorError>, ghost sent: bool)
      modifies this
      ensures sent == (old(online) && connects)
      ensures r == if sent then LaunchOutcome(answer) else Failure(NodeUnreachable)
      ensures sent ==> r == match answer
                            case None => Success(())
                            case Some(LaunchedReply) => Success(())
                            case Some(RejectedReply) => Failure(Rejected)
                            case Some(_) => Failure(ExecutorError.Remote)
      ensures r == Failure(NodeUnreachable) <==> !sent
      ensures online == (sent && answer.Some?)
    {
      sent := false;
      var stream := Connect(connects);
      if stream.Failure? {
        return Failure(stream.error), sent;
      }
      sent := true;
      var reply := Exchange(answer);
      match reply
      case Success(LaunchedReply) => return Success(()), sent;
      case Success(RejectedReply) => return Failure(Rejected), sent;
      case Success(_) => return Failure(ExecutorError.Remote), sent;
      case Failure(NodeUnreachable) => return Success(()), sent;
      case Failure(error) => return Failure(error), sent;
    }

    /** Unreachable whenever no reply came, sent or not. */
    method Poll(connects: bool, answer: Option<Response>) returns (r: Result<Option<int>, ExecutorError>)
      modifies this
      ensures r == if old(online) && connects then PollOutcome(answer) else Failure(NodeUnreachable)
      ensures old(online) && connects ==> r == match answer
                                               case None => Failure(NodeUnreachable)
                                               case Some(PolledReply(exitCode)) => Success(exitCode)
                                               case Some(_) => Failure(ExecutorError.Remote)
      ensures online == (old(online) && connects && answer.Some?)
    {
      var stream := Connect(connects);
      if stream.Failure? {
        return Failure(stream.error);
      }
      var reply := Exchange(answer);
      match reply
      case Success(PolledReply(exitCode)) => return Success(exitCode);
      case Success(_) => return Failure(ExecutorError.Remote);
      case Failure(error) => return Failure(error);
    }
  }
}
