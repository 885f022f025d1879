/**
 The synchronous and the asynchronous exchange of the DNS client. What an asynchronous call
 passes to its callback is the sequence it returns, one element per call of the callback.
 */
module ClientExchange {
  import opened Dns

  /** What a transport gives back: a message, an error that stands for a response code, or another error. */
  datatype TransportReply = Message(msg: Msg) | CodeError(rcode: int) | Broken(error: Error)

  /** How the beginning of an exchange ends: with a result, with having to wait, or ready to ask the transport. */
  datatype Begun =
    | Done(outcome: Outcome)
    | Wait(again: Begun)
    | Ready(reply: TransportReply)

  /** An exchange that may wait does not end by having to. */
  predicate Waits(begun: Begun) {
    begun.Wait?
  }

  function StatusResponse(query: Msg, rcode: int): Msg {
    Msg(query.id, rcode, query.question, [], [], [])
  }

  /** The result of an exchange, however it comes about. */
  function Result(begun: Begun, query: Msg, finish: Msg -> Outcome): Outcome {
    match begun
    case Done(outcome) => outcome
    case Wait(again) => Result(again, query, finish)
    case Ready(Message(msg)) => finish(msg)
    case Ready(CodeError(rcode)) => finish(StatusResponse(query, rcode))
    case Ready(Broken(error)) => Failed(error)
  }

  method ExchangeToTransport(reply: TransportReply, query: Msg) returns (response: Outcome)
    ensures Result(Ready(reply), query, msg => Reply(msg)) == response
    ensures reply.Message? ==> response == Reply(reply.msg)
    ensures reply.CodeError? ==> response.Reply? && response.msg.rcode == reply.rcode && response.msg.id == query.id
                                 && response.msg.question == query.question && response.msg.answer == []
    ensures reply.Broken? ==> response == Failed(reply.error)
  {
    if reply.Message? {
      return Reply(reply.msg);
    }
    if reply.CodeError? {
      return Reply(StatusResponse(query, reply.rcode));
    }
    return Failed(reply.error);
  }

  /** The transport calls back once; so does this. */
  method ExchangeToTransportAsync(reply: TransportReply, query: Msg) returns (called: seq<Outcome>)
    ensures called == [Result(Ready(reply), query, msg => Reply(msg))]
  {
    called := [];
    if reply.Message? {
      called := called + [Reply(reply.msg)];
      return;
    }
    if reply.CodeError? {
      called := called + [Reply(StatusResponse(query, reply.rcode))];
      return;
    }
    called := called + [Failed(reply.error)];
  }

  method Exchange(begun: Begun, query: Msg, finish: Msg -> Outcome) returns (outcome: Outcome)
    requires !Waits(begun)
    ensures outcome == Result(begun, query, finish)
    ensures begun.Done? ==> outcome == begun.outcome
    ensures begun.Ready? && begun.reply.Message? ==> outcome == finish(begun.reply.msg)
    ensures begun.Ready? && begun.reply.Broken? ==> outcome == Failed(begun.reply.error)
  {
    if begun.Done? {
      return begun.outcome;
    }
    var response := ExchangeToTransport(begun.reply, query);
    if response.Failed? {
      return response;
    }
    return finish(response.msg);
  }

  /** Calls back exactly once, with what the synchronous exchange returns: at once, after waiting, or when the transport is done. */
  method ExchangeAsync(begun: Begun, query: Msg, finish: Msg -> Outcome) returns (called: seq<Outcome>)
    requires Waits(begun) ==> !Waits(begun.again)
    ensures called == [Result(begun, query, finish)]
  {
    called := [];
    match begun {
      case Done(outcome) =>
        called := called + [outcome];
        return;
      case Wait(again) =>
        var outcome := Exchange(again, query, finish);
        called := called + [outcome];
        return;
      case Ready(_) =>
    }
    var responses := ExchangeToTransportAsync(begun.reply, query);
    for i := 0 to |responses|
      invariant |called| == i
      invariant i > 0 ==> called == [Result(begun, query, finish)]
    {
      if responses[i].Failed? {
        called := called + [responses[i]];
        continue;
      }
      var finished := finish(responses[i].msg);
      called := called + [finished];
    }
  }
}
