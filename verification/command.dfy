/** Running a command in the machine's container: each token is encoded, the encoded
    command is sent, and the caller waits at a one-shot gate for the channel to finish. */
module Command {
  import opened Wrappers
  import opened Resources

  /** The per-token encoder (form encoding in UTF-8, a space becoming '+'), left
      uninterpreted; a failure carries the message of the exception it raises. */
  type Encoder = string -> Result<string, string>

  /** Token `i` is the first the encoder rejects. */
  predicate FirstUnencodable(encoder: Encoder, tokens: seq<string>, i: int) {
    && 0 <= i < |tokens|
    && encoder(tokens[i]).Failure?
    && forall j :: 0 <= j < i ==> encoder(tokens[j]).Success?
  }

  /** Encodes the tokens one by one, in order; the first rejected token fails the whole
      command with the encoder's message, otherwise the result lines up with the input. */
  method Encode(encoder: Encoder, tokens: seq<string>) returns (r: Result<seq<string>, Error>)
    ensures r.Success? <==> forall i :: 0 <= i < |tokens| ==> encoder(tokens[i]).Success?
    ensures r.Success? ==> |r.value| == |tokens|
    ensures r.Success? ==> forall i :: 0 <= i < |tokens| ==> r.value[i] == encoder(tokens[i]).value
    ensures r.Failure? ==> exists i :: FirstUnencodable(encoder, tokens, i) && r.error == EncodingFailed(encoder(tokens[i]).error)
  {
    var encoded: seq<string> := [];
    var i := 0;
    while i < |tokens|
      invariant 0 <= i <= |tokens|
      invariant |encoded| == i
      invariant forall j :: 0 <= j < i ==> encoder(tokens[j]).Success? && encoded[j] == encoder(tokens[j]).value
    {
      match encoder(tokens[i])
      case Failure(message) =>
        assert FirstUnencodable(encoder, tokens, i);
        return Failure(EncodingFailed(message));
      case Success(token) =>
        encoded := encoded + [token];
      i := i + 1;
    }
    return Success(encoded);
  }

  /** How the remote execution goes once the command is encoded. */
  datatype ExecRun =
    | ClientFailed(message: string)     // the client fails to open or to close the channel
    | ChannelFailed                     // the channel reports a failure: the gate opens
    | ChannelClosed                     // the channel closes: the gate opens
    | GateTimedOut                      // the five-minute bound passes with the gate shut
    | WaitInterrupted(message: string)  // the thread waiting at the gate is interrupted

  /** Runs the command and yields it as sent. Neither the remote exit status nor the
      gate's timeout is observed: a failed channel, a closed one and an elapsed bound
      all succeed. Only an encoding failure, a client failure or an interrupted wait fail. */
  method Exec(encoder: Encoder, command: seq<string>, run: ExecRun) returns (r: Result<seq<string>, Error>)
    ensures forall i :: FirstUnencodable(encoder, command, i) ==>
              r == Failure(EncodingFailed(encoder(command[i]).error))
    ensures r.Success? <==>
              && (forall i :: 0 <= i < |command| ==> encoder(command[i]).Success?)
              && (run.ChannelFailed? || run.ChannelClosed? || run.GateTimedOut?)
    ensures r.Success? ==> |r.value| == |command| && forall i :: 0 <= i < |command| ==> r.value[i] == encoder(command[i]).value
    ensures (forall i :: 0 <= i < |command| ==> encoder(command[i]).Success?) && run.ClientFailed? ==>
              r == Failure(ClientFailure(run.message))
    ensures (forall i :: 0 <= i < |command| ==> encoder(command[i]).Success?) && run.WaitInterrupted? ==>
              r == Failure(ExecInterrupted(run.message))
  {
    var encoded := Encode(encoder, command);
    if encoded.Failure? {
      forall i | FirstUnencodable(encoder, command, i)
        ensures encoded == Failure(EncodingFailed(encoder(command[i]).error))
      {
        var k :| FirstUnencodable(encoder, command, k) && encoded.error == EncodingFailed(encoder(command[k]).error);
        assert k == i;
      }
      return encoded;
    }
    match run
    case ClientFailed(message) => r := Failure(ClientFailure(message));
    case WaitInterrupted(message) => r := Failure(ExecInterrupted(message));
    case _ => r := encoded;
  }
}
