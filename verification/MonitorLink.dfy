/** The outbound half of a serial monitor: a bounded command channel drained by an unfolded request stream
    (src/service/arduino/grpc/monitor.rs, `outbound_stream`). */
module MonitorLink {
  import opened Protocol

  /** Commands that may wait in the channel. */
  const COMMAND_CAPACITY: nat := 32

  datatype Command = Write(data: string) | Close

  datatype Outbound = OpenRequest | TxData(data: string) | CloseRequest

  /** The channel holds the accepted commands that have not been pulled. `opening`: the open request is still to be
      yielded. `done`: a close has been yielded. `attached`: the stream, and with it the receiver, still exists.
      `sender`: the session still holds its end of the channel. */
  datatype Link = Link(opening: bool, accepted: seq<Command>, pulled: nat, done: bool, attached: bool, sender: bool,
                       out: seq<Outbound>)

  function Opened(): Link {
    Link(true, [], 0, false, true, true, [])
  }

  function AsMessage(c: Command): Outbound {
    match c
    case Write(data) => TxData(data)
    case Close => CloseRequest
  }

  function Messages(cmds: seq<Command>): (out: seq<Outbound>)
    ensures |out| == |cmds| && forall i :: 0 <= i < |out| ==> out[i] == AsMessage(cmds[i])
  {
    seq(|cmds|, i requires 0 <= i < |cmds| => AsMessage(cmds[i]))
  }

  /** A send that completes now: it is accepted if there is room, and lost if the receiver is gone. */
  predicate CanSend(l: Link) {
    l.sender && (!l.attached || |l.accepted| < l.pulled + COMMAND_CAPACITY)
  }

  function Send(l: Link, c: Command): Link
    requires CanSend(l)
  {
    if l.attached then l.(accepted := l.accepted + [c]) else l
  }

  /** A pull that completes now. */
  predicate CanPull(l: Link) {
    l.attached && (l.done || l.opening || l.pulled < |l.accepted| || !l.sender)
  }

  function Pull(l: Link): Link
    requires CanPull(l)
  {
    if l.done then l.(attached := false)
    else if l.opening then l.(opening := false, out := l.out + [OpenRequest])
    else if l.pulled >= |l.accepted| then l.(attached := false)
    else
      l.(pulled := l.pulled + 1, out := l.out + [AsMessage(l.accepted[l.pulled])], done := l.accepted[l.pulled].Close?)
  }

  /** Thirty-two commands may wait for a living stream; a stream that has gone takes, and loses, any number. */
  lemma LinksTakeABurst(l: Link)
    requires l.sender
    ensures |l.accepted| < l.pulled + 32 || !l.attached ==> CanSend(l)
    ensures l.attached && |l.accepted| >= l.pulled + 32 ==> !CanSend(l) && CanPull(l)
  {
  }

  /** Up to and including the first close. */
  function UpToClose(cmds: seq<Command>): seq<Command> {
    if cmds == [] then [] else if cmds[0].Close? then [cmds[0]] else [cmds[0]] + UpToClose(cmds[1..])
  }

  /** The stream's account, whatever the two ends have done so far. */
  ghost predicate Ok(l: Link) {
    && l.pulled <= |l.accepted| <= l.pulled + COMMAND_CAPACITY
    && (l.opening ==> l.out == [] && l.pulled == 0)
    && (!l.opening ==> l.out == [OpenRequest] + Messages(l.accepted[..l.pulled]))
    && (forall i :: 0 <= i < l.pulled - 1 ==> l.accepted[i].Write?)
    && (l.done <==> l.pulled > 0 && l.accepted[l.pulled - 1].Close?)
  }

  lemma SendIsOk(l: Link, c: Command)
    requires Ok(l) && CanSend(l)
    ensures Ok(Send(l, c))
  {
    assert (l.accepted + [c])[..l.pulled] == l.accepted[..l.pulled];
  }

  lemma PullIsOk(l: Link)
    requires Ok(l) && CanPull(l)
    ensures Ok(Pull(l))
  {
    if !l.done && !l.opening && l.pulled < |l.accepted| {
      assert Messages(l.accepted[..l.pulled + 1]) == Messages(l.accepted[..l.pulled]) + [AsMessage(l.accepted[l.pulled])];
    }
  }

  lemma {:induction false} UpToCloseOf(cmds: seq<Command>, n: nat)
    requires n <= |cmds| && forall i :: 0 <= i < n - 1 ==> cmds[i].Write?
    ensures cmds[..n] <= UpToClose(cmds)
    ensures n > 0 && cmds[n - 1].Close? ==> cmds[..n] == UpToClose(cmds)
  {
    if n > 0 && cmds[0].Write? {
      assert cmds[1..][..n - 1] == cmds[1..n];
      UpToCloseOf(cmds[1..], n - 1);
      assert cmds[..n] == [cmds[0]] + cmds[1..n];
    }
  }

  /** What the daemon has been sent is always a beginning of: the open request, the accepted commands in order, at
      most one close, and nothing after it. Once the close is out, that is all of it. */
  lemma OutboundProtocol(l: Link)
    requires Ok(l)
    ensures l.out <= [OpenRequest] + Messages(UpToClose(l.accepted))
    ensures l.done ==> l.out == [OpenRequest] + Messages(UpToClose(l.accepted))
    ensures forall i :: 0 <= i < |l.out| - 1 ==> !l.out[i].CloseRequest?
  {
    UpToCloseOf(l.accepted, l.pulled);
    assert Messages(l.accepted[..l.pulled]) <= Messages(UpToClose(l.accepted));
  }

  // ---- what was sent, in plain words ----------------------------------------------------------------------

  /** The data of a sequence of commands. */
  function Data(commands: seq<Command>): seq<string> {
    if commands == [] then []
    else Data(Front(commands)) + (if Last(commands).Write? then [Last(commands).data] else [])
  }

  lemma DataSnoc(commands: seq<Command>, c: Command)
    ensures Data(commands + [c]) == Data(commands) + (if c.Write? then [c.data] else [])
  {
    assert Front(commands + [c]) == commands;
  }

  /** The data of the messages sent. */
  function SentData(out: seq<Outbound>): seq<string> {
    if out == [] then [] else SentData(Front(out)) + (if Last(out).TxData? then [Last(out).data] else [])
  }

  /** First the open request and no other, a close request at most once and then last. */
  ghost predicate IsWellFramed(out: seq<Outbound>) {
    && (out != [] ==> out[0].OpenRequest?)
    && (forall i :: 0 < i < |out| ==> !out[i].OpenRequest?)
    && forall i :: 0 <= i < |out| - 1 ==> !out[i].CloseRequest?
  }

  /** What was sent says just what was pulled: the data of each write in order, and a close exactly if one was pulled. */
  ghost predicate SendsWhatWasPulled(l: Link) {
    && l.pulled <= |l.accepted| && IsWellFramed(l.out) && SentData(l.out) == Data(l.accepted[..l.pulled])
    && ((exists i :: 0 <= i < |l.out| && l.out[i].CloseRequest?) <==> exists i :: 0 <= i < l.pulled && l.accepted[i].Close?)
    && (l.opening <==> l.out == [])
  }

  lemma SentDataSnoc(out: seq<Outbound>, m: Outbound)
    ensures SentData(out + [m]) == SentData(out) + (if m.TxData? then [m.data] else [])
  {
    assert Front(out + [m]) == out;
  }

  lemma {:induction false} SentDataOf(commands: seq<Command>)
    ensures SentData([OpenRequest] + Messages(commands)) == Data(commands)
  {
    if commands == [] {
      assert [OpenRequest] + Messages(commands) == [] + [OpenRequest];
      SentDataSnoc([], OpenRequest);
    } else {
      SentDataOf(Front(commands));
      SentDataSnoc([OpenRequest] + Messages(Front(commands)), AsMessage(Last(commands)));
      assert [OpenRequest] + Messages(commands) == [OpenRequest] + Messages(Front(commands)) + [AsMessage(Last(commands))];
    }
  }

  lemma LinkSendsWhatWasPulled(l: Link)
    requires Ok(l)
    ensures SendsWhatWasPulled(l)
  {
    if l.opening {
      assert l.accepted[..l.pulled] == [];
    } else {
      var pulled := l.accepted[..l.pulled];
      SentDataOf(pulled);
      assert forall i :: 0 <= i < l.pulled ==> l.out[i + 1] == AsMessage(l.accepted[i]);
      if i :| 0 <= i < |l.out| && l.out[i].CloseRequest? { assert l.accepted[i - 1].Close?; }
      if i :| 0 <= i < l.pulled && l.accepted[i].Close? { assert l.out[i + 1].CloseRequest?; }
      OutboundProtocol(l);
    }
  }

  /** Taking the first commands takes the first data. */
  lemma {:induction false} DataOfPrefix(commands: seq<Command>, n: nat)
    requires n <= |commands|
    ensures Data(commands[..n]) <= Data(commands)
    decreases |commands|
  {
    if n == |commands| {
      assert commands[..n] == commands;
    } else {
      DataOfPrefix(Front(commands), n);
      assert Front(commands)[..n] == commands[..n];
    }
  }

  /** One stream pull or session command, in any order. */
  datatype Op = DoSend(c: Command) | DoPull | DropSender | DropStream

  predicate CanDo(l: Link, op: Op) {
    match op
    case DoSend(_) => CanSend(l)
    case DoPull => CanPull(l)
    case DropSender => true
    case DropStream => true
  }

  function Do(l: Link, op: Op): Link
    requires CanDo(l, op)
  {
    match op
    case DoSend(c) => Send(l, c)
    case DoPull => Pull(l)
    case DropSender => l.(sender := false)
    case DropStream => l.(attached := false)
  }

  predicate CanDoAll(l: Link, ops: seq<Op>)
    decreases |ops|, 0
  {
    ops == [] || (CanDoAll(l, Front(ops)) && CanDo(DoAll(l, Front(ops)), Last(ops)))
  }

  function DoAll(l: Link, ops: seq<Op>): Link
    requires CanDoAll(l, ops)
    decreases |ops|, 1
  {
    if ops == [] then l else Do(DoAll(l, Front(ops)), Last(ops))
  }

  /** The outbound protocol holds over every interleaving of commands, pulls and disconnections. */
  lemma {:induction false} EveryInterleavingIsOk(ops: seq<Op>)
    requires CanDoAll(Opened(), ops)
    ensures Ok(DoAll(Opened(), ops)) && SendsWhatWasPulled(DoAll(Opened(), ops))
  {
    if ops != [] {
      EveryInterleavingIsOk(Front(ops));
      var l := DoAll(Opened(), Front(ops));
      match Last(ops) {
        case DoSend(c) => SendIsOk(l, c);
        case DoPull => PullIsOk(l);
        case DropSender =>
        case DropStream =>
      }
    }
    LinkSendsWhatWasPulled(DoAll(Opened(), ops));
  }
}
