/** The Session class: its methods work on its fields and queues step by step, and each is
    proved to do to the state what SessionModel says. The public calls and the tasks of the
    strands keep the session's invariant. */
module SessionObject {
  import opened Asio
  import opened Wire
  import Model = SessionModel
  import Invariant = SessionInvariant
  import ReadTimer

  // ----- what the calls and tasks keep

  lemma OpenKeeps(s: Model.Session)
    ensures Invariant.Inv(s) && Model.Enabled(s, Model.OpenCall) ==> Invariant.Inv(Model.Open(s))
  {
    if Invariant.Inv(s) && Model.Enabled(s, Model.OpenCall) {
      Invariant.OpenKeepsInv(s);
    }
  }

  lemma CloseKeeps(s: Model.Session)
    ensures Invariant.Inv(s) ==> Invariant.Inv(Model.Close(s))
  {
    if Invariant.Inv(s) {
      Invariant.CloseKeepsInv(s);
    }
  }

  lemma SendKeeps(s: Model.Session, f: Frame)
    ensures Invariant.Inv(s) && s.life.phase == Model.Done(true) ==> Invariant.Inv(Model.Send(s, f))
  {
    if Invariant.Inv(s) && s.life.phase == Model.Done(true) {
      Invariant.SendKeepsInv(s, f);
    }
  }

  lemma TaskKeeps(s: Model.Session)
    requires s.strand != []
    ensures Invariant.Inv(s) ==> Invariant.Inv(Model.RunTask(s))
  {
    if Invariant.Inv(s) {
      Invariant.RunTaskKeepsInv(s);
    }
  }

  lemma TimerTaskKeeps(s: Model.Session, time: nat, period: int)
    requires s.timer.tasks != []
    ensures Invariant.Inv(s) && s.timer.now <= time ==> Invariant.Inv(Model.RunTimerTask(s, time, period))
  {
    if Invariant.Inv(s) && s.timer.now <= time {
      Invariant.TimerTaskRunsKeepsInv(s, time, period);
    }
  }

  class Session {
    // the session's own fields
    const handlers: Model.Handlers
    var isConnected: bool
    var writeQueue: seq<Frame>

    // the tasks on its strands and the operations under way
    var socketStrand: seq<Model.Task>
    var readStrand: seq<seq<Byte>>
    var readTimer: ReadTimer.Timer
    var socketOpen: bool
    var handshake: Option<bool>
    var writes: seq<Model.WriteOp>
    var pendingReads: seq<Model.ReadOp>

    // history
    ghost var life: Model.Life
    ghost var writer: Model.Writer
    ghost var reader: Model.Reader

    /** The state as SessionModel sees it: the fields, completed by the history. */
    ghost function State(): Model.Session
      reads this
    {
      Model.Session(handlers,
                    life.(connected := isConnected, socketOpen := socketOpen, handshake := handshake),
                    socketStrand,
                    writer.(queue := writeQueue, ops := writes),
                    reader.(ops := pendingReads, inbox := readStrand),
                    readTimer)
    }

    constructor (handlers: Model.Handlers)
      ensures State() == Model.Created(handlers) && Invariant.Inv(State())
    {
      this.handlers := handlers;
      isConnected, writeQueue := false, [];
      socketStrand, readStrand, readTimer := [], [], ReadTimer.Fresh;
      socketOpen, handshake, writes, pendingReads := true, None, [], [];
      life, writer, reader :=
        Model.Created(handlers).life, Model.Created(handlers).writer, Model.Created(handlers).reader;
      new;
      Invariant.CreatedInv(handlers);
    }

    // ----- posting

    method Post(t: Model.Task)
      modifies this`socketStrand
      ensures State() == Model.Post(old(State()), t)
    {
      socketStrand := socketStrand + [t];
    }

    method PostTimer(t: ReadTimer.Task)
      modifies this`readTimer
      ensures State() == Model.PostTimer(old(State()), t)
    {
      readTimer := readTimer.(tasks := readTimer.tasks + [t]);
    }

    method CancelAllPendingOperations()
      modifies this`socketStrand
      ensures State() == Model.CancelAllPendingOperations(old(State()))
    {
      Post(Model.CancelOps);
    }

    method CancelReadTimer()
      modifies this`readTimer
      ensures State() == Model.CancelReadTimer(old(State()))
    {
      PostTimer(ReadTimer.Cancel);
    }

    method RestartReadTimer(chain: seq<nat>)
      modifies this`readTimer
      ensures State() == Model.RestartReadTimer(old(State()), chain)
    {
      PostTimer(ReadTimer.Restart(chain));
    }

    // ----- lifecycle

    method Open()
      modifies this
      ensures State() == Model.Open(old(State()))
      ensures Invariant.Inv(old(State())) && Model.Enabled(old(State()), Model.OpenCall) ==> Invariant.Inv(State())
    {
      OpenKeeps(State());
      if isConnected {
        return;
      }
      life := life.(rises := life.rises + 1, phase := Model.Opening);
      isConnected := true;
      Post(Model.AsyncHandshake);
    }

    method Close()
      modifies this
      ensures State() == Model.Close(old(State()))
      ensures Invariant.Inv(old(State())) ==> Invariant.Inv(State())
    {
      CloseKeeps(State());
      CancelAllPendingOperations();
      CancelReadTimer();
      if !isConnected {
        return;
      }
      isConnected := false;
      life := life.(closes := life.closes + 1,
                    closedEarly := life.closedEarly || Model.BeforeHandshakeHandled(life.phase));
      Post(Model.CloseSocket);
    }

    method StartHandshake()
      modifies this
      ensures State() == Model.StartHandshake(old(State()))
    {
      handshake := Some(false);
      life := life.(phase := Model.Shaking);
    }

    method HandleHandshake(error: Outcome)
      modifies this
      ensures State() == Model.HandleHandshake(old(State()), error)
    {
      life := life.(rises := if isConnected then life.rises else life.rises + 1, phase := Model.Done(error.Ok?));
      isConnected := true;
      if error == Ok {
        PostTimer(ReadTimer.Stamp);
        ReadNext();
        if handlers.open {
          life := life.(notices := life.notices + [Model.Opened]);
        }
      } else if error != Aborted {
        Close();
      }
    }

    /** The task posted by cancelAllPendingOperations. */
    method CancelOutstanding()
      modifies this
      ensures State() == Model.CancelOutstanding(old(State()))
    {
      if socketOpen {
        if handshake.Some? {
          handshake := Some(true);
        }
        writes := Model.CancelWrites(writes);
        pendingReads := Model.CancelReads(pendingReads);
      }
    }

    /** The task posted by close. */
    method RunCloseSocket()
      modifies this
      ensures State() == Model.RunCloseSocket(old(State()))
    {
      writeQueue := [];
      CancelOutstanding();
      socketOpen := false;
      if handlers.close {
        life := life.(notices := life.notices + [Model.Closed]);
      }
    }

    // ----- writing

    method SendPayload(payload: seq<Byte>)
      modifies this
      ensures State() == Model.Send(old(State()), Frame(DATA, payload))
      ensures Invariant.Inv(old(State())) && old(State()).life.phase == Model.Done(true) ==> Invariant.Inv(State())
    {
      SendKeeps(State(), Frame(DATA, payload));
      Send(Frame(DATA, payload));
    }

    method Ping()
      modifies this
      ensures State() == Model.Send(old(State()), Model.PingMessage)
    {
      Send(Frame(PING, []));
    }

    method Pong()
      modifies this
      ensures State() == Model.Send(old(State()), Model.PongMessage)
    {
      Send(Frame(PONG, []));
    }

    method Send(message: Frame)
      modifies this
      ensures State() == Model.Send(old(State()), message)
    {
      var writeInProgress := writeQueue != [];
      writer := writer.(submitted := writer.submitted + [message]);
      if writeInProgress && (message.kind == PING || message.kind == PONG) {
        var currentMessage := writeQueue[0];
        writeQueue := writeQueue[1..];
        writeQueue := [message] + writeQueue;
        writeQueue := [currentMessage] + writeQueue;
      } else {
        writeQueue := writeQueue + [message];
      }
      if !writeInProgress {
        WriteNext();
      }
    }

    method WriteNext()
      modifies this`socketStrand
      ensures State() == Model.WriteNext(old(State()))
    {
      if writeQueue != [] {
        Post(Model.AsyncWrite(writeQueue[0]));
      }
    }

    method AsyncWrite(message: Frame)
      modifies this
      ensures State() == Model.StartWrite(old(State()), message)
    {
      writes := writes + [Model.WriteOp(message, 0, false)];
      if socketOpen {
        writer := writer.(started := writer.started + [message]);
      }
    }

    method HandleWrite(error: Outcome)
      modifies this
      ensures State() == Model.HandleWrite(old(State()), error)
    {
      if writeQueue != [] {
        writeQueue := writeQueue[1..];
      }
      if error == Ok {
        WriteNext();
      } else if error != Aborted {
        Close();
      }
    }

    // ----- reading

    method ReadNext()
      modifies this
      ensures State() == Model.ReadNext(old(State()))
    {
      AsyncReadHeader();
    }

    method AsyncReadHeader()
      modifies this
      ensures State() == Model.StartRead(old(State()), None)
    {
      pendingReads := pendingReads + [Model.ReadOp(None, [], false)];
      RestartReadTimer([]);
    }

    method AsyncReadBody(head: Model.Head)
      modifies this
      ensures State() == Model.StartRead(old(State()), Some(head))
    {
      pendingReads := pendingReads + [Model.ReadOp(Some(head), [], false)];
      RestartReadTimer([]);
    }

    method HandleReadHeader(head: Model.Head, error: Outcome)
      modifies this
      ensures State() == Model.HandleReadHeader(old(State()), head, error)
    {
      CancelReadTimer();
      if error == Ok {
        var h := DecodeHeader(head);
        if h.crc == 0 {
          if h.size != 0 {
            AsyncReadBody(head);
          } else {
            OnMessageReceived(head, Frame(h.kind, []));
            ReadNext();
          }
        } else {
          reader := reader.(ended := Some(Model.HeaderRejected));
          Close();
        }
      } else if error != Aborted {
        reader := reader.(ended := Some(Model.ReadFailed));
        Close();
      } else {
        reader := reader.(ended := Some(Model.ReadAborted));
      }
    }

    method HandleReadBody(head: Model.Head, body: seq<Byte>, error: Outcome)
      modifies this
      ensures State() == Model.HandleReadBody(old(State()), head, body, error)
    {
      CancelReadTimer();
      if error == Ok {
        var h := DecodeHeader(head);
        if h.payloadCrc == 0 {
          OnMessageReceived(head + body, Frame(h.kind, body));
          ReadNext();
        } else {
          reader := reader.(ended := Some(Model.BodyRejected));
          Close();
        }
      } else if error != Aborted {
        reader := reader.(ended := Some(Model.ReadFailed));
        Close();
      } else {
        reader := reader.(ended := Some(Model.ReadAborted));
      }
    }

    method OnMessageReceived(ghost bytes: seq<Byte>, message: Frame)
      modifies this
      ensures State() == Model.OnMessageReceived(old(State()), bytes, message)
    {
      reader := reader.(consumed := reader.consumed + bytes, decoded := reader.decoded + [message]);
      if INVALID < message.kind < LAST {
        if message.kind == PING {
          Pong();
        } else if message.kind != PONG {
          HandleMessage(message.payload);
        }
      }
    }

    method HandleMessage(payload: seq<Byte>)
      modifies this`readStrand
      ensures State() == Model.HandleMessage(old(State()), payload)
    {
      if handlers.receive && isConnected {
        readStrand := readStrand + [payload];
      }
    }

    // ----- keep-alive

    /** An aborted wait does nothing; any other posts the task that looks at the clock. */
    method HandleReadTimeOut(error: Outcome, chain: seq<nat>)
      modifies this`readTimer
      ensures State() == if error.Aborted? then old(State()) else Model.PostTimer(old(State()), ReadTimer.Expire(chain))
    {
      if error == Aborted {
        return;
      }
      PostTimer(ReadTimer.Expire(chain));
    }

    /** The task posted by handleReadTimeOut, when it runs. */
    method CheckTimeOut(time: nat, chain: seq<nat>)
      modifies this
      ensures State() == Model.HandleReadTimeOut(old(State()), ReadTimer.ConnectionLost(old(readTimer), time), chain)
    {
      var lastTimeRead := if readTimer.lastRead.Some? then readTimer.lastRead.value else 0;
      var timeout := (time - lastTimeRead) / ReadTimer.MILLISECOND;
      if timeout > ReadTimer.MAX_TIMEOUT {
        Close();
      } else {
        Ping();
        RestartReadTimer(chain);
      }
    }

    // ----- running the strands

    method RunTask()
      requires socketStrand != []
      modifies this
      ensures State() == Model.RunTask(old(State()))
      ensures Invariant.Inv(old(State())) ==> Invariant.Inv(State())
    {
      TaskKeeps(State());
      var task := socketStrand[0];
      socketStrand := socketStrand[1..];
      Handle(task);
    }

    method Handle(task: Model.Task)
      modifies this
      ensures State() == Model.Handle(old(State()), task)
    {
      match task {
        case AsyncHandshake => StartHandshake();
        case HandshakeDone(error) => HandleHandshake(error);
        case CancelOps => CancelOutstanding();
        case CloseSocket => RunCloseSocket();
        case AsyncWrite(message) => AsyncWrite(message);
        case Written(_, error) => HandleWrite(error);
        case HeaderRead(head, error) => HandleReadHeader(head, error);
        case BodyRead(head, body, error) => HandleReadBody(head, body, error);
      }
    }

    method RunTimerTask(time: nat, period: int)
      requires readTimer.tasks != []
      modifies this
      ensures State() == Model.RunTimerTask(old(State()), time, period)
      ensures Invariant.Inv(old(State())) && old(readTimer).now <= time ==> Invariant.Inv(State())
    {
      TimerTaskKeeps(State(), time, period);
      var task := readTimer.tasks[0];
      readTimer := readTimer.(now := time, tasks := readTimer.tasks[1..]);
      match task {
        case Stamp => readTimer := readTimer.(lastRead := Some(time));
        case Cancel => readTimer := readTimer.(armed := [], lastRead := Some(time));
        case Restart(chain) =>
          readTimer := readTimer.(armed := []);
          readTimer := readTimer.(armed := [ReadTimer.Wait(time + ReadTimer.MILLISECOND * period, chain)]);
        case Expire(chain) => CheckTimeOut(time, chain + [time]);
      }
    }
  }
}
