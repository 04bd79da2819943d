/** The sender of the Model package: an AsyncTask whose background task
    connects, then drains a FIFO queue of strings onto the socket until it
    takes the empty-string sentinel, closing the socket on every exit after
    a successful connect and publishing every caught exception to the UI
    thread, which hands it to the registered listener if there is one.

    The three threads involved (producers, the background task, the UI
    thread) are modelled as steps of one object that a caller interleaves
    in any order: `Write`, `Disconnect` and `SetExceptionListener` are the
    producer side, `Connect` and `ConsumerStep` the background task, and
    `OnProgressUpdate` the UI thread. Outcomes of the network are step
    parameters. */
module ModelTcp {
  import opened SendQueue

  /** Where the background task is. `Aborted`: the port text did not parse
      as a port, an unchecked exception that no catch clause handles, so the
      task ends with nothing published. */
  datatype Phase = Connecting | Connected | Closed | Failed | Aborted

  /** The outcome of the task's first part: parse the port, connect with a
      timeout, obtain the output stream. */
  datatype ConnectOutcome = Connects | ConnectThrows | OutputStreamThrows | BadPort

  /** The exceptions the task catches and publishes. */
  datatype Failure = ConnectFailure | OutputStreamFailure | WriteFailure | InterruptedWait | CloseFailure

  /** A registered exception listener, by identity. */
  type ListenerId = nat

  /** What the cleanup's `socket.close()` adds to the published exceptions. */
  function CloseReport(closeThrows: bool): seq<Failure>
  {
    if closeThrows then [CloseFailure] else []
  }

  /** The exceptions published by a task that ended in `Failed`: the cause
      first, then possibly the failure of the cleanup's close. */
  ghost predicate FailureReport(published: seq<Failure>)
  {
    && 1 <= |published| <= 2
    && published[0] != CloseFailure
    && (|published| == 2 ==> published[0] != ConnectFailure && published[1] == CloseFailure)
  }

  class TcpClient {
    const ip: string
    const port: string
    /** The pending strings, head first. */
    var queue: seq<string>
    var phase: Phase
    var socket: Socket
    /** Every string written and flushed to the socket's stream, in order. */
    var stream: seq<string>
    var listener: Option<ListenerId>
    /** Exceptions published by the task and not yet handled on the UI thread. */
    var progress: seq<Failure>
    /** Every invocation of a listener: which one, with which exception. */
    var heard: seq<(ListenerId, Failure)>
    /** Every item the task took from the queue, in order. */
    ghost var taken: seq<string>
    /** Every exception the task published, in order. */
    ghost var published: seq<Failure>
    /** How many published exceptions the UI thread has handled. */
    ghost var dispatched: nat

    ghost predicate Valid()
      reads this
    {
      && Sentinel !in stream
      && dispatched <= |published| && progress == published[dispatched..]
      && (phase == Connecting || phase == Aborted ==>
            socket == NoSocket && stream == [] && taken == [] && published == [])
      && (phase == Connected ==> socket == Open && stream == taken && published == [])
      && (phase == Closed ==>
            socket == Released && taken == stream + [Sentinel] && published in {[], [CloseFailure]})
      && (phase == Failed ==>
            && socket != Open && stream <= taken && |taken| <= |stream| + 1 && Sentinel !in taken
            && FailureReport(published)
            && (published[0] == ConnectFailure ==> socket == NoSocket && taken == []))
    }

    /** The constructor creates an empty queue and starts the task at once. */
    constructor (ip: string, port: string)
      ensures Valid()
      ensures this.ip == ip && this.port == port
      ensures queue == [] && phase == Connecting && socket == NoSocket && stream == []
      ensures listener == None && progress == [] && heard == []
    {
      this.ip, this.port := ip, port;
      queue, phase, socket, stream := [], Connecting, NoSocket, [];
      listener, progress, heard := None, [], [];
      taken, published, dispatched := [], [], 0;
    }

    /** The task's first part. A connect failure publishes its exception and
        leaves no socket to close; a failure to obtain the output stream
        happens inside the inner try, so it is published and the socket is
        closed. */
    method Connect(outcome: ConnectOutcome, closeThrows: bool)
      requires Valid() && phase == Connecting
      modifies this
      ensures Valid()
      ensures queue == old(queue) && stream == old(stream) && listener == old(listener) && heard == old(heard)
      ensures outcome == Connects ==> phase == Connected && socket == Open && progress == old(progress)
      ensures outcome == ConnectThrows ==>
                phase == Failed && socket == NoSocket && progress == old(progress) + [ConnectFailure]
      ensures outcome == OutputStreamThrows ==>
                && phase == Failed && socket == Released
                && progress == old(progress) + [OutputStreamFailure] + CloseReport(closeThrows)
      ensures outcome == BadPort ==> phase == Aborted && socket == NoSocket && progress == old(progress)
    {
      match outcome
      case Connects =>
        phase, socket := Connected, Open;
      case ConnectThrows =>
        Publish([ConnectFailure]);
        phase := Failed;
      case OutputStreamThrows =>
        Publish([OutputStreamFailure] + CloseReport(closeThrows));
        phase, socket := Failed, Released;
      case BadPort =>
        phase := Aborted;
    }

    /** `publishProgress` for each of `fs`. */
    method Publish(fs: seq<Failure>)
      modifies this`progress, this`published
      ensures progress == old(progress) + fs && published == old(published) + fs
    {
      progress, published := progress + fs, published + fs;
    }

    /** One turn of the consumer loop. The take blocks on an empty queue, so
        on an empty queue only an interrupt can happen. A taken sentinel
        ends the loop without a write; any other item is written exactly as
        it is (no terminator added) and flushed. Every exit closes the
        socket; a close that throws is published as well. */
    method ConsumerStep(fault: StepFault, closeThrows: bool)
      requires Valid() && phase == Connected
      requires queue == [] ==> fault == Interrupt
      modifies this
      ensures Valid()
      ensures listener == old(listener) && heard == old(heard)
      ensures fault == Interrupt ==>
                && queue == old(queue) && stream == old(stream)
                && phase == Failed && socket == Released
                && progress == old(progress) + [InterruptedWait] + CloseReport(closeThrows)
      ensures fault != Interrupt ==>
                && queue == old(queue)[1..]
                && (old(queue)[0] == Sentinel ==>
                      && stream == old(stream) && phase == Closed && socket == Released
                      && progress == old(progress) + CloseReport(closeThrows))
                && (old(queue)[0] != Sentinel && fault == WriteFault ==>
                      && stream == old(stream) && phase == Failed && socket == Released
                      && progress == old(progress) + [WriteFailure] + CloseReport(closeThrows))
                && (old(queue)[0] != Sentinel && fault == NoFault ==>
                      && stream == old(stream) + [old(queue)[0]] && phase == Connected && socket == Open
                      && progress == old(progress))
    {
      if fault == Interrupt {
        Publish([InterruptedWait] + CloseReport(closeThrows));
        phase, socket := Failed, Released;
        return;
      }
      var input := queue[0];
      queue := queue[1..];
      taken := taken + [input];
      if input == Sentinel {
        Publish(CloseReport(closeThrows));
        phase, socket := Closed, Released;
      } else if fault == WriteFault {
        Publish([WriteFailure] + CloseReport(closeThrows));
        phase, socket := Failed, Released;
      } else {
        stream := stream + [input];
      }
    }

    /** The consumer loop run without faults until it blocks on an empty
        queue or stops: it writes the queue's items in order up to the first
        sentinel, and leaves whatever lies behind the sentinel in the queue,
        never to be written. */
    method DrainWithoutFaults()
      requires Valid() && phase == Connected
      modifies this
      ensures Valid()
      ensures stream == old(stream) + UpToSentinel(old(queue))
      ensures Sentinel in old(queue) ==>
                && phase == Closed && socket == Released
                && queue == old(queue)[|UpToSentinel(old(queue))| + 1..]
      ensures Sentinel !in old(queue) ==> phase == Connected && socket == Open && queue == []
      ensures progress == old(progress) && listener == old(listener) && heard == old(heard)
    {
      ghost var q0 := queue;
      ghost var done: seq<string> := [];
      while queue != [] && phase == Connected
        invariant Valid()
        invariant q0 == done + queue
        invariant phase == Connected || phase == Closed
        invariant phase == Connected ==> Sentinel !in done && stream == old(stream) + done
        invariant phase == Closed ==>
                    done == UpToSentinel(q0) + [Sentinel] && stream == old(stream) + UpToSentinel(q0)
        invariant progress == old(progress) && listener == old(listener) && heard == old(heard)
        decreases |queue|
      {
        var item := queue[0];
        ghost var before := done;
        ghost var rest := queue[1..];
        assert q0 == before + ([item] + rest);
        ConsumerStep(NoFault, false);
        done := done + [item];
        assert q0 == done + queue by {
          assert queue == rest;
        }
        if item == Sentinel {
          UpToSentinelAppend(before, [item] + rest);
          assert phase == Closed;
        } else {
          assert phase == Connected;
        }
      }
      if phase == Connected {
        SentinelFreeSentWhole(q0);
      }
    }

    /** Drops every pending string and pushes the sentinel. */
    method Disconnect()
      requires Valid()
      modifies this
      ensures Valid()
      ensures queue == [Sentinel]
      ensures phase == old(phase) && socket == old(socket) && stream == old(stream)
      ensures listener == old(listener) && progress == old(progress) && heard == old(heard)
    {
      queue := [Sentinel];
    }

    /** Appends `input` at the tail of the queue, in any phase. */
    method Write(input: string)
      requires Valid()
      modifies this
      ensures Valid()
      ensures queue == old(queue) + [input]
      ensures phase == old(phase) && socket == old(socket) && stream == old(stream)
      ensures listener == old(listener) && progress == old(progress) && heard == old(heard)
    {
      queue := queue + [input];
    }

    /** Replaces the listener slot; `None` stands for a null listener. */
    method SetExceptionListener(l: Option<ListenerId>)
      requires Valid()
      modifies this
      ensures Valid()
      ensures listener == l
      ensures queue == old(queue) && phase == old(phase) && socket == old(socket) && stream == old(stream)
      ensures progress == old(progress) && heard == old(heard)
    {
      listener := l;
    }

    /** The UI thread handles the oldest published exception: it is given
        to the listener registered at this moment, and dropped if there is
        none. */
    method OnProgressUpdate()
      requires Valid() && progress != []
      modifies this
      ensures Valid()
      ensures progress == old(progress)[1..]
      ensures old(listener).Some? ==> heard == old(heard) + [(old(listener).value, old(progress)[0])]
      ensures old(listener).None? ==> heard == old(heard)
      ensures queue == old(queue) && phase == old(phase) && socket == old(socket) && stream == old(stream)
      ensures listener == old(listener)
    {
      var e := progress[0];
      progress := progress[1..];
      dispatched := dispatched + 1;
      if listener.Some? {
        heard := heard + [(listener.value, e)];
      }
    }
  }

  /** End to end, with a cooperative server: the strings written before a
      drain arrive in order; strings still pending when `disconnect` is
      called (here twice) are dropped, strings written after it are never
      sent, and the socket ends closed. */
  method DeliveryScenario(ip: string, port: string, items: seq<string>, dropped: seq<string>, later: seq<string>)
    returns (sent: seq<string>, closed: bool)
    requires Sentinel !in items
    ensures sent == items
    ensures closed
  {
    var c := new TcpClient(ip, port);
    c.Connect(Connects, false);
    for i := 0 to |items|
      invariant c.Valid() && c.phase == Connected && c.stream == []
      invariant c.queue == items[..i]
    {
      c.Write(items[i]);
    }
    assert items[..|items|] == items;
    c.DrainWithoutFaults();
    SentinelFreeSentWhole(items);
    for i := 0 to |dropped|
      invariant c.Valid() && c.phase == Connected && c.stream == items
    {
      c.Write(dropped[i]);
    }
    c.Disconnect();
    c.Disconnect();
    for i := 0 to |later|
      invariant c.Valid() && c.phase == Connected && c.stream == items
      invariant c.queue == [Sentinel] + later[..i]
    {
      c.Write(later[i]);
    }
    c.DrainWithoutFaults();
    sent, closed := c.stream, c.phase == Closed && c.socket == Released;
  }

  /** A connect that fails: nothing queued is ever written, the exception
      is published once, and the UI thread hands it to the listener only if
      one is registered when it runs. */
  method ConnectFailureScenario(ip: string, port: string, items: seq<string>, l: Option<ListenerId>)
    returns (sent: seq<string>, heard: seq<(ListenerId, Failure)>)
    ensures sent == []
    ensures heard == if l.Some? then [(l.value, ConnectFailure)] else []
  {
    var c := new TcpClient(ip, port);
    c.SetExceptionListener(l);
    for i := 0 to |items|
      invariant c.Valid() && c.phase == Connecting && c.stream == []
      invariant c.listener == l && c.progress == [] && c.heard == []
    {
      c.Write(items[i]);
    }
    c.Connect(ConnectThrows, false);
    c.OnProgressUpdate();
    sent, heard := c.stream, c.heard;
  }
}
