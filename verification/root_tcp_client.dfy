/** The older sender, in the root package: a client whose consumer thread
    is created with the object but only started by `connect`. The thread
    opens the socket, then drains the queue until it takes a string equal
    to "" and writes every other string followed by LF, CR. Failures are
    only logged, and the socket is closed on every exit after a successful
    connect.

    As for the Model sender, the two threads are steps of one object:
    `Connect`, `Write` and `Disconnect` for the caller, `OpenSocket` and
    `ConsumerStep` for the consumer thread. */
module RootTcp {
  import opened SendQueue

  /** `Unstarted`: the thread exists but `connect` has not started it. */
  datatype Phase = Unstarted | Connecting | Connected | Closed | Failed

  /** The outcome of the thread's first part: create and connect the
      socket, obtain the output stream. */
  datatype ConnectOutcome = Connects | ConnectThrows | OutputStreamThrows

  /** The line terminator this sender appends to every string: LF, CR. */
  const LineBreak: string := "\n\r"

  /** The bytes one item becomes on the wire: the item unchanged, then LF,
      then CR. Never the sentinel, whatever the item. */
  function Frame(s: string): (r: string)
    ensures |r| == |s| + 2 && r[..|s|] == s
    ensures r[|s|] == '\n' && r[|s| + 1] == '\r'
    ensures r != Sentinel
  {
    s + LineBreak
  }

  /** The writes a sequence of items becomes, one frame per item, in order. */
  function Frames(items: seq<string>): (r: seq<string>)
    ensures |r| == |items|
    ensures forall i :: 0 <= i < |items| ==> r[i] == Frame(items[i])
  {
    if items == [] then [] else [Frame(items[0])] + Frames(items[1..])
  }

  /** Framing two runs in turn is framing them joined. */
  lemma FramesAppend(a: seq<string>, b: seq<string>)
    ensures Frames(a + b) == Frames(a) + Frames(b)
  {
  }

  class TcpClient {
    const ip: string
    const port: int
    var queue: seq<string>
    var phase: Phase
    var socket: Socket
    /** Every string written and flushed to the socket's stream, in order. */
    var stream: seq<string>
    /** Every item the thread took from the queue, in order. */
    ghost var taken: seq<string>

    ghost predicate Valid()
      reads this
    {
      && (phase == Unstarted || phase == Connecting ==> socket == NoSocket && stream == [] && taken == [])
      && (phase == Connected ==> socket == Open && Sentinel !in taken && stream == Frames(taken))
      && (phase == Closed ==>
            socket == Released && |taken| >= 1 && taken[|taken| - 1] == Sentinel
            && Sentinel !in taken[..|taken| - 1] && stream == Frames(taken[..|taken| - 1]))
      && (phase == Failed ==>
            socket != Open && Sentinel !in taken
            && (stream == Frames(taken) || (|taken| >= 1 && stream == Frames(taken[..|taken| - 1]))))
    }

    /** Creates the queue and the thread; the thread is not started. */
    constructor (ip: string, port: int)
      ensures Valid()
      ensures this.ip == ip && this.port == port
      ensures queue == [] && phase == Unstarted && socket == NoSocket && stream == []
    {
      this.ip, this.port := ip, port;
      queue, phase, socket, stream := [], Unstarted, NoSocket, [];
      taken := [];
    }

    /** Starts the thread. A thread starts only once: a second call throws
        to the caller (`started` is false) and changes nothing. */
    method Connect() returns (started: bool)
      requires Valid()
      modifies this
      ensures Valid()
      ensures started == (old(phase) == Unstarted)
      ensures phase == if started then Connecting else old(phase)
      ensures queue == old(queue) && socket == old(socket) && stream == old(stream)
    {
      started := phase == Unstarted;
      if started {
        phase := Connecting;
      }
    }

    /** The thread's first part. A connect failure leaves no socket; a
        failure to obtain the stream is caught inside the inner try, so the
        socket is closed. Either is only logged. */
    method OpenSocket(outcome: ConnectOutcome)
      requires Valid() && phase == Connecting
      modifies this
      ensures Valid()
      ensures queue == old(queue) && stream == old(stream)
      ensures outcome == Connects ==> phase == Connected && socket == Open
      ensures outcome == ConnectThrows ==> phase == Failed && socket == NoSocket
      ensures outcome == OutputStreamThrows ==> phase == Failed && socket == Released
    {
      match outcome
      case Connects =>
        phase, socket := Connected, Open;
      case ConnectThrows =>
        phase := Failed;
      case OutputStreamThrows =>
        phase, socket := Failed, Released;
    }

    /** One turn of the consumer loop. On an empty queue the take blocks, so
        only an interrupt can happen. A string equal to "" ends the loop
        without a write; any other string is written followed by LF, CR and
        flushed. Every exit closes the socket. */
    method ConsumerStep(fault: StepFault)
      requires Valid() && phase == Connected
      requires queue == [] ==> fault == Interrupt
      modifies this
      ensures Valid()
      ensures fault == Interrupt ==>
                queue == old(queue) && stream == old(stream) && phase == Failed && socket == Released
      ensures fault != Interrupt ==>
                && queue == old(queue)[1..]
                && (old(queue)[0] == Sentinel ==>
                      stream == old(stream) && phase == Closed && socket == Released)
                && (old(queue)[0] != Sentinel && fault == WriteFault ==>
                      stream == old(stream) && phase == Failed && socket == Released)
                && (old(queue)[0] != Sentinel && fault == NoFault ==>
                      stream == old(stream) + [Frame(old(queue)[0])] && phase == Connected && socket == Open)
    {
      if fault == Interrupt {
        phase, socket := Failed, Released;
        return;
      }
      var buffer := queue[0];
      queue := queue[1..];
      taken := taken + [buffer];
      if buffer == Sentinel {
        assert taken[..|taken| - 1] == old(taken);
        phase, socket := Closed, Released;
      } else if fault == WriteFault {
        assert taken[..|taken| - 1] == old(taken);
        phase, socket := Failed, Released;
      } else {
        FramesAppend(old(taken), [buffer]);
        stream := stream + [Frame(buffer)];
      }
    }

    /** The consumer loop run without faults until it blocks on an empty
        queue or stops: every item up to the first "" is written, framed,
        in queue order; what lies behind the "" stays queued and is never
        written. */
    method DrainWithoutFaults()
      requires Valid() && phase == Connected
      modifies this
      ensures Valid()
      ensures stream == old(stream) + Frames(UpToSentinel(old(queue)))
      ensures Sentinel in old(queue) ==>
                && phase == Closed && socket == Released
                && queue == old(queue)[|UpToSentinel(old(queue))| + 1..]
      ensures Sentinel !in old(queue) ==> phase == Connected && socket == Open && queue == []
    {
      ghost var q0 := queue;
      ghost var done: seq<string> := [];
      while queue != [] && phase == Connected
        invariant Valid()
        invariant q0 == done + queue
        invariant phase == Connected || phase == Closed
        invariant phase == Connected ==> Sentinel !in done && stream == old(stream) + Frames(done)
        invariant phase == Closed ==>
                    done == UpToSentinel(q0) + [Sentinel] && stream == old(stream) + Frames(UpToSentinel(q0))
        decreases |queue|
      {
        var item := queue[0];
        ghost var before := done;
        ghost var rest := queue[1..];
        assert q0 == before + ([item] + rest);
        ConsumerStep(NoFault);
        done := done + [item];
        assert q0 == done + queue by {
          assert queue == rest;
        }
        if item == Sentinel {
          UpToSentinelAppend(before, [item] + rest);
          assert phase == Closed;
        } else {
          FramesAppend(before, [item]);
          assert phase == Connected;
        }
      }
      if phase == Connected {
        SentinelFreeSentWhole(q0);
      }
    }

    /** Drops every pending string and pushes the sentinel. */
    method Disconnect()
      requires Valid()
      modifies this
      ensures Valid()
      ensures queue == [Sentinel]
      ensures phase == old(phase) && socket == old(socket) && stream == old(stream)
    {
      queue := [Sentinel];
    }

    /** Appends `input` at the tail of the queue and changes nothing else. */
    method Write(input: string)
      requires Valid()
      modifies this
      ensures Valid()
      ensures queue == old(queue) + [input]
      ensures phase == old(phase) && socket == old(socket) && stream == old(stream)
    {
      queue := queue + [input];
    }
  }
}
