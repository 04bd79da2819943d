# FlightGear command sender, modelled in Dafny

The Android app streams two control values (aileron and elevator) to a
FlightGear server over one TCP connection. Producers push command strings
into a FIFO queue. A background task connects, takes strings from the queue
one at a time and writes each to the socket. It stops when it takes the
empty-string sentinel pushed by `disconnect`, and closes the socket on every
exit. The repository holds two generations of this code, and both are
modelled here:

- the Model package: `TCPClient`, an `AsyncTask` whose constructor starts the
  task, writes every string exactly as queued, and publishes each caught
  exception to a listener; `FlightGearClient` extends it;
- the root package: `TCPClient`, whose thread only starts on `connect`, which
  appends LF, CR to every string and only logs failures; `FlightGearClient`
  owns one, creates it and then connects it.

Modules:

- `SendQueue` (`send_queue.dfy`): the sentinel, the socket's states, the
  faults a loop turn may meet, and `UpToSentinel`, the part of a queue the
  loop transmits.
- `FlightGearCommands` (`flight_gear_commands.dfy`): the command text shared
  by both FlightGear clients, with a reader (`Decode`) and the round trip.
- `ModelTcp`, `ModelFlightGear`, `RootTcp`, `RootFlightGear`: one module per
  source file, each sender as a class whose fields the steps update.

Threads are steps of one object that a caller may interleave in any order.
`Write`, `Disconnect`, `SetExceptionListener` and the FlightGear setters are
the producer side. `Connect`/`OpenSocket` and `ConsumerStep` are the
background task. `OnProgressUpdate` is the UI thread. The blocking `take`
becomes a step whose precondition is a non-empty queue, except for an
interrupt, which `take` also throws while it waits. What the network does
(connect succeeds or throws, a write throws, `close` throws) is a parameter
of the step. `stream` records every string written and flushed, in order.
`taken` is a ghost history of everything the task removed from the queue.

Behaviour of the code a reader may not expect:

- The terminator is LF then CR (`"\n\r"`), the reverse of the usual CR LF.
- In the Model sender, an unparseable or out-of-range port raises an
  unchecked exception inside the task (`Integer.parseInt`, `InetSocketAddress`).
  No catch clause handles it, so the task ends with nothing published
  (`Phase.Aborted`). The constructor does not check the port.
- In the Model sender, an exception thrown by the cleanup's `socket.close()`
  is caught by the outer handler and published too. A failed task can
  therefore publish two exceptions, and a task stopped by the sentinel can
  publish one.
- The root `FlightGearClient` already ends each command with LF, CR, and the
  root sender appends them again. Every command reaches the wire with the
  terminator doubled.
- The Model sender tests the sentinel with reference equality
  (Model/TCPClient.java:58). The model uses value equality with `""`. This
  assumes every empty string a producer pushes is the interned literal, as
  `disconnect` pushes it.

## Model

| member | source | states |
|---|---|---|
| `SendQueue.UpToSentinel` | app/src/main/java/com/example/exercise4/Model/TCPClient.java:56-63 | what the loop transmits from a queue is its longest sentinel-free prefix: it holds no sentinel, it is a prefix of the queue, and if it stops early the next item is the sentinel |
| `SendQueue.SentinelFreeSentWhole` | app/src/main/java/com/example/exercise4/Model/TCPClient.java:56-63 | a queue with no sentinel is transmitted whole, in order |
| `SendQueue.UpToSentinelAppend` | app/src/main/java/com/example/exercise4/Model/TCPClient.java:56-63 | items queued behind a sentinel are never transmitted; items before it are all transmitted, followed by what comes after them |
| `FlightGearCommands.Encode` | app/src/main/java/com/example/exercise4/Model/FlightGearClient.java:24-36 | a command is the control's prefix, then the value text unchanged, then LF and CR in that order; it is never the empty sentinel |
| `FlightGearCommands.ElevatorNotAileron` | app/src/main/java/com/example/exercise4/Model/FlightGearClient.java:7-8 | an elevator command never carries the aileron prefix |
| `FlightGearCommands.DecodeEncode` | app/src/main/java/com/example/exercise4/Model/FlightGearClient.java:7-9 | every command a setter builds reads back as that same command (control and value) |
| `FlightGearCommands.EncodeDecode` | app/src/main/java/com/example/exercise4/Model/FlightGearClient.java:7-9 | any string that reads back as a command is exactly that command's text, so distinct commands give distinct strings |
| `ModelTcp.TcpClient.constructor` | app/src/main/java/com/example/exercise4/Model/TCPClient.java:29-32 | a new client has an empty queue, no listener, nothing written, and its task already started |
| `ModelTcp.TcpClient.Connect` | app/src/main/java/com/example/exercise4/Model/TCPClient.java:46-71 | success opens the socket; a connect failure publishes one exception with no socket; a failure to get the stream publishes it and closes the socket; a bad port ends the task with nothing published |
| `ModelTcp.TcpClient.Publish` | app/src/main/java/com/example/exercise4/Model/TCPClient.java:64-71 | each exception is appended to the pending progress queue and the publish history, in order |
| `ModelTcp.TcpClient.ConsumerStep` | app/src/main/java/com/example/exercise4/Model/TCPClient.java:54-68 | the head is removed; a sentinel ends the loop with no write; any other item is written exactly as queued; a write failure or interrupt is published; every exit closes the socket |
| `ModelTcp.TcpClient.DrainWithoutFaults` | app/src/main/java/com/example/exercise4/Model/TCPClient.java:56-63 | run without faults, the loop writes the queue's items in FIFO order up to the first sentinel and stops there with the socket closed; what lies behind it stays queued, unwritten |
| `ModelTcp.TcpClient.Disconnect` | app/src/main/java/com/example/exercise4/Model/TCPClient.java:93-96 | the queue becomes exactly the sentinel, whatever it held, so a second call changes nothing; nothing else changes |
| `ModelTcp.TcpClient.Write` | app/src/main/java/com/example/exercise4/Model/TCPClient.java:102-104 | the string is appended at the tail, earlier items keep value and position; nothing else changes |
| `ModelTcp.TcpClient.SetExceptionListener` | app/src/main/java/com/example/exercise4/Model/TCPClient.java:112-114 | replaces the listener slot and nothing else |
| `ModelTcp.TcpClient.OnProgressUpdate` | app/src/main/java/com/example/exercise4/Model/TCPClient.java:81-86 | the oldest published exception goes to the listener registered at that moment, and to nobody if there is none |
| `ModelTcp.DeliveryScenario` | app/src/main/java/com/example/exercise4/Model/TCPClient.java:93-104 | the strings written and drained before `disconnect` arrive in order; strings pending at `disconnect` (called twice) and strings written after it are never sent; the socket ends closed |
| `ModelTcp.ConnectFailureScenario` | app/src/main/java/com/example/exercise4/Model/TCPClient.java:48-86 | after a connect failure nothing queued is written, and the listener hears the connect exception once if one is registered, otherwise nobody does |
| `ModelFlightGear.FlightGearClient.constructor` | app/src/main/java/com/example/exercise4/Model/FlightGearClient.java:16-18 | only delegates: the sender starts with an empty queue and a started task |
| `ModelFlightGear.FlightGearClient.SetAileron` | app/src/main/java/com/example/exercise4/Model/FlightGearClient.java:24-27 | appends exactly one string, the aileron command for the value, at the tail; nothing else changes |
| `ModelFlightGear.FlightGearClient.SetElevator` | app/src/main/java/com/example/exercise4/Model/FlightGearClient.java:33-36 | appends exactly one string, the elevator command for the value, at the tail; nothing else changes |
| `ModelFlightGear.SetterScenario` | app/src/main/java/com/example/exercise4/Model/FlightGearClient.java:24-36 | one aileron and one elevator call put exactly their two commands on the wire, in call order, and the loop keeps running |
| `RootTcp.Frame` | app/src/main/java/com/example/exercise4/TCPClient.java:36-38 | a written item is the item unchanged followed by LF then CR, and is never the sentinel |
| `RootTcp.Frames` | app/src/main/java/com/example/exercise4/TCPClient.java:30-40 | a run of items becomes one framed write per item, in order |
| `RootTcp.FramesAppend` | app/src/main/java/com/example/exercise4/TCPClient.java:30-40 | framing two runs in turn is framing them joined |
| `RootTcp.TcpClient.constructor` | app/src/main/java/com/example/exercise4/TCPClient.java:17-52 | creates the empty queue and the thread, and does not start it |
| `RootTcp.TcpClient.Connect` | app/src/main/java/com/example/exercise4/TCPClient.java:54-57 | starts the thread if and only if it was not started; a second call changes nothing |
| `RootTcp.TcpClient.OpenSocket` | app/src/main/java/com/example/exercise4/TCPClient.java:21-50 | success opens the socket; a connect failure leaves none; a failure to get the stream closes it; failures are only logged |
| `RootTcp.TcpClient.ConsumerStep` | app/src/main/java/com/example/exercise4/TCPClient.java:30-46 | the head is removed; a string equal to "" ends the loop with no write; any other is written as item + LF + CR; every exit closes the socket |
| `RootTcp.TcpClient.DrainWithoutFaults` | app/src/main/java/com/example/exercise4/TCPClient.java:30-40 | run without faults, the loop writes each item before the first "" framed, in FIFO order, and stops there with the socket closed; later items stay unwritten |
| `RootTcp.TcpClient.Disconnect` | app/src/main/java/com/example/exercise4/TCPClient.java:59-63 | the queue becomes exactly the sentinel, so the operation is idempotent |
| `RootTcp.TcpClient.Write` | app/src/main/java/com/example/exercise4/TCPClient.java:65-68 | appends at the tail and changes nothing else |
| `RootFlightGear.WireDoublesBreak` | app/src/main/java/com/example/exercise4/FlightGearClient.java:27-30 | through the root sender a command reaches the wire as prefix, value, LF CR, LF CR; read back it is not the command sent |
| `RootFlightGear.FlightGearClient.constructor` | app/src/main/java/com/example/exercise4/FlightGearClient.java:19-20 | creates the sender and starts its thread with one `connect`: empty queue, thread connecting |
| `RootFlightGear.FlightGearClient.Stop` | app/src/main/java/com/example/exercise4/FlightGearClient.java:23-25 | delegates to `disconnect`: the queue is exactly the sentinel |
| `RootFlightGear.FlightGearClient.SetAileron` | app/src/main/java/com/example/exercise4/FlightGearClient.java:27-30 | appends exactly the aileron command for the value |
| `RootFlightGear.FlightGearClient.SetElevator` | app/src/main/java/com/example/exercise4/FlightGearClient.java:32-35 | appends exactly the elevator command for the value |
| `RootFlightGear.StopScenario` | app/src/main/java/com/example/exercise4/FlightGearClient.java:23-30 | a command issued before `stop` reaches the wire once, with the terminator doubled; one issued after `stop` never does; the socket ends closed |

## Left out

- Sockets and connection setup (`InetSocketAddress`, the 3000 ms connect timeout, `getOutputStream`) are reduced to an outcome parameter of the connect step; which outcome a given host and port produce is not modelled.
- `ModelTcp.TcpClient.Connect`: on a bad port the unchecked exception leaves `doInBackground` and is rethrown by `AsyncTask` on its worker thread; what happens to it after it leaves the task is not modelled. `Phase.Aborted` only records that the task stopped without publishing, and producers and the UI step may go on using the client.
- `String.getBytes` and its charset: strings are sequences of characters and a write is recorded as the string written.
- A write that fails part way: a failed write records nothing in `stream`, although some bytes may have reached the server.
- Threads and their scheduling (`AsyncTask.execute`, `Thread.start`, `publishProgress` marshalling to the UI thread, the blocking `LinkedBlockingQueue`): replaced by steps interleaved in any order by the caller.
- `Double.toString`: the setters take the value's text as rendered by Java's string concatenation; floating point formatting is not part of this model.
- Logging (`Log.i`, `Log.e`) in the root sender: output only, no state.
- The root `FlightGearClient` constructor's parsing (`InetAddress.getByName`, `Integer.parseInt`): the constructor takes the parsed address and port; when parsing throws, no client is created, and that path is not modelled.
- `ModelTcp.TcpClient.DrainWithoutFaults` and `RootTcp.TcpClient.DrainWithoutFaults` describe the loop only when no write fails, no interrupt occurs and the final close does not throw; faulty runs are covered one turn at a time by `ConsumerStep`.
- The `IClient` interface the root `FlightGearClient` holds is not part of this model; its field is typed with the root sender directly.
- The joystick views, the view model and the activities are not part of this model.
