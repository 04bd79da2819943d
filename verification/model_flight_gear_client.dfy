/** The FlightGear client of the Model package. In the source it extends
    the Model TCPClient; here it holds that client (`tcp`) and every
    inherited operation is reached through it. Its own operations build a
    command's full text, terminator included, and push it with the
    inherited `write`, which sends it unchanged. */
module ModelFlightGear {
  import opened SendQueue
  import opened FlightGearCommands
  import ModelTcp

  class FlightGearClient {
    const tcp: ModelTcp.TcpClient

    ghost predicate Valid()
      reads this, tcp
    {
      tcp.Valid()
    }

    /** Only delegates: the sender starts with an empty queue and its task
        begins connecting. */
    constructor (ipText: string, portText: string)
      ensures Valid() && fresh(tcp)
      ensures tcp.ip == ipText && tcp.port == portText
      ensures tcp.queue == [] && tcp.phase == ModelTcp.Connecting && tcp.stream == []
      ensures tcp.listener == None && tcp.progress == [] && tcp.heard == []
    {
      tcp := new ModelTcp.TcpClient(ipText, portText);
    }

    /** Pushes exactly one string, the aileron command for `valueText`, at
        the tail of the queue; earlier queued strings keep their places. */
    method SetAileron(valueText: string)
      requires Valid()
      modifies tcp
      ensures Valid()
      ensures tcp.queue == old(tcp.queue) + [Encode(FlightGearCommands.SetAileron(valueText))]
      ensures tcp.phase == old(tcp.phase) && tcp.socket == old(tcp.socket) && tcp.stream == old(tcp.stream)
      ensures tcp.listener == old(tcp.listener) && tcp.progress == old(tcp.progress) && tcp.heard == old(tcp.heard)
    {
      var command := AileronPrefix + valueText + Break;
      tcp.Write(command);
    }

    /** Pushes exactly one string, the elevator command for `valueText`, at
        the tail of the queue; earlier queued strings keep their places. */
    method SetElevator(valueText: string)
      requires Valid()
      modifies tcp
      ensures Valid()
      ensures tcp.queue == old(tcp.queue) + [Encode(FlightGearCommands.SetElevator(valueText))]
      ensures tcp.phase == old(tcp.phase) && tcp.socket == old(tcp.socket) && tcp.stream == old(tcp.stream)
      ensures tcp.listener == old(tcp.listener) && tcp.progress == old(tcp.progress) && tcp.heard == old(tcp.heard)
    {
      var command := ElevatorPrefix + valueText + Break;
      tcp.Write(command);
    }
  }

  /** What a setter call puts on the wire once the task takes it: the
      command's text exactly once, and the loop keeps running, since no
      command is the sentinel. */
  method SetterScenario(ip: string, port: string, aileron: string, elevator: string)
    returns (sent: seq<string>, running: bool)
    ensures sent == [AileronPrefix + aileron + Break, ElevatorPrefix + elevator + Break]
    ensures running
  {
    var fg := new FlightGearClient(ip, port);
    fg.tcp.Connect(ModelTcp.Connects, false);
    fg.SetAileron(aileron);
    fg.SetElevator(elevator);
    fg.tcp.ConsumerStep(NoFault, false);
    fg.tcp.ConsumerStep(NoFault, false);
    sent, running := fg.tcp.stream, fg.tcp.phase == ModelTcp.Connected;
  }
}
