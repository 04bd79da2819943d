/** The older FlightGear client, in the root package. It owns a root
    sender, creates it and then starts it with `connect`, and pushes the
    same command text as the Model client. Because the root sender appends
    its own LF, CR to every string, each command reaches the wire with the
    terminator twice. */
module RootFlightGear {
  import opened SendQueue
  import opened FlightGearCommands
  import RootTcp

  /** What one command becomes on the root sender's wire: the prefix, the
      value text, and LF, CR twice. Read back, it is not the command sent:
      the value gains a trailing LF, CR. */
  lemma WireDoublesBreak(c: Command)
    ensures RootTcp.Frame(Encode(c)) == Prefix(c) + c.value + Break + Break
    ensures Decode(RootTcp.Frame(Encode(c))) != Some(c)
  {
    DecodeWithExtraBreak(c);
  }

  lemma DecodeWithExtraBreak(c: Command)
    ensures Decode(Encode(c) + Break) == Some(WithValue(c, c.value + Break))
  {
    var c' := WithValue(c, c.value + Break);
    assert Encode(c) + Break == Encode(c');
    DecodeEncode(c');
  }

  function WithValue(c: Command, v: string): (r: Command)
    ensures Prefix(r) == Prefix(c) && r.value == v
  {
    match c
    case SetAileron(_) => SetAileron(v)
    case SetElevator(_) => SetElevator(v)
  }

  class FlightGearClient {
    const client: RootTcp.TcpClient

    ghost predicate Valid()
      reads this, client
    {
      client.Valid()
    }

    /** Takes the address and port already parsed, creates the sender and
        starts its thread with exactly one `connect`. */
    constructor (ip: string, port: int)
      ensures Valid() && fresh(client)
      ensures client.ip == ip && client.port == port
      ensures client.queue == [] && client.stream == []
      ensures client.phase == RootTcp.Connecting
    {
      var c := new RootTcp.TcpClient(ip, port);
      var started := c.Connect();
      client := c;
    }

    /** Delegates to `disconnect`: the queue is left holding only the
        sentinel. */
    method Stop()
      requires Valid()
      modifies client
      ensures Valid()
      ensures client.queue == [Sentinel]
      ensures client.phase == old(client.phase) && client.socket == old(client.socket)
      ensures client.stream == old(client.stream)
    {
      client.Disconnect();
    }

    /** Pushes exactly one string, the aileron command for `valueText`. */
    method SetAileron(valueText: string)
      requires Valid()
      modifies client
      ensures Valid()
      ensures client.queue == old(client.queue) + [Encode(FlightGearCommands.SetAileron(valueText))]
      ensures client.phase == old(client.phase) && client.socket == old(client.socket)
      ensures client.stream == old(client.stream)
    {
      var command := AileronPrefix + valueText + Break;
      client.Write(command);
    }

    /** Pushes exactly one string, the elevator command for `valueText`. */
    method SetElevator(valueText: string)
      requires Valid()
      modifies client
      ensures Valid()
      ensures client.queue == old(client.queue) + [Encode(FlightGearCommands.SetElevator(valueText))]
      ensures client.phase == old(client.phase) && client.socket == old(client.socket)
      ensures client.stream == old(client.stream)
    {
      var command := ElevatorPrefix + valueText + Break;
      client.Write(command);
    }
  }

  /** End to end on the root client: an aileron command issued before
      `stop` reaches the wire with the terminator doubled, a command issued
      after `stop` never does, and the socket ends closed. */
  method StopScenario(ip: string, port: int, before: string, after: string)
    returns (sent: seq<string>, closed: bool)
    ensures sent == [AileronPrefix + before + "\n\r\n\r"]
    ensures closed
  {
    var fg := new FlightGearClient(ip, port);
    fg.client.OpenSocket(RootTcp.Connects);
    fg.SetAileron(before);
    ghost var command := Encode(FlightGearCommands.SetAileron(before));
    SentinelFreeSentWhole([command]);
    fg.client.DrainWithoutFaults();
    WireDoublesBreak(FlightGearCommands.SetAileron(before));
    assert RootTcp.Frame(command) == AileronPrefix + before + "\n\r\n\r" by {
      assert Break + Break == "\n\r\n\r";
      assert AileronPrefix + before + Break + Break == AileronPrefix + before + (Break + Break);
    }
    assert fg.client.stream == [RootTcp.Frame(command)];
    fg.Stop();
    fg.SetElevator(after);
    assert UpToSentinel(fg.client.queue) == [];
    fg.client.DrainWithoutFaults();
    sent, closed := fg.client.stream, fg.client.phase == RootTcp.Closed && fg.client.socket == Released;
  }
}
