/** The text of the two FlightGear property commands the client sends:
    a fixed "set" prefix naming the control surface, the value's text as
    Java's string concatenation renders the double, and the two-character terminator LF, CR (in that order). Both
    versions of FlightGearClient build exactly this text. */
module FlightGearCommands {
  import opened SendQueue

  const AileronPrefix: string := "set controls/flight/aileron "
  const ElevatorPrefix: string := "set controls/flight/elevator "
  /** Line feed followed by carriage return. */
  const Break: string := "\n\r"

  /** A command as the setters issue it. The value is carried as the text
      Java's string concatenation renders for the double (forms such as
      `0.5`, `1.0E-4`, `NaN` or `Infinity`). */
  datatype Command = SetAileron(value: string) | SetElevator(value: string)

  function Prefix(c: Command): string
  {
    match c
    case SetAileron(_) => AileronPrefix
    case SetElevator(_) => ElevatorPrefix
  }

  /** The string a setter hands to the queue. It starts with the control's
      prefix, carries the value text unchanged, ends with LF then CR, and is
      never the disconnect sentinel. */
  function Encode(c: Command): (r: string)
    ensures |r| == |Prefix(c)| + |c.value| + 2
    ensures r[..|Prefix(c)|] == Prefix(c)
    ensures r[|Prefix(c)|..|r| - 2] == c.value
    ensures r[|r| - 2] == '\n' && r[|r| - 1] == '\r'
    ensures r != Sentinel
  {
    Prefix(c) + c.value + Break
  }

  predicate Framed(s: string, prefix: string)
  {
    |s| >= |prefix| + |Break| && s[..|prefix|] == prefix && s[|s| - |Break|..] == Break
  }

  /** How a receiver reads one command back: recognise a prefix and the
      terminator, and take what lies between them as the value. */
  function Decode(s: string): Option<Command>
  {
    if Framed(s, AileronPrefix) then Some(SetAileron(s[|AileronPrefix|..|s| - |Break|]))
    else if Framed(s, ElevatorPrefix) then Some(SetElevator(s[|ElevatorPrefix|..|s| - |Break|]))
    else None
  }

  /** No elevator command can be mistaken for an aileron command: the two
      prefixes differ at position 20 ('a' against 'e'). */
  lemma ElevatorNotAileron(s: string)
    requires |s| >= |ElevatorPrefix| && s[..|ElevatorPrefix|] == ElevatorPrefix
    ensures !Framed(s, AileronPrefix)
  {
    assert s[20] == ElevatorPrefix[20] == 'e';
    assert AileronPrefix[20] == 'a';
    if |s| >= |AileronPrefix| + |Break| {
      assert s[..|AileronPrefix|][20] == s[20];
    }
  }

  /** Every command built by a setter reads back as itself. */
  lemma DecodeEncode(c: Command)
    ensures Decode(Encode(c)) == Some(c)
  {
    var s := Encode(c);
    assert s[|s| - |Break|..] == Break;
    match c
    case SetAileron(v) =>
      assert Framed(s, AileronPrefix);
    case SetElevator(v) =>
      ElevatorNotAileron(s);
      assert Framed(s, ElevatorPrefix);
  }

  /** Conversely, whatever reads back as a command is exactly that command's
      text; so distinct commands never produce the same string. */
  lemma EncodeDecode(s: string, c: Command)
    requires Decode(s) == Some(c)
    ensures Encode(c) == s
  {
  }
}
