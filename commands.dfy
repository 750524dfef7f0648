/** The two command vocabularies: the text tokens of the BLE characteristic and
    the command ids of the voice recognizer, and the printable-character filter
    applied to BLE payloads. */
module Commands {
  import opened Units
  import opened Leds

  datatype Option<T> = None | Some(value: T)

  /** `isprint` in the C locale: the ASCII characters from space to tilde.
      Bytes from 0x80 up are not printable. */
  predicate IsPrint(b: Byte)
  {
    0x20 <= b <= 0x7E
  }

  /** The payload with every non-printable byte removed, the others kept in
      order, each read as a character. */
  function Printable(payload: seq<Byte>): (msg: string)
    ensures |msg| <= |payload|
    ensures forall i :: 0 <= i < |msg| ==> ' ' <= msg[i] <= '~'
    decreases |payload|
  {
    if payload == [] then []
    else (if IsPrint(payload[0]) then [payload[0] as char] else []) + Printable(payload[1..])
  }

  /** The bytes of a text, one per character (its low eight bits); for an
      ASCII text, its ASCII codes. */
  function Ascii(text: string): (payload: seq<Byte>)
    ensures |payload| == |text|
    ensures forall i :: 0 <= i < |text| && text[i] as int < 256 ==> payload[i] == text[i] as int
  {
    seq(|text|, i requires 0 <= i < |text| => text[i] as int % 256)
  }

  /** Filtering distributes over concatenation: a byte's fate does not depend on
      its neighbours. */
  lemma {:induction false} PrintableConcat(p: seq<Byte>, q: seq<Byte>)
    ensures Printable(p + q) == Printable(p) + Printable(q)
    decreases |p|
  {
    if p == [] {
      assert p + q == q;
    } else {
      assert (p + q)[0] == p[0];
      assert (p + q)[1..] == p[1..] + q;
      PrintableConcat(p[1..], q);
    }
  }

  /** A printable text sent as its bytes survives the filter unchanged. */
  lemma {:induction false} PrintableAscii(text: string)
    requires forall i :: 0 <= i < |text| ==> ' ' <= text[i] <= '~'
    ensures Printable(Ascii(text)) == text
    decreases |text|
  {
    if text != [] {
      assert Ascii(text)[1..] == Ascii(text[1..]);
      PrintableAscii(text[1..]);
    }
  }

  /** Non-printable bytes are invisible: appending control bytes (a trailing
      carriage return and line feed, say) leaves the filtered message as it was. */
  lemma {:induction false} ControlBytesDropped(p: seq<Byte>, noise: seq<Byte>)
    requires forall i :: 0 <= i < |noise| ==> !IsPrint(noise[i])
    ensures Printable(p + noise) == Printable(p)
    decreases |noise|
  {
    PrintableConcat(p, noise);
    if noise != [] {
      PrintableConcat([noise[0]], noise[1..]);
      assert [noise[0]] + noise[1..] == noise;
      ControlBytesDropped([], noise[1..]);
      assert [] + noise[1..] == noise[1..];
    }
  }

  /** The loop of the BLE write handler that rebuilds `MSG` from the payload. */
  method KeepPrintable(value: seq<Byte>) returns (msg: string)
    ensures msg == Printable(value)
  {
    msg := "";
    for i := 0 to |value|
      invariant msg == Printable(value[..i])
    {
      if IsPrint(value[i]) {
        msg := msg + [value[i] as char];
      }
      PrintableConcat(value[..i], [value[i]]);
      assert value[..i + 1] == value[..i] + [value[i]];
    }
    assert value[..|value|] == value;
  }

  /** What a recognised command does; the nine colour commands differ only in
      the colour they arm. */
  datatype Command = SolidColour(name: ColourName) | Water | Off | BT | Rotate | Stop

  /** The BLE text that selects each command. */
  function Token(c: Command): string
  {
    match c
    case SolidColour(n) => (
      match n
      case White => "white"
      case Red => "red"
      case Orange => "orange"
      case Yellow => "yellow"
      case Green => "green"
      case Cyan => "cyan"
      case Blue => "blue"
      case Purple => "purple"
      case Pink => "pink")
    case Water => "water"
    case Off => "off"
    case BT => "BT"
    case Rotate => "rotate"
    case Stop => "stop"
  }

  /** The comparison chain of the BLE write handler: a message selects a command
      exactly when it is that command's token, and any other message selects
      nothing. */
  function Parse(msg: string): (r: Option<Command>)
    ensures r.Some? ==> Token(r.value) == msg
    ensures r.None? ==> forall c: Command :: Token(c) != msg
  {
    if msg == "white" then Some(SolidColour(White))
    else if msg == "red" then Some(SolidColour(Red))
    else if msg == "orange" then Some(SolidColour(Orange))
    else if msg == "yellow" then Some(SolidColour(Yellow))
    else if msg == "green" then Some(SolidColour(Green))
    else if msg == "cyan" then Some(SolidColour(Cyan))
    else if msg == "blue" then Some(SolidColour(Blue))
    else if msg == "purple" then Some(SolidColour(Purple))
    else if msg == "pink" then Some(SolidColour(Pink))
    else if msg == "water" then Some(Water)
    else if msg == "off" then Some(Off)
    else if msg == "BT" then Some(BT)
    else if msg == "rotate" then Some(Rotate)
    else if msg == "stop" then Some(Stop)
    else None
  }

  /** Every command is reachable by its token, so the token table is a
      one-to-one naming of the fourteen commands. */
  lemma ParseToken(c: Command)
    ensures Parse(Token(c)) == Some(c)
  {
  }

  /** Every token is printable ASCII, so it can be sent as bytes. */
  lemma TokenPrintable(c: Command)
    ensures forall i :: 0 <= i < |Token(c)| ==> ' ' <= Token(c)[i] <= '~'
  {
  }

  /** The voice commands, in the order of their ids 0-3. */
  const VOICE_TOKENS: seq<string> := ["white", "off", "rotate", "stop"]

  /** The `command_id` switch of the voice callback: ids 0, 1, 2, 3 turn the
      light on (white), turn it off, start and stop the motor; each is the same
      transition as the BLE token of that meaning, and every other id selects
      nothing. */
  function VoiceCommand(commandId: int): (r: Option<Command>)
    ensures r.Some? <==> 0 <= commandId < |VOICE_TOKENS|
    ensures r.Some? ==> r == Parse(VOICE_TOKENS[commandId])
  {
    match commandId
    case 0 => Some(SolidColour(White))
    case 1 => Some(Off)
    case 2 => Some(Rotate)
    case 3 => Some(Stop)
    case _ => None
  }

  /** An entry of the recognizer's phrase table. */
  datatype SrPhrase = SrPhrase(commandId: int, text: string, phonemes: string)

  const SR_COMMANDS: seq<SrPhrase> := [
    SrPhrase(0, "Turn on the light", "TkN nN jc LiT"),
    SrPhrase(0, "Switch on the light", "SWgp nN jc LiT"),
    SrPhrase(1, "Turn off the light", "TkN eF jc LiT"),
    SrPhrase(1, "Switch off the light", "SWgp eF jc LiT"),
    SrPhrase(1, "Go dark", "Gb DnRK"),
    SrPhrase(2, "Start fan", "STnRT FaN"),
    SrPhrase(3, "Stop fan", "STnP FaN")
  ]

  /** Every phrase the recognizer can report names a command the callback knows,
      and each of the four commands has a phrase. */
  lemma SrCommandsCovered()
    ensures forall i :: 0 <= i < |SR_COMMANDS| ==> VoiceCommand(SR_COMMANDS[i].commandId).Some?
    ensures forall id :: VoiceCommand(id).Some? ==> exists i :: 0 <= i < |SR_COMMANDS| && SR_COMMANDS[i].commandId == id
  {
    forall id | VoiceCommand(id).Some?
      ensures exists i :: 0 <= i < |SR_COMMANDS| && SR_COMMANDS[i].commandId == id
    {
      var i := if id == 0 then 0 else if id == 1 then 2 else if id == 2 then 5 else 6;
      assert SR_COMMANDS[i].commandId == id;
    }
  }
}
