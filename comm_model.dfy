/**
 * The records and variants that server and client share (CommModel/CommModel.cs):
 * the endpoint descriptor, the message discriminator and the three envelope kinds.
 */
module CommModel {
  import opened Wrappers

  /** IMCommModel: the identity an endpoint declares, plus the connection id the server assigns. */
  datatype Descriptor = Descriptor(
    connId: string,
    name: string,
    computerName: string,
    ipAddress: string,
    macAddress: string,
    isService: bool)

  /** `new IMCommModel()`: every string empty and the role flag false (a Client). */
  function NewDescriptor(): (d: Descriptor)
    ensures d.connId == "" && d.name == "" && d.computerName == ""
    ensures d.ipAddress == "" && d.macAddress == ""
    ensures !d.isService
  {
    Descriptor("", "", "", "", "", false)
  }

  /** msgType: the envelope discriminator. */
  datatype MsgType = Text | Command | LineState

  /** The wire value of each discriminator. */
  function Code(t: MsgType): (c: int)
    ensures 0 <= c <= 2
  {
    match t
    case Text => 0
    case Command => 1
    case LineState => 2
  }

  /** Reads a wire value back; only 0, 1 and 2 name a discriminator. */
  function FromCode(c: int): (t: Option<MsgType>)
    ensures t.Some? <==> 0 <= c <= 2
    ensures t.Some? ==> Code(t.value) == c
  {
    if c == 0 then Some(Text)
    else if c == 1 then Some(Command)
    else if c == 2 then Some(LineState)
    else None
  }

  lemma CodeRoundTrip(t: MsgType)
    ensures FromCode(Code(t)) == Some(t)
  {
  }

  lemma CodeInjective(a: MsgType, b: MsgType)
    ensures Code(a) == Code(b) ==> a == b
  {
  }

  /**
   * IMCommParamBase: the fields every envelope carries (the timestamp is not modelled).
   * The connection ids are references the source may leave null, hence Option.
   */
  datatype Header = Header(fromConnId: Option<string>, toConnId: Option<string>, isSuccess: bool)

  /** `new IMCommParamBase()`: no sender, the empty recipient, not successful. */
  const NewHeader := Header(None, Some(""), false)

  /**
   * The three envelope classes. Each carries the shared header; the variant is the msgType.
   * The Command payload is generic in the source and opaque here.
   */
  datatype Envelope =
    | TextMsg(header: Header, message: string)
    | CommandMsg(header: Header, data: string)
    | LineStateMsg(header: Header, imModels: seq<Descriptor>, imModel: Option<Descriptor>)

  /** The discriminator of an envelope always agrees with the fields it populates. */
  function MsgTypeOf(e: Envelope): (t: MsgType)
    ensures t == Text <==> e.TextMsg?
    ensures t == Command <==> e.CommandMsg?
    ensures t == LineState <==> e.LineStateMsg?
  {
    match e
    case TextMsg(_, _) => Text
    case CommandMsg(_, _) => Command
    case LineStateMsg(_, _, _) => LineState
  }

  /** IMCommParamLineState.Count: zero exactly when the bulk list is empty. */
  function Count(e: Envelope): (n: nat)
    requires e.LineStateMsg?
    ensures n == 0 <==> e.imModels == []
  {
    |e.imModels|
  }

  /** `new IMCommParamLineState()`: default header, an empty bulk list and no single descriptor. */
  function NewLineState(): (e: Envelope)
    ensures e.LineStateMsg? && e.header == NewHeader
    ensures Count(e) == 0 && e.imModel.None?
  {
    LineStateMsg(NewHeader, [], None)
  }

  /** `new IMCommParamMessage()` with its text set: default header. */
  function NewTextMsg(message: string): (e: Envelope)
    ensures e.TextMsg? && e.header == NewHeader && e.message == message
  {
    TextMsg(NewHeader, message)
  }
}
