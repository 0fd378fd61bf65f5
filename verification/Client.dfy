/** The doppelganger's side of the membership protocol: the fields of userInfo
    that the protocol reads or writes, and one function per kind of main-loop
    iteration.  Every iteration ends, once the user is gone, in the exit
    procedure; `unwinding` marks that the procedure is the next thing to run. */
module Client {
  import opened Options
  import opened Wire

  /** cantExitCount at which the doppelganger stops waiting for an answer. */
  const PATIENCE: nat := 1000

  datatype Dop = Dop(
    id: ChatId,                    // chatChannelID
    link: Option<InstId>,          // chatChannelCallback
    cantExit: bool,                // cantExitBeforeExitMessageFromChannel
    gone: bool,                    // telnetGoroutineHasGoneAway
    rounds: nat,                   // cantExitCount
    unwinding: bool,
    closed: bool,                  // both callback channels closed, goroutine returned
    awaiting: nat,                 // joins and exits sent and not yet answered
    fromMaster: seq<FromMaster>,   // incomingFromChannelMaster
    fromChat: seq<FromChat>)       // incomingFromChatChannel

  const NEW_DOP := Dop(0, None, false, false, 0, false, false, 0, [], [])

  /** One command line, as doCommand sees it; Other stands for every keystroke and
      every command that sends nothing. */
  datatype Command =
    | CmdJoin(user: int, name: string)
    | CmdWho
    | CmdExit
    | CmdSay(line: Speech)
    | CmdOther

  /** What an iteration sends. */
  datatype Out = Nothing | ToTheMaster(m: ToMaster) | Speak(inst: InstId, line: Speech)

  function Answered(d: Dop): Dop {
    d.(awaiting := if d.awaiting == 0 then 0 else d.awaiting - 1)
  }

  /** End of a select case: the exit procedure follows exactly when the user is gone. */
  function Settle(d: Dop, gone: bool): Dop {
    d.(gone := gone, unwinding := gone)
  }

  /** A select case in which user `me` issues `cmd`; `lost` says that a write to the
      user's terminal failed on the way. */
  function Obey(d: Dop, me: DopId, cmd: Command, lost: bool): (Dop, Out) {
    match cmd
    case CmdJoin(user, name) =>
      if d.id > 0 then (Settle(d, d.gone || lost), Nothing)
      else (Settle(d.(id := -1, awaiting := d.awaiting + 1), d.gone), ToTheMaster(Join(me, user, name)))
    case CmdWho =>
      if d.id == 0 || lost then (Settle(d, d.gone || lost), Nothing)
      else (Settle(d, d.gone), ToTheMaster(Who(d.id, me)))
    case CmdExit =>
      if d.id == 0 || lost then (Settle(d, d.gone || lost), Nothing)
      else (Settle(d.(id := 0, cantExit := true, awaiting := d.awaiting + 1), d.gone),
            ToTheMaster(Exit(d.id, me)))
    case CmdSay(line) =>
      if d.id == 0 || lost || d.link.None? then (Settle(d, d.gone || lost), Nothing)
      else (Settle(d, d.gone), Speak(d.link.value, line))
    case CmdOther =>
      (Settle(d, d.gone || lost), Nothing)
  }

  /** The select case for a message from the channel master. */
  function HearMaster(d: Dop, m: FromMaster, lost: bool): Dop {
    var gone := d.gone || lost;
    match m
    case GenericText => Settle(d, gone)
    case Refused =>
      Settle(Answered(d).(id := 0, cantExit := d.cantExit && !gone), gone)
  }

  /** The select case for a message from a chat channel. */
  function HearChat(d: Dop, me: DopId, m: FromChat, lost: bool): Dop {
    var gone := d.gone || lost;
    match m
    case Denied => Settle(Answered(d), gone)
    case Joined(c, inst) =>
      Settle(Answered(d).(id := c, link := Some(inst), cantExit := d.cantExit && !gone), gone)
    case Notice => Settle(d, gone)
    case Said(_) => Settle(d, gone)
    case Left(who) =>
      if who != me then Settle(d, gone)
      else if d.gone then Answered(d).(closed := true)
      else Settle(Answered(d).(id := 0, cantExit := false), gone)
  }

  /** handleChannelExitProcedure, and the close that follows when it says so. */
  function Unwind(d: Dop, me: DopId): (Dop, Out) {
    if d.cantExit then
      (d.(rounds := d.rounds + 1, closed := d.rounds + 1 >= PATIENCE, unwinding := false), Nothing)
    else if d.id == 0 then
      (d.(closed := true, unwinding := false), Nothing)
    else if d.id == -1 then
      (d.(id := 0, cantExit := true, unwinding := false), Nothing)
    else
      (d.(id := 0, cantExit := true, unwinding := false, awaiting := d.awaiting + 1),
       ToTheMaster(Exit(d.id, me)))
  }
}
