/** The messages that the three kinds of goroutine exchange over go channels.

    A go channel is a FIFO sequence.  A callback channel carried inside a message
    is represented by the goroutine that owns it: a doppelganger by its
    doppelganger ID, a chat channel goroutine by an instance number that no other
    launch ever gets.  Message wording is left abstract. */
module Wire {

  type DopId = nat    // doppelgangerID, assumed distinct
  type ChatId = int   // chatChannelID: 0 none, -1 join pending, positive a real channel
  type InstId = nat   // one launched chatChannelGoRoutine

  /** What a user said: the originator's user ID and the text. */
  datatype Speech = Speech(user: int, body: string)

  /** doppelganger -> channel master */
  datatype ToMaster =
    | Join(d: DopId, user: int, name: string)
    | Who(c: ChatId, d: DopId)
    | Exit(c: ChatId, d: DopId)

  /** channel master -> doppelganger */
  datatype FromMaster = GenericText | Refused

  /** channel master -> chat channel */
  datatype ToChat =
    | Enter(d: DopId, user: int)
    | Roster(d: DopId)
    | Leave(d: DopId)
    | Shutdown

  /** chat channel -> doppelganger.  Joined carries the go channel on which the
      instance listens to its members, Left the doppelganger that is leaving. */
  datatype FromChat =
    | Denied
    | Joined(c: ChatId, inst: InstId)
    | Notice
    | Said(line: Speech)
    | Left(d: DopId)
}
