# Verification of the chat daemon

The repository is a Telnet chat server written as communicating goroutines, on top of a
modified Telnet library. This project models its three hard parts in Dafny and proves what
its documentation argues for, and a few things that turn out otherwise.

## What is modelled

**The membership and shutdown protocol.** Every connection has a doppelganger goroutine,
every running chat channel a goroutine with the member list, and one channel master keeps
the table of running channels with a member count for each. `Wire` has the messages,
`Client`, `ChatRoom` and `Network` the three kinds of goroutine and the go channels between
them, as one step system. A step is one receive or one send, together with the assignments
to the goroutine's own variables that lie before its next receive or send. A broadcast is
therefore many steps, and anything may happen between two of them. Go's arbitrary order of
iteration over a map is a parameter of the step that begins the loop. Every launch gets an
instance number of its own, so that a goroutine that is still draining is not confused with
its successor. `lost` in a step says that a write to the user's terminal failed on the way.

- `Membership` holds for every run, whatever anybody types and whenever anybody disconnects.
- `Orderly` holds for runs in which users do not type `/join` while a join or an exit is
  unanswered, and no `/who`, `/exit` or speech while the channel id is -1 (join pending), and
  in which the 1000-round give-up does not fire. Users may disconnect at any point.
- `Inquiries`, `Closing`, `Reckoning`, `Isolation` and `Rosters` are about every run again:
  which requests find no channel, over which doppelgangers that have closed their callbacks
  the server panics, and over which rosters.
- `Hazards` has the histories that show why users have to be orderly.
- `Progress` adds the capacities of the go channels and proves that there is no deadlock.
- `Conversation` proves that there is one authoritative conversation, `Farewell` that a
  doppelganger without a user ends, `Capacity` that no list ever exceeds six.
- `Tickets` and `Shutdown` are about the end of orderly runs: who is counted at a channel, and
  that a server whose users are all gone comes to rest with nobody on any channel. `Requests`
  proves that on the way no join, exit or answer is lost.
- `Handling` spells out what every message to the channel master or to a chat channel comes
  to, from its receipt to the last of the sends that it causes.

**Keyboard, login modes and screen.** `Keyboard` is the control-sequence automaton with the
reused line buffer, and the simple line editor that it amounts to. `Console` is one
connection's main loop, byte for byte, including the prompt, the login modes, the commands
and the redraw around incoming messages. `Login` and `Screen` are about all its histories;
`Screen` has a terminal of one cell per printable byte. `Accounts` tells from the lines
entered and the answers of the database who a user becomes, and from the messages heard on
which channel. `Vocabulary` has every command word, as the bytes typed, with the message
sent for it and the bytes written.

**The Telnet codec.** `Telnet` is the decoding and encoding as functions, `DataReader` the
reader that un-escapes in place, `DataWriter` the original escaping writer and the
pass-through writer in use. RFC 854, section "TELNET COMMAND STRUCTURE", and RFC 855 are
the standards behind them.

The parts of the program that change fields in place are classes: `ChatChannel`,
`ChannelMaster`, `Doppelganger`, `DataReader` and `DataWriter`. Their methods are proved
against the functions that the theorems are about. `Doppelganger.UserInfo` has two views of
its one record of fields: `Member()`, which the membership protocol is about, and `Screen()`,
which the console is about. Each of its methods is tied to both.

## Where the code and its documentation part

- README.md:445-529 argues that nothing is sent on a closed go channel and that the count
  cannot go wrong. The counts are right in every run (`Membership.MemberCount`). The rest
  needs users who wait for answers. A `/exit` typed while a join is pending makes the
  channel master return for good (`Hazards.HastyExitHaltsTheMaster`), two joins in a row and
  a disconnect can panic the server (`Hazards.TwoJoinsPanic`), and so can a line spoken
  while a join is pending (`Hazards.EarlySpeechPanics`) or a roster asked of a list that two
  joins and one exit have left empty (`Hazards.RosterOfNobodyPanics`). Exactly when: for the halt
  `Membership.MasterHaltsExactly`, for speech `Membership.SpeechPanicsExactly`,
  for the roster `Rosters.RosterPanicsExactly`. For a
  doppelganger that closes, what matters is whether a queue, a script or a member list still
  names it at that moment. If none does, no run ever sends to it again
  (`Reckoning.ClosingUnnamed`). If one does, the server's own steps, and the join of one more
  user, lead to the panic (`Reckoning.ClosingNamed`), unless it is named only by lists that
  have six members, now or once the joins on their way are dealt with, with no line, exit or
  announcement on its way (`Reckoning.NamedOrDoomed`). Then others decide: any user who is
  there and holds, or is about to be handed, the input of that channel can bring the panic
  about (`Isolation.PresentUserDooms`), and if nobody who has not closed does, no run ever
  sends to it again (`Isolation.UnreachableForGood`).
- README.md:454-468 reports of tests in which the system cleaned itself up. In orderly runs it
  does (`Shutdown.ShutdownIsBounded`, `Shutdown.ShutdownIsComplete`): those who were denied
  while they were leaving are left to give up, as the text says, and for the others it
  depends on their answers coming before the thousandth round.
- A join denied by the chat channel itself leaves the id at -1 (daemon/doppelganger.go:1417-1428),
  unlike one refused by the channel master. The model keeps this: a user who has waited for
  the denial and then types `/exit` halts the channel master all the same
  (`Hazards.ExitAfterDenialHaltsTheMaster`).
- `prevUsrByte` is never assigned, so the second of CR LF is not dropped as the comment at
  daemon/doppelganger.go:962-968 says; it only makes a blank line, which is ignored
  (`Keyboard.EditorIsLineEditor`).
- The documentation thinks that a buffer of 1 on the cycles is enough to prevent deadlock
  (README.md:409-427). For orderly users that is so while the three shared buffers are not
  full: whoever has something to do can do it, or waits for somebody who can
  (`Progress.SomebodyMoves`).

## Model

| member | source | states |
|---|---|---|
| Membership.BooksBalance | daemon/channelmaster.go:94-131 | the invariant of all three kinds of goroutine holds after every possible history: counts, registrations, tickets, Shutdown last in its queue |
| Membership.MemberCount | daemon/channelmaster.go:298-321 | in every run memberCount is the joins queued or undecided at the instance, plus the one in hand, plus the denials on their way back, plus joins accepted less exits forwarded; it is 0 exactly while Shutdown is about to be sent |
| Membership.ListedMember | daemon/chatchannel.go:100-105 | in every run a listed member has been admitted at least once more than the instance has processed its exits |
| Membership.ShutdownFindsNobody | daemon/chatchannel.go:385-393 | Shutdown is only ever processed with an empty member list, as the last message of its queue, by an instance no longer registered, so the complaint about a non-empty list is never logged |
| Membership.UnlistedGoroutine | daemon/channelmaster.go:304-321 | a registered instance is open and has no Shutdown coming; an unregistered one owes nothing and is closed or has Shutdown as the last message of its queue |
| Membership.ClaimsAreCovered | daemon/channelmaster.go:289-305 | a doppelganger's id, its Joined messages and its exits under way never exceed its balance at the registered instance, and refer to no unregistered channel |
| Membership.MasterHaltsExactly | daemon/channelmaster.go:289-296 | the channel master returns if and only if the message taken is an exit with id -1, one sent while a join was pending |
| Membership.LinkIsRegistered | daemon/doppelganger.go:1429-1432 | in every run, while the id is positive, the callback is the open input of the instance now registered for that id |
| Membership.SpeechPanicsExactly | daemon/doppelganger.go:557-568 | speaking sends on a closed go channel if and only if a join is pending and the instance of the channel left last has closed its input |
| Membership.MasterNeverPanics | daemon/channelmaster.go:340-362 | in every run the channel master neither dereferences a missing entry nor sends to an instance that has closed its input |
| Orderly.OrderlyIsPossible | daemon/doppelganger.go:404-411 | orderly runs are runs, so that all that holds of every run holds of them |
| Orderly.OrderlyIsTidy | daemon/doppelganger.go:637-697 | along every orderly run each doppelganger has at most one request or answer out, and where it is agrees with all queues, scripts and member lists |
| Orderly.OrderlyRunsAreSafe | daemon/chatchannel.go:159-195 | in every orderly run nobody sends on a closed go channel, not even in the middle of a broadcast to a doppelganger that is closing, no roster is asked of an empty list, and the channel master does not halt |
| Orderly.ClosedIsForgotten | daemon/doppelganger.go:1486-1492 | once a doppelganger has closed its callbacks no queue, no pending send and no operation of a script is for it, and an instance that still lists it is about to take it off; so `Closing.ForgottenForGood` applies to it |
| Orderly.OneAnswerToCome | daemon/doppelganger.go:411-435 | an orderly user has at most one unanswered request and at most one Joined waiting |
| Orderly.OneChannelAtATime | daemon/doppelganger.go:712-716 | apart from an instance about to take it off, at most one instance lists a doppelganger of an orderly user |
| Hazards.HastyExitHaltsTheMaster | daemon/channelmaster.go:289-296 | a concrete history: join, exit before the answer, and the channel master has returned |
| Hazards.TwoJoinsPanic | daemon/doppelganger.go:405-436 | a concrete history: two joins in a row and a disconnect, and the chat channel sends on a closed callback |
| Hazards.ExitAfterDenialHaltsTheMaster | daemon/doppelganger.go:1417-1428 | an orderly history in which the seventh user of a channel is denied and hears of it, with no answer out; its `/exit` then makes the channel master return |
| Hazards.RosterOfNobodyPanics | daemon/chatchannel.go:211-228 | a concrete history: two joins of one channel, an exit between the two answers, and a roster asked of the empty list |
| Inquiries.WhoFindsNothingExactly | daemon/channelmaster.go:134-176 | in every run the channel master finds no channel to ask for a roster if and only if the request was sent with id -1, with a join pending |
| Closing.PanicsOverExactly | daemon/doppelganger.go:1486-1492 | a step panics over a doppelganger if and only if it has closed its callbacks and the step is the reply to it or an operation addressed to it, other than the roster of an empty list |
| Rosters.DueInTheEnd | daemon/chatchannel.go:376-393 | in every run the list at the turn of the k-th message of a queue is decided by the k messages ahead of it and the script under way, whatever anybody does in the meantime |
| Rosters.RosterPanicsExactly | daemon/chatchannel.go:211-228 | a request for the roster that is k-th in a chat channel's queue panics, when its turn comes, if and only if what is ahead of it leaves the list empty |
| Closing.ForgottenForGood | daemon/doppelganger.go:1524-1531 | in every run, once a doppelganger has closed and no queue, pending send, script or list names it, no continuation, whoever does what, ever sends to it |
| Reckoning.NamedIsServed | daemon/chatchannel.go:159-195 | if something names it, other than a list of six with nothing on its way, the server's own steps, and the join of one more user, lead to a panic or to the channel master's return: by a reply, queue or script that is for it, or by a line, an exit (in whichever queue), an announcement or a free place of a list it is on |
| Reckoning.OnlyDIsToBlame | daemon/chatchannel.go:159-195 | if every other doppelganger that has closed is forgotten and no exit with id -1 is queued, what these steps lead to is the panic over this one, or a roster asked of an empty list |
| Reckoning.NamedOrDoomed | daemon/chatchannel.go:42 | what lies between the two: it is on the list of an open instance that has six members, now or once the joins on their way are dealt with, and no line, no exit and no join that would be announced to it is on its way |
| Isolation.SpeechDooms | daemon/doppelganger.go:557-568 | there, a line spoken by anybody whose callback is the input of that instance and whose id is not 0 leads to a panic |
| Isolation.PresentUserDooms | daemon/doppelganger.go:405-436 | so any user who is there and holds that input, or has a Joined with it waiting, can bring a panic about, by reading, a /join if the id is 0, and a line |
| Isolation.DoomedOrUnreachable | daemon/chatchannel.go:260-270 | if nobody who has not closed holds or is about to be handed the input of a full list it is on, and nobody is about to be put on or taken off that list, it is doomed or unreachable |
| Isolation.UnreachableForGood | daemon/chatchannel.go:42 | in every run, whoever is unreachable is never sent to in any continuation, whoever does what |
| Reckoning.ClosingUnnamed | daemon/doppelganger.go:637-697 | the first half, checked at the state before the closing step: named by nothing, it is never sent to again |
| Reckoning.ClosingNamed | daemon/doppelganger.go:637-697 | the second half, checked at the same state: named and doomed, and the only trouble, it makes the server panic, over this doppelganger or over the roster of an empty list |
| Hazards.EarlySpeechPanics | daemon/doppelganger.go:525-568 | a history orderly up to its last action, speech with a join pending, which is sent on a closed go channel |
| Progress.WaitsLeadDown | README.md:404-427 | in orderly runs the channel master waits only for a live chat channel and a chat channel only for a live doppelganger, which can receive or leave without a key being pressed |
| Progress.WaitsEnd | README.md:404-427 | there is no wait cycle: at most two waits lead to a goroutine that can receive, send or go through its exit procedure |
| Progress.SomebodyMoves | daemon/channelmaster.go:86-89 | in orderly runs, while the shared buffers are not full, every goroutine that has something to do can do it, or at most two waits lead from it to one that can move; key presses and lost terminals do not count as moves; and whatever a doppelganger does, it never waits to send |
| Progress.BoundedRunsStayWithinBounds | daemon/chatchannel.go:335-338 | runs in which no send goes to a full buffer are orderly runs and keep every go channel within its capacity |
| Progress.BoundedRunsGoOn | README.md:404-427 | such a run goes on as such a run by a goroutine's own step while anything is left to do, unless the one to move is a doppelganger that gives up in its thousandth round |
| Conversation.HistoriesAreFaithful | daemon/chatchannel.go:404-407 | in every run, at every instance, what each member was sent agrees with the log, also in the middle of a broadcast |
| Conversation.MembersSeeTheLog | README.md:388-393 | every member has been sent exactly the log from its admission to now, in order, one copy each |
| Conversation.LeaversHaveTheirBlock | daemon/chatchannel.go:155-195 | whoever was taken off the list had been sent exactly a contiguous block of the log |
| Conversation.WhatIsSaidIsKept | daemon/chatchannel.go:394-407 | in every run, what has been logged, is being distributed and still waits at an instance is exactly the lines that users' commands have sent there, in order, once each |
| Conversation.WhatIsSaidIsHeard | README.md:388-393 | what a member has been sent, or had been when it left, is a contiguous block of what was said there, from its admission on; for a member up to the lines still waiting |
| Conversation.ViewsAgree | README.md:388-393 | where two members' views overlap they agree line by line |
| Conversation.DeliveriesAreViews | daemon/chatchannel.go:260-270 | a line sent to a doppelganger goes to a member, into its callback and at the end of its view |
| Conversation.ViewsGrowByDeliveries | daemon/chatchannel.go:260-270 | the view of a member who stays one changes in a step if and only if the step sends a line to it |
| Farewell.EveryTurnCounts | daemon/doppelganger.go:642-656 | once the user is gone, every turn of the main loop ends the goroutine or lowers the measure of answers to come, exit not begun and rounds left |
| Farewell.FarewellIsBounded | daemon/doppelganger.go:1524-1531 | so the goroutine has returned after as many turns as there are Joined answers, one to begin the exit and the rounds left |
| Tickets.OrderlyTickets | daemon/channelmaster.go:298-305 | along every orderly run a doppelganger is counted at an instance at most once, and only while it is on that channel, is about to hear so, or has an exit on its way there; nobody on a channel waits for an exit |
| Tickets.QuietCount | README.md:509-529 | in orderly runs memberCount is the number of members listed, wherever no join, exit or denial of that channel is on its way |
| Shutdown.ShutdownIsBounded | README.md:454-475 | once all users are gone, in every orderly run and interleaving, the steps that the server still takes are at most as many as the weight of what is left to do: queues, scripts, answers and rounds |
| Shutdown.ShutdownIsComplete | README.md:454-475 | when no such step is left, and the shared buffers have room, no channel is listed, all chat channels have returned, nothing is in the channel master's queues and every doppelganger has closed, but for those to whom no answer is out and who give up next; unless some doppelganger gives up with its answer out |
| Requests.NothingIsLost | daemon/doppelganger.go:405-436 | in every orderly run a doppelganger waits for an answer if and only if its join or exit, or the answer to it, is in one of the queues, in hand or in a script |
| Handling.JoinIsAccepted | daemon/chatchannel.go:78-149 | a join with fewer than six listed: the newcomer is listed, told that it has joined and shown the roster, and everyone listed of another user is told, exactly once, and nobody else anything |
| Handling.JoinIsDenied | daemon/chatchannel.go:42-77 | a join with six listed: the list stays, the channel master and the newcomer are told |
| Handling.LeaveIsHandled | daemon/chatchannel.go:155-195 | an exit: everyone listed, the leaver included, is told exactly once and then the leaver is off the list |
| Handling.OthersAreHandled | daemon/chatchannel.go:153-207 | a request for the roster is answered to who asked and to nobody else; a shutdown sends nothing and closes |
| Handling.SpeechIsHandled | daemon/chatchannel.go:394-407 | a line: everyone listed gets exactly it exactly once, nobody else gets anything, and then it is at the end of the log |
| Handling.RefusalSettles | daemon/channelmaster.go:209-269 | a join without a name or of a channel that does not exist: the one who asked is refused, and nothing else happens |
| Handling.LaunchSettles | daemon/channelmaster.go:47-102 | a join of a channel nobody is on: an instance for that channel with nobody listed yet, about to admit the one who asked, registered with a count of one |
| Handling.ForwardSettles | daemon/channelmaster.go:103-176 | a join of or a question about a channel that is registered: at the end of the queue of the instance registered for it, with one more in the count for a join |
| ChatChannel.PerformAllRolls | daemon/chatchannel.go:39-209 | an instance of the network that works off its script ends with the list and the log that the script comes to, however far apart the steps are |
| ChatChannel.WorkOffPosts | daemon/chatchannel.go:39-209 | and what it sends is what the script posts, in that order, to those it is for |
| ChatChannel.BroadcastReachesAll | daemon/chatchannel.go:260-270 | a broadcast is one copy for each of the order it runs through, which lists every member once |
| Capacity.AtMostSix | daemon/chatchannel.go:42 | in every run no instance ever lists more than 6, and there is a place for whoever is about to be admitted |
| ChatChannel.ChatChannelInfo.constructor | daemon/chatchannel.go:313-371 | the launch: list, log and messages sent are those of the first join |
| ChatChannel.ChatChannelInfo.ProcessMessageFromChannelMaster | daemon/chatchannel.go:39-209 | list, log and messages sent, in order, are those of the script for the message; it panics exactly at the roster of an empty list |
| ChatChannel.ChatChannelInfo.DistributeMessageToEveryoneInChatChannel | daemon/chatchannel.go:260-270 | the loop over the list sends the broadcast in some order in which each member occurs once |
| ChatChannel.ChatChannelInfo.AnnounceJoin | daemon/chatchannel.go:126-149 | the loop over the list tells exactly the members with another user ID, each once |
| ChatChannel.ChatChannelInfo.ReceiveFromChannelMaster | daemon/chatchannel.go:376-393 | one message is taken and processed; the inputs are closed exactly by Shutdown |
| ChatChannel.ChatChannelInfo.ReceiveFromDoppelganger | daemon/chatchannel.go:394-407 | one line is taken, sent to everyone listed and then logged |
| ChannelMaster.Master.Discount | daemon/channelmaster.go:304-322 | one member fewer; the last one out sends Shutdown and strikes the channel off |
| ChannelMaster.Master.HandleDoppelganger | daemon/channelmaster.go:208-324 | in any network with this table, taking the message and making all sends step by step leads to the new table and to where the method's sends arrive; it halts exactly on an exit for an id not on the table |
| ChannelMaster.Master.HandleChatChannel | daemon/channelmaster.go:340-363 | the same for a join denial, with the panic exactly when the channel is not on the table |
| ChannelMaster.ExitSettles | daemon/channelmaster.go:298-322 | in the network, an exit of the last member ends in Leave, then Shutdown, then removal, and any other in Leave and a lower count |
| Keyboard.EditorIsLineEditor | daemon/doppelganger.go:909-1084 | for every stream of bytes the lines dispatched are those of a line editor that drops escape triples, erases on the left arrow and splits at CR or LF, in spite of stale bytes past the cursor and blank lines left in the buffer |
| Keyboard.EditorRefinesLines | daemon/doppelganger.go:1038-1084 | the same from any state of the buffer: what lies before the cursor is blanks and the line being edited |
| Keyboard.LineIsDispatched | daemon/doppelganger.go:1062-1085 | typing a line, with blanks around it, and a 10 or a 13 dispatches that line without the blanks, and what follows is treated as on a fresh connection |
| Keyboard.TrimParts | daemon/helper.go:23-25 | trimming takes bytes 32, 9, 10 and 13 off both ends, as many as there are, and nothing else |
| Keyboard.OneTrim | daemon/helper.go:23-25 | there is only one way to do that |
| Keyboard.PressTriple | daemon/doppelganger.go:915-949 | ESC and two bytes change nothing but by ESC [ D, which erases |
| Console.SpeechIsSpoken | daemon/doppelganger.go:1280-1297 | a line that is no command, one after an apostrophe and one after /say mean the same speech; a semicolon stands for /emote |
| Vocabulary.WhoAsks | daemon/doppelganger.go:439-475 | /who on a channel sends the channel master a Who with that channel and the user's doppelganger; on none it sends nothing and says so |
| Vocabulary.ExitLeaves | daemon/doppelganger.go:477-524 | /exit on a channel sends an Exit with that channel and the user's doppelganger, and the user is on none from then on; on none it sends nothing and says so |
| Vocabulary.JoinAsks | daemon/doppelganger.go:384-438 | /join sends a Join with the doppelganger, the user ID and the bytes typed after the word, less white space around them; on a channel it sends nothing and says so |
| Vocabulary.TalkIsSaid | daemon/doppelganger.go:304-315 | /say, /think, /sing and /emote on a channel send it one line under the user's ID: the user's name, the words that belong to the command, and what was typed, byte for byte; the typing is erased |
| Vocabulary.ShortTalkIsSaid | daemon/doppelganger.go:1285-1290 | the same for an apostrophe, as /say, and a semicolon, as /emote |
| Vocabulary.PlainTalkIsSaid | daemon/doppelganger.go:1291-1296 | and for a line that begins with neither of them nor with a slash, as /say |
| Vocabulary.CreateAsks | daemon/doppelganger.go:319-353 | /create asks for a channel of the name typed, less one # before it, and sends nothing to any goroutine; without a name it says so |
| Vocabulary.ListTells | daemon/doppelganger.go:354-383 | /list writes one channel a line, each behind a # |
| Vocabulary.HelpTells | daemon/doppelganger.go:571-573 | /help writes the help text |
| Vocabulary.UnknownIsToldBack | daemon/doppelganger.go:574-583 | any other word behind a slash sends nothing and is told back to the user |
| Vocabulary.TalkIsRelayed | daemon/doppelganger.go:594-623 | a line so sent appears byte for byte on the terminal of whoever hears it, in the place of prompt and typing |
| Vocabulary.NewsIsTold | daemon/doppelganger.go:1405-1523 | every other message is written where it belongs, denials and joins with the words before them |
| Vocabulary.NewsMovesTheUser | daemon/doppelganger.go:1376-1523 | and sets the user's channel exactly for a refusal, a join and the own exit |
| Vocabulary.PromptsAreShown | daemon/doppelganger.go:794-871 | the prompt of every mode, word by word, and no echo in the three password modes |
| Vocabulary.PromptNamesTheRoom | daemon/doppelganger.go:842-856 | over every history the channel name in the prompt is that of the channel joined last, until the user leaves |
| Vocabulary.LoginReplies | daemon/doppelganger.go:1088-1273 | what is written for a line entered in each login mode |
| Accounts.LinesLead | daemon/doppelganger.go:1088-1273 | the mode, names and request that a line entered in each mode leads to, by the line and the answer of the database |
| Accounts.NameWasGiven | daemon/doppelganger.go:1089-1143 | over every history: whoever is asked for a password has entered a name that exists, whoever is asked about a new account one that does not, as the last line |
| Accounts.AccountsAreAskedFor | daemon/doppelganger.go:1144-1237 | an account is made only under a name that was entered when there was no such user, with a line that began with Y or y as the next |
| Accounts.LoggedInAs | daemon/doppelganger.go:1238-1273 | whoever gives commands has entered a name that exists and then one line, and has the ID and the name that the database gave for them |
| Accounts.RoomIsTheOneJoined | daemon/doppelganger.go:1429-1432 | a user is on a channel, by this ID and name, if and only if the last news about it was of having joined it under them |
| Login.LoginIsSound | daemon/doppelganger.go:1089-1273 | over every history, at every select: giving commands is being logged in, so doCommand's branches for users who are not logged in are never reached; being on a channel means giving commands; echo is off exactly in the three password modes |
| Login.AccountsAreConfirmed | daemon/doppelganger.go:1170-1237 | an account is made only of a password of four bytes or more that ended one line in the first password mode and the next line in the second, with no other line in between |
| Login.PasswordsNeverShow | daemon/doppelganger.go:986-1034 | two histories that differ only in what is typed as passwords, with the same verdicts on them, write the same bytes to the terminal |
| Login.PasswordKeysAreSilent | daemon/doppelganger.go:806-841 | a key typed in a password mode writes nothing |
| Screen.ScreenIsReading | daemon/doppelganger.go:594-623 | over every history the terminal shows the lines of the transcript, each at most followed by blanks, and the typing with only blanks to its right |
| Screen.PromptAndTyping | daemon/doppelganger.go:842-856 | while a user gives commands, left of the cursor stand exactly the prompt and what has been typed, unless a request to join was typed and since then nothing has been heard and no other line has brought a prompt; promptLen is the prompt's length |
| Screen.TalkLeavesTheMessages | daemon/doppelganger.go:525-568 | however typing, speech and messages are interleaved on a channel, the transcript grows by exactly the messages that came in, in order |
| Screen.TalkOnTheTerminal | daemon/doppelganger.go:594-623 | and so does the terminal: the lines completed before are still there, and below them stand the messages, one line each, at most followed by blanks |
| Screen.ShowsErase | daemon/doppelganger.go:266-282 | n copies of backspace, blank, backspace blank exactly the last n cells |
| Screen.ShowsInstead | daemon/doppelganger.go:594-623 | erasing prompt and typing and writing a message completes a line with that message alone |
| Doppelganger.UserInfo.BackspaceOut | daemon/doppelganger.go:266-282 | the memoised buffer stays a repetition of 8, 32, 8, grows to the longest run asked for, and exactly `amount` copies are written |
| Doppelganger.UserInfo.ShowPrompt | daemon/doppelganger.go:794-871 | the prompt of the mode is written if one is due, promptLen and echo are set for it, and a failed write makes the user gone |
| Doppelganger.UserInfo.GenericTextOutput | daemon/doppelganger.go:594-623 | prompt and typing are erased and the message written, without a change to any other field; a failed write is reported, but for the erasing of the user's own message |
| Doppelganger.UserInfo.Sieve | daemon/doppelganger.go:909-980 | the three-byte array with its position steps as the automaton over the pending bytes |
| Doppelganger.UserInfo.EchoByte | daemon/doppelganger.go:986-1034 | echo of a byte by mode and column, nothing for a return; the user is gone if and only if it was so or the write failed |
| Doppelganger.UserInfo.EditLine | daemon/doppelganger.go:1038-1061 | the line buffer, overwritten or extended at the cursor |
| Doppelganger.UserInfo.DoCommand | daemon/doppelganger.go:287-586 | every command is the protocol step that its meaning stands for, whether or not a write fails on the way, and the terminal gets the reply of the console; an error is returned if and only if a write failed |
| Doppelganger.UserInfo.HandleLine | daemon/doppelganger.go:1086-1332 | a line, by mode: the login modes do not touch the membership protocol, and a command is the protocol step for the line given, also after a failed write; a failed write makes the user gone, but for the one that is overlooked after the second password |
| Doppelganger.UserInfo.ReceiveByte | daemon/doppelganger.go:877-1333 | one key is one step of the membership protocol, with the command that the line typed amounts to, also after a failed write, and one step of the console; the user is gone afterwards by ^C, ^D, the closed go channel or a failed write, and by nothing else |
| Doppelganger.UserInfo.ReceiveFromChannelMaster | daemon/doppelganger.go:1334-1404 | one message is one step of the membership protocol and one of the console; a failed write makes the user gone |
| Doppelganger.UserInfo.ReceiveFromChatChannel | daemon/doppelganger.go:1405-1523 | the same for a message from a chat channel, but for a failure to erase for the user's own line, which is overlooked; the own exit coming back to a doppelganger without a user closes it |
| Doppelganger.UserInfo.HandleChannelExitProcedure | daemon/doppelganger.go:637-697 | the exit procedure is the protocol's unwinding step, and says whether to end |
| Doppelganger.UserInfo.EndIteration | daemon/doppelganger.go:1524-1531 | every iteration ends in the exit procedure exactly when the user is gone, and closes when it says so |
| Telnet.ReadsAreOneRead | go-telnet-mod/data_reader.go:73-168 | however a stream is cut into reads, data, error and remainder are those of one decoding |
| Telnet.ReadsToTheEnd | go-telnet-mod/data_reader.go:87-93 | reads with enough room in all deliver the full decoding up to the first error |
| Telnet.DecodeIsPrefix | go-telnet-mod/data_reader.go:85-93 | a read limited by its buffer delivers a prefix of the full decoding |
| Telnet.TokensRoundTrip | go-telnet-mod/data_reader.go:95-158 | any list of data bytes, option triples, subnegotiations with any parameters and stray ends of one is decoded to exactly its data bytes, whatever follows |
| Telnet.StreamsAreDecoded | go-telnet-mod/data_reader.go:85-160 | what any stream is decoded to, in bytes: its data; at an IAC and a byte that is no command errCorrupted, with that byte and the rest left unread; the end of the stream otherwise, also within a command or a subnegotiation |
| Telnet.EveryStream | go-telnet-mod/data_reader.go:85-160 | every stream has that form, so that the former says all |
| Telnet.GarbledStops | go-telnet-mod/data_reader.go:153-157 | in particular for escaped data, an IAC and any such byte |
| Telnet.EscapeRoundTrip | go-telnet-mod/data_writer_go.bak:94-142 | what is escaped is read back as it was, for all data |
| Telnet.UnescapedRoundTripExactly | go-telnet-mod/data_writer.go:88-106 | what is passed through unescaped is read back as it was if and only if there is no IAC in it |
| DataReader.InternalDataReader.Read | go-telnet-mod/data_reader.go:73-168 | the loop fills the buffer in place with the decoding limited to its length, leaves the rest of it alone, and leaves unread exactly what that decoding leaves; every iteration shortens what is left to read |
| DataReader.InternalDataReader.TakeCommand | go-telnet-mod/data_reader.go:95-158 | what follows an IAC is skipped, or is a doubled IAC, or ends the read, as in the decoding |
| DataReader.InternalDataReader.SkipSubnegotiation | go-telnet-mod/data_reader.go:118-147 | the inner loop stops behind IAC SE and nowhere else |
| DataWriter.EscapingWriter.Write | go-telnet-mod/data_writer_go.bak:94-142 | on every return what is on the wire is the escaped form of the first n bytes for the n returned, all of them without an error; on the panic one IAC at most is left over |
| DataWriter.PassThroughWriter.Write | go-telnet-mod/data_writer.go:88-106 | what is on the wire is the first n bytes for the n returned |
| DataWriter.WrittenIsRead | go-telnet-mod/data_writer_go.bak:94-142 | what the escaping writer reports as written is what the reader delivers, whatever cut the write short |

## Left out

- Reckoning.NamedIsServed: says nothing of a doppelganger that is only on lists of six with nothing on its way. `Isolation` settles it where a user who is there has the input, and where nobody has; open is the case of a full list of which only doppelgangers without a user still have the input, or which someone is about to be put on who causes no announcement.
- Shutdown.ShutdownIsComplete: says nothing once a doppelganger is in its last round with an answer out; what giving up then leads to is the subject of `Reckoning`.
- Orderly.OrderlyRunsAreSafe: a sufficient condition; the exact ones are those of the single failures, at the step or the moment of closing.
- Screen.ScreenIsReading: for text and names of printable bytes, one cell each; line wrap, multi-byte characters and bytes of 255 on the screen are not modelled.
- Doppelganger.UserInfo.ReceiveByte: says nothing about the bytes on the wire and the console's fields after a write has failed, only about the membership protocol and the request made.
- ChannelMaster.Master.HandleDoppelganger: the table holds entries as values, not pointers; nothing else in the program holds such a pointer.
- The database and password hashing: lookups are parameters of the steps (a channel name's id, whether a user exists, the account a password opens), and database errors do not happen.
- The wording of most replies, of the help text and of the messages between goroutines other than what users say: parameters, where the screen needs the bytes.
- Sockets, TLS, the Telnet server loop, the shell, echo and caller handlers, loggers and contexts.
- Writes to the network other than through the long write's contract: it puts a prefix on the wire and reports its length.
- Clocks, sleeps, the heartbeat, the log file; the conversation log is the sequence of user messages, without the JOINED and EXITED lines.
- Doppelganger IDs are taken to be distinct, and user and channel IDs unbounded.
- Doppelgangers before the first use of the membership protocol are not in the network; their login is in `Console`.
- The sending of Telnet option bytes and of the welcome text before the first prompt.
- Branches for nil go channels, which log and, in the channel master (daemon/channelmaster.go:219-225, 238-244, 255-261, 281-287), return for good, and for unknown operation codes, which only log: the go channels are always made and the codes always known.
