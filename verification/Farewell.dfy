/** A doppelganger whose user is gone does not linger for ever. */
module Farewell {
  import opened Wire
  import opened Client

  /** What can make the main loop turn when no user command runs. */
  datatype Event = Key(lost: bool) | MasterSays(r: FromMaster, lost: bool) | ChatSays(m: FromChat, lost: bool)

  function Hear(x: Dop, me: DopId, e: Event): Dop {
    match e
    case Key(lost) => Obey(x, me, CmdOther, lost).0
    case MasterSays(r, lost) => HearMaster(x, r, lost)
    case ChatSays(m, lost) => HearChat(x, me, m, lost)
  }

  /** One turn of the main loop: a select case, and the exit procedure once the user is gone. */
  function Turn(x: Dop, me: DopId, e: Event): Dop {
    var y := Hear(x, me, e);
    if !y.closed && y.unwinding then Unwind(y, me).0 else y
  }

  function Turns(x: Dop, me: DopId, es: seq<Event>): Dop
    decreases |es|
  {
    if es == [] || x.closed then x else Turns(Turn(x, me, es[0]), me, es[1..])
  }

  function Welcomes(es: seq<Event>): nat {
    if es == [] then 0 else (if es[0].ChatSays? && es[0].m.Joined? then 1 else 0) + Welcomes(es[1..])
  }

  function NotYetLeaving(x: Dop): nat { if x.cantExit then 0 else 1 }

  /** Every turn ends the goroutine, or lowers the measure: Joined answers still to come
      and the exit not yet begun, then the rounds left. */
  lemma EveryTurnCounts(x: Dop, me: DopId, e: Event, joins: nat)
    requires x.gone && !x.closed && x.rounds < PATIENCE
    requires e.ChatSays? && e.m.Joined? ==> 0 < joins
    ensures var y := Turn(x, me, e);
      var left := if e.ChatSays? && e.m.Joined? then joins - 1 else joins;
      y.gone && (y.closed ||
        (y.rounds < PATIENCE
         && (left + NotYetLeaving(y) < joins + NotYetLeaving(x)
             || (left + NotYetLeaving(y) == joins + NotYetLeaving(x) && PATIENCE - y.rounds < PATIENCE - x.rounds))
         && x.rounds <= y.rounds))
  {
  }

  /** So after as many turns as there are Joined answers among them, one to begin the
      exit and the rounds left, the goroutine has closed its callbacks and returned. */
  lemma {:induction false} FarewellIsBounded(x: Dop, me: DopId, es: seq<Event>)
    requires x.gone && x.rounds < PATIENCE
    requires |es| >= Welcomes(es) + NotYetLeaving(x) + PATIENCE - x.rounds
    ensures Turns(x, me, es).closed
    decreases |es|
  {
    if !x.closed {
      EveryTurnCounts(x, me, es[0], Welcomes(es));
      var y := Turn(x, me, es[0]);
      if !y.closed { FarewellIsBounded(y, me, es[1..]); }
    }
  }
}
