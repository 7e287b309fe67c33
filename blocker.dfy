/**
 * `createNavigationBlocker`: `block(message)` asks the history to block transitions and keeps the
 * unblock function it returns; `unblock()` calls it; a blocked transition is recorded and the
 * user is asked to confirm; on confirmation the blocker unblocks and retries the transition.
 */
module NavigationBlocker {
  import opened Wrappers

  /** Calls made to the outside world: the history, the unblock function, the transition, `confirm`. */
  datatype Effect = HistoryBlock | CallUnblock(unblocker: nat) | Retry(transition: nat) | AskConfirm(message: string)

  /** Public events (`blocked`, `unblocked`, `leaveConfirmed`) and the confirmation's failure. */
  datatype Notice = Blocked(unblocker: nat) | Unblocked | LeaveConfirmed | LeaveNotConfirmed

  /** The stores: `$unblocker` (a function or null), `$transition`, `$confirmationMessage`. */
  datatype State = State(unblocker: Option<nat>, transition: Option<nat>, message: string)

  datatype Outcome = Outcome(next: State, effects: seq<Effect>, notices: seq<Notice>)

  const DefaultMessage := "Are you sure?"

  function Initial(): State
  {
    State(None, None, DefaultMessage)
  }

  /** `$isBlocked`, that is `Boolean($unblocker)`. */
  predicate IsBlocked(s: State)
  {
    s.unblocker.Some?
  }

  /**
   * `block(message)`. Ignored while blocked. Otherwise the message is stored and the history is
   * asked to block; `history` is the unblock function it returns, `None` when the domain has no
   * history yet (the effect then fails and nothing is blocked).
   */
  function Block(s: State, message: string, history: Option<nat>): (o: Outcome)
    ensures IsBlocked(s) ==> o == Outcome(s, [], [])
    ensures !IsBlocked(s) ==> o.next.message == message && o.next.transition == s.transition
    ensures !IsBlocked(s) ==> o.next.unblocker == history
    ensures !IsBlocked(s) && history.Some? ==> o.effects == [HistoryBlock] && o.notices == [Blocked(history.value)]
    ensures !IsBlocked(s) && history.None? ==> o.notices == []
  {
    if IsBlocked(s) then Outcome(s, [], [])
    else
      var s1 := s.(message := message);
      match history
      case None => Outcome(s1, [], [])
      case Some(fn) => Outcome(s1.(unblocker := Some(fn)), [HistoryBlock], [Blocked(fn)])
  }

  /** `unblock()`. Ignored unless blocked; otherwise the unblock function is called and `$unblocker` reset. */
  function Unblock(s: State): (o: Outcome)
    ensures !IsBlocked(s) ==> o == Outcome(s, [], [])
    ensures IsBlocked(s) ==> o == Outcome(s.(unblocker := None), [CallUnblock(s.unblocker.value)], [Unblocked])
  {
    match s.unblocker
    case None => Outcome(s, [], [])
    case Some(fn) => Outcome(s.(unblocker := None), [CallUnblock(fn)], [Unblocked])
  }

  /**
   * The history reports a blocked `transition`. It is stored and `confirm(message)` is asked;
   * `answer` is the user's answer, `None` where `confirm` does not exist. Only a `true` answer
   * goes on: the unblock function is called (which fails when there is none) and the transition
   * is retried.
   */
  function TransitionBlocked(s: State, transition: nat, answer: Option<bool>): (o: Outcome)
    ensures o.next.transition == Some(transition) && o.next.message == s.message
    ensures answer != Some(true) ==> o.next.unblocker == s.unblocker && o.notices == [LeaveNotConfirmed]
    ensures answer != Some(true) ==> o.effects == (if answer.Some? then [AskConfirm(s.message)] else [])
    ensures answer == Some(true) && IsBlocked(s) ==>
      o.next.unblocker == None && o.notices == [Unblocked, LeaveConfirmed] &&
      o.effects == [AskConfirm(s.message), CallUnblock(s.unblocker.value), Retry(transition)]
    ensures answer == Some(true) && !IsBlocked(s) ==> o.next.unblocker == None && o.notices == [] && o.effects == [AskConfirm(s.message)]
  {
    var s1 := s.(transition := Some(transition));
    var asked := if answer.Some? then [AskConfirm(s.message)] else [];
    if answer != Some(true) then Outcome(s1, asked, [LeaveNotConfirmed])
    else match s.unblocker
      case None => Outcome(s1, asked, [])
      case Some(fn) => Outcome(s1.(unblocker := None), asked + [CallUnblock(fn), Retry(transition)], [Unblocked, LeaveConfirmed])
  }

  /** Any retried transition is the one the history reported in this very call. */
  lemma RetryOnlyAfterConfirm(s: State, transition: nat, answer: Option<bool>, t: nat)
    requires Retry(t) in TransitionBlocked(s, transition, answer).effects
    ensures t == transition && answer == Some(true) && IsBlocked(s)
  {
  }

  /** `block` followed by `unblock` leaves the blocker unblocked and calls the function the history returned. */
  lemma BlockThenUnblock(s: State, message: string, fn: nat)
    requires !IsBlocked(s)
    ensures var b := Block(s, message, Some(fn));
            var u := Unblock(b.next);
            !IsBlocked(u.next) && u.effects == [CallUnblock(fn)] && u.next.message == message
  {
  }

  /** A second `block` while blocked keeps the first message and the first unblock function. */
  lemma BlockIdempotent(s: State, m1: string, m2: string, fn1: nat, h: Option<nat>)
    requires !IsBlocked(s)
    ensures var b1 := Block(s, m1, Some(fn1));
            Block(b1.next, m2, h).next == b1.next
  {
  }

  /** The confirmation shown for a blocked transition carries the message of the `block` call that blocked it. */
  lemma ConfirmShowsBlockMessage(s: State, message: string, fn: nat, transition: nat, answer: bool)
    requires !IsBlocked(s)
    ensures var b := Block(s, message, Some(fn));
            TransitionBlocked(b.next, transition, Some(answer)).effects[0] == AskConfirm(message)
  {
  }

  /** `unblock` always ends unblocked. */
  lemma UnblockEndsUnblocked(s: State)
    ensures !IsBlocked(Unblock(s).next) && Unblock(s).next.message == s.message
  {
  }

  class Blocker {
    var unblocker: Option<nat>
    var transition: Option<nat>
    var message: string

    function Current(): State
      reads this
    {
      State(unblocker, transition, message)
    }

    constructor ()
      ensures Current() == Initial()
    {
      unblocker := None;
      transition := None;
      message := DefaultMessage;
    }

    /** `block(message)`: the filter on `$isBlocked`, then the message store and the history effect. */
    method BlockRequested(m: string, history: Option<nat>) returns (effects: seq<Effect>, notices: seq<Notice>)
      modifies this
      ensures Outcome(Current(), effects, notices) == Block(old(Current()), m, history)
    {
      effects, notices := [], [];
      if unblocker.None? {
        message := m;
        if history.Some? {
          effects := [HistoryBlock];
          unblocker := history;
          notices := [Blocked(history.value)];
        }
      }
    }

    /** `unblock()`. */
    method UnblockRequested() returns (effects: seq<Effect>, notices: seq<Notice>)
      modifies this
      ensures Outcome(Current(), effects, notices) == Unblock(old(Current()))
    {
      effects, notices := [], [];
      if unblocker.Some? {
        effects := [CallUnblock(unblocker.value)];
        unblocker := None;
        notices := [Unblocked];
      }
    }

    /** `navigationBlocked(transition)`: store it, ask for confirmation, then unblock and retry. */
    method NavigationBlocked(t: nat, answer: Option<bool>) returns (effects: seq<Effect>, notices: seq<Notice>)
      modifies this
      ensures Outcome(Current(), effects, notices) == TransitionBlocked(old(Current()), t, answer)
    {
      transition := Some(t);
      effects := if answer.Some? then [AskConfirm(message)] else [];
      if answer != Some(true) {
        notices := [LeaveNotConfirmed];
      } else if unblocker.None? {
        notices := [];
      } else {
        effects := effects + [CallUnblock(unblocker.value), Retry(t)];
        unblocker := None;
        notices := [Unblocked, LeaveConfirmed];
      }
    }
  }
}
