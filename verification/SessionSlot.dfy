/** The one slot of a native session. Every entry point may be called from a callback that runs
    inside another entry point; at most one frame is ever on the stack, and a close asked for
    meanwhile waits for that frame to unwind. */
module SessionSlot {
  import opened Wrappers

  datatype CallState = Idle | Running | Closing

  datatype Kind = Edit | Open | Close | Closed

  /** The attempt that holds the slot. */
  datatype Owner = Owner(kind: Kind, serial: nat, terminal: bool)

  /** The entry points, with the calls that callbacks make while they run. The booleans are the
      outcomes of checks on arguments and on the world: whether the request names the attempt in
      the slot, whether the arguments bind, whether the attempt's time is over, whether the
      operation fails. */
  datatype Call =
    | EditPrepare(admitted: bool)
    | EditAdvance(matches: bool, admitted: bool, inside: seq<Call>, ready: bool)
    | EditCancel(matches: bool)
    | EditExpire(due: bool)
    | OpenInspect(bound: bool, inside: seq<Call>, fails: bool)
    | OpenWork(matches: bool, wrongStage: bool, inside: seq<Call>, fails: bool)
    | OpenEnd(matches: bool)
    | OpenExpire(due: bool)
    | CloseInspect(bound: bool, inside: seq<Call>, fails: bool)
    | CloseWork(matches: bool, inside: seq<Call>, fails: bool)
    | CloseSignal(live: bool, inside: seq<Call>, fails: bool)
    | CloseEnd(matches: bool)
    | CloseExpire(due: bool)
    | ClosedInspect(bound: bool, inside: seq<Call>)
    | ClosedPrepare(bound: bool, inside: seq<Call>, fails: bool)
    | ClosedWork(matches: bool, wrongPurpose: bool, inside: seq<Call>, fails: bool)
    | ClosedFinish(matches: bool)
    | ClosedAbort(matches: bool)
    | ClosedExpire(due: bool)
    | SessionClose
    | Configure(valid: bool, id: nat, attaches: bool, descriptor: nat)

  /** The slot still holds the same attempt, and if it was terminal it still is. */
  predicate SameOwner(a: Option<Owner>, b: Option<Owner>) {
    && a.Some? == b.Some?
    && (a.Some? ==> b.value.kind == a.value.kind && b.value.serial == a.value.serial && (a.value.terminal ==> b.value.terminal))
  }

  /** What a client can see between calls; `asked` counts the closes asked for inside a frame. */
  datatype Snapshot = Snapshot(owner: Option<Owner>, fd: int, session: nat, serials: nat, asked: nat)
  {
    predicate Holds(kind: Kind) {
      owner.Some? && owner.value.kind == kind
    }

    function Released(): Snapshot {
      this.(owner := None)
    }

    function Discarded(): Snapshot
      requires owner.Some?
    {
      this.(owner := Some(owner.value.(terminal := true)))
    }

    function Reserved(kind: Kind, terminal: bool): Snapshot {
      this.(owner := Some(Owner(kind, serials, terminal)), serials := serials + 1)
    }

    function Shut(): Snapshot {
      this.(owner := None, fd := -1, session := 0)
    }
  }

  const FRESH := Snapshot(None, -1, 0, 0, 0)

  /** What a call does when nothing interferes with it. */
  function Alone(call: Call, s: Snapshot): Snapshot {
    match call
    case EditPrepare(admitted) => if s.owner.None? && s.session != 0 && admitted then s.Reserved(Edit, false) else s
    case EditAdvance(matches, admitted, _, ready) => if s.Holds(Edit) && matches && !(admitted && ready) then s.Released() else s
    case EditCancel(matches) => if s.Holds(Edit) && matches then s.Released() else s
    case EditExpire(due) => if s.Holds(Edit) && due then s.Released() else s
    case OpenInspect(bound, _, fails) => if s.owner.None? && s.session != 0 && bound then s.Reserved(Open, fails) else s
    case OpenWork(matches, wrongStage, _, fails) => if s.Holds(Open) && matches && (wrongStage || fails) then s.Discarded() else s
    case OpenEnd(matches) => if s.Holds(Open) && matches then s.Released() else s
    case OpenExpire(due) => if s.Holds(Open) && due then s.Released() else s
    case CloseInspect(bound, _, fails) => if s.owner.None? && s.session != 0 && bound then s.Reserved(Close, fails) else s
    case CloseWork(matches, _, fails) => if s.Holds(Close) && matches && fails then s.Discarded() else s
    case CloseSignal(live, _, fails) => if s.Holds(Close) && live && fails then s.Discarded() else s
    case CloseEnd(matches) => if s.Holds(Close) && matches then s.Released() else s
    case CloseExpire(due) => if s.Holds(Close) && due then s.Released() else s
    case ClosedInspect(_, _) => s
    case ClosedPrepare(bound, _, fails) => if s.owner.None? && bound then s.Reserved(Closed, fails || s.session == 0) else s
    case ClosedWork(matches, wrongPurpose, _, fails) => if s.Holds(Closed) && matches && (wrongPurpose || fails) then s.Discarded() else s
    case ClosedFinish(matches) => if s.Holds(Closed) && matches then s.Released() else s
    case ClosedAbort(matches) => if s.Holds(Closed) && matches then s.Released() else s
    case ClosedExpire(due) => if s.Holds(Closed) && due then s.Released() else s
    case SessionClose => s.Shut()
    case Configure(valid, id, attaches, descriptor) =>
      if s.owner.Some? || !valid then s
      else if attaches && id != 0 then s.(fd := descriptor, session := id) else s.Shut()
  }

  /** The callbacks of a call; without a project descriptor a preparation or an inspection of a closed
      edit fails before it reaches one. */
  function Inside(call: Call, s: Snapshot): seq<Call> {
    match call
    case EditAdvance(_, _, inside, _) => inside
    case OpenInspect(_, inside, _) => inside
    case OpenWork(_, _, inside, _) => inside
    case CloseInspect(_, inside, _) => inside
    case CloseWork(_, inside, _) => inside
    case CloseSignal(_, inside, _) => inside
    case ClosedInspect(_, inside) => if s.session == 0 then [] else inside
    case ClosedPrepare(_, inside, _) => if s.session == 0 then [] else inside
    case ClosedWork(_, _, inside, _) => inside
    case _ => []
  }

  /** What a call from outside does, whatever its callbacks do: exactly what it does alone, except that
      a callback may discard the attempt, or ask for a close, which then took place. */
  predicate Stepped(call: Call, s: Snapshot, t: Snapshot) {
    var alone := Alone(call, s);
    && (Inside(call, s) == [] ==> t == alone)
    && s.asked <= t.asked && t.serials == alone.serials
    && (t.asked > s.asked ==> t.owner == None && t.fd == -1 && t.session == 0)
    && (t.asked == s.asked ==> t.fd == alone.fd && t.session == alone.session && SameOwner(alone.owner, t.owner))
  }

  class Session {
    var state: CallState
    var fd: int
    var session: nat
    var owner: Option<Owner>
    var serials: nat
    /** Frames on the stack, the most there ever were, and the closes asked for inside one. */
    var frames: nat
    var peak: nat
    var asked: nat

    ghost predicate Valid()
      reads this
    {
      && peak <= 1
      && frames == (if state == Idle then 0 else 1)
      && (owner.Some? ==> owner.value.serial < serials)
      && (owner.Some? && session == 0 ==> owner.value.kind == Closed && owner.value.terminal)
      && (session == 0 <==> fd == -1) && fd >= -1
    }

    constructor ()
      ensures Valid() && state == Idle && View() == FRESH
    {
      state, fd, session, owner, serials, frames, peak, asked := Idle, -1, 0, None, 0, 0, 0, 0;
    }

    /** What a call does when it comes from a callback: at most it ends the attempt or asks for a
        close; the frame below it keeps its attempt and its session. */
    twostate predicate Contained()
      reads this
    {
      && state != Idle && frames == old(frames)
      && SameOwner(old(owner), owner)
      && fd == old(fd) && session == old(session) && serials == old(serials)
      && old(asked) <= asked
      && (asked == old(asked) ==> state == old(state))
      && (asked > old(asked) ==> state == Closing)
      && (old(state) == Closing ==> state == Closing)
    }

    function View(): Snapshot
      reads this
    {
      Snapshot(owner, fd, session, serials, asked)
    }

    /** What a frame around the slot's attempt does between calls. */
    twostate predicate Outermost()
      reads this
    {
      && state == Idle && serials == old(serials) && old(asked) <= asked
      && (asked > old(asked) ==> owner == None && fd == -1 && session == 0)
      && (asked == old(asked) ==> fd == old(fd) && session == old(session))
    }

    /** Takes the call: no frame may be on the stack. */
    method Begin()
      requires Valid() && state == Idle
      modifies this`state, this`frames, this`peak
      ensures Valid() && state == Running
    {
      state, frames := Running, frames + 1;
      if frames > peak { peak := frames; }
    }

    /** The destructor of a frame. */
    method End()
      requires Valid() && state != Idle
      modifies this`state, this`frames, this`owner, this`fd, this`session
      ensures Valid() && state == Idle
      ensures old(state) == Closing ==> owner == None && fd == -1 && session == 0
      ensures old(state) != Closing ==> owner == old(owner) && fd == old(fd) && session == old(session)
    {
      var closing := state == Closing;
      state, frames := Idle, frames - 1;
      if closing { Shut(); }
    }

    /** Closing an idle session releases everything. */
    method Shut()
      requires Valid() && state == Idle
      modifies this`owner, this`fd, this`session
      ensures Valid() && owner == None && fd == -1 && session == 0
    {
      owner, fd, session := None, -1, 0;
    }

    method AskClose()
      requires Valid() && state != Idle
      modifies this`state, this`asked
      ensures Valid() && state == Closing && asked == old(asked) + 1
    {
      state, asked := Closing, asked + 1;
    }

    method Discard()
      requires owner.Some?
      modifies this`owner
      ensures owner == Some(old(owner).value.(terminal := true))
    {
      owner := Some(owner.value.(terminal := true));
    }

    method Reserve(kind: Kind)
      requires Valid() && state == Idle && owner.None? && session != 0
      modifies this`owner, this`serials
      ensures Valid() && owner == Some(Owner(kind, old(serials), false)) && serials == old(serials) + 1
    {
      owner, serials := Some(Owner(kind, serials, false)), serials + 1;
    }

    /** Without a project descriptor the settings cannot be captured: the attempt fails at once. */
    method ReserveDiscarded()
      requires Valid() && state == Idle && owner.None?
      modifies this
      ensures Valid() && state == Idle && asked == old(asked) && fd == old(fd) && session == old(session)
      ensures owner == Some(Owner(Closed, old(serials), true)) && serials == old(serials) + 1
    {
      owner, serials := Some(Owner(Closed, serials, true)), serials + 1;
      Begin();
      End();
    }

    predicate Holds(kind: Kind)
      reads this`owner
    {
      owner.Some? && owner.value.kind == kind
    }

    /** Whatever callbacks do inside the frame of the caller. */
    method Callbacks(inside: seq<Call>)
      requires Valid() && state != Idle
      modifies this
      ensures Valid() && Contained()
      ensures inside == [] ==> asked == old(asked) && owner == old(owner)
      decreases inside, 0
    {
      for i := 0 to |inside|
        invariant Valid() && Contained()
        invariant i == 0 ==> asked == old(asked) && owner == old(owner)
      {
        Enter(inside[i]);
      }
    }

    /** A frame around the slot's attempt, which a failure makes terminal. */
    method Framed(inside: seq<Call>, fails: bool)
      requires Valid() && state == Idle && owner.Some?
      modifies this
      ensures Valid() && Outermost()
      ensures asked == old(asked) ==> SameOwner(old(owner), owner) && (fails ==> owner.value.terminal)
      ensures inside == [] ==> asked == old(asked) && owner == Some(old(owner).value.(terminal := old(owner).value.terminal || fails))
      decreases inside, 1
    {
      Begin();
      Callbacks(inside);
      if fails { Discard(); }
      End();
    }

    /** One call of an entry point, from the outside or from a callback. */
    method Enter(call: Call)
      requires Valid()
      modifies this
      ensures Valid()
      ensures old(state) != Idle ==> Contained()
      ensures old(state) == Idle ==> state == Idle && Stepped(call, old(View()), View())
      decreases call
    {
      hide Stepped;
      if call.EditPrepare? || call.EditAdvance? || call.EditCancel? || call.EditExpire? {
        EnterEdit(call);
      } else if call.OpenInspect? || call.OpenWork? || call.OpenEnd? || call.OpenExpire? {
        EnterOpen(call);
      } else if call.CloseInspect? || call.CloseWork? || call.CloseSignal? || call.CloseEnd? || call.CloseExpire? {
        EnterClose(call);
      } else if call.SessionClose? || call.Configure? {
        EnterSession(call);
      } else {
        EnterClosed(call);
      }
    }

    method EnterSession(call: Call)
      requires Valid() && (call.SessionClose? || call.Configure?)
      modifies this
      ensures Valid()
      ensures old(state) != Idle ==> Contained()
      ensures old(state) == Idle ==> state == Idle && Stepped(call, old(View()), View())
    {
      match call
      case SessionClose =>
        if state != Idle {
          if owner.Some? && owner.value.kind != Edit { Discard(); }
          AskClose();
        } else {
          Shut();
        }
      case Configure(valid, id, attaches, descriptor) =>
        if owner.None? && state == Idle && valid {
          Shut();
          if attaches && id != 0 { fd, session := descriptor, id; }
        }
    }

    /** The edit attempt is freed by its own finish, still inside its frame. */
    method EnterEdit(call: Call)
      requires Valid() && (call.EditPrepare? || call.EditAdvance? || call.EditCancel? || call.EditExpire?)
      modifies this
      ensures Valid()
      ensures old(state) != Idle ==> Contained()
      ensures old(state) == Idle ==> state == Idle && Stepped(call, old(View()), View())
      decreases call, 0
    {
      match call
      case EditPrepare(admitted) =>
        if owner.None? && state == Idle && session != 0 && admitted { Reserve(Edit); }
      case EditAdvance(matches, admitted, inside, ready) =>
        if state == Idle && Holds(Edit) && matches {
          if !admitted {
            owner := None;
          } else {
            Begin();
            Callbacks(inside);
            if state == Closing || !ready { owner := None; }
            End();
          }
        }
      case EditCancel(matches) =>
        if Holds(Edit) && matches {
          if state != Idle { AskClose(); } else { owner := None; }
        }
      case EditExpire(due) =>
        if Holds(Edit) && due {
          if state == Idle { owner := None; } else { AskClose(); }
        }
    }

    method EnterOpen(call: Call)
      requires Valid() && (call.OpenInspect? || call.OpenWork? || call.OpenEnd? || call.OpenExpire?)
      modifies this
      ensures Valid()
      ensures old(state) != Idle ==> Contained()
      ensures old(state) == Idle ==> state == Idle && Stepped(call, old(View()), View())
      decreases call, 0
    {
      match call
      case OpenInspect(bound, inside, fails) =>
        if owner.None? && state == Idle && session != 0 && bound {
          Reserve(Open);
          Framed(inside, fails);
        }
      case OpenWork(matches, wrongStage, inside, fails) =>
        if Holds(Open) && matches && state == Idle {
          if wrongStage { Discard(); } else { Framed(inside, fails); }
        }
      case OpenEnd(matches) =>
        if Holds(Open) && matches {
          Discard();
          if state == Idle { owner := None; }
        }
      case OpenExpire(due) =>
        if Holds(Open) && due {
          Discard();
          if state == Idle { owner := None; }
        }
    }

    method EnterClose(call: Call)
      requires Valid()
      requires call.CloseInspect? || call.CloseWork? || call.CloseSignal? || call.CloseEnd? || call.CloseExpire?
      modifies this
      ensures Valid()
      ensures old(state) != Idle ==> Contained()
      ensures old(state) == Idle ==> state == Idle && Stepped(call, old(View()), View())
      decreases call, 0
    {
      match call
      case CloseInspect(bound, inside, fails) =>
        if owner.None? && state == Idle && session != 0 && bound {
          Reserve(Close);
          Framed(inside, fails);
        }
      case CloseWork(matches, inside, fails) =>
        if Holds(Close) && matches && state == Idle { Framed(inside, fails); }
      case CloseSignal(live, inside, fails) =>
        // A signal runs in the frame it arrives in, or takes one when none is on the stack.
        if Holds(Close) && !owner.value.terminal && live {
          if state == Idle {
            Framed(inside, fails);
          } else {
            Callbacks(inside);
            if fails { Discard(); }
          }
        }
      case CloseEnd(matches) =>
        if Holds(Close) && matches {
          Discard();
          if state == Idle { owner := None; }
        }
      case CloseExpire(due) =>
        if Holds(Close) && due {
          Discard();
          if state == Idle { owner := None; }
        }
    }

    method PrepareClosed(bound: bool, inside: seq<Call>, fails: bool)
      requires Valid()
      modifies this
      ensures Valid()
      ensures old(state) != Idle ==> Contained()
      ensures old(state) == Idle ==> state == Idle && Stepped(ClosedPrepare(bound, inside, fails), old(View()), View())
      decreases inside, 2
    {
      if owner.None? && state == Idle && bound {
        if fd >= 0 {
          Reserve(Closed);
          Framed(inside, fails);
        } else {
          ReserveDiscarded();
        }
      }
    }

    /** An inspection holds a frame but reserves nothing. */
    method EnterClosed(call: Call)
      requires Valid()
      requires call.ClosedInspect? || call.ClosedPrepare? || call.ClosedWork? || call.ClosedFinish? || call.ClosedAbort?
               || call.ClosedExpire?
      modifies this
      ensures Valid()
      ensures old(state) != Idle ==> Contained()
      ensures old(state) == Idle ==> state == Idle && Stepped(call, old(View()), View())
      decreases call, 0
    {
      match call
      case ClosedInspect(bound, inside) =>
        if owner.None? && state == Idle && bound {
          Begin();
          if fd >= 0 { Callbacks(inside); }
          End();
        }
      case ClosedPrepare(bound, inside, fails) =>
        PrepareClosed(bound, inside, fails);
      case ClosedWork(matches, wrongPurpose, inside, fails) =>
        if Holds(Closed) && matches && state == Idle {
          if wrongPurpose { Discard(); } else { Framed(inside, fails); }
        }
      case ClosedFinish(matches) =>
        if Holds(Closed) && matches && state == Idle { owner := None; }
      case ClosedAbort(matches) =>
        if Holds(Closed) && matches {
          Discard();
          if state == Idle { owner := None; }
        }
      case ClosedExpire(due) =>
        if Holds(Closed) && due {
          Discard();
          if state == Idle { owner := None; }
        }
    }
  }

  /** An attempt in the slot of a session that is closed. */
  predicate Unconfigured(s: Snapshot) {
    s.owner.Some? && s.session == 0
  }

  /** Exactly when a call puts an attempt into the slot of a closed session: a closed-edit preparation
      whose arguments bind, in a free slot. No other entry point does, and such an attempt is terminal
      from the start. */
  lemma UnconfiguredExactly(call: Call, s: Snapshot, t: Snapshot)
    requires Stepped(call, s, t) && !Unconfigured(s)
    ensures Unconfigured(t) <==> call.ClosedPrepare? && call.bound && s.owner.None? && s.session == 0
    ensures Unconfigured(t) ==> t.owner == Some(Owner(Closed, s.serials, true))
  {
  }

  /** The view before call `i`. */
  function Before(views: seq<Snapshot>, i: nat): Snapshot
    requires i <= |views|
  {
    if i == 0 then FRESH else views[i - 1]
  }

  /** Every call so far stepped from the view before it to the view after it. */
  predicate Chained(calls: seq<Call>, views: seq<Snapshot>) {
    |views| <= |calls| && forall i | 0 <= i < |views| :: Stepped(calls[i], Before(views, i), views[i])
  }

  /** What every view shows: the slot of a closed session is free or holds a discarded closed edit. */
  predicate Shown(v: Snapshot) {
    (Unconfigured(v) ==> v.owner.value.kind == Closed && v.owner.value.terminal) && (v.session == 0 <==> v.fd == -1)
  }

  /** Any sequence of calls, each with any nesting of calls from callbacks: every call steps from the
      view before it to the view after it, and at most one frame ever runs. */
  method Run(calls: seq<Call>) returns (views: seq<Snapshot>, peak: nat)
    ensures |views| == |calls| && peak <= 1 && Chained(calls, views)
    ensures forall v | v in views :: Shown(v)
    ensures forall i, j | 0 <= i < j < |views| && views[i].owner.Some? && views[j].owner.Some? ::
              Ordered(views[i].owner.value, views[j].owner.value)
  {
    hide Stepped, Chained, Shown;
    var s := new Session();
    views := [];
    NothingChained(calls);
    for i := 0 to |calls|
      invariant |views| == i && s.Valid() && s.state == Idle && s.View() == Before(views, i)
      invariant Chained(calls, views)
      invariant forall v | v in views :: Shown(v)
    {
      s.Enter(calls[i]);
      ChainOn(calls, views, s.View());
      assert Shown(s.View()) by { ShownNow(s); }
      views := views + [s.View()];
    }
    peak := s.peak;
    forall i, j | 0 <= i < j < |views| && views[i].owner.Some? && views[j].owner.Some?
      ensures Ordered(views[i].owner.value, views[j].owner.value)
    {
      Latest(calls, views, i, j);
    }
  }

  lemma NothingChained(calls: seq<Call>)
    ensures Chained(calls, [])
  {
  }

  lemma ShownNow(s: Session)
    requires s.Valid()
    ensures Shown(s.View())
  {
  }

  lemma ChainOn(calls: seq<Call>, views: seq<Snapshot>, next: Snapshot)
    requires Chained(calls, views) && |views| < |calls| && Stepped(calls[|views|], Before(views, |views|), next)
    ensures Chained(calls, views + [next])
  {
    hide Stepped;
    var all := views + [next];
    forall k | 0 <= k < |all|
      ensures Stepped(calls[k], Before(all, k), all[k])
    {
      assert Before(all, k) == Before(views, k);
    }
  }

  /** The same attempt, no less terminal, or a later one. */
  predicate Ordered(a: Owner, b: Owner) {
    if a.serial == b.serial then a.kind == b.kind && (a.terminal ==> b.terminal) else a.serial < b.serial
  }

  lemma {:induction false} Numbered(calls: seq<Call>, views: seq<Snapshot>, i: nat)
    requires Chained(calls, views) && i <= |views|
    ensures var v := Before(views, i); v.owner.Some? ==> v.owner.value.serial < v.serials
  {
    hide Stepped;
    if i > 0 {
      Numbered(calls, views, i - 1);
      StepOrders(calls[i - 1], Before(views, i - 1), views[i - 1]);
    }
  }

  /** Once discarded an attempt stays discarded, and a later view shows it or a later attempt. */
  lemma {:induction false} Latest(calls: seq<Call>, views: seq<Snapshot>, i: nat, j: nat)
    requires Chained(calls, views) && i <= j < |views| && views[i].owner.Some?
    ensures views[i].owner.value.serial < views[j].serials
    ensures views[j].owner.Some? ==> Ordered(views[i].owner.value, views[j].owner.value)
    decreases j
  {
    hide Stepped;
    Numbered(calls, views, i + 1);
    if i < j {
      Latest(calls, views, i, j - 1);
      Numbered(calls, views, j);
      StepOrders(calls[j], views[j - 1], views[j]);
    }
  }

  lemma StepOrders(call: Call, s: Snapshot, t: Snapshot)
    requires Stepped(call, s, t) && (s.owner.Some? ==> s.owner.value.serial < s.serials)
    ensures s.serials <= t.serials && (t.owner.Some? ==> t.owner.value.serial < t.serials)
    ensures t.owner.Some? ==>
              if s.owner.Some? && t.owner.value.serial == s.owner.value.serial then Ordered(s.owner.value, t.owner.value)
              else t.owner.value.serial >= s.serials
    ensures s.owner.Some? && t.owner.Some? ==> Ordered(s.owner.value, t.owner.value)
  {
  }
}
