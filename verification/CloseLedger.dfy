/** The visit and completion ledger of a safe close: which protected editors were re-validated
    after the editor last showed them. Signals may arrive inside any engine call, and inside the
    handling of other signals. */
module CloseLedger {
  import opened Wrappers

  /** What the ledger accepted, in order. */
  datatype Event = Visit(editor: nat) | Completion(editor: nat)

  function Visited(events: seq<Event>): set<nat> {
    set i | 0 <= i < |events| && events[i].Visit? :: events[i].editor
  }

  /** Some completion of `editor` was accepted after its latest visit. */
  ghost predicate CompletedSince(events: seq<Event>, editor: nat) {
    exists j :: 0 <= j < |events| && events[j] == Completion(editor) && forall k | j < k < |events| :: events[k] != Visit(editor)
  }

  ghost predicate Refines(required: set<nat>, completed: set<nat>, keys: set<nat>, events: seq<Event>) {
    && required == Visited(events) == keys
    && completed <= required
    && (forall e | e in required :: e in completed <==> CompletedSince(events, e))
  }

  lemma VisitStep(required: set<nat>, completed: set<nat>, keys: set<nat>, events: seq<Event>, editor: nat)
    requires Refines(required, completed, keys, events)
    ensures Refines(required + {editor}, completed - {editor}, keys + {editor}, events + [Visit(editor)])
  {
    var all := events + [Visit(editor)];
    VisitedStep(events, Visit(editor));
    forall e | e in required + {editor}
      ensures e in completed - {editor} <==> CompletedSince(all, e)
    {
      if e == editor {
        assert all[|events|] == Visit(e);
      } else {
        SinceStep(events, Visit(editor), e);
        if e !in required { assert false; }
      }
    }
  }

  lemma CompletionStep(required: set<nat>, completed: set<nat>, keys: set<nat>, events: seq<Event>, editor: nat)
    requires Refines(required, completed, keys, events) && editor in required
    ensures Refines(required, completed + {editor}, keys, events + [Completion(editor)])
  {
    var all := events + [Completion(editor)];
    VisitedStep(events, Completion(editor));
    forall e | e in required
      ensures e in completed + {editor} <==> CompletedSince(all, e)
    {
      if e == editor {
        assert all[|events|] == Completion(e);
      } else {
        SinceStep(events, Completion(editor), e);
      }
    }
  }

  lemma VisitedStep(events: seq<Event>, event: Event)
    ensures Visited(events + [event]) == Visited(events) + if event.Visit? then {event.editor} else {}
  {
    var all := events + [event];
    assert forall i | 0 <= i < |events| :: all[i] == events[i];
    forall e | e in Visited(events)
      ensures e in Visited(all)
    {
      var i :| 0 <= i < |events| && events[i].Visit? && events[i].editor == e;
      assert all[i].Visit? && all[i].editor == e;
    }
    if event.Visit? { assert all[|events|] == event; }
  }

  /** An event about one editor says nothing about another. */
  lemma SinceStep(events: seq<Event>, event: Event, editor: nat)
    requires event.editor != editor
    ensures CompletedSince(events + [event], editor) <==> CompletedSince(events, editor)
  {
    var all := events + [event];
    if CompletedSince(events, editor) {
      var j :| 0 <= j < |events| && events[j] == Completion(editor) && forall k | j < k < |events| :: events[k] != Visit(editor);
      assert all[j] == Completion(editor);
    }
    if CompletedSince(all, editor) {
      var j :| 0 <= j < |all| && all[j] == Completion(editor) && forall k | j < k < |all| :: all[k] != Visit(editor);
      assert events[j] == Completion(editor);
      forall k | j < k < |events|
        ensures events[k] != Visit(editor)
      {
        assert all[k] == events[k];
      }
    }
  }

  // ---- the attempt ----

  datatype Phase = Inspected | Prepared | Entered | Returned | Settling | Settled | Terminal

  datatype Reason =
    | SessionOrExpiryChanged | SignalSignatureChanged | VisitOutsideProtection | VisitAttributionUnavailable
    | CompletionAttributionUnavailable | PreservationChanged | TerminalAttempt | WrongStage | Unavailable
    | CloseReturnUnavailable | CloseError | WrongPurpose | ResourceChanged | Cancelled | Expired | SessionClosed

  datatype Attempt = Attempt(
    request: nat,
    generation: nat,
    session: nat,
    expires: nat,
    open: bool,
    phase: Phase,
    entered: bool,
    returned: nat,
    terminal: bool,
    discarded: bool,
    invalidation: Option<Reason>,
    target: nat,
    /** Each protected script and the editor that shows it. */
    protected: map<nat, nat>,
    required: set<nat>,
    completed: set<nat>,
    collections: map<nat, (nat, nat)>,
    events: seq<Event>)
  {
    function Invalidated(reason: Reason): Attempt {
      if invalidation.None? then this.(invalidation := Some(reason)) else this
    }

    function Ended(): Attempt {
      this.(terminal := true, discarded := !entered)
    }

    /** A failed request retires the attempt. */
    function Failed(reason: Reason): Attempt {
      Invalidated(reason).Ended().(phase := Terminal)
    }

    function Settle(): Attempt {
      this.(phase := if required == completed then Settled else Settling)
    }

    /** The ledger refines the accepted events, and an invalidated attempt is terminal. */
    ghost predicate Refined() {
      && Refines(required, completed, collections.Keys, events)
      && required <= protected.Values
      && (!entered ==> events == [] && returned == 0)
      && (invalidation.Some? ==> terminal)
      && (terminal ==> discarded == !entered)
    }

    /** Once the close returned, the phase of a live attempt says whether the ledger is complete. */
    predicate Tidy() {
      returned != 0 && !terminal ==> phase == if required == completed then Settled else Settling
    }
  }

  function NewAttempt(request: nat, generation: nat, session: nat, expires: nat, open: bool, target: nat): Attempt {
    Attempt(request, generation, session, expires, open, Inspected, false, 0, false, false, None, target, map[], {}, {}, map[], [])
  }

  datatype Continuation = NotApplicable | Pending | Completed | WasInvalidated

  function ContinuationOf(a: Attempt): Continuation {
    if a.invalidation.Some? then WasInvalidated
    else if !a.entered || a.required == {} then NotApplicable
    else if a.completed == a.required && a.returned != 0 then Completed
    else Pending
  }

  /** The client reads "completed" exactly when the close returned, nothing invalidated it, something
      was visited, and every visited editor was completed after its latest visit. */
  lemma CompletedMeansEveryVisit(a: Attempt)
    requires Refines(a.required, a.completed, a.collections.Keys, a.events)
    ensures ContinuationOf(a) == Completed <==>
              && a.invalidation.None? && a.entered && a.returned != 0
              && (exists e :: Event.Visit(e) in a.events)
              && (forall e | Event.Visit(e) in a.events :: CompletedSince(a.events, e))
    ensures ContinuationOf(a) == Completed && a.Tidy() && !a.terminal ==> a.phase == Settled
  {
    assert forall e :: e in Visited(a.events) <==> Event.Visit(e) in a.events;
    if a.required == {} {
      assert forall e :: e !in a.required;
    } else {
      var e :| e in a.required;
    }
    if forall e | Event.Visit(e) in a.events :: CompletedSince(a.events, e) {
      assert forall e | e in a.required :: e in a.completed;
      assert a.completed == a.required;
    }
  }

  // ---- the slot ----

  datatype CallState = Idle | Running | Closing

  /** The object a visit signal carries. */
  datatype Shown = NoScript | NotAnObject | Script(id: nat, live: bool)

  /** What can arrive while an engine call runs: a connected signal, with everything that arrives
      while its own guard runs, or a request to end the attempt. */
  datatype Arrival =
    | VisitSignal(request: nat, generation: nat, tick: nat, arguments: nat, shown: Shown)
    | CompletionSignal(request: nat, generation: nat, tick: nat, arguments: nat, editor: nat,
                       during: seq<Arrival>, verdict: Option<Reason>)
    | Release(request: nat, abort: bool)
    | Expiry(tick: nat)
    | SessionClose

  /** One run of the guard: when, what arrived while it ran, and what it found. */
  datatype GuardRun = GuardRun(tick: nat, during: seq<Arrival>, verdict: Option<Reason>)

  datatype Status = Said(continuation: Continuation) | InspectedOk | PreparedOk | ReturnedOk | Observed | Rechecked | Refused
                  | Unsettled | Busy

  datatype Purpose = Recognition | PreClose | PostClose | UnknownPurpose

  /** A signal of another attempt, or one that arrives before the close was entered, after the
      attempt ended, or after its first invalidation. */
  predicate Stale(owner: Option<Attempt>, request: nat, generation: nat) {
    || owner.None?
    || owner.value.request != request || owner.value.generation != generation
    || owner.value.terminal || !owner.value.entered || owner.value.invalidation.Some?
  }

  predicate SameAttempt(a: Attempt, b: Attempt) {
    && b.request == a.request && b.generation == a.generation && b.session == a.session && b.expires == a.expires
    && b.target == a.target && b.protected == a.protected && b.open == a.open
  }

  /** The attempt stays the same attempt, its events only grow, and an end is never undone. */
  predicate Later(a: Attempt, b: Attempt) {
    && SameAttempt(a, b)
    && b.entered == a.entered && b.returned == a.returned
    && a.events <= b.events
    && (a.terminal ==> b.terminal)
    && (a.invalidation.Some? ==> b.invalidation == a.invalidation)
    && (a.Tidy() ==> b.Tidy())
  }

  /** The same attempt with more events; an end is never undone. */
  predicate Carries(a: Attempt, b: Attempt) {
    SameAttempt(a, b) && a.events <= b.events && (a.terminal ==> b.terminal)
  }

  lemma LaterStill(a: Attempt, b: Attempt, c: Attempt)
    requires Later(a, b) && Later(b, c)
    ensures Later(a, c)
  {
  }

  function Shows(a: Attempt, editor: nat, tick: nat): Attempt {
    a.(required := a.required + {editor}, completed := a.completed - {editor},
       collections := a.collections[editor := (tick, 0)], events := a.events + [Visit(editor)])
  }

  function Completes(a: Attempt, editor: nat, tick: nat): Attempt
    requires editor in a.collections
  {
    a.(completed := a.completed + {editor}, collections := a.collections[editor := (a.collections[editor].0, tick)],
       events := a.events + [Completion(editor)])
  }

  /** How a handled signal leaves the attempt. */
  function Handled(a: Attempt): Attempt {
    var b := if a.invalidation.Some? then a.Ended() else a;
    if b.invalidation.Some? && b.returned != 0 then b.(phase := Terminal)
    else if b.returned != 0 && !b.terminal then b.Settle()
    else b
  }

  lemma ShowsRefines(a: Attempt, editor: nat, tick: nat)
    requires a.Refined() && a.entered && editor in a.protected.Values
    ensures Shows(a, editor, tick).Refined()
  {
    VisitStep(a.required, a.completed, a.collections.Keys, a.events, editor);
  }

  lemma CompletesRefines(a: Attempt, editor: nat, tick: nat)
    requires a.Refined() && a.entered && editor in a.required
    ensures editor in a.collections && Completes(a, editor, tick).Refined()
  {
    CompletionStep(a.required, a.completed, a.collections.Keys, a.events, editor);
    assert Completes(a, editor, tick).collections.Keys == a.collections.Keys;
  }

  // ---- undisturbed signals ----

  /** A signal of this attempt, in time and well formed, about a document the attempt protects; what
      arrives while the guard of a completion runs is as benign. */
  predicate Benign(arrival: Arrival, a: Attempt)
    decreases arrival
  {
    match arrival
    case VisitSignal(request, generation, tick, arguments, shown) =>
      request == a.request && generation == a.generation && tick < a.expires && arguments == 1
      && shown.Script? && shown.live && shown.id != 0 && shown.id != a.target && shown.id in a.protected
    case CompletionSignal(request, generation, tick, arguments, editor, during, verdict) =>
      request == a.request && generation == a.generation && tick < a.expires && arguments == 0 && verdict.None?
      && AllBenign(during, a)
    case _ => false
  }

  /** A visit counts; a completion counts once its editor was visited, after whatever arrived while its
      guard ran. */
  function HeardOne(events: seq<Event>, arrival: Arrival, protected: map<nat, nat>): seq<Event>
    decreases arrival
  {
    match arrival
    case VisitSignal(_, _, _, _, shown) =>
      if shown.Script? && shown.id in protected then events + [Visit(protected[shown.id])] else events
    case CompletionSignal(_, _, _, _, editor, during, _) =>
      if editor in Visited(events) then Heard(events, during, protected) + [Completion(editor)] else events
    case _ => events
  }

  function Heard(events: seq<Event>, arrivals: seq<Arrival>, protected: map<nat, nat>): seq<Event>
    decreases arrivals
  {
    if arrivals == [] then events
    else HeardOne(Heard(events, arrivals[..|arrivals| - 1], protected), arrivals[|arrivals| - 1], protected)
  }

  predicate AllBenign(arrivals: seq<Arrival>, a: Attempt)
    decreases arrivals
  {
    forall k | 0 <= k < |arrivals| :: Benign(arrivals[k], a)
  }

  lemma {:induction false} BenignStays(arrivals: seq<Arrival>, a: Attempt, b: Attempt)
    requires AllBenign(arrivals, a) && SameAttempt(a, b)
    ensures AllBenign(arrivals, b)
    decreases arrivals
  {
    forall k | 0 <= k < |arrivals|
      ensures Benign(arrivals[k], b)
    {
      assert Benign(arrivals[k], a);
      if arrivals[k].CompletionSignal? { BenignStays(arrivals[k].during, a, b); }
    }
  }

  lemma BenignSignal(arrival: Arrival, a: Attempt)
    requires Benign(arrival, a)
    ensures (arrival.VisitSignal? || arrival.CompletionSignal?) && arrival.request == a.request && arrival.generation == a.generation
  {
  }

  lemma HeardNext(events: seq<Event>, arrivals: seq<Arrival>, i: nat, protected: map<nat, nat>)
    requires i < |arrivals|
    ensures Heard(events, arrivals[..i + 1], protected) == HeardOne(Heard(events, arrivals[..i], protected), arrivals[i], protected)
  {
    assert arrivals[..i + 1][..i] == arrivals[..i];
  }

  // ---- the order of arrival ----

  /** The events in the order in which their signals arrived: a completion before whatever arrives while its
      guard runs. The ledger has them in the order in which they were accepted. */
  function ArrivedOne(events: seq<Event>, arrival: Arrival, protected: map<nat, nat>): seq<Event>
    decreases arrival
  {
    match arrival
    case VisitSignal(_, _, _, _, shown) =>
      if shown.Script? && shown.id in protected then events + [Visit(protected[shown.id])] else events
    case CompletionSignal(_, _, _, _, editor, during, _) =>
      if editor in Visited(events) then Arrived(events + [Completion(editor)], during, protected) else events
    case _ => events
  }

  function Arrived(events: seq<Event>, arrivals: seq<Arrival>, protected: map<nat, nat>): seq<Event>
    decreases arrivals
  {
    if arrivals == [] then events
    else ArrivedOne(Arrived(events, arrivals[..|arrivals| - 1], protected), arrivals[|arrivals| - 1], protected)
  }

  /** Some signal among these, at any depth, shows this editor. */
  predicate HearsVisit(arrivals: seq<Arrival>, editor: nat, protected: map<nat, nat>)
    decreases arrivals
  {
    exists k | 0 <= k < |arrivals| :: ShowsEditor(arrivals[k], editor, protected)
  }

  predicate ShowsEditor(arrival: Arrival, editor: nat, protected: map<nat, nat>)
    decreases arrival
  {
    match arrival
    case VisitSignal(_, _, _, _, shown) => shown.Script? && shown.id in protected && protected[shown.id] == editor
    case CompletionSignal(_, _, _, _, _, during, _) => HearsVisit(during, editor, protected)
    case _ => false
  }

  /** No completion's guard hears a visit of its own editor. */
  predicate Apart(arrivals: seq<Arrival>, protected: map<nat, nat>)
    decreases arrivals
  {
    forall k | 0 <= k < |arrivals| && arrivals[k].CompletionSignal? ::
      !HearsVisit(arrivals[k].during, arrivals[k].editor, protected) && Apart(arrivals[k].during, protected)
  }

  lemma SinceLast(events: seq<Event>, event: Event, editor: nat)
    ensures CompletedSince(events + [event], editor) <==>
              if event.editor == editor then event.Completion? else CompletedSince(events, editor)
  {
    var all := events + [event];
    assert all[|events|] == event;
    if event.editor != editor { SinceStep(events, event, editor); }
  }

  /** Both orders show the same editors visited and the same editors completed since, except that the second
      already has the editors in `ahead` completed. */
  ghost predicate Agree(a: seq<Event>, b: seq<Event>, ahead: set<nat>) {
    && Visited(a) == Visited(b)
    && (forall e: nat | e !in ahead :: CompletedSince(a, e) <==> CompletedSince(b, e))
    && (forall e: nat | e in ahead :: CompletedSince(b, e))
  }

  lemma AgreeVisit(a: seq<Event>, b: seq<Event>, ahead: set<nat>, editor: nat)
    requires Agree(a, b, ahead) && editor !in ahead
    ensures Agree(a + [Visit(editor)], b + [Visit(editor)], ahead)
  {
    hide CompletedSince, Visited;
    VisitedStep(a, Visit(editor));
    VisitedStep(b, Visit(editor));
    forall e: nat
      ensures CompletedSince(a + [Visit(editor)], e) <==> if e == editor then false else CompletedSince(a, e)
      ensures CompletedSince(b + [Visit(editor)], e) <==> if e == editor then false else CompletedSince(b, e)
    {
      SinceLast(a, Visit(editor), e);
      SinceLast(b, Visit(editor), e);
    }
  }

  lemma AgreeAhead(a: seq<Event>, b: seq<Event>, ahead: set<nat>, editor: nat)
    requires Agree(a, b, ahead)
    ensures Agree(a, b + [Completion(editor)], ahead + {editor})
  {
    hide CompletedSince, Visited;
    VisitedStep(b, Completion(editor));
    forall e: nat
      ensures CompletedSince(b + [Completion(editor)], e) <==> (e == editor || CompletedSince(b, e))
    {
      SinceLast(b, Completion(editor), e);
    }
  }

  lemma AgreeAgain(a: seq<Event>, b: seq<Event>, ahead: set<nat>, editor: nat)
    requires Agree(a, b, ahead + {editor})
    ensures Agree(a + [Completion(editor)], b, ahead)
  {
    hide CompletedSince, Visited;
    VisitedStep(a, Completion(editor));
    forall e: nat
      ensures CompletedSince(a + [Completion(editor)], e) <==> (e == editor || CompletedSince(a, e))
    {
      SinceLast(a, Completion(editor), e);
    }
  }

  /** None of these editors is shown. */
  predicate Unshown(arrivals: seq<Arrival>, ahead: set<nat>, protected: map<nat, nat>) {
    forall e | e in ahead :: !HearsVisit(arrivals, e, protected)
  }

  lemma {:induction false} AgreeThrough(a: seq<Event>, b: seq<Event>, ahead: set<nat>, arrivals: seq<Arrival>, protected: map<nat, nat>)
    requires Agree(a, b, ahead) && Apart(arrivals, protected) && Unshown(arrivals, ahead, protected)
    ensures Agree(Heard(a, arrivals, protected), Arrived(b, arrivals, protected), ahead)
    decreases arrivals, 1
  {
    hide Agree;
    if arrivals != [] {
      var init, last := arrivals[..|arrivals| - 1], arrivals[|arrivals| - 1];
      AgreeThrough(a, b, ahead, init, protected);
      AgreeOver(Heard(a, init, protected), Arrived(b, init, protected), ahead, last, protected);
    }
  }

  lemma {:induction false} AgreeOver(a: seq<Event>, b: seq<Event>, ahead: set<nat>, arrival: Arrival, protected: map<nat, nat>)
    requires Agree(a, b, ahead)
    requires arrival.CompletionSignal? ==> !HearsVisit(arrival.during, arrival.editor, protected) && Apart(arrival.during, protected)
    requires forall e | e in ahead :: !ShowsEditor(arrival, e, protected)
    ensures Agree(HeardOne(a, arrival, protected), ArrivedOne(b, arrival, protected), ahead)
    decreases arrival, 0
  {
    assert Visited(a) == Visited(b);
    hide Agree, Visited, Apart, HearsVisit;
    match arrival
    case VisitSignal(_, _, _, _, shown) =>
      if shown.Script? && shown.id in protected { AgreeVisit(a, b, ahead, protected[shown.id]); }
    case CompletionSignal(_, _, _, _, editor, during, _) =>
      if editor in Visited(a) {
        AgreeAhead(a, b, ahead, editor);
        AgreeThrough(a, b + [Completion(editor)], ahead + {editor}, during, protected);
        AgreeAgain(Heard(a, during, protected), Arrived(b + [Completion(editor)], during, protected), ahead, editor);
      }
    case _ =>
  }

  /** The ledger does not care whether a completion is recorded before or after what arrives in its guard, as
      long as no completion's guard hears a visit of its own editor. */
  lemma ArrivalOrderAgrees(arrivals: seq<Arrival>, protected: map<nat, nat>)
    requires Apart(arrivals, protected)
    ensures var accepted, arrived := Heard([], arrivals, protected), Arrived([], arrivals, protected);
            && Visited(accepted) == Visited(arrived)
            && forall e: nat :: CompletedSince(accepted, e) <==> CompletedSince(arrived, e)
  {
    hide Heard, Arrived, Apart, Visited, CompletedSince;
    AgreeThrough([], [], {}, arrivals, protected);
  }

  /** And only as long: when the guard of a completion hears a visit of its editor that stays the latest
      word on it, the ledger has the editor completed, while in the order of arrival it is not. */
  lemma OwnVisitExactly(events: seq<Event>, arrival: Arrival, protected: map<nat, nat>)
    requires arrival.CompletionSignal? && arrival.editor in Visited(events)
    ensures CompletedSince(HeardOne(events, arrival, protected), arrival.editor)
    ensures var begun := events + [Completion(arrival.editor)];
            var later := Arrived(begun, arrival.during, protected);
            begun <= later
            && (CompletedSince(ArrivedOne(events, arrival, protected), arrival.editor) <==>
                  Visit(arrival.editor) !in later[|begun|..] || CompletedSince(later[|begun|..], arrival.editor))
  {
    var begun := events + [Completion(arrival.editor)];
    SinceLast(events, Completion(arrival.editor), arrival.editor);
    SinceLast(Heard(events, arrival.during, protected), Completion(arrival.editor), arrival.editor);
    ArrivedGrows(begun, arrival.during, protected);
    var later := Arrived(begun, arrival.during, protected);
    assert begun + later[|begun|..] == later;
    SinceAppended(begun, later[|begun|..], arrival.editor);
  }

  lemma {:induction false} ArrivedGrows(events: seq<Event>, arrivals: seq<Arrival>, protected: map<nat, nat>)
    ensures events <= Arrived(events, arrivals, protected)
    decreases arrivals
  {
    if arrivals != [] {
      var init, last := arrivals[..|arrivals| - 1], arrivals[|arrivals| - 1];
      ArrivedGrows(events, init, protected);
      var had := Arrived(events, init, protected);
      if last.CompletionSignal? && last.editor in Visited(had) { ArrivedGrows(had + [Completion(last.editor)], last.during, protected); }
    }
  }

  lemma {:induction false} SinceAppended(events: seq<Event>, more: seq<Event>, editor: nat)
    requires CompletedSince(events, editor)
    ensures CompletedSince(events + more, editor) <==> Visit(editor) !in more || CompletedSince(more, editor)
    decreases |more|
  {
    if more == [] {
      assert events + more == events;
    } else {
      var init, last := more[..|more| - 1], more[|more| - 1];
      SinceAppended(events, init, editor);
      assert events + more == (events + init) + [last] && more == init + [last];
      SinceLast(events + init, last, editor);
      SinceLast(init, last, editor);
    }
  }

  /** A close nothing disturbs: prepared, authorized, guarded without a finding, and answered with success. */
  predicate Enters(a: Attempt, authorized: bool, connected: bool, entering: GuardRun, during: seq<Arrival>, code: Option<nat>,
                   leaving: GuardRun)
  {
    && a.phase == Prepared && !a.entered && authorized && connected && code == Some(0)
    && a.invalidation.None? && !a.terminal
    && Quiet(entering, a.expires) && Quiet(leaving, a.expires) && AllBenign(during, a)
  }

  predicate Quiet(g: GuardRun, expires: nat) {
    g.during == [] && g.verdict.None? && g.tick < expires
  }

  /** The slot between two operations. */
  datatype View = View(session: nat, generation: nat, owner: Option<Attempt>)

  predicate Named(request: nat, s: View) {
    s.owner.Some? && s.owner.value.request == request
  }

  /** The attempt afterwards: the same one with more events, or released with its session. */
  predicate Stays(s: View, t: View)
    requires s.owner.Some?
  {
    && t.generation == s.generation
    && if t.owner.Some? then
         && t.session == s.session && t.owner.value.request == s.owner.value.request
         && t.owner.value.generation == s.owner.value.generation && s.owner.value.events <= t.owner.value.events
         && (s.owner.value.terminal ==> t.owner.value.terminal)
       else t.session == 0
  }

  /** An inspection takes the slot when it is free; every one that does starts a new generation. */
  function InspectedStep(op: Op, s: View): (Status, View)
    requires op.DoInspect?
  {
    if s.owner.Some? || !op.bound || s.session == 0 then (Refused, s)
    else
      var a := NewAttempt(op.request, s.generation + 1, s.session, op.expires, op.open, op.target);
      if op.fault.Some? then (Refused, View(s.session, s.generation + 1, Some(a.Failed(op.fault.value))))
      else (InspectedOk, View(s.session, s.generation + 1, Some(a)))
  }

  /** Evidence after a failure retires the attempt first. */
  function Surviving(op: Op, s: View): (Status, View)
    requires op.DoObserveSurvivor?
  {
    if !Named(op.request, s) then (Refused, s)
    else
      var a := s.owner.value;
      if s.session != a.session || op.tick >= a.expires || !op.attached then
        (Refused, s.(owner := Some(a.Failed(SessionOrExpiryChanged))))
      else
        var b := a.Ended().(phase := Terminal);
        (Observed, s.(owner := Some(if op.preserved.Some? then b.Invalidated(op.preserved.value) else b)))
  }

  /** Fixing the protected documents accepts no signal. */
  predicate PreparedStep(request: nat, protected: map<nat, nat>, guard: GuardRun, s: View, r: Status, t: View) {
    if !Named(request, s) then r == Refused && t == s
    else
      var a := s.owner.value;
      && Stays(s, t) && (r == PreparedOk || r == Refused)
      && (t.owner.Some? ==> t.owner.value.events == a.events && t.owner.value.entered == a.entered)
      && (r == PreparedOk && t.owner.Some? ==> t.owner.value.protected == protected && !t.owner.value.terminal)
      && (r == Refused && t.owner.Some? ==> t.owner.value.terminal)
      && (Quiet(guard, a.expires) && a.open && a.phase == Inspected && !a.entered && a.invalidation.None? && !a.terminal
          && s.session == a.session ==>
            r == PreparedOk && t == s.(owner := Some(a.(protected := protected, phase := Prepared))))
  }

  /** The close is entered at most once, and a failure retires the attempt. */
  predicate AdvancedStep(op: Op, s: View, r: Status, t: View)
    requires op.DoAdvance?
  {
    if !Named(op.request, s) then r == Refused && t == s
    else
      var a := s.owner.value;
      && Stays(s, t) && (r == ReturnedOk || r == Refused)
      && (t.owner.Some? ==> SameAttempt(a, t.owner.value))
      && (r == ReturnedOk ==>
            && !a.entered && !a.terminal && a.phase == Prepared && op.authorized && op.connected && op.code == Some(0)
            && t.owner.Some? && t.owner.value.entered && t.owner.value.returned == op.returnTick
            && t.owner.value.invalidation.None? && !t.owner.value.terminal
            && t.owner.value.phase == if t.owner.value.required == t.owner.value.completed then Settled else Settling)
      && (r == Refused && t.owner.Some? ==> t.owner.value.terminal)
      && (Enters(a, op.authorized, op.connected, op.entering, op.during, op.code, op.leaving) && s.session == a.session ==>
            && r == ReturnedOk && t.owner.Some?
            && t.owner.value.events == Heard(a.events, op.during, a.protected))
  }

  predicate ReportedStep(request: nat, guard: GuardRun, s: View, r: Status, t: View) {
    if !Named(request, s) then r == Refused && t == s
    else
      var a := s.owner.value;
      && Stays(s, t) && (r.Said? || r == Refused)
      && (t.owner.Some? ==> SameAttempt(a, t.owner.value) && (if r.Said? then r.continuation == ContinuationOf(t.owner.value)
                                                               else t.owner.value.terminal))
      && (a.terminal ==> r == Said(ContinuationOf(a)) && t == s)
      && (Live(a, s.session) && Quiet(guard, a.expires) ==> r == Said(ContinuationOf(a)) && t == s)
  }

  predicate Live(a: Attempt, session: nat) {
    a.invalidation.None? && !a.terminal && a.entered && session == a.session
  }

  predicate ObservedStep(op: Op, s: View, r: Status, t: View)
    requires op.DoObserve?
  {
    if !Named(op.request, s) then r == Refused && t == s
    else
      && Stays(s, t) && (r == Observed || r == Rechecked || r == Unsettled || r == Refused)
      && (t.owner.Some? ==> SameAttempt(s.owner.value, t.owner.value))
      && (r == Refused && t.owner.Some? ==> t.owner.value.terminal)
      && (r == Unsettled && t.owner.Some? ==> t.owner.value.required != t.owner.value.completed)
      && (r == Observed || r == Rechecked ==> r == (if op.recheck then Rechecked else Observed) && op.resource.None?
                                              && op.purpose != UnknownPurpose)
      && ((r == Observed || r == Rechecked) && t.owner.Some? ==>
            && t.owner.value.invalidation.None? && !t.owner.value.terminal
            && (t.owner.value.entered ==> t.owner.value.required == t.owner.value.completed)
            && (op.purpose == PostClose ==> t.owner.value.returned != 0 && t.owner.value.phase == Settled))
  }

  /** A signal or request between two calls. A stale signal does nothing; a live, benign one is recorded with
      everything that arrives while its guard runs. */
  predicate ReceivedStep(arrival: Arrival, s: View, t: View) {
    match arrival
    case Release(request, _) => t == if Named(request, s) then s.(owner := None) else s
    case Expiry(tick) => t == if s.owner.Some? && tick >= s.owner.value.expires then s.(owner := None) else s
    case SessionClose => t == s.(owner := None, session := 0)
    case _ =>
      if Stale(s.owner, arrival.request, arrival.generation) then t == s
      else
        var a := s.owner.value;
        && Stays(s, t)
        && (t.owner.Some? ==> Later(a, t.owner.value))
        && (Live(a, s.session) && Benign(arrival, a) ==>
              t.owner.Some? && Live(t.owner.value, t.session) && t.owner.value.events == HeardOne(a.events, arrival, a.protected))
  }

  class Slot {
    var state: CallState
    var session: nat
    var generation: nat
    var owner: Option<Attempt>

    ghost predicate Valid()
      reads this
    {
      && state == Idle
      && (owner.Some? ==> owner.value.Refined() && owner.value.Tidy() && owner.value.generation <= generation)
    }

    function Seen(): View
      reads this`session, this`generation, this`owner
    {
      View(session, generation, owner)
    }

    /** Some frame is on the stack. */
    ghost predicate Active()
      reads this
    {
      state != Idle && owner.Some? && owner.value.Refined() && owner.value.generation <= generation
    }

    /** The attempt is entered, live and of this session. */
    ghost predicate Sound()
      reads this
    {
      && owner.Some? && owner.value.invalidation.None? && !owner.value.terminal && owner.value.entered
      && session == owner.value.session
    }

    twostate predicate Onward()
      reads this
    {
      && old(owner).Some? && owner.Some? && Later(old(owner).value, owner.value)
      && generation == old(generation) && session == old(session)
    }

    constructor (session: nat)
      ensures Valid() && owner == None && this.session == session && generation == 0
    {
      state, this.session, generation, owner := Idle, session, 0, None;
    }

    function OwnerFault(tick: nat): Option<Reason>
      requires owner.Some?
      reads this
    {
      var a := owner.value;
      if a.invalidation.Some? then a.invalidation
      else if a.terminal then Some(TerminalAttempt)
      else if session != a.session || tick >= a.expires || state == Closing then Some(SessionOrExpiryChanged)
      else None
    }

    /** The guard: owner, everything sampled while others may act, owner again. */
    method Guard(g: GuardRun) returns (fault: Option<Reason>)
      requires Active()
      modifies this`state, this`owner
      ensures Active() && Onward()
      ensures fault.None? ==>
                owner.value.invalidation.None? && !owner.value.terminal && session == owner.value.session && state == Running
      ensures g.during == [] ==> owner == old(owner) && state == old(state)
      ensures g.during == [] && g.verdict.None? && old(OwnerFault(g.tick)).None? ==> fault.None?
      ensures old(Sound()) && old(state) == Running && g.tick < old(owner).value.expires && g.verdict.None?
              && AllBenign(g.during, old(owner).value) ==>
                fault.None? && Sound() && owner.value.events == Heard(old(owner).value.events, g.during, old(owner).value.protected)
      decreases g.during, 1
    {
      fault := OwnerFault(g.tick);
      if fault.Some? { return; }
      Deliver(g.during);
      if g.verdict.Some? { return g.verdict; }
      fault := OwnerFault(g.tick);
    }

    /** Everything that arrives while an engine call runs. */
    method Deliver(arrivals: seq<Arrival>)
      requires Active()
      modifies this`state, this`owner
      ensures Active() && Onward()
      ensures arrivals == [] ==> owner == old(owner) && state == old(state)
      ensures old(Sound()) && old(state) == Running && AllBenign(arrivals, old(owner).value) ==>
                Sound() && state == Running && owner.value.events == Heard(old(owner).value.events, arrivals, old(owner).value.protected)
      decreases arrivals, 0
    {
      hide Attempt.Refined, Later, Benign, HeardOne, Heard;
      ghost var before := owner.value;
      LaterItself(before);
      NothingHeard(before.events, arrivals, before.protected);
      for i := 0 to |arrivals|
        invariant Active() && owner.Some? && Later(before, owner.value)
        invariant generation == old(generation) && session == old(session)
        invariant i == 0 ==> owner == old(owner) && state == old(state)
        invariant old(Sound()) && old(state) == Running && AllBenign(arrivals, before) ==>
                    Sound() && state == Running && owner.value.events == Heard(before.events, arrivals[..i], before.protected)
      {
        ghost var a := owner.value;
        HeardNext(before.events, arrivals, i, before.protected);
        LaterSame(before, a);
        if AllBenign(arrivals, before) { BenignStays(arrivals, before, a); }
        Arrives(arrivals[i]);
        LaterStill(before, a, owner.value);
      }
    }

    /** One arrival while some frame is on the stack: nothing is released and no frame starts. */
    method Arrives(arrival: Arrival)
      requires Active()
      modifies this`state, this`owner
      ensures Active() && Onward()
      ensures old(Sound()) && old(state) == Running && Benign(arrival, old(owner).value) ==>
                Sound() && state == Running && owner.value.events == HeardOne(old(owner).value.events, arrival, old(owner).value.protected)
      decreases arrival
    {
      hide Refines;
      match arrival
      case VisitSignal(request, generation, tick, arguments, shown) =>
        if !Stale(owner, request, generation) {
          HandleVisit(tick, arguments, shown);
        }
      case CompletionSignal(request, generation, tick, arguments, editor, during, verdict) =>
        RequiredVisited(owner.value);
        if !Stale(owner, request, generation) {
          HandleCompletion(tick, arguments, editor, during, verdict);
        }
      case Release(request, abort) =>
        if owner.value.request == request {
          var a := owner.value.Ended();
          owner := Some(if abort then a.Invalidated(Cancelled) else a);
        }
      case Expiry(tick) =>
        if tick >= owner.value.expires {
          owner := Some(owner.value.Ended().Invalidated(Expired));
        }
      case SessionClose =>
        owner := Some(owner.value.Ended().Invalidated(SessionClosed));
        state := Closing;
    }

    /** A script became visible in its editor: it must be validated (again). */
    method HandleVisit(tick: nat, arguments: nat, shown: Shown)
      requires Active() && owner.value.entered && !owner.value.terminal
      modifies this`owner
      ensures Active() && Onward() && owner.value.Tidy()
      ensures tick < old(owner).value.expires && state != Closing && arguments == 1 && shown.Script? && shown.live
              && shown.id != 0 && shown.id != old(owner).value.target && shown.id in old(owner).value.protected ==>
                owner.value.events == old(owner).value.events + [Visit(old(owner).value.protected[shown.id])]
                && owner.value.invalidation.None? && !owner.value.terminal
      ensures tick >= old(owner).value.expires || arguments != 1 ==> owner.value.invalidation.Some?
    {
      hide Refines;
      var a := owner.value;
      if tick >= a.expires || state == Closing {
        owner := Some(Handled(a.Invalidated(SessionOrExpiryChanged)));
      } else if arguments != 1 {
        owner := Some(Handled(a.Invalidated(SignalSignatureChanged)));
      } else if shown.NotAnObject? {
        owner := Some(Handled(a.Invalidated(VisitAttributionUnavailable)));
      } else if shown.Script? && shown.id != 0 && shown.id != a.target {
        if shown.id !in a.protected || !shown.live {
          owner := Some(Handled(a.Invalidated(VisitOutsideProtection)));
        } else {
          ShowsRefines(a, a.protected[shown.id], tick);
          owner := Some(Handled(Shows(a, a.protected[shown.id], tick)));
        }
      } else {
        owner := Some(Handled(a));
      }
    }

    /** An editor reports that it was re-validated; that counts only while everything still holds. */
    method HandleCompletion(tick: nat, arguments: nat, editor: nat, during: seq<Arrival>, verdict: Option<Reason>)
      requires Active() && owner.value.entered && !owner.value.terminal
      modifies this`state, this`owner
      ensures Active() && Onward() && owner.value.Tidy()
      ensures tick < old(owner).value.expires && old(state) == Running && arguments == 0 && editor in old(owner).value.required
              && AllBenign(during, old(owner).value) && verdict.None? && old(Sound()) ==>
                owner.value.events == Heard(old(owner).value.events, during, old(owner).value.protected) + [Completion(editor)]
                && owner.value.invalidation.None? && !owner.value.terminal && state == Running
      ensures editor !in old(owner).value.required && arguments == 0 && tick < old(owner).value.expires && old(state) == Running ==>
                owner.value.events == old(owner).value.events && state == Running
                && (old(owner).value.invalidation.None? ==> owner.value.invalidation.None? && !owner.value.terminal)
      decreases during, 3
    {
      hide Refines;
      var a := owner.value;
      if tick >= a.expires || state == Closing {
        owner := Some(Handled(a.Invalidated(SessionOrExpiryChanged)));
      } else if arguments != 0 {
        owner := Some(Handled(a.Invalidated(SignalSignatureChanged)));
      } else if editor !in a.required {
        owner := Some(Handled(a));
      } else {
        Attribute(tick, editor, during, verdict);
      }
    }

    /** A completion of a required editor, once its context was sampled again. */
    method Attribute(tick: nat, editor: nat, during: seq<Arrival>, verdict: Option<Reason>)
      requires Active() && owner.value.entered && !owner.value.terminal && editor in owner.value.required
      requires state == Running && tick < owner.value.expires
      modifies this`state, this`owner
      ensures Active() && Onward() && owner.value.Tidy()
      ensures AllBenign(during, old(owner).value) && verdict.None? && old(Sound()) ==>
                owner.value.events == Heard(old(owner).value.events, during, old(owner).value.protected) + [Completion(editor)]
                && owner.value.invalidation.None? && !owner.value.terminal && state == Running
      decreases during, 2
    {
      hide Refines, Visited;
      var a := owner.value;
      var fault := verdict;
      if a.returned != 0 {
        fault := Guard(GuardRun(tick, during, verdict));
      } else {
        Deliver(during);
      }
      StillRequired(a, owner.value, editor);
      if fault.Some? {
        owner := Some(Handled(owner.value.Invalidated(fault.value)));
      } else {
        CompletesRefines(owner.value, editor, tick);
        owner := Some(Handled(Completes(owner.value, editor, tick)));
      }
    }

    /** The outermost frame unwinds: a requested close releases the attempt and the session. */
    method Unwind()
      modifies this`state, this`owner, this`session
      ensures state == Idle && (if old(state) == Closing then owner == None && session == 0
                                else owner == old(owner) && session == old(session))
    {
      var closing := state == Closing;
      state := Idle;
      if closing { owner, session := None, 0; }
    }

    /** A signal or request that arrives between two calls. */
    method Receive(arrival: Arrival)
      requires Valid()
      modifies this
      ensures Valid() && ReceivedStep(arrival, old(Seen()), Seen())
    {
      hide Refines;
      if owner.Some? {
        LaterItself(owner.value);
        RequiredVisited(owner.value);
      }
      match arrival
      case VisitSignal(request, generation, tick, arguments, shown) =>
        if !Stale(owner, request, generation) {
          state := Running;
          HandleVisit(tick, arguments, shown);
          CloseFrame();
        }
      case CompletionSignal(request, generation, tick, arguments, editor, during, verdict) =>
        if !Stale(owner, request, generation) {
          state := Running;
          HandleCompletion(tick, arguments, editor, during, verdict);
          CloseFrame();
        }
      case Release(request, abort) =>
        if owner.Some? && owner.value.request == request { owner := None; }
      case Expiry(tick) =>
        if owner.Some? && tick >= owner.value.expires { owner := None; }
      case SessionClose =>
        owner, session := None, 0;
    }

    /** The end of an outermost signal frame. */
    method CloseFrame()
      requires Active()
      modifies this`state, this`owner, this`session
      ensures state == Idle && generation == old(generation)
      ensures old(state) == Closing ==> owner == None && session == 0
      ensures old(state) != Closing ==>
                session == old(session) &&
                owner == Some(if old(owner).value.terminal then old(owner).value.(phase := Terminal) else old(owner).value)
    {
      if owner.value.terminal { owner := Some(owner.value.(phase := Terminal)); }
      Unwind();
    }

    /** A request failed: the attempt is retired with its first reason. */
    method Fail(reason: Reason) returns (r: Status)
      requires Active()
      modifies this`owner
      ensures Active() && owner == Some(old(owner).value.Failed(reason)) && owner.value.Tidy()
      ensures r == Refused
    {
      hide Refines;
      owner := Some(owner.value.Failed(reason));
      return Refused;
    }

    /** Opens an attempt; every inspection starts a new generation. */
    method Inspect(request: nat, expires: nat, bound: bool, open: bool, target: nat, fault: Option<Reason>) returns (r: Status)
      requires Valid()
      modifies this
      ensures Valid() && (r, Seen()) == InspectedStep(DoInspect(request, expires, bound, open, target, fault), old(Seen()))
    {
      hide Refines;
      if owner.Some? { return Refused; }
      if !bound || session == 0 { return Refused; }
      generation := generation + 1;
      NothingShown(map[]);
      owner := Some(NewAttempt(request, generation, session, expires, open, target));
      state := Running;
      if fault.Some? { r := Fail(fault.value); } else { r := InspectedOk; }
      Unwind();
    }

    /** Fixes the protected documents. */
    method Prepare(request: nat, protected: map<nat, nat>, preparing: GuardRun) returns (r: Status)
      requires Valid()
      modifies this
      ensures Valid() && PreparedStep(request, protected, preparing, old(Seen()), r, Seen())
    {
      hide Refines;
      if owner.None? || owner.value.request != request { return Refused; }
      state := Running;
      var early := OwnerFault(preparing.tick);
      if early.Some? {
        r := Fail(early.value);
      } else if !owner.value.open || owner.value.phase != Inspected || owner.value.entered {
        r := Fail(WrongStage);
      } else {
        Protects(owner.value, protected);
        owner := Some(owner.value.(protected := protected, phase := Prepared));
        var fault := Guard(preparing);
        if fault.Some? { r := Fail(fault.value); } else { r := PreparedOk; }
      }
      Unwind();
    }

    /** Enters the close, with every signal the editor sends while it closes the file. */
    method Advance(request: nat, authorized: bool, connected: bool, entering: GuardRun, during: seq<Arrival>,
                   code: Option<nat>, returnTick: nat, leaving: GuardRun) returns (r: Status)
      requires Valid()
      modifies this
      ensures Valid()
      ensures AdvancedStep(DoAdvance(request, authorized, connected, entering, during, code, returnTick, leaving), old(Seen()), r, Seen())
    {
      hide Refines, Later;
      if owner.None? || owner.value.request != request { return Refused; }
      state := Running;
      var fault := Close(authorized, connected, entering, during, code, returnTick, leaving);
      if fault.Some? {
        r := Fail(fault.value);
      } else {
        owner := Some(owner.value.Settle());
        r := ReturnedOk;
      }
      Unwind();
    }

    method Close(authorized: bool, connected: bool, entering: GuardRun, during: seq<Arrival>,
                 code: Option<nat>, returnTick: nat, leaving: GuardRun) returns (fault: Option<Reason>)
      requires Active() && state == Running
      modifies this`state, this`owner
      ensures Active() && generation == old(generation) && session == old(session) && SameAttempt(old(owner).value, owner.value)
      ensures old(owner).value.events <= owner.value.events && (old(owner).value.terminal ==> owner.value.terminal)
      ensures fault.None? ==>
                && old(owner).value.phase == Prepared && authorized && connected && code == Some(0) && owner.value.returned == returnTick
      ensures fault.None? ==>
                !old(owner).value.entered && !old(owner).value.terminal && owner.value.entered
                && owner.value.invalidation.None? && !owner.value.terminal && state == Running
      ensures Enters(old(owner).value, authorized, connected, entering, during, code, leaving) && session == old(owner).value.session ==>
                fault.None? && Sound() && owner.value.returned == returnTick && SameAttempt(old(owner).value, owner.value)
                && owner.value.events == Heard(old(owner).value.events, during, old(owner).value.protected)
    {
      hide Refines, Attempt.Tidy, Benign, Heard, HeardOne;
      if owner.value.phase != Prepared || owner.value.entered || !authorized { return Some(WrongStage); }
      if !connected { return Some(Unavailable); }
      fault := Guard(entering);
      if fault.Some? { return; }
      owner := Some(owner.value.(entered := true, phase := Entered));
      if AllBenign(during, old(owner).value) { BenignStays(during, old(owner).value, owner.value); }
      Deliver(during);
      owner := Some(owner.value.(returned := returnTick, phase := Returned));
      if code.None? { return Some(CloseReturnUnavailable); }
      if code.value != 0 { return Some(CloseError); }
      fault := Guard(leaving);
    }

    /** What the client is told about the continuation. */
    method Report(request: nat, guard: GuardRun) returns (r: Status)
      requires Valid()
      modifies this
      ensures Valid() && ReportedStep(request, guard, old(Seen()), r, Seen())
      ensures r == Said(Completed) && owner.Some? ==>
                (forall e | Event.Visit(e) in owner.value.events :: CompletedSince(owner.value.events, e))
                && (!owner.value.terminal ==> owner.value.phase == Settled)
    {
      hide Refines;
      if owner.None? || owner.value.request != request { return Refused; }
      state := Running;
      var fault := None;
      if !owner.value.terminal {
        fault := OwnerFault(guard.tick);
        if fault.None? && owner.value.returned != 0 { fault := Guard(guard); }
      }
      if fault.Some? {
        r := Fail(fault.value);
      } else {
        CompletedMeansEveryVisit(owner.value);
        r := Said(ContinuationOf(owner.value));
      }
      Unwind();
    }

    /** Observation and recheck; after the close it waits for the ledger to be complete. */
    method Observe(request: nat, purpose: Purpose, recheck: bool, guard: GuardRun, resource: Option<Reason>) returns (r: Status)
      requires Valid()
      modifies this
      ensures Valid() && ObservedStep(DoObserve(request, purpose, recheck, guard, resource), old(Seen()), r, Seen())
    {
      hide Refines;
      if owner.None? || owner.value.request != request { return Refused; }
      state := Running;
      r := Sample(purpose, recheck, guard, resource);
      Unwind();
    }

    /** The sample behind an observation. */
    method Sample(purpose: Purpose, recheck: bool, guard: GuardRun, resource: Option<Reason>) returns (r: Status)
      requires Active() && owner.value.Tidy()
      modifies this`state, this`owner
      ensures Active() && owner.value.Tidy() && Carries(old(owner).value, owner.value)
      ensures r == Observed || r == Rechecked || r == Unsettled || r == Refused
      ensures r == Refused ==> owner.value.terminal
      ensures r == Unsettled ==> owner.value.required != owner.value.completed
      ensures r == Observed || r == Rechecked ==>
                && r == (if recheck then Rechecked else Observed) && resource.None? && purpose != UnknownPurpose
                && owner.value.invalidation.None? && !owner.value.terminal
                && (owner.value.entered ==> owner.value.required == owner.value.completed)
                && (purpose == PostClose ==> owner.value.returned != 0 && owner.value.phase == Settled)
    {
      hide Refines;
      var a := owner.value;
      if !((purpose == Recognition && !a.open && !a.entered) || (purpose == PreClose && recheck && a.phase == Prepared)
           || (purpose == PostClose && a.returned != 0)) {
        r := Fail(WrongPurpose);
        return;
      }
      var fault := Guard(guard);
      if fault.None? { fault := resource; }
      if fault.Some? {
        r := Fail(fault.value);
      } else if owner.value.entered && owner.value.required != owner.value.completed {
        r := Unsettled;
      } else {
        r := if recheck then Rechecked else Observed;
      }
    }

    /** Evidence after a failure: the attempt is retired first. */
    method ObserveSurvivor(request: nat, tick: nat, attached: bool, preserved: Option<Reason>) returns (r: Status)
      requires Valid()
      modifies this
      ensures Valid() && (r, Seen()) == Surviving(DoObserveSurvivor(request, tick, attached, preserved), old(Seen()))
    {
      hide Refines;
      if owner.None? || owner.value.request != request { return Refused; }
      state := Running;
      var a := owner.value;
      if session != a.session || tick >= a.expires || !attached {
        r := Fail(SessionOrExpiryChanged);
      } else {
        owner := Some(a.Ended().(phase := Terminal));
        if preserved.Some? { owner := Some(owner.value.Invalidated(preserved.value)); }
        r := Observed;
      }
      Unwind();
    }

    method Configure(id: nat) returns (ok: bool)
      requires Valid()
      modifies this`session
      ensures Valid() && ok == (owner.None? && id != 0) && session == if ok then id else old(session)
    {
      ok := owner.None? && id != 0;
      if ok { session := id; }
    }
  }

  lemma RequiredVisited(a: Attempt)
    requires a.Refined()
    ensures a.required == Visited(a.events)
  {
  }

  lemma NothingHeard(events: seq<Event>, arrivals: seq<Arrival>, protected: map<nat, nat>)
    ensures Heard(events, arrivals[..0], protected) == events && arrivals[..|arrivals|] == arrivals
  {
  }

  lemma LaterSame(a: Attempt, b: Attempt)
    requires Later(a, b)
    ensures SameAttempt(a, b)
  {
  }

  lemma LaterItself(a: Attempt)
    ensures Later(a, a)
  {
  }

  /** Nothing that arrives takes an editor out of the required set. */
  lemma StillRequired(a: Attempt, b: Attempt, editor: nat)
    requires a.Refined() && b.Refined() && a.events <= b.events && editor in a.required
    ensures editor in b.required
  {
    var i :| 0 <= i < |a.events| && a.events[i].Visit? && a.events[i].editor == editor;
    assert b.events[i] == a.events[i];
  }

  lemma NothingShown(none: map<nat, (nat, nat)>)
    requires none == map[]
    ensures Refines({}, {}, none.Keys, [])
  {
    assert Visited([]) == {} == none.Keys;
  }

  /** Before the close is entered nothing has been shown, so any documents can be protected. */
  lemma Protects(a: Attempt, protected: map<nat, nat>)
    requires a.Refined() && !a.entered
    ensures a.(protected := protected, phase := Prepared).Refined()
  {
    assert Visited([]) == {};
  }

  // ---- whole runs ----

  datatype Op =
    | DoInspect(request: nat, expires: nat, bound: bool, open: bool, target: nat, fault: Option<Reason>)
    | DoPrepare(request: nat, protected: map<nat, nat>, guard: GuardRun)
    | DoAdvance(request: nat, authorized: bool, connected: bool, entering: GuardRun, during: seq<Arrival>,
                code: Option<nat>, returnTick: nat, leaving: GuardRun)
    | DoReport(request: nat, guard: GuardRun)
    | DoObserve(request: nat, purpose: Purpose, recheck: bool, guard: GuardRun, resource: Option<Reason>)
    | DoObserveSurvivor(request: nat, tick: nat, attached: bool, preserved: Option<Reason>)
    | DoReceive(arrival: Arrival)
    | DoConfigure(id: nat)

  /** One operation of a run: what it does to the slot and what it answers. */
  predicate Stepped(op: Op, s: View, r: Option<Status>, t: View) {
    match op
    case DoInspect(_, _, _, _, _, _) => r.Some? && (r.value, t) == InspectedStep(op, s)
    case DoPrepare(request, protected, guard) => r.Some? && PreparedStep(request, protected, guard, s, r.value, t)
    case DoAdvance(_, _, _, _, _, _, _, _) => r.Some? && AdvancedStep(op, s, r.value, t)
    case DoReport(request, guard) => r.Some? && ReportedStep(request, guard, s, r.value, t)
    case DoObserve(_, _, _, _, _) => r.Some? && ObservedStep(op, s, r.value, t)
    case DoObserveSurvivor(_, _, _, _) => r.Some? && (r.value, t) == Surviving(op, s)
    case DoReceive(arrival) => r == None && ReceivedStep(arrival, s, t)
    case DoConfigure(id) => r == None && t == if s.owner.None? && id != 0 then s.(session := id) else s
  }

  method Perform(slot: Slot, op: Op) returns (r: Option<Status>)
    requires slot.Valid()
    modifies slot
    ensures slot.Valid() && Stepped(op, old(slot.Seen()), r, slot.Seen())
  {
    hide Refines, Slot.Valid, PreparedStep, AdvancedStep, ReportedStep, ObservedStep, ReceivedStep, InspectedStep, Surviving;
    r := None;
    match op {
      case DoInspect(request, expires, bound, open, target, fault) =>
        var said := slot.Inspect(request, expires, bound, open, target, fault);
        r := Some(said);
      case DoPrepare(request, protected, guard) =>
        var said := slot.Prepare(request, protected, guard);
        r := Some(said);
      case DoAdvance(request, authorized, connected, entering, during, code, returnTick, leaving) =>
        var said := slot.Advance(request, authorized, connected, entering, during, code, returnTick, leaving);
        r := Some(said);
      case DoReport(request, guard) =>
        var said := slot.Report(request, guard);
        r := Some(said);
      case DoObserve(request, purpose, recheck, guard, resource) =>
        var said := slot.Observe(request, purpose, recheck, guard, resource);
        r := Some(said);
      case DoObserveSurvivor(request, tick, attached, preserved) =>
        var said := slot.ObserveSurvivor(request, tick, attached, preserved);
        r := Some(said);
      case DoReceive(arrival) => slot.Receive(arrival);
      case DoConfigure(id) => var _ := slot.Configure(id);
    }
  }

  /** The ledger refines the accepted events, and the phase of a returned, live attempt says whether every
      visited editor was completed since. */
  ghost predicate Ledgered(v: View) {
    v.owner.Some? ==>
      && var a := v.owner.value;
         && a.required == Visited(a.events) == a.collections.Keys
         && a.completed <= a.required <= a.protected.Values
         && (forall e | e in a.required :: e in a.completed <==> CompletedSince(a.events, e))
         && (a.returned != 0 && !a.terminal ==>
               (a.phase == Settled <==> forall e | e in a.required :: CompletedSince(a.events, e)))
         && (a.invalidation.Some? ==> a.terminal)
         && (!a.entered ==> a.events == [])
  }

  lemma LedgeredNow(slot: Slot)
    requires slot.Valid()
    ensures Ledgered(slot.Seen())
  {
    if slot.owner.Some? { SettledMeansAll(slot.owner.value); }
  }

  /** The view operation `k` started from. */
  function Before(first: View, views: seq<View>, k: nat): View
    requires k <= |views|
  {
    if k == 0 then first else views[k - 1]
  }

  /** Every view and reply is what the operation made of the view before it. */
  predicate Chained(first: View, ops: seq<Op>, views: seq<View>, replies: seq<Option<Status>>) {
    && |views| == |replies| <= |ops|
    && forall k | 0 <= k < |views| :: Stepped(ops[k], Before(first, views, k), replies[k], views[k])
  }

  lemma NothingChained(first: View, ops: seq<Op>)
    ensures Chained(first, ops, [], [])
  {
  }

  lemma ChainOn(first: View, ops: seq<Op>, views: seq<View>, replies: seq<Option<Status>>, r: Option<Status>, t: View)
    requires Chained(first, ops, views, replies) && |views| < |ops| && Stepped(ops[|views|], Before(first, views, |views|), r, t)
    ensures Chained(first, ops, views + [t], replies + [r])
  {
    hide Stepped;
    forall k | 0 <= k < |views| + 1
      ensures Stepped(ops[k], Before(first, views + [t], k), (replies + [r])[k], (views + [t])[k])
    {
      assert Before(first, views + [t], k) == Before(first, views, k);
    }
  }

  /** Any run of requests and signals, with signals nested in signals to any depth. */
  method Run(session: nat, ops: seq<Op>) returns (views: seq<View>, replies: seq<Option<Status>>)
    ensures |views| == |ops| && Chained(View(session, 0, None), ops, views, replies)
    ensures forall v | v in views :: Ledgered(v)
  {
    hide Stepped, Chained, Ledgered, Slot.Valid;
    var slot := new Slot(session);
    views, replies := [], [];
    NothingChained(View(session, 0, None), ops);
    for i := 0 to |ops|
      invariant slot.Valid() && |views| == |replies| == i && slot.Seen() == Before(View(session, 0, None), views, i)
      invariant Chained(View(session, 0, None), ops, views, replies) && forall v | v in views :: Ledgered(v)
    {
      var r := Perform(slot, ops[i]);
      LedgeredNow(slot);
      ChainOn(View(session, 0, None), ops, views, replies, r, slot.Seen());
      views, replies := views + [slot.Seen()], replies + [r];
    }
  }

  lemma SettledMeansAll(a: Attempt)
    requires a.Refined() && a.Tidy()
    ensures a.returned != 0 && !a.terminal ==>
              (a.phase == Settled <==> forall e | e in a.required :: CompletedSince(a.events, e))
  {
    if forall e | e in a.required :: CompletedSince(a.events, e) {
      assert a.required == a.completed;
    }
  }

  // ---- an undisturbed close ----

  /** The operations of a close with these signals during and after it. */
  function WholeClose(request: nat, expires: nat, target: nat, protected: map<nat, nat>, tick: nat, during: seq<Arrival>,
                      after: seq<Arrival>): seq<Op>
  {
    var calm := GuardRun(tick, [], None);
    [DoInspect(request, expires, true, true, target, None), DoPrepare(request, protected, calm),
     DoAdvance(request, true, true, calm, during, Some(0), tick, calm)]
    + seq(|after|, i requires 0 <= i < |after| => DoReceive(after[i])) + [DoReport(request, calm)]
  }

  /** The close returned at `tick`, nothing disturbed it, and these events were recorded. */
  predicate Undisturbed(v: View, a: Attempt, tick: nat, events: seq<Event>) {
    && v.owner.Some? && Live(v.owner.value, v.session) && SameAttempt(a, v.owner.value) && v.owner.value.returned == tick
    && v.owner.value.events == events
  }

  lemma UndisturbedEntry(a: Attempt, tick: nat, during: seq<Arrival>, s: View, r: Status, t: View)
    requires s == View(a.session, a.generation, Some(a.(phase := Prepared)))
    requires a == NewAttempt(a.request, a.generation, a.session, a.expires, true, a.target).(protected := a.protected)
    requires a.session != 0 && tick < a.expires && AllBenign(during, a)
    requires AdvancedStep(DoAdvance(a.request, true, true, GuardRun(tick, [], None), during, Some(0), tick, GuardRun(tick, [], None)), s, r, t)
    ensures r == ReturnedOk && Undisturbed(t, a, tick, Heard([], during, a.protected))
  {
    hide Benign, Heard;
    BenignStays(during, a, a.(phase := Prepared));
  }

  lemma UndisturbedSignal(a: Attempt, tick: nat, events: seq<Event>, arrival: Arrival, s: View, t: View)
    requires Undisturbed(s, a, tick, events) && AllBenign([arrival], a) && ReceivedStep(arrival, s, t)
    ensures Undisturbed(t, a, tick, HeardOne(events, arrival, a.protected))
  {
    BenignStays([arrival], a, s.owner.value);
    assert Benign([arrival][0], s.owner.value);
    hide Benign, HeardOne;
    BenignSignal(arrival, s.owner.value);
  }

  /** An undisturbed close. Whatever visits and completions the editor signals while it closes the file and
      afterwards, the ledger holds exactly those events, and the client is told that validation completed
      exactly when something was visited and every visited editor was completed after its latest visit. */
  method UndisturbedClose(session: nat, request: nat, expires: nat, target: nat, protected: map<nat, nat>, tick: nat,
                          during: seq<Arrival>, after: seq<Arrival>)
    returns (views: seq<View>, replies: seq<Option<Status>>, told: Status, events: seq<Event>)
    requires session != 0 && 0 < tick < expires
    requires AllBenign(during, NewAttempt(request, 1, session, expires, true, target).(protected := protected))
    requires AllBenign(after, NewAttempt(request, 1, session, expires, true, target).(protected := protected))
    ensures |views| == |after| + 4
    ensures Chained(View(session, 0, None), WholeClose(request, expires, target, protected, tick, during, after), views, replies)
    ensures replies[|after| + 3] == Some(told) && views[|after| + 3].owner.Some? && events == views[|after| + 3].owner.value.events
    ensures events == Heard(Heard([], during, protected), after, protected)
    ensures told == Said(Completed) <==>
              (exists e :: Event.Visit(e) in events) && (forall e | Event.Visit(e) in events :: CompletedSince(events, e))
    ensures told == Said(Completed) || told == Said(Pending) || told == Said(NotApplicable)
  {
    hide Refines, AllBenign, Benign, Heard, HeardOne, Stepped, Ledgered, Undisturbed, CompletedSince;
    var ops := WholeClose(request, expires, target, protected, tick, during, after);
    ghost var first := View(session, 0, None);
    ghost var a := NewAttempt(request, 1, session, expires, true, target).(protected := protected);
    views, replies := Run(session, ops);
    assert Stepped(ops[0], first, replies[0], views[0]) && Stepped(ops[1], views[0], replies[1], views[1]);
    assert Stepped(ops[2], views[1], replies[2], views[2]);
    Opening(a, tick, during, first, views[0], views[1], views[2], replies[0], replies[1], replies[2]);
    NothingHeard(Heard([], during, protected), after, protected);
    for i := 0 to |after|
      invariant Undisturbed(views[i + 2], a, tick, Heard(Heard([], during, protected), after[..i], protected))
    {
      assert ops[i + 3] == DoReceive(after[i]) && Stepped(ops[i + 3], views[i + 2], replies[i + 3], views[i + 3]);
      HeardNext(Heard([], during, protected), after, i, protected);
      OneBenign(after, i, a);
      Signalled(a, tick, Heard(Heard([], during, protected), after[..i], protected), after[i], views[i + 2], replies[i + 3], views[i + 3]);
    }
    var n := |after|;
    assert ops[n + 3] == DoReport(request, GuardRun(tick, [], None)) && Stepped(ops[n + 3], views[n + 2], replies[n + 3], views[n + 3]);
    assert views[n + 3] in views;
    Told(a, tick, Heard(Heard([], during, protected), after, protected), views[n + 2], replies[n + 3], views[n + 3]);
    told, events := replies[n + 3].value, views[n + 3].owner.value.events;
  }

  lemma OneBenign(arrivals: seq<Arrival>, i: nat, a: Attempt)
    requires i < |arrivals| && AllBenign(arrivals, a)
    ensures AllBenign([arrivals[i]], a)
  {
  }

  lemma Opening(a: Attempt, tick: nat, during: seq<Arrival>, first: View, s: View, t: View, u: View, r0: Option<Status>,
                r1: Option<Status>, r2: Option<Status>)
    requires a == NewAttempt(a.request, 1, a.session, a.expires, true, a.target).(protected := a.protected)
    requires a.session != 0 && tick < a.expires && AllBenign(during, a) && first == View(a.session, 0, None)
    requires var calm := GuardRun(tick, [], None);
             && Stepped(DoInspect(a.request, a.expires, true, true, a.target, None), first, r0, s)
             && Stepped(DoPrepare(a.request, a.protected, calm), s, r1, t)
             && Stepped(DoAdvance(a.request, true, true, calm, during, Some(0), tick, calm), t, r2, u)
    ensures Undisturbed(u, a, tick, Heard([], during, a.protected))
  {
    hide AdvancedStep, AllBenign, Heard, Undisturbed;
    UndisturbedEntry(a, tick, during, t, r2.value, u);
  }

  lemma Signalled(a: Attempt, tick: nat, events: seq<Event>, arrival: Arrival, s: View, r: Option<Status>, t: View)
    requires Undisturbed(s, a, tick, events) && AllBenign([arrival], a) && Stepped(DoReceive(arrival), s, r, t)
    ensures Undisturbed(t, a, tick, HeardOne(events, arrival, a.protected))
  {
    UndisturbedSignal(a, tick, events, arrival, s, t);
  }

  lemma Told(a: Attempt, tick: nat, events: seq<Event>, s: View, r: Option<Status>, t: View)
    requires Undisturbed(s, a, tick, events) && tick < a.expires && tick != 0 && Ledgered(t)
    requires Stepped(DoReport(a.request, GuardRun(tick, [], None)), s, r, t)
    ensures t == s && r.Some? && (r.value == Said(Completed) || r.value == Said(Pending) || r.value == Said(NotApplicable))
    ensures r == Some(Said(Completed)) <==>
              (exists e :: Event.Visit(e) in events) && (forall e | Event.Visit(e) in events :: CompletedSince(events, e))
    ensures t.owner.Some? && t.owner.value.events == events
  {
    CompletedMeansEveryVisit(s.owner.value);
  }
}
