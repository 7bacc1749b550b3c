/** From evidence and terminal signals to one outcome: the fail-closed classifier, and the
    supplement that rechecks an earlier outcome. */
module Observation {
  import opened Wrappers
  import opened Evidence

  datatype Interval = Interval(elapsed: nat)

  datatype RecheckReason = RecheckUnavailable | RecheckDeadline | RecheckSessionEnded | RecheckUnsupported

  datatype Recheck =
    | Performed(changes: seq<Change>)
    | NotPerformed(reason: RecheckReason)
    | Partial(reason: RecheckReason, changes: seq<Change>)

  datatype Consistency = Consistency(performed: bool, changed: bool, changes: seq<Change>, reason: Option<RecheckReason>)

  datatype Snapshot = Snapshot(target: Target, body: Body, consistency: Consistency)

  datatype Kind =
    | CompleteObservation | LimitedObservation | NotOpenKind | AmbiguousTarget | MissingTarget | InvalidTarget
    | EditorUnavailable | DisconnectedEditor | Timeout | UnsupportedObservation | DeniedAccess | InvalidRequest
    | ProtocolError | Cancelled

  /** A terminal signal; an ambiguous target names the candidate sessions. */
  datatype Signal =
    | Ambiguous(candidates: seq<nat>)
    | Plain(kind: Kind)
  {
    predicate Proper() {
      Plain? ==> kind.MissingTarget? || kind.InvalidTarget? || kind.EditorUnavailable? || kind.DisconnectedEditor?
                 || kind.Timeout? || kind.UnsupportedObservation? || kind.DeniedAccess? || kind.InvalidRequest?
                 || kind.ProtocolError? || kind.Cancelled?
    }

    function Kind(): Kind {
      match this
      case Ambiguous(_) => AmbiguousTarget
      case Plain(kind) => kind
    }

    /** Smaller is safer. */
    function Priority(): nat {
      match Kind()
      case DeniedAccess => 0
      case AmbiguousTarget => 1
      case InvalidRequest => 2
      case ProtocolError => 3
      case Cancelled => 4
      case DisconnectedEditor => 5
      case MissingTarget => 6
      case InvalidTarget => 7
      case UnsupportedObservation => 8
      case EditorUnavailable => 9
      case _ => 10
    }

    predicate SourceFree() {
      Kind().DeniedAccess? || Kind().AmbiguousTarget? || Kind().InvalidRequest? || Kind().EditorUnavailable?
    }
  }

  type Terminal = s: Signal | s.Proper() witness Plain(Timeout)

  /** What an outcome says about its surfaces and signals; the text of a diagnostic is not modelled. */
  datatype Diagnostic =
    | OfSignal(kind: Kind)
    | OfSource(authority: Authority, reason: SourceReason)
    | OfDirty(dirty: DirtyReason)
    | OfFact(fact: FactReason)
    | OfRecheck
    | Other(code: nat)

  datatype EvidenceGiven = EvidenceGiven(target: Target, body: Body, recheck: Recheck)

  datatype Outcome = Outcome(
    request: nat,
    kind: Kind,
    interval: Interval,
    target: Option<Target>,
    snapshot: Option<Snapshot>,
    diagnostics: seq<Diagnostic>,
    selection: Option<seq<nat>>)

  // ---- validation of evidence ----

  function CheckStamp(s: Stamp, target: Target, interval: Interval, editor: bool): Option<EvidenceError> {
    if s.received > interval.elapsed then Some(InvalidTiming)
    else match s.clock
      case Caller => if editor then Some(WrongClock) else None
      case Editor(session) => if editor && session == target.session then None else Some(WrongClock)
  }

  function CheckWitness(w: Witness, identity: Identity, authority: Authority): Option<EvidenceError> {
    if w.path != identity.path then Some(WrongTarget)
    else match authority
      case D => if w.disk != identity.disk || w.script.Some? || w.editor.Some? || w.buffer.Some? then Some(WrongTarget) else None
      case R => if w.script != identity.script || w.disk.Some? || w.editor.Some? || w.buffer.Some? then Some(WrongTarget) else None
      case B =>
        if w.editor != identity.editor || w.buffer != identity.buffer || w.disk.Some?
           || (w.script.Some? && identity.script.Some? && w.script != identity.script) then Some(WrongTarget) else None
  }

  function CheckStale(changes: seq<StaleChange>, authority: Authority, target: Target, identity: Identity, interval: Interval)
    : Option<EvidenceError>
  {
    if changes == [] then None
    else
      var c := changes[0];
      if c.authority == authority then Some(InvalidStaleness)
      else
        match CheckStamp(c.stamp, target, interval, c.authority != D)
        case Some(e) => Some(e)
        case None =>
          match CheckWitness(c.seen, identity, c.authority)
          case Some(e) => Some(e)
          case None => CheckStale(changes[1..], authority, target, identity, interval)
  }

  function CheckObservation(v: Evidence.Observation, authority: Authority, target: Target, identity: Identity, interval: Interval)
    : Option<EvidenceError>
  {
    match CheckStamp(v.stamp, target, interval, authority != D)
    case Some(e) => Some(e)
    case None =>
      match CheckWitness(v.seen, identity, authority)
      case Some(e) => Some(e)
      case None => if v.stale.Some? then CheckStale(v.stale.value, authority, target, identity, interval) else None
  }

  function CheckSource(s: Source, target: Target, identity: Identity, interval: Interval): Option<EvidenceError> {
    match s.state
    case Observed(value) => CheckObservation(value, s.authority, target, identity, interval)
    case Unavailable(_, Some(lost)) => CheckObservation(lost.0, s.authority, target, identity, interval)
    case _ => None
  }

  function CheckFact<T>(f: Fact<T>, target: Target, interval: Interval, editorOnly: bool): Option<EvidenceError> {
    match f
    case Known(_, s) => CheckStamp(s, target, interval, editorOnly || s.clock.Editor?)
    case Unknown(_, Some(lost)) => CheckStamp(lost.1, target, interval, editorOnly || lost.1.clock.Editor?)
    case Unknown(_, None) => None
  }

  function CheckDirty(d: Dirty, target: Target, identity: Option<Identity>, interval: Interval): Option<EvidenceError> {
    if d.DirtyUnavailable? && d.reason == DirtyNotOpen then Some(InvalidReason)
    else match d
      case DirtyObserved(_, s, w) => CheckDirtyAt(s, w, target, identity, interval)
      case DirtyUnavailable(_, Some(lost)) => CheckDirtyAt(lost.1, lost.2, target, identity, interval)
      case _ => None
  }

  function CheckDirtyAt(s: Stamp, w: Witness, target: Target, identity: Option<Identity>, interval: Interval): Option<EvidenceError> {
    match CheckStamp(s, target, interval, true)
    case Some(e) => Some(e)
    case None => if identity.None? then Some(InvalidDocument) else CheckWitness(w, identity.value, B)
  }

  function First(checks: seq<Option<EvidenceError>>): Option<EvidenceError> {
    if checks == [] then None else if checks[0].Some? then checks[0] else First(checks[1..])
  }

  predicate Held(s: Source) {
    s.state.Observed? || s.Invalidated().Some?
  }

  /** Whether an open or closed document can go with these availabilities. */
  function CheckApplicability(b: Body): Option<EvidenceError> {
    var inapplicable := b.buffer.state.NotApplicable? || b.dirty.DirtyNotApplicable?;
    var open := b.open.Value();
    if b.validity.Value().Some? && b.validity.value != Valid && open == Some(Open) then Some(InvalidDocument)
    else if open == Some(NotOpen) && !(b.buffer.state.NotApplicable? && b.dirty.DirtyNotApplicable?) then Some(InvalidAvailability)
    else if open != Some(NotOpen) && inapplicable then Some(InvalidAvailability)
    else if open.None? && (b.buffer.state.Observed? || b.dirty.DirtyObserved?) then Some(InvalidDocument)
    else if b.identity.Some? && b.identity.value.kind == BuiltinGdscript
         && (b.disk.state.Observed? || (b.disk.Reason().Some? && b.disk.Reason() != Some(NoStandaloneDiskSource)))
    then Some(InvalidAvailability)
    else if open == Some(NotOpen) && b.identity.Some? && (b.identity.value.editor.Some? || b.identity.value.buffer.Some?)
    then Some(InvalidDocument)
    else None
  }

  function CheckBody(b: Body, target: Target, interval: Interval): Option<EvidenceError> {
    First(Checks(b, target, interval))
  }

  /** The checks in the order in which the first failing one is reported. */
  function Checks(b: Body, target: Target, interval: Interval): seq<Option<EvidenceError>> {
    [
      if b.identity.Some? && b.identity.value.path != target.path then Some(WrongTarget) else None,
      CheckFact(b.validity, target, interval, false),
      CheckFact(b.open, target, interval, true),
      CheckDirty(b.dirty, target, b.identity, interval),
      if b.identity.Some? then CheckSource(b.disk, target, b.identity.value, interval) else None,
      if b.identity.Some? then CheckSource(b.resource, target, b.identity.value, interval) else None,
      if b.identity.Some? then CheckSource(b.buffer, target, b.identity.value, interval) else None,
      if b.identity.None? && (Held(b.disk) || Held(b.resource) || Held(b.buffer) || b.dirty.DirtyObserved?
                              || b.dirty.Invalidated().Some?)
      then Some(InvalidDocument) else None,
      CheckApplicability(b)]
  }

  // ---- finishing evidence ----

  function ChangesOf(recheck: Recheck): seq<Change> {
    match recheck
    case NotPerformed(_) => []
    case Performed(changes) => changes
    case Partial(_, changes) => changes
  }

  /** A change established during collection is listed even when a later one hides it. */
  function AddChange(changes: seq<Change>, happened: bool, change: Change): seq<Change> {
    if happened && change !in changes then changes + [change] else changes
  }

  predicate LostToChange(s: Source) {
    s.Invalidated().Some? && s.Invalidated().value.1 == SourceChanged
  }

  predicate DirtyLostToChange(d: Dirty) {
    d.Invalidated().Some? && d.Invalidated().value.3 == DirtySourceChanged
  }

  function Established(body: Body, changes: seq<Change>): seq<Change> {
    var c1 := AddChange(changes, LostToChange(body.disk), SourceChange(body.disk.authority));
    var c2 := AddChange(c1, LostToChange(body.resource), SourceChange(body.resource.authority));
    var c3 := AddChange(c2, LostToChange(body.buffer), SourceChange(body.buffer.authority));
    AddChange(c3, DirtyLostToChange(body.dirty), DirtyChange)
  }

  predicate SessionLost(changes: seq<Change>) {
    SessionEndedChange in changes || SessionReplaced in changes
  }

  function Finish(e: EvidenceGiven, interval: Interval, disconnected: bool): Result<Snapshot, EvidenceError> {
    match CheckBody(e.body, e.target, interval)
    case Some(error) => Err(error)
    case None =>
      var changes := ChangesOf(e.recheck);
      match ApplyAll(e.body, changes)
      case Err(error) => Err(error)
      case Ok(body) =>
        var ends := disconnected && !SessionLost(changes);
        match (if ends then EndSession(body) else Ok(body))
        case Err(error) => Err(error)
        case Ok(final) =>
          if final.open.Unknown? && (final.buffer.state.NotApplicable? || final.dirty.DirtyNotApplicable?) then Err(InvalidAvailability)
          else
            var all := Established(final, if ends then changes + [SessionEndedChange] else changes);
            Ok(Snapshot(e.target, final,
                        Consistency(e.recheck.Performed?, all != [], all,
                                    if e.recheck.Performed? then None else Some(e.recheck.reason))))
  }

  function Classification(s: Snapshot): Kind {
    var b := s.body;
    if b.validity.Value() != Some(Valid) then LimitedObservation
    else if !s.consistency.performed then LimitedObservation
    else if b.open.Value() == Some(NotOpen) && b.identity.Some? then NotOpenKind
    else if b.open.Value() == Some(Open) && b.identity.Some? && !s.consistency.changed
         && b.disk.state.Observed? && b.resource.state.Observed? && b.buffer.state.Observed? && b.dirty.DirtyObserved?
    then CompleteObservation
    else LimitedObservation
  }

  /** What finishing guarantees about the recorded consistency. */
  predicate WellFormed(s: Snapshot) {
    && (s.consistency.performed <==> s.consistency.reason.None?)
    && (s.consistency.changed <==> s.consistency.changes != [])
  }

  lemma EstablishedGrows(body: Body, changes: seq<Change>)
    ensures changes <= Established(body, changes)
  {
  }

  /** Finishing only degrades the evidence, and lists at least the changes it was given. */
  lemma FinishDegrades(e: EvidenceGiven, interval: Interval, disconnected: bool)
    requires Finish(e, interval, disconnected).Ok?
    ensures var s := Finish(e, interval, disconnected).value;
            && WellFormed(s) && s.target == e.target
            && Degrades(e.body, s.body)
            && ChangesOf(e.recheck) <= s.consistency.changes
            && s.consistency.performed == e.recheck.Performed?
            && (!e.recheck.Performed? ==> s.consistency.reason == Some(e.recheck.reason))
  {
    hide Degrades, CheckBody, EndSession, ApplyAll, Established;
    var changes := ChangesOf(e.recheck);
    ApplyAllDegrades(e.body, changes);
    var body := ApplyAll(e.body, changes).value;
    var final := Finish(e, interval, disconnected).value.body;
    if disconnected && !SessionLost(changes) {
      EndSessionDegrades(body);
      DegradesOnward(e.body, body, final);
      EstablishedGrows(final, changes + [SessionEndedChange]);
    } else {
      EstablishedGrows(final, changes);
    }
  }

  /** Nothing a listed change touches is current in the snapshot. */
  lemma FinishLosesTouched(e: EvidenceGiven, interval: Interval, disconnected: bool, k: nat, part: Part)
    requires e.body.Slotted() && Finish(e, interval, disconnected).Ok?
    requires k < |ChangesOf(e.recheck)| && Touches(e.body, ChangesOf(e.recheck)[k], part)
    ensures !Current(Finish(e, interval, disconnected).value.body, part)
  {
    hide CheckBody, EndSession, ApplyAll, Established, Current, Touches, Degrades;
    var changes := ChangesOf(e.recheck);
    TouchedStaysLost(e.body, changes, k, part);
    if disconnected && !SessionLost(changes) {
      var body := ApplyAll(e.body, changes).value;
      EndSessionDegrades(body);
      NeverCurrentAgain(body, Finish(e, interval, disconnected).value.body, part);
    }
  }

  // ---- classifying ----

  /** The failure evidence itself implies. */
  function Implied(e: EvidenceGiven): Option<Terminal> {
    if (!e.recheck.Performed? && e.recheck.reason == RecheckSessionEnded)
       || SessionLost(ChangesOf(e.recheck))
       || e.body.open.Because() == Some(FactSessionEnded)
       || e.body.resource.Reason() == Some(SessionEnded) || e.body.buffer.Reason() == Some(SessionEnded)
       || e.body.dirty.Because() == Some(DirtySessionEnded)
    then Some(Plain(DisconnectedEditor))
    else if !e.recheck.Performed? && e.recheck.reason == RecheckDeadline then Some(Plain(Timeout))
    else None
  }

  function Better(failure: Option<Terminal>, signal: Terminal): Option<Terminal> {
    if failure.None? || signal.Priority() < failure.value.Priority() then Some(signal) else failure
  }

  function Note(diagnostics: seq<Diagnostic>, d: Diagnostic): seq<Diagnostic> {
    if d in diagnostics then diagnostics else diagnostics + [d]
  }

  datatype Reduced = Reduced(failure: Option<Terminal>, disconnected: bool, diagnostics: seq<Diagnostic>)

  function Absorb(r: Reduced, signal: Terminal): Reduced {
    Reduced(Better(r.failure, signal), r.disconnected || signal == Plain(DisconnectedEditor),
            Note(r.diagnostics, OfSignal(signal.Kind())))
  }

  function Reduce(start: Reduced, signals: seq<Terminal>): Reduced {
    if signals == [] then start else Absorb(Reduce(start, signals[..|signals| - 1]), signals[|signals| - 1])
  }

  function SnapshotDiagnostics(s: Snapshot): seq<Diagnostic> {
    (if s.body.disk.state.Unavailable? then [OfSource(D, s.body.disk.state.reason)] else []) +
    (if s.body.resource.state.Unavailable? then [OfSource(R, s.body.resource.state.reason)] else []) +
    (if s.body.buffer.state.Unavailable? then [OfSource(B, s.body.buffer.state.reason)] else []) +
    (if s.body.dirty.DirtyUnavailable? then [OfDirty(s.body.dirty.reason)] else []) +
    (if s.body.validity.Unknown? then [OfFact(s.body.validity.reason)] else []) +
    (if s.body.open.Unknown? then [OfFact(s.body.open.reason)] else []) +
    (if !s.consistency.performed then [OfRecheck] else [])
  }

  function CheckTarget(request: Request, target: Target): Option<EvidenceError> {
    if request.id != target.request || request.root != target.root || request.path != target.path
       || (request.session.Some? && request.session.value != target.session)
    then Some(WrongTarget) else None
  }

  /** A finished document that is not there, or is no script. */
  function InferredFailure(request: Request, s: Snapshot): Option<Terminal> {
    match (s.body.validity.Value(), s.body.open.Value())
    case (Some(Missing), Some(NotOpen)) => Some(Plain(MissingTarget))
    case (Some(Invalid), Some(NotOpen)) => Some(Plain(InvalidTarget))
    case (Some(Invalid), None) => if request.path.kind.None? then Some(Plain(InvalidTarget)) else None
    case _ => None
  }

  /** Everything after the signals were reduced. */
  function Conclude(request: Request, interval: Interval, target: Option<Target>, evidence: Option<EvidenceGiven>, r: Reduced)
    : Result<Outcome, EvidenceError>
  {
    if r.failure.Some? && r.failure.value.SourceFree() then
      if r.failure.value.Ambiguous? && request.session.Some? then Err(InvalidSelection)
      else
        Ok(Outcome(request.id, r.failure.value.Kind(), interval, None, None, r.diagnostics,
                   if r.failure.value.Ambiguous? then Some(r.failure.value.candidates) else None))
    else if evidence.None? && r.failure.None? then Err(InvalidDocument)
    else if target.Some? && CheckTarget(request, target.value).Some? then Err(WrongTarget)
    else if evidence.None? then
      ConcludeWithout(request, interval, target, r)
    else if CheckTarget(request, evidence.value.target).Some? then Err(WrongTarget)
    else if target.Some? && target.value != evidence.value.target then Err(WrongTarget)
    else
      match Finish(evidence.value, interval, r.disconnected)
      case Err(e) => Err(e)
      case Ok(snapshot) => ConcludeWith(request, interval, evidence.value.target, snapshot, r)
  }

  function ConcludeWithout(request: Request, interval: Interval, target: Option<Target>, r: Reduced): Result<Outcome, EvidenceError>
    requires r.failure.Some?
  {
    var failure := r.failure.value.Kind();
    if failure == MissingTarget || failure == InvalidTarget then Err(InvalidDocument)
    else Ok(Outcome(request.id, failure, interval, target, None, r.diagnostics, None))
  }

  function ConcludeWith(request: Request, interval: Interval, target: Target, snapshot: Snapshot, r: Reduced)
    : Result<Outcome, EvidenceError>
  {
    var inferred := InferredFailure(request, snapshot);
    if r.failure.Some? && (r.failure.value.Kind() == MissingTarget || r.failure.value.Kind() == InvalidTarget)
       && r.failure != inferred then Err(InvalidDocument)
    else if inferred.Some? && (r.failure.None? || inferred.value.Priority() <= r.failure.value.Priority()) then
      Ok(Outcome(request.id, inferred.value.Kind(), interval, Some(target), None,
                 Note(r.diagnostics, OfSignal(inferred.value.Kind())), None))
    else
      Ok(Outcome(request.id, if r.failure.Some? then r.failure.value.Kind() else Classification(snapshot), interval, Some(target),
                 Some(snapshot), r.diagnostics + SnapshotDiagnostics(snapshot), None))
  }

  /** All terminal signals of an attempt: the explicit ones, then what the evidence implies. */
  function Signals(signals: seq<Terminal>, evidence: Option<EvidenceGiven>): seq<Terminal> {
    signals + if evidence.Some? && Implied(evidence.value).Some? then [Implied(evidence.value).value] else []
  }

  function Classified(request: Request, interval: Interval, target: Option<Target>, evidence: Option<EvidenceGiven>,
                      signals: seq<Terminal>, diagnostics: seq<Diagnostic>): Result<Outcome, EvidenceError>
  {
    Conclude(request, interval, target, evidence, Reduce(Reduced(None, false, diagnostics), Signals(signals, evidence)))
  }

  /** The classifier, with its loop over the signals. */
  method Classify(request: Request, interval: Interval, target: Option<Target>, evidence: Option<EvidenceGiven>,
                  signals: seq<Terminal>, diagnostics: seq<Diagnostic>) returns (r: Result<Outcome, EvidenceError>)
    ensures r == Classified(request, interval, target, evidence, signals, diagnostics)
  {
    hide Conclude, Absorb;
    var all := Signals(signals, evidence);
    var failure: Option<Terminal>, disconnected, noted := None, false, diagnostics;
    var i := 0;
    while i < |all|
      invariant i <= |all|
      invariant Reduced(failure, disconnected, noted) == Reduce(Reduced(None, false, diagnostics), all[..i])
    {
      var signal := all[i];
      assert all[..i + 1][..i] == all[..i];
      AbsorbIs(Reduced(failure, disconnected, noted), signal);
      disconnected := disconnected || signal == Plain(DisconnectedEditor);
      if OfSignal(signal.Kind()) !in noted { noted := noted + [OfSignal(signal.Kind())]; }
      if failure.None? || signal.Priority() < failure.value.Priority() { failure := Some(signal); }
      i := i + 1;
    }
    assert all[..i] == all;
    r := Conclude(request, interval, target, evidence, Reduced(failure, disconnected, noted));
  }

  lemma AbsorbIs(r: Reduced, signal: Terminal)
    ensures Absorb(r, signal) ==
            Reduced(if r.failure.None? || signal.Priority() < r.failure.value.Priority() then Some(signal) else r.failure,
                    r.disconnected || signal == Plain(DisconnectedEditor),
                    if OfSignal(signal.Kind()) !in r.diagnostics then r.diagnostics + [OfSignal(signal.Kind())] else r.diagnostics)
  {
  }

  // ---- the order of signals ----

  /** The reduction keeps a signal of least priority, and remembers which signals there were. */
  lemma {:induction false} ReduceMeans(diagnostics: seq<Diagnostic>, signals: seq<Terminal>)
    ensures var r := Reduce(Reduced(None, false, diagnostics), signals);
            && (r.failure.None? <==> signals == [])
            && (r.failure.Some? ==> r.failure.value in signals
                                    && forall s | s in signals :: r.failure.value.Priority() <= s.Priority())
            && (r.disconnected <==> Plain(DisconnectedEditor) in signals)
            && (forall d :: d in r.diagnostics <==> d in diagnostics || exists s :: s in signals && d == OfSignal(s.Kind()))
  {
    if signals != [] {
      var init, last := signals[..|signals| - 1], signals[|signals| - 1];
      ReduceMeans(diagnostics, init);
      assert forall s :: s in signals <==> s in init || s == last;
    }
  }

  lemma PriorityTellsKind(a: Terminal, b: Terminal)
    ensures a.Priority() == b.Priority() <==> a.Kind() == b.Kind()
    ensures a.Kind() == b.Kind() ==> a == b || (a.Ambiguous? && b.Ambiguous?)
  {
  }

  /** Two reductions that only an ambiguous selection, or the order of notes, tells apart. */
  ghost predicate Alike(a: Reduced, b: Reduced) {
    && a.failure.Some? == b.failure.Some?
    && (a.failure.Some? ==> a.failure.value.Kind() == b.failure.value.Kind())
    && a.disconnected == b.disconnected
    && (forall d :: d in a.diagnostics <==> d in b.diagnostics)
  }

  lemma HasMember(signals: seq<Terminal>)
    ensures signals == [] || exists s :: s in signals
  {
    if signals != [] { assert signals[0] in signals; }
  }

  lemma ReducedAlike(diagnostics: seq<Diagnostic>, a: seq<Terminal>, b: seq<Terminal>)
    requires forall s :: s in a <==> s in b
    ensures Alike(Reduce(Reduced(None, false, diagnostics), a), Reduce(Reduced(None, false, diagnostics), b))
  {
    ReduceMeans(diagnostics, a);
    ReduceMeans(diagnostics, b);
    var x, y := Reduce(Reduced(None, false, diagnostics), a), Reduce(Reduced(None, false, diagnostics), b);
    if a != [] {
      assert a[0] in b;
      PriorityTellsKind(x.failure.value, y.failure.value);
    } else {
      HasMember(b);
    }
  }

  /** The same verdict: both fail, or both agree on everything but the order of diagnostics and,
      when different ambiguous selections were supplied, the selection. */
  ghost predicate SameVerdict(a: Result<Outcome, EvidenceError>, b: Result<Outcome, EvidenceError>, oneSelection: bool) {
    && a.Ok? == b.Ok?
    && (a.Err? ==> a.error == b.error)
    && (a.Ok? ==>
          && a.value.kind == b.value.kind && a.value.snapshot == b.value.snapshot && a.value.target == b.value.target
          && a.value.request == b.value.request && a.value.interval == b.value.interval
          && (forall d :: d in a.value.diagnostics <==> d in b.value.diagnostics)
          && (oneSelection ==> a.value.selection == b.value.selection)
          && a.value.selection.Some? == b.value.selection.Some?)
  }

  lemma ConcludeAlike(request: Request, interval: Interval, target: Option<Target>, evidence: Option<EvidenceGiven>,
                      a: Reduced, b: Reduced, oneSelection: bool)
    requires Alike(a, b)
    requires oneSelection ==> a.failure == b.failure
    ensures SameVerdict(Conclude(request, interval, target, evidence, a), Conclude(request, interval, target, evidence, b), oneSelection)
  {
    if a.failure.Some? { PriorityTellsKind(a.failure.value, b.failure.value); }
    if a.failure.None? || !a.failure.value.SourceFree() {
      assert a.failure == b.failure;
      hide Finish, ConcludeWith, ConcludeWithout, CheckTarget, Signal.Priority, Signal.SourceFree;
      if evidence.Some? && Finish(evidence.value, interval, a.disconnected).Ok? {
        ConcludeWithAlike(request, interval, evidence.value.target, Finish(evidence.value, interval, a.disconnected).value, a, b, oneSelection);
      }
      if a.failure.Some? { ConcludeWithoutAlike(request, interval, target, a, b, oneSelection); }
    }
  }

  lemma ConcludeWithAlike(request: Request, interval: Interval, target: Target, snapshot: Snapshot, a: Reduced, b: Reduced, oneSelection: bool)
    requires Alike(a, b) && a.failure == b.failure
    ensures SameVerdict(ConcludeWith(request, interval, target, snapshot, a), ConcludeWith(request, interval, target, snapshot, b), oneSelection)
  {
    hide InferredFailure, SnapshotDiagnostics, Classification, Signal.Priority;
  }

  lemma ConcludeWithoutAlike(request: Request, interval: Interval, target: Option<Target>, a: Reduced, b: Reduced, oneSelection: bool)
    requires Alike(a, b) && a.failure == b.failure && a.failure.Some?
    ensures SameVerdict(ConcludeWithout(request, interval, target, a), ConcludeWithout(request, interval, target, b), oneSelection)
  {
  }

  /** Permuting the terminal signals changes neither kind, snapshot, target nor the set of
      diagnostics, and fails exactly when the original order fails. */
  lemma SignalOrderIrrelevant(request: Request, interval: Interval, target: Option<Target>, evidence: Option<EvidenceGiven>,
                              a: seq<Terminal>, b: seq<Terminal>, diagnostics: seq<Diagnostic>)
    requires multiset(a) == multiset(b)
    ensures SameVerdict(Classified(request, interval, target, evidence, a, diagnostics),
                        Classified(request, interval, target, evidence, b, diagnostics),
                        forall s, t | s in a && t in a && s.Ambiguous? && t.Ambiguous? :: s == t)
  {
    hide Conclude, SameVerdict, Reduce;
    assert forall s :: s in a <==> s in multiset(a);
    assert forall s :: s in b <==> s in multiset(b);
    var x, y := Signals(a, evidence), Signals(b, evidence);
    assert forall s :: s in x <==> s in y;
    ReducedAlike(diagnostics, x, y);
    var one := forall s, t | s in a && t in a && s.Ambiguous? && t.Ambiguous? :: s == t;
    if one { OneFailure(diagnostics, x, y); }
    ConcludeAlike(request, interval, target, evidence, Reduce(Reduced(None, false, diagnostics), x),
                  Reduce(Reduced(None, false, diagnostics), y), one);
  }

  /** With at most one ambiguous selection the two reductions keep the very same signal. */
  lemma OneFailure(diagnostics: seq<Diagnostic>, x: seq<Terminal>, y: seq<Terminal>)
    requires forall s :: s in x <==> s in y
    requires forall s, t | s in x && t in x && s.Ambiguous? && t.Ambiguous? :: s == t
    ensures Reduce(Reduced(None, false, diagnostics), x).failure == Reduce(Reduced(None, false, diagnostics), y).failure
  {
    ReducedAlike(diagnostics, x, y);
    ReduceMeans(diagnostics, x);
    ReduceMeans(diagnostics, y);
    hide Reduce;
    var r, q := Reduce(Reduced(None, false, diagnostics), x), Reduce(Reduced(None, false, diagnostics), y);
    if r.failure.Some? { PriorityTellsKind(r.failure.value, q.failure.value); }
  }

  /** A denial, an ambiguity or an invalid request anywhere among the signals leaves no evidence. */
  lemma RefusalIsSourceFree(request: Request, interval: Interval, target: Option<Target>, evidence: Option<EvidenceGiven>,
                            signals: seq<Terminal>, diagnostics: seq<Diagnostic>, refusal: Terminal)
    requires refusal in signals
    requires refusal.Kind() == DeniedAccess || refusal.Kind() == AmbiguousTarget || refusal.Kind() == InvalidRequest
    ensures var r := Classified(request, interval, target, evidence, signals, diagnostics);
            r.Ok? ==> r.value.snapshot.None? && r.value.target.None?
                      && (r.value.kind == DeniedAccess || r.value.kind == AmbiguousTarget || r.value.kind == InvalidRequest)
    ensures DeniedAccess == refusal.Kind() ==>
              Classified(request, interval, target, evidence, signals, diagnostics).Ok?
              && Classified(request, interval, target, evidence, signals, diagnostics).value.kind == DeniedAccess
  {
    var all := Signals(signals, evidence);
    assert refusal in all;
    ReduceMeans(diagnostics, all);
    var failure := Reduce(Reduced(None, false, diagnostics), all).failure.value;
    assert failure.Priority() <= refusal.Priority() <= 2;
  }

  // ---- supplementing ----

  /** A later recheck of an earlier outcome: the changes found since, and a failure of the recheck. */
  function Supplement(o: Outcome, request: Request, interval: Interval, changes: seq<Change>, failure: Option<Terminal>,
                      lifecycleChanged: bool): Result<Outcome, EvidenceError>
  {
    if o.snapshot.None? then
      Classified(request, interval, o.target, None, FailureSignals(failure), o.diagnostics)
    else
      match Again(o.snapshot.value, changes, lifecycleChanged)
      case Err(e) => Err(e)
      case Ok(evidence) =>
        Classified(request, interval, o.target, Some(evidence), FailureSignals(failure), o.diagnostics)
  }

  function FailureSignals(failure: Option<Terminal>): seq<Terminal> {
    if failure.Some? then [failure.value] else []
  }

  function Again(s: Snapshot, changes: seq<Change>, lifecycleChanged: bool): Result<EvidenceGiven, EvidenceError> {
    match (if lifecycleChanged then LoseLifecycle(s.body) else Ok(s.body))
    case Err(e) => Err(e)
    case Ok(body) =>
      var all := s.consistency.changes + changes;
      Ok(EvidenceGiven(s.target, body,
                       if s.consistency.reason.Some? then Partial(s.consistency.reason.value, all) else Performed(all)))
  }

  function LoseLifecycle(body: Body): Result<Body, EvidenceError> {
    match body.InvalidateOpen(FactIdentityChanged).InvalidateSource(B, IdentityChanged)
    case Err(e) => Err(e)
    case Ok(b) => b.InvalidateDirty(DirtyIdentityChanged)
  }

  lemma LoseLifecycleDegrades(body: Body)
    requires LoseLifecycle(body).Ok?
    ensures Degrades(body, LoseLifecycle(body).value)
    ensures LoseLifecycle(body).value.open.Unknown?
  {
    hide Degrades, Body.InvalidateSource, Body.InvalidateDirty;
    var b1 := body.InvalidateOpen(FactIdentityChanged);
    InvalidateFactsDegrade(body, FactIdentityChanged);
    var b2 := b1.InvalidateSource(B, IdentityChanged).value;
    InvalidateSourceDegrades(b1, B, IdentityChanged);
    InvalidateDirtyDegrades(b2, DirtyIdentityChanged);
    DegradesOnward(body, b1, b2);
    DegradesOnward(body, b2, b2.InvalidateDirty(DirtyIdentityChanged).value);
    OpenStays(b1);
  }

  lemma OpenStays(body: Body)
    ensures body.InvalidateSource(B, IdentityChanged).Ok? ==> body.InvalidateSource(B, IdentityChanged).value.open == body.open
    ensures forall b: Body | b.InvalidateDirty(DirtyIdentityChanged).Ok? :: b.InvalidateDirty(DirtyIdentityChanged).value.open == b.open
  {
  }

  /** How a later snapshot may differ from an earlier one. */
  ghost predicate NoUpgrade(a: Snapshot, b: Snapshot) {
    && Degrades(a.body, b.body)
    && a.consistency.changes <= b.consistency.changes
    && (a.consistency.reason.Some? ==> b.consistency.reason == a.consistency.reason)
    && (Classification(b) == CompleteObservation ==> Classification(a) == CompleteObservation && b.body == a.body)
    && (Classification(b) == NotOpenKind ==> Classification(a) == NotOpenKind)
  }

  /** The kinds the program reports as a success. */
  predicate Succeeds(kind: Kind) {
    kind == CompleteObservation || kind == NotOpenKind
  }

  lemma NoUpgradeOnward(a: Snapshot, b: Snapshot, c: Snapshot)
    requires NoUpgrade(a, b) && NoUpgrade(b, c)
    ensures NoUpgrade(a, c)
  {
    hide Degrades, Classification;
    DegradesOnward(a.body, b.body, c.body);
  }

  /** Complete evidence can only come from complete evidence. */
  lemma CompleteWasComplete(a: Snapshot, b: Snapshot)
    requires WellFormed(a) && WellFormed(b) && Degrades(a.body, b.body)
    requires a.consistency.changes <= b.consistency.changes
    requires a.consistency.reason.Some? ==> b.consistency.reason == a.consistency.reason
    requires Classification(b) == CompleteObservation
    ensures Classification(a) == CompleteObservation && b.body == a.body
  {
  }

  /** A successful supplement keeps every earlier change as a prefix and every first invalidated
      value, makes nothing current, keeps a recheck reason, and completes nothing. */
  lemma SupplementNeverUpgrades(o: Outcome, request: Request, interval: Interval, changes: seq<Change>,
                                failure: Option<Terminal>, lifecycleChanged: bool)
    requires o.snapshot.Some? ==> WellFormed(o.snapshot.value)
    requires Supplement(o, request, interval, changes, failure, lifecycleChanged).Ok?
    ensures var r := Supplement(o, request, interval, changes, failure, lifecycleChanged).value;
            && (r.snapshot.Some? ==>
                  && o.snapshot.Some? && WellFormed(r.snapshot.value) && NoUpgrade(o.snapshot.value, r.snapshot.value)
                  && o.snapshot.value.consistency.changes + changes <= r.snapshot.value.consistency.changes)
            && (r.kind == CompleteObservation ==>
                  r.snapshot.Some? && Classification(o.snapshot.value) == CompleteObservation && Classification(r.snapshot.value) == CompleteObservation
                  && failure.None? && !lifecycleChanged && changes == [])
            && (r.kind == NotOpenKind ==>
                  r.snapshot.Some? && Classification(o.snapshot.value) == NotOpenKind && Classification(r.snapshot.value) == NotOpenKind
                  && failure.None? && !lifecycleChanged && Implied(Again(o.snapshot.value, changes, lifecycleChanged).value).None?)
  {
    hide Finish, Degrades, LoseLifecycle, Conclude, Reduce, Again, NoUpgrade, WellFormed;
    if o.snapshot.Some? {
      var s := o.snapshot.value;
      var e := Again(s, changes, lifecycleChanged).value;
      AgainDegrades(s, changes, lifecycleChanged);
      var all := Signals(FailureSignals(failure), Some(e));
      var r := Reduce(Reduced(None, false, o.diagnostics), all);
      ReduceMeans(o.diagnostics, all);
      ConcludeMeans(request, interval, o.target, Some(e), r);
      if Finish(e, interval, r.disconnected).Ok? {
        FinishDegrades(e, interval, r.disconnected);
        var t := Finish(e, interval, r.disconnected).value;
        DegradesOnward(s.body, e.body, t.body);
        SupplementedSnapshot(s, e, t, changes, lifecycleChanged);
      }
    } else {
      ConcludeMeans(request, interval, o.target, None, Reduce(Reduced(None, false, o.diagnostics), Signals(FailureSignals(failure), None)));
    }
  }

  lemma AgainDegrades(s: Snapshot, changes: seq<Change>, lifecycleChanged: bool)
    requires Again(s, changes, lifecycleChanged).Ok?
    ensures Degrades(s.body, Again(s, changes, lifecycleChanged).value.body)
  {
    hide Degrades, LoseLifecycle;
    if lifecycleChanged { LoseLifecycleDegrades(s.body); } else { DegradesItself(s.body); }
  }

  /** Only finished evidence is published, and a success needs complete evidence and no failure. */
  lemma ConcludeMeans(request: Request, interval: Interval, target: Option<Target>, evidence: Option<EvidenceGiven>, r: Reduced)
    requires Conclude(request, interval, target, evidence, r).Ok?
    ensures var o := Conclude(request, interval, target, evidence, r).value;
            && (o.snapshot.Some? ==>
                  evidence.Some? && Finish(evidence.value, interval, r.disconnected) == Ok(o.snapshot.value))
            && (Succeeds(o.kind) ==> r.failure.None? && o.snapshot.Some? && Classification(o.snapshot.value) == o.kind)
  {
    hide Finish;
  }

  lemma SupplementedSnapshot(s: Snapshot, e: EvidenceGiven, t: Snapshot, changes: seq<Change>, lifecycleChanged: bool)
    requires WellFormed(s) && WellFormed(t)
    requires Again(s, changes, lifecycleChanged) == Ok(e)
    requires Degrades(s.body, e.body) && Degrades(e.body, t.body) && Degrades(s.body, t.body)
    requires ChangesOf(e.recheck) <= t.consistency.changes
    requires !e.recheck.Performed? ==> t.consistency.reason == Some(e.recheck.reason)
    ensures NoUpgrade(s, t) && s.consistency.changes + changes <= t.consistency.changes
    ensures Classification(t) == CompleteObservation ==> changes == [] && !lifecycleChanged
    ensures Classification(t) == NotOpenKind ==> !lifecycleChanged
  {
    var all := s.consistency.changes + changes;
    assert s.consistency.changes <= all;
    if Classification(t) == CompleteObservation {
      CompleteWasComplete(s, t);
      if lifecycleChanged { LoseLifecycleDegrades(s.body); }
    }
    if Classification(t) == NotOpenKind && lifecycleChanged { LoseLifecycleDegrades(s.body); }
  }

  /** A chain of supplements, each with its own request, interval and findings. */
  datatype Step = Step(request: Request, interval: Interval, changes: seq<Change>, failure: Option<Terminal>, lifecycleChanged: bool)

  function Chain(o: Outcome, steps: seq<Step>): Result<Outcome, EvidenceError> {
    if steps == [] then Ok(o)
    else
      match Chain(o, steps[..|steps| - 1])
      case Err(e) => Err(e)
      case Ok(last) =>
        var s := steps[|steps| - 1];
        Supplement(last, s.request, s.interval, s.changes, s.failure, s.lifecycleChanged)
  }

  /** Along any chain of supplements nothing is upgraded. */
  lemma {:induction false} ChainNeverUpgrades(o: Outcome, steps: seq<Step>)
    requires o.snapshot.Some? ==> WellFormed(o.snapshot.value)
    requires Chain(o, steps).Ok?
    ensures var r := Chain(o, steps).value;
            && (r.snapshot.Some? ==>
                  o.snapshot.Some? && WellFormed(r.snapshot.value) && NoUpgrade(o.snapshot.value, r.snapshot.value))
            && (steps != [] && Succeeds(r.kind) ==> o.snapshot.Some? && Classification(o.snapshot.value) == r.kind)
  {
    hide Supplement, NoUpgrade, Classification;
    if steps == [] {
      if o.snapshot.Some? { NoUpgradeItself(o.snapshot.value); }
    } else {
      var init, s := steps[..|steps| - 1], steps[|steps| - 1];
      ChainNeverUpgrades(o, init);
      var last := Chain(o, init).value;
      SupplementNeverUpgrades(last, s.request, s.interval, s.changes, s.failure, s.lifecycleChanged);
      var r := Chain(o, steps).value;
      if r.snapshot.Some? {
        NoUpgradeOnward(o.snapshot.value, last.snapshot.value, r.snapshot.value);
        SuccessNotUpgraded(o.snapshot.value, last.snapshot.value);
      }
    }
  }

  lemma NoUpgradeItself(s: Snapshot)
    ensures NoUpgrade(s, s)
  {
    DegradesItself(s.body);
  }

  lemma SuccessNotUpgraded(a: Snapshot, b: Snapshot)
    requires NoUpgrade(a, b)
    ensures Succeeds(Classification(b)) ==> Classification(a) == Classification(b)
  {
  }

  /** Every snapshot the classifier publishes is well formed, so the chain may start from it. */
  lemma ClassifiedIsWellFormed(request: Request, interval: Interval, target: Option<Target>, evidence: Option<EvidenceGiven>,
                               signals: seq<Terminal>, diagnostics: seq<Diagnostic>)
    requires Classified(request, interval, target, evidence, signals, diagnostics).Ok?
    ensures var o := Classified(request, interval, target, evidence, signals, diagnostics).value;
            && (o.snapshot.Some? ==> WellFormed(o.snapshot.value))
            && (o.kind == CompleteObservation ==> o.snapshot.Some? && Classification(o.snapshot.value) == CompleteObservation)
  {
    hide Finish, WellFormed, Classification, Conclude, Reduce;
    var r := Reduce(Reduced(None, false, diagnostics), Signals(signals, evidence));
    ConcludeMeans(request, interval, target, evidence, r);
    if evidence.Some? && Finish(evidence.value, interval, r.disconnected).Ok? {
      FinishDegrades(evidence.value, interval, r.disconnected);
    }
  }

  /** Evidence from which nothing is missing. */
  predicate Whole(b: Body) {
    && b.validity.Value() == Some(Valid) && b.open.Value() == Some(Open) && b.identity.Some?
    && b.disk.state.Observed? && b.resource.state.Observed? && b.buffer.state.Observed? && b.dirty.DirtyObserved?
  }

  /** What a complete observation takes: no signal, valid evidence for this very target with every source
      and the dirty state observed, and a recheck that was performed and found nothing. */
  predicate Completes(request: Request, interval: Interval, target: Option<Target>, evidence: Option<EvidenceGiven>,
                      signals: seq<Terminal>)
  {
    && signals == [] && evidence.Some?
    && evidence.value.recheck == Performed([]) && Whole(evidence.value.body)
    && CheckBody(evidence.value.body, evidence.value.target, interval).None?
    && CheckTarget(request, evidence.value.target).None? && (target.Some? ==> target == Some(evidence.value.target))
  }

  /** The classifier completes an observation exactly then. */
  lemma ClassifiedCompletesExactly(request: Request, interval: Interval, target: Option<Target>, evidence: Option<EvidenceGiven>,
                                   signals: seq<Terminal>, diagnostics: seq<Diagnostic>)
    ensures var r := Classified(request, interval, target, evidence, signals, diagnostics);
            r.Ok? && r.value.kind == CompleteObservation <==> Completes(request, interval, target, evidence, signals)
  {
    var all := Signals(signals, evidence);
    var r := Reduce(Reduced(None, false, diagnostics), all);
    ReduceMeans(diagnostics, all);
    if Completes(request, interval, target, evidence, signals) {
      WholeFinishes(evidence.value, interval);
      hide CheckBody, Finish, SnapshotDiagnostics, CheckTarget, Reduce, CheckTarget;
      assert all == [];
      var s := Snapshot(evidence.value.target, evidence.value.body, Consistency(true, false, [], None));
      assert Conclude(request, interval, target, evidence, r) == ConcludeWith(request, interval, evidence.value.target, s, r);
    } else if Conclude(request, interval, target, evidence, r).Ok? && Conclude(request, interval, target, evidence, r).value.kind == CompleteObservation {
      hide Finish, Reduce, CheckBody, Degrades, CheckTarget;
      ConcludeMeans(request, interval, target, evidence, r);
      CompleteNeeds(request, interval, target, evidence, r);
    }
  }

  lemma WholeFinishes(e: EvidenceGiven, interval: Interval)
    requires e.recheck == Performed([]) && Whole(e.body) && CheckBody(e.body, e.target, interval).None?
    ensures Finish(e, interval, false) == Ok(Snapshot(e.target, e.body, Consistency(true, false, [], None)))
    ensures Implied(e).None?
  {
    hide CheckBody;
  }

  lemma CompleteNeeds(request: Request, interval: Interval, target: Option<Target>, evidence: Option<EvidenceGiven>, r: Reduced)
    requires evidence.Some? && r.failure.None? && Finish(evidence.value, interval, r.disconnected).Ok?
    requires Classification(Finish(evidence.value, interval, r.disconnected).value) == CompleteObservation
    ensures evidence.value.recheck == Performed([]) && Whole(evidence.value.body)
    ensures CheckBody(evidence.value.body, evidence.value.target, interval).None?
  {
    FinishDegrades(evidence.value, interval, r.disconnected);
    FinishChecks(evidence.value, interval, r.disconnected);
    hide Finish, CheckBody;
    var s := Finish(evidence.value, interval, r.disconnected).value;
    assert ChangesOf(evidence.value.recheck) == [];
  }

  lemma FinishChecks(e: EvidenceGiven, interval: Interval, disconnected: bool)
    requires Finish(e, interval, disconnected).Ok?
    ensures CheckBody(e.body, e.target, interval).None?
  {
    hide CheckBody, ApplyAll, EndSession, Established;
  }

  /** A supplement completes exactly when the earlier snapshot was complete and nothing was found,
      lost or failed since. How the earlier outcome itself ended plays no part. */
  lemma SupplementCompletesExactly(o: Outcome, request: Request, interval: Interval, changes: seq<Change>,
                                   failure: Option<Terminal>, lifecycleChanged: bool)
    requires o.snapshot.Some? && WellFormed(o.snapshot.value)
    requires Supplement(o, request, interval, changes, failure, lifecycleChanged).Ok?
    ensures Supplement(o, request, interval, changes, failure, lifecycleChanged).value.kind == CompleteObservation <==>
              Classification(o.snapshot.value) == CompleteObservation && changes == [] && failure.None? && !lifecycleChanged
  {
    SupplementNeverUpgrades(o, request, interval, changes, failure, lifecycleChanged);
    if Classification(o.snapshot.value) == CompleteObservation && changes == [] && failure.None? && !lifecycleChanged {
      var s := o.snapshot.value;
      assert s.consistency.changes + changes == [];
      var e := EvidenceGiven(s.target, s.body, Performed([]));
      assert Again(s, changes, lifecycleChanged) == Ok(e) && Whole(s.body);
      hide Classified, Completes, Again, Whole, Classification;
      QuietCompletes(request, interval, o.target, e, o.diagnostics);
      ClassifiedCompletesExactly(request, interval, o.target, Some(e), [], o.diagnostics);
    }
  }

  /** Without a signal, whole evidence that is accepted at all completes. */
  lemma QuietCompletes(request: Request, interval: Interval, target: Option<Target>, e: EvidenceGiven, diagnostics: seq<Diagnostic>)
    requires e.recheck == Performed([]) && Whole(e.body) && Classified(request, interval, target, Some(e), [], diagnostics).Ok?
    ensures Completes(request, interval, target, Some(e), [])
  {
    hide CheckBody, Finish, CheckTarget, ConcludeWith;
    assert Implied(e).None? && Signals([], Some(e)) == [];
    var r := Reduced(None, false, diagnostics);
    assert Reduce(r, Signals([], Some(e))) == r;
    hide Reduce, Signals, Implied, Whole;
    assert Conclude(request, interval, target, Some(e), r).Ok?;
    assert Finish(e, interval, false).Ok?;
    FinishChecks(e, interval, false);
  }

  // ---- supplements of a document that is not open ----

  /** When a supplement is reported as "not open": the earlier snapshot was, every change concerns a
      source, and nothing failed or ended the session. How the earlier outcome ended plays no part. */
  predicate StaysNotOpen(s: Snapshot, changes: seq<Change>, failure: Option<Terminal>, lifecycleChanged: bool) {
    && Classification(s) == NotOpenKind && failure.None? && !lifecycleChanged
    && s.body.resource.Reason() != Some(SessionEnded)
    && forall c | c in s.consistency.changes + changes :: c.SourceChange?
  }

  /** Exactly when a supplement turns an outcome, however it ended, into a success. */
  lemma SupplementSucceedsExactly(o: Outcome, request: Request, interval: Interval, changes: seq<Change>,
                                  failure: Option<Terminal>, lifecycleChanged: bool)
    requires o.snapshot.Some? && WellFormed(o.snapshot.value) && o.snapshot.value.body.Slotted()
    requires Supplement(o, request, interval, changes, failure, lifecycleChanged).Ok?
    ensures var s, r := o.snapshot.value, Supplement(o, request, interval, changes, failure, lifecycleChanged).value;
            && (r.kind == CompleteObservation <==>
                  Classification(s) == CompleteObservation && changes == [] && failure.None? && !lifecycleChanged)
            && (r.kind == NotOpenKind <==> StaysNotOpen(s, changes, failure, lifecycleChanged))
  {
    var s, r := o.snapshot.value, Supplement(o, request, interval, changes, failure, lifecycleChanged).value;
    SupplementCompletesExactly(o, request, interval, changes, failure, lifecycleChanged);
    SupplementNeverUpgrades(o, request, interval, changes, failure, lifecycleChanged);
    hide Supplement, Classification, WellFormed, StaysNotOpen, NoUpgrade;
    if r.kind == NotOpenKind {
      NotOpenNeeds(o, request, interval, changes, failure, lifecycleChanged);
    } else if StaysNotOpen(s, changes, failure, lifecycleChanged) {
      NotOpenSuffices(o, request, interval, changes, failure, lifecycleChanged);
    }
  }

  /** The one caller supplements only a document that is not open: it never gets a complete observation. */
  lemma NotOpenNeverCompletes(o: Outcome, request: Request, interval: Interval, changes: seq<Change>,
                              failure: Option<Terminal>, lifecycleChanged: bool)
    requires o.snapshot.Some? && WellFormed(o.snapshot.value) && o.snapshot.value.body.open.Value() == Some(NotOpen)
    requires Supplement(o, request, interval, changes, failure, lifecycleChanged).Ok?
    ensures Supplement(o, request, interval, changes, failure, lifecycleChanged).value.kind != CompleteObservation
  {
    SupplementNeverUpgrades(o, request, interval, changes, failure, lifecycleChanged);
  }

  /** Changes to sources leave everything else alone. */
  lemma {:induction false} SourceChangesSpare(body: Body, changes: seq<Change>)
    requires ApplyAll(body, changes).Ok? && forall c | c in changes :: c.SourceChange?
    ensures var b := ApplyAll(body, changes).value;
            b.open == body.open && b.validity == body.validity && b.identity == body.identity && b.dirty == body.dirty
  {
    if changes != [] {
      var init, last := changes[..|changes| - 1], changes[|changes| - 1];
      SourceChangesSpare(body, init);
      assert last in changes;
    }
  }

  /** What leaves a document known and not open concerned its sources only. */
  lemma {:induction false} OnlySources(body: Body, changes: seq<Change>)
    requires body.Slotted() && body.dirty.DirtyNotApplicable? && ApplyAll(body, changes).Ok?
    requires ApplyAll(body, changes).value.open.Known? && ApplyAll(body, changes).value.validity.Known?
    ensures forall c | c in changes :: c.SourceChange?
  {
    if changes != [] {
      hide Apply, Degrades, Touches;
      var init, last := changes[..|changes| - 1], changes[|changes| - 1];
      var before, after := ApplyAll(body, init).value, ApplyAll(body, changes).value;
      ApplyDegrades(before, last);
      AppliedSlotted(body, init);
      KnownBefore(before, after);
      OnlySources(body, init);
      SourceChangesSpare(body, init);
      ApplyTouches(before, last, OpenFact);
      ApplyTouches(before, last, ValidityFact);
      SparesFacts(before, last);
    }
  }

  lemma KnownBefore(a: Body, b: Body)
    requires Degrades(a, b) && b.open.Known? && b.validity.Known?
    ensures a.open.Known? && a.validity.Known?
  {
  }

  lemma SparesFacts(body: Body, change: Change)
    requires !Touches(body, change, OpenFact) && !Touches(body, change, ValidityFact) && body.dirty.DirtyNotApplicable?
    requires Bears(body, change)
    ensures change.SourceChange?
  {
  }

  /** A finished document that is not open has neither buffer nor dirty flag. */
  lemma NotOpenIsBare(b: Body, target: Target, interval: Interval)
    requires CheckBody(b, target, interval).None? && b.open.Value() == Some(NotOpen)
    ensures b.buffer.state.NotApplicable? && b.dirty.DirtyNotApplicable?
  {
    FirstNone(Checks(b, target, interval), 8);
  }

  lemma {:induction false} FirstNone(checks: seq<Option<EvidenceError>>, k: nat)
    requires First(checks).None? && k < |checks|
    ensures checks[k].None?
    decreases k
  {
    if k > 0 { FirstNone(checks[1..], k - 1); }
  }

  lemma NotOpenNeeds(o: Outcome, request: Request, interval: Interval, changes: seq<Change>, failure: Option<Terminal>,
                     lifecycleChanged: bool)
    requires o.snapshot.Some? && WellFormed(o.snapshot.value) && o.snapshot.value.body.Slotted()
    requires Supplement(o, request, interval, changes, failure, lifecycleChanged).Ok?
    requires Supplement(o, request, interval, changes, failure, lifecycleChanged).value.kind == NotOpenKind
    ensures StaysNotOpen(o.snapshot.value, changes, failure, lifecycleChanged)
  {
    SupplementNeverUpgrades(o, request, interval, changes, failure, lifecycleChanged);
    var s := o.snapshot.value;
    var e := Again(s, changes, lifecycleChanged).value;
    var all := Signals(FailureSignals(failure), Some(e));
    assert all == [] && e.recheck.Performed? && e.body == s.body;
    var r := Reduce(Reduced(None, false, o.diagnostics), all);
    ReduceMeans(o.diagnostics, all);
    ConcludeMeans(request, interval, o.target, Some(e), r);
    FinishChecks(e, interval, false);
    NotOpenIsBare(s.body, s.target, interval);
    hide CheckBody, Established, Degrades;
    assert Finish(e, interval, false).value.body == ApplyAll(s.body, ChangesOf(e.recheck)).value;
    OnlySources(s.body, ChangesOf(e.recheck));
  }

  lemma NotOpenSuffices(o: Outcome, request: Request, interval: Interval, changes: seq<Change>, failure: Option<Terminal>,
                        lifecycleChanged: bool)
    requires o.snapshot.Some? && WellFormed(o.snapshot.value) && o.snapshot.value.body.Slotted()
    requires Supplement(o, request, interval, changes, failure, lifecycleChanged).Ok?
    requires StaysNotOpen(o.snapshot.value, changes, failure, lifecycleChanged)
    ensures Supplement(o, request, interval, changes, failure, lifecycleChanged).value.kind == NotOpenKind
  {
    var s := o.snapshot.value;
    var e := EvidenceGiven(s.target, s.body, Performed(s.consistency.changes + changes));
    assert Again(s, changes, lifecycleChanged) == Ok(e) && FailureSignals(failure) == [];
    assert s.body.validity.Value() == Some(Valid) && s.body.open.Value() == Some(NotOpen) && s.body.identity.Some?;
    hide Finish, Classification, Reduce, CheckBody, InferredFailure, Conclude, Again, Implied, StaysNotOpen, WellFormed,
         Body.Slotted;
    assert Supplement(o, request, interval, changes, failure, lifecycleChanged)
           == Classified(request, interval, o.target, Some(e), [], o.diagnostics);
    EvidenceAccepted(request, interval, o.target, e, [], o.diagnostics);
    NotOpenIsBare(s.body, s.target, interval);
    NotOpenIsQuiet(e);
    var r := Reduced(None, false, o.diagnostics);
    NothingReduced(r);
    EvidenceFinishes(request, interval, o.target, e, r);
    FinishesNotOpen(e, interval);
    var t := Finish(e, interval, false).value;
    InfersNothing(request, t);
    ConcludesWith(request, interval, o.target, e, r);
  }

  lemma NotOpenIsQuiet(e: EvidenceGiven)
    requires e.recheck.Performed? && forall c | c in e.recheck.changes :: c.SourceChange?
    requires e.body.open.Known? && e.body.buffer.state.NotApplicable? && e.body.dirty.DirtyNotApplicable?
    requires e.body.resource.Reason() != Some(SessionEnded)
    ensures Signals([], Some(e)) == []
  {
  }

  lemma NothingReduced(r: Reduced)
    ensures Reduce(r, []) == r
  {
  }

  lemma FinishesNotOpen(e: EvidenceGiven, interval: Interval)
    requires e.recheck.Performed? && (forall c | c in e.recheck.changes :: c.SourceChange?) && Finish(e, interval, false).Ok?
    requires e.body.validity.Value() == Some(Valid) && e.body.open.Value() == Some(NotOpen) && e.body.identity.Some?
    ensures Classification(Finish(e, interval, false).value) == NotOpenKind
  {
    hide CheckBody, Established;
    SourceChangesSpare(e.body, e.recheck.changes);
  }

  lemma InfersNothing(request: Request, t: Snapshot)
    requires Classification(t) == NotOpenKind
    ensures InferredFailure(request, t).None?
  {
  }

  lemma ConcludesWith(request: Request, interval: Interval, target: Option<Target>, e: EvidenceGiven, r: Reduced)
    requires Conclude(request, interval, target, Some(e), r).Ok? && r.failure.None? && Finish(e, interval, r.disconnected).Ok?
    requires InferredFailure(request, Finish(e, interval, r.disconnected).value).None?
    ensures Conclude(request, interval, target, Some(e), r).value.kind == Classification(Finish(e, interval, r.disconnected).value)
  {
    hide Finish, Classification, CheckTarget, SnapshotDiagnostics, InferredFailure;
  }

  lemma EvidenceFinishes(request: Request, interval: Interval, target: Option<Target>, e: EvidenceGiven, r: Reduced)
    requires Conclude(request, interval, target, Some(e), r).Ok? && r.failure.None?
    ensures Finish(e, interval, r.disconnected).Ok? && CheckBody(e.body, e.target, interval).None?
  {
    hide Finish, CheckBody, ConcludeWith, CheckTarget;
    FinishChecks(e, interval, r.disconnected);
  }

  /** Accepted evidence was checked, unless a signal suppressed it. */
  lemma EvidenceAccepted(request: Request, interval: Interval, target: Option<Target>, e: EvidenceGiven, signals: seq<Terminal>,
                         diagnostics: seq<Diagnostic>)
    requires Classified(request, interval, target, Some(e), signals, diagnostics).Ok? && signals == []
    ensures CheckBody(e.body, e.target, interval).None?
  {
    var all := Signals(signals, Some(e));
    var r := Reduce(Reduced(None, false, diagnostics), all);
    ReduceMeans(diagnostics, all);
    hide Reduce, Finish, CheckBody, ConcludeWith, CheckTarget;
    assert Finish(e, interval, r.disconnected).Ok?;
    FinishChecks(e, interval, r.disconnected);
  }

  // ---- a failed attempt that a supplement calls a success ----

  const PATH := ResourcePath(1, Some(ExternalGdscript))
  const TARGET := Target(1, 1, (1, 1), 7, 1, PATH)
  const REQUEST := Request(1, 1, None, PATH)
  const EDITOR_STAMP := Stamp(Editor(7), 0, 0, 0)

  /** A script on disk and loaded, that no tab shows. */
  const CLOSED := Body(
    Some(Identity(ExternalGdscript, PATH, Some(2), None, None, Some((5, 6)))),
    Known(Valid, EDITOR_STAMP),
    Known(NotOpen, EDITOR_STAMP),
    Source(D, Observed(Evidence.Observation("", Stamp(Caller, 0, 0, 0), Witness(PATH, None, None, None, Some((5, 6)), None), None))),
    Source(R, Observed(Evidence.Observation("", EDITOR_STAMP, Witness(PATH, Some(2), None, None, None, None), None))),
    Source(B, NotApplicable),
    DirtyNotApplicable)

  const GIVEN := EvidenceGiven(TARGET, CLOSED, Performed([]))
  const SNAPSHOT := Snapshot(TARGET, CLOSED, Consistency(true, false, [], None))
  const LOST := [SourceChange(D)]

  /** An attempt that ended in a protocol error over rechecked evidence of a closed script. The supplement
      finds that the file changed since, and reports "not open", which counts as a success. */
  lemma FailedOutcomeMaySucceed()
    ensures var o := Classified(REQUEST, Interval(0), Some(TARGET), Some(GIVEN), [Plain(ProtocolError)], []);
            && o.Ok? && o.value.kind == ProtocolError && !Succeeds(o.value.kind)
            && var r := Supplement(o.value, REQUEST, Interval(0), LOST, None, false);
               r.Ok? && r.value.kind == NotOpenKind && Succeeds(r.value.kind)
  {
    ClosedFinishes();
    hide Finish, Reduce, Supplement, Signals;
    FailedOnly();
    var o := Classified(REQUEST, Interval(0), Some(TARGET), Some(GIVEN), [Plain(ProtocolError)], []).value;
    SupplementWorks(o);
    SupplementSucceedsExactly(o, REQUEST, Interval(0), LOST, None, false);
  }

  lemma SupplementWorks(o: Outcome)
    requires o.target == Some(TARGET) && o.snapshot == Some(SNAPSHOT)
    ensures Supplement(o, REQUEST, Interval(0), LOST, None, false).Ok?
  {
    LostFinishes();
    hide Finish;
    assert SNAPSHOT.consistency.changes + LOST == LOST;
    assert Again(SNAPSHOT, LOST, false) == Ok(EvidenceGiven(TARGET, CLOSED, Performed(LOST)));
    assert Signals([], Some(EvidenceGiven(TARGET, CLOSED, Performed(LOST)))) == [];
  }

  lemma FailedOnly()
    ensures Reduce(Reduced(None, false, []), Signals([Plain(ProtocolError)], Some(GIVEN)))
            == Reduced(Some(Plain(ProtocolError)), false, [OfSignal(ProtocolError)])
  {
    var failed: seq<Terminal> := [Plain(ProtocolError)];
    assert Signals([Plain(ProtocolError)], Some(GIVEN)) == failed;
    assert failed[..0] == [];
  }

  lemma ClosedFinishes()
    ensures Finish(GIVEN, Interval(0), false) == Ok(SNAPSHOT)
  {
    ClosedIsValid();
    hide CheckBody;
  }

  lemma LostFinishes()
    ensures Finish(EvidenceGiven(TARGET, CLOSED, Performed(LOST)), Interval(0), false).Ok?
  {
    ClosedIsValid();
    hide CheckBody;
    assert LOST[..0] == [] && ApplyAll(CLOSED, LOST[..0]) == Ok(CLOSED);
    assert ApplyAll(CLOSED, LOST) == Apply(CLOSED, SourceChange(D));
  }

  lemma ClosedIsValid()
    ensures CheckBody(CLOSED, TARGET, Interval(0)) == None
  {
    NoneFirst(Checks(CLOSED, TARGET, Interval(0)));
  }

  lemma {:induction false} NoneFirst(checks: seq<Option<EvidenceError>>)
    requires forall k | 0 <= k < |checks| :: checks[k] == None
    ensures First(checks) == None
  {
    if checks != [] {
      NoneFirst(checks[1..]);
    }
  }
}
