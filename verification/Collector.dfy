/** The supervisor of one observation: it accepts the worker's events in one order only, and
    turns whatever was collected into an outcome. */
module Collector {
  import opened Wrappers
  import opened Evidence
  import opened Observation

  datatype Sample = Sample(identity: Option<Identity>, validity: Fact<Validity>, open: Fact<OpenState>, resource: Source,
                           buffer: Source, dirty: Dirty, diagnostics: seq<Diagnostic>)

  datatype DiskMetadata = DiskMetadata(file: Option<FileIdentity>, stamp: Stamp)

  datatype Failure = Failure(outcome: Kind, diagnostic: Diagnostic, selection: Option<seq<nat>>)

  datatype Event =
    | Selected(target: Target)
    | Sampled(sample: Sample)
    | DiskRead(source: Source)
    | DiskDescribed(reason: SourceReason, metadata: DiskMetadata)
    | Rechecked(recheck: Recheck)
    | DiskChecked(changes: seq<Change>)
    | Failed(failure: Failure)
    | Done

  datatype Expected = ExpectSelected | ExpectSample | ExpectDisk | ExpectRecheck | ExpectDiskCheck | ExpectDone

  const INVALID_FRAME := Diagnostic.Other(0)

  function ProtocolFailure(): Failure {
    Failure(ProtocolError, INVALID_FRAME, None)
  }

  /** The terminal signal of a failure; one that names no terminal outcome is a protocol error. */
  function SignalOf(f: Failure): (Terminal, Diagnostic) {
    if f.outcome == AmbiguousTarget then
      if f.selection.Some? then (Ambiguous(f.selection.value), f.diagnostic) else (Plain(ProtocolError), INVALID_FRAME)
    else if Plain(f.outcome).Proper() then (Plain(f.outcome), f.diagnostic)
    else (Plain(ProtocolError), INVALID_FRAME)
  }

  function WithChanges(recheck: Recheck, changes: seq<Change>): Recheck {
    match recheck
    case Performed(found) => Performed(found + changes)
    case Partial(reason, found) => Partial(reason, found + changes)
    case NotPerformed(reason) => Partial(reason, changes)
  }

  /** Without the final disk check the recheck never counts as performed. */
  function Cut(recheck: Recheck, signals: seq<Terminal>): Recheck {
    var reason := if Plain(DisconnectedEditor) in signals then RecheckSessionEnded
                  else if Plain(Timeout) in signals then RecheckDeadline else RecheckUnavailable;
    match recheck
    case Performed(found) => Partial(reason, found)
    case Partial(_, found) => Partial(reason, found)
    case NotPerformed(original) => NotPerformed(if reason == RecheckUnavailable then original else reason)
  }

  function MakeIdentity(kind: ScriptKind, path: ResourcePath, script: Option<nat>, editor: Option<nat>, buffer: Option<nat>,
                        disk: Option<FileIdentity>): Option<Identity>
  {
    if path.kind != Some(kind) || (kind == BuiltinGdscript && disk.Some?) then None
    else Some(Identity(kind, path, script, editor, buffer, disk))
  }

  function DiskIdentity(disk: Source, metadata: Option<DiskMetadata>): Option<FileIdentity> {
    if metadata.Some? && metadata.value.file.Some? then metadata.value.file
    else if disk.state.Observed? && disk.state.value.seen.disk.Some? then disk.state.value.seen.disk
    else if disk.Invalidated().Some? then disk.Invalidated().value.0.seen.disk
    else None
  }

  /** Binds the disk identity to the document the editor described. */
  function BindDisk(s: Sample, disk: Source, metadata: Option<DiskMetadata>, target: Target): Result<Body, ()> {
    var id := DiskIdentity(disk, metadata);
    var identity :=
      if s.identity.Some? then
        var i := s.identity.value;
        MakeIdentity(i.kind, i.path, i.script, i.editor, i.buffer, id)
      else if id.Some? then MakeIdentity(ExternalGdscript, target.path, None, None, None, id)
      else None;
    if identity.None? && (s.identity.Some? || id.Some?) then Err(())
    else
      var validity :=
        if s.open.Value() == Some(NotOpen) && s.validity.Unknown? && target.path.kind == Some(ExternalGdscript) then
          if metadata.Some? then Known(if metadata.value.file.Some? then Valid else Missing, metadata.value.stamp)
          else if disk.state.Observed? then Known(Valid, disk.state.value.stamp)
          else s.validity
        else s.validity;
      Ok(Body(identity, validity, s.open, disk, s.resource, s.buffer, s.dirty))
  }

  function Rank(expected: Expected): nat {
    match expected
    case ExpectSelected => 0
    case ExpectSample => 1
    case ExpectDisk => 2
    case ExpectRecheck => 3
    case ExpectDiskCheck => 4
    case ExpectDone => 5
  }

  /** The events that may come next: one kind for each stage, and a failure at any time. */
  predicate InTurn(expected: Expected, event: Event) {
    match event
    case Selected(_) => expected == ExpectSelected
    case Sampled(_) => expected == ExpectSample
    case DiskRead(_) => expected == ExpectDisk
    case DiskDescribed(reason, _) => expected == ExpectDisk && reason.Applicable(D) && reason != DocumentNotOpen
    case Rechecked(_) => expected == ExpectRecheck
    case DiskChecked(_) => expected == ExpectDiskCheck
    case Failed(_) => true
    case Done => expected == ExpectDone
  }

  /** What a sequence of accepted events establishes. */
  datatype Facts = Facts(target: Option<Target>, sample: Option<Sample>, disk: Option<Source>, metadata: Option<DiskMetadata>,
                         recheck: Recheck, diskChecked: bool, diagnostics: seq<Diagnostic>)

  const NO_FACTS := Facts(None, None, None, None, NotPerformed(RecheckUnavailable), false, [])

  function Learn(f: Facts, event: Event): Facts {
    match event
    case Selected(target) => f.(target := Some(target))
    case Sampled(sample) => f.(sample := Some(sample), diagnostics := f.diagnostics + sample.diagnostics)
    case DiskRead(source) => f.(disk := Some(source))
    case DiskDescribed(reason, metadata) => f.(disk := Some(Source(D, Unavailable(reason, None))), metadata := Some(metadata))
    case Rechecked(recheck) => f.(recheck := recheck)
    case DiskChecked(changes) => f.(recheck := WithChanges(f.recheck, changes), diskChecked := true)
    case _ => f
  }

  function FactsOf(events: seq<Event>): Facts {
    if events == [] then NO_FACTS else Learn(FactsOf(events[..|events| - 1]), events[|events| - 1])
  }

  lemma OneMoreFact(events: seq<Event>, event: Event)
    ensures FactsOf(events + [event]) == Learn(FactsOf(events), event)
  {
    assert (events + [event])[..|events|] == events;
  }

  class Collected {
    var target: Option<Target>
    var sample: Option<Sample>
    var disk: Option<Source>
    var metadata: Option<DiskMetadata>
    var recheck: Recheck
    var diskChecked: bool
    var expected: Expected
    var signals: seq<Terminal>
    var diagnostics: seq<Diagnostic>
    /** The events accepted so far. */
    var accepted: seq<Event>

    function Known(): Facts
      reads this
    {
      Facts(target, sample, disk, metadata, recheck, diskChecked, diagnostics)
    }

    constructor ()
      ensures Valid() && accepted == [] && signals == [] && Known() == NO_FACTS
    {
      target, sample, disk, metadata := None, None, None, None;
      recheck, diskChecked, expected := NotPerformed(RecheckUnavailable), false, ExpectSelected;
      signals, diagnostics, accepted := [], [], [];
    }

    /** The fields hold exactly what the accepted events said. */
    ghost predicate Valid()
      reads this
    {
      && (diskChecked <==> expected == ExpectDone)
      && (expected != ExpectSelected ==> target.Some?)
      && match expected
         case ExpectSelected => accepted == [] && target == None && sample == None && disk == None && metadata == None
         case ExpectSample => target.Some? && sample == None && disk == None && metadata == None && accepted == [Selected(target.value)]
         case ExpectDisk => target.Some? && sample.Some? && disk == None && metadata == None && accepted == [Selected(target.value), Sampled(sample.value)]
         case ExpectRecheck => target.Some? && sample.Some? && disk.Some? && |accepted| == 3 && Begun(accepted[..3])
         case ExpectDiskCheck =>
           target.Some? && sample.Some? && disk.Some? && |accepted| == 4 && Begun(accepted[..3]) && accepted[3] == Rechecked(recheck)
         case ExpectDone =>
           && target.Some? && sample.Some? && disk.Some? && |accepted| == 5 && Begun(accepted[..3])
           && accepted[3].Rechecked? && accepted[4].DiskChecked?
           && recheck == WithChanges(accepted[3].recheck, accepted[4].changes)
    }

    ghost predicate Begun(events: seq<Event>)
      requires target.Some? && sample.Some? && disk.Some?
      reads this
    {
      && |events| == 3 && events[0] == Selected(target.value) && events[1] == Sampled(sample.value)
      && (|| (events[2] == DiskRead(disk.value) && metadata == None)
          || (events[2].DiskDescribed? && disk.value == Source(D, Unavailable(events[2].reason, None)) && metadata == Some(events[2].metadata)))
    }

    method Fail(f: Failure)
      requires Valid()
      modifies this`signals, this`diagnostics
      ensures Valid()
      ensures signals == old(signals) + [SignalOf(f).0] && diagnostics == old(diagnostics) + [SignalOf(f).1]
      ensures Known() == old(Known()).(diagnostics := old(diagnostics) + [SignalOf(f).1])
    {
      signals, diagnostics := signals + [SignalOf(f).0], diagnostics + [SignalOf(f).1];
    }

    /** What an accepted event leaves behind. */
    twostate predicate Took(event: Event)
      reads this
    {
      && Valid() && accepted == old(accepted) + [event] && signals == old(signals) && Known() == Learn(old(Known()), event)
      && Rank(expected) == Rank(old(expected)) + 1
    }

    method TakeFirst(event: Event) returns (ok: bool)
      requires Valid() && (event.Selected? || event.Sampled?)
      modifies this
      ensures ok <==> InTurn(old(expected), event)
      ensures if ok then Took(event) else Valid() && accepted == old(accepted) && signals == old(signals) && Known() == old(Known())
    {
      match event
      case Selected(t) =>
        if expected != ExpectSelected { return false; }
        target, expected := Some(t), ExpectSample;
        accepted := accepted + [event];
        return true;
      case Sampled(s) =>
        if expected != ExpectSample { return false; }
        diagnostics := diagnostics + s.diagnostics;
        sample, expected := Some(s), ExpectDisk;
        accepted := accepted + [event];
        return true;
    }

    method TakeDisk(event: Event) returns (ok: bool)
      requires Valid() && (event.DiskRead? || event.DiskDescribed?)
      modifies this
      ensures ok <==> InTurn(old(expected), event)
      ensures if ok then Took(event) else Valid() && accepted == old(accepted) && signals == old(signals) && Known() == old(Known())
    {
      hide SourceReason.Applicable;
      match event
      case DiskRead(source) =>
        if expected != ExpectDisk { return false; }
        disk, expected := Some(source), ExpectRecheck;
        accepted := accepted + [event];
        assert accepted[..3] == accepted;
        return true;
      case DiskDescribed(reason, described) =>
        if expected != ExpectDisk { return false; }
        if !reason.Applicable(D) || reason == DocumentNotOpen { return false; }
        disk, metadata := Some(Source(D, Unavailable(reason, None))), Some(described);
        expected := ExpectRecheck;
        accepted := accepted + [event];
        assert accepted[..3] == accepted;
        return true;
    }

    method TakeCheck(event: Event) returns (ok: bool)
      requires Valid() && (event.Rechecked? || event.DiskChecked?)
      modifies this
      ensures ok <==> InTurn(old(expected), event)
      ensures if ok then Took(event) else Valid() && accepted == old(accepted) && signals == old(signals) && Known() == old(Known())
    {
      hide WithChanges;
      match event
      case Rechecked(found) =>
        if expected != ExpectRecheck { return false; }
        recheck, expected := found, ExpectDiskCheck;
        accepted := accepted + [event];
        assert accepted[..3] == old(accepted)[..3];
        return true;
      case DiskChecked(changes) =>
        if expected != ExpectDiskCheck { return false; }
        recheck, diskChecked, expected := WithChanges(recheck, changes), true, ExpectDone;
        accepted := accepted + [event];
        assert accepted[..3] == old(accepted)[..3];
        return true;
    }

    /** One event; `Ok(true)` ends the attempt. An event out of order changes nothing. */
    method Accept(event: Event) returns (r: Result<bool, Failure>)
      requires Valid()
      modifies this
      ensures Valid()
      ensures r == Ok(false) ==> Took(event)
      ensures r == Ok(true) ==>
                if event.Failed? then
                  && accepted == old(accepted) && signals == old(signals) + [SignalOf(event.failure).0]
                  && Known() == old(Known()).(diagnostics := old(diagnostics) + [SignalOf(event.failure).1])
                else
                  && event.Done? && old(expected) == ExpectDone && expected == old(expected)
                  && accepted == old(accepted) && signals == old(signals) && Known() == old(Known())
      ensures r.Err? ==> r.error == ProtocolFailure() && accepted == old(accepted) && signals == old(signals) && Known() == old(Known())
      ensures r.Ok? <==> InTurn(old(expected), event)
    {
      hide SignalOf, Valid;
      var ok;
      match event {
        case Failed(f) =>
          Fail(f);
          return Ok(true);
        case Done =>
          return if expected == ExpectDone then Ok(true) else Err(ProtocolFailure());
        case Selected(_) => ok := TakeFirst(event);
        case Sampled(_) => ok := TakeFirst(event);
        case Rechecked(_) => ok := TakeCheck(event);
        case DiskChecked(_) => ok := TakeCheck(event);
        case _ => ok := TakeDisk(event);
      }
      return if ok then Ok(false) else Err(ProtocolFailure());
    }

    /** The evidence collected so far: without the last disk check the recheck is cut short, and a
        source that was never read is unavailable. */
    function Gathered(path: ResourcePath): Result<Option<EvidenceGiven>, ()>
      reads this
    {
      Gather(target, sample, disk, metadata, if diskChecked then recheck else Cut(recheck, signals), path, signals)
    }

    /** The outcome of the attempt. Rejected evidence is dropped, never published. */
    method Finish(request: Request, interval: Interval) returns (r: Result<Outcome, ()>)
      requires Valid()
      ensures r.Ok? && r.value.kind == CompleteObservation ==>
                && signals == [] && expected == ExpectDone
                && |accepted| == 5 && accepted[0] == Selected(target.value) && accepted[1] == Sampled(sample.value)
                && accepted[2] == DiskRead(disk.value) && accepted[3] == Rechecked(Performed([])) && accepted[4] == DiskChecked([])
                && disk.value.state.Observed? && sample.value.resource.state.Observed? && sample.value.buffer.state.Observed?
                && sample.value.dirty.DirtyObserved?
      ensures r.Ok? && r.value.kind == CompleteObservation <==> CompletesNow(this, request, interval)
      ensures r == Verdict(Known(), signals, request, interval)
      ensures Gathered(request.path).Ok? && r.Ok?
              && Classified(RequestFor(request), interval, target, Gathered(request.path).value, signals, diagnostics).Err? ==>
                r.value.snapshot.None?
    {
      hide Classified, Gather, Cut;
      var evidence := Gathered(request.path);
      if evidence.Err? { return Err(()); }
      var outcome := Classify(RequestFor(request), interval, target, evidence.value, signals, diagnostics);
      CompleteMeans(RequestFor(request), interval, target, evidence.value, signals, diagnostics);
      if outcome.Ok? {
        if outcome.value.kind == CompleteObservation { ProtocolFollowed(request.path); }
        return Ok(outcome.value);
      }
      outcome := Classify(RequestFor(request), interval, target, None, [Plain(ProtocolError)], [INVALID_FRAME]);
      NotComplete(RequestFor(request), interval, target, [INVALID_FRAME]);
      return match outcome case Ok(o) => Ok(o) case Err(_) => Err(());
    }

    /** Evidence with a performed, empty recheck and every source observed was collected in order. */
    lemma ProtocolFollowed(path: ResourcePath)
      requires Valid() && Gathered(path).Ok? && Gathered(path).value.Some? && signals == []
      requires var e := Gathered(path).value.value;
               e.recheck == Performed([]) && e.body.disk.state.Observed? && e.body.resource.state.Observed?
               && e.body.buffer.state.Observed? && e.body.dirty.DirtyObserved?
      ensures && expected == ExpectDone
              && |accepted| == 5 && accepted[0] == Selected(target.value) && accepted[1] == Sampled(sample.value)
              && accepted[2] == DiskRead(disk.value) && accepted[3] == Rechecked(Performed([])) && accepted[4] == DiskChecked([])
              && disk.value.state.Observed? && sample.value.resource.state.Observed? && sample.value.buffer.state.Observed?
              && sample.value.dirty.DirtyObserved?
    {
      hide BindDisk;
      GatherMeans(target, sample, disk, metadata, if diskChecked then recheck else Cut(recheck, signals), path, signals);
      assert diskChecked;
      Unchanged(accepted[3].recheck, accepted[4].changes);
    }

    function RequestFor(request: Request): Request
      reads this`target
    {
      if target.Some? then request.(root := target.value.root) else request
    }
  }

  /** The classifier's verdict on what is known and on the recorded failure. Rejected evidence is dropped. */
  function Verdict(f: Facts, signals: seq<Terminal>, request: Request, interval: Interval): Result<Outcome, ()> {
    var about := if f.target.Some? then request.(root := f.target.value.root) else request;
    match Gather(f.target, f.sample, f.disk, f.metadata, if f.diskChecked then f.recheck else Cut(f.recheck, signals), request.path, signals)
    case Err(_) => Err(())
    case Ok(evidence) =>
      match Classified(about, interval, f.target, evidence, signals, f.diagnostics)
      case Ok(o) => Ok(o)
      case Err(_) =>
        match Classified(about, interval, f.target, None, [Plain(ProtocolError)], [INVALID_FRAME])
        case Ok(o) => Ok(o)
        case Err(_) => Err(())
  }

  function Gather(target: Option<Target>, sample: Option<Sample>, disk: Option<Source>, metadata: Option<DiskMetadata>,
                  recheck: Recheck, path: ResourcePath, signals: seq<Terminal>): Result<Option<EvidenceGiven>, ()>
  {
    if sample.None? || target.None? then Ok(None)
    else
      var reason := if path.kind == Some(BuiltinGdscript) then NoStandaloneDiskSource
                    else if Plain(Timeout) in signals then DeadlineExceeded else DiskUnreadable;
      var read := if disk.Some? then disk.value else Source(D, Unavailable(reason, None));
      match BindDisk(sample.value, read, metadata, target.value)
      case Err(_) => Err(())
      case Ok(body) => if body.Slotted() then Ok(Some(EvidenceGiven(target.value, body, recheck))) else Err(())
  }

  /** Gathered evidence carries the collected sources and nothing else. */
  lemma GatherMeans(target: Option<Target>, sample: Option<Sample>, disk: Option<Source>, metadata: Option<DiskMetadata>,
                    recheck: Recheck, path: ResourcePath, signals: seq<Terminal>)
    requires Gather(target, sample, disk, metadata, recheck, path, signals).Ok?
    ensures var e := Gather(target, sample, disk, metadata, recheck, path, signals).value;
            e.Some? ==>
              && target.Some? && sample.Some? && e.value.recheck == recheck
              && (e.value.body.disk.state.Observed? ==> disk.Some? && disk.value == e.value.body.disk)
              && e.value.body.resource == sample.value.resource && e.value.body.buffer == sample.value.buffer
              && e.value.body.dirty == sample.value.dirty
  {
  }

  lemma Unchanged(recheck: Recheck, changes: seq<Change>)
    ensures WithChanges(recheck, changes) == Performed([]) ==> recheck == Performed([]) && changes == []
  {
  }

  /** A complete observation comes from complete, unchanged, rechecked evidence and no signal. */
  lemma CompleteMeans(request: Request, interval: Interval, target: Option<Target>, evidence: Option<EvidenceGiven>,
                      signals: seq<Terminal>, diagnostics: seq<Diagnostic>)
    ensures var r := Classified(request, interval, target, evidence, signals, diagnostics);
            r.Ok? && r.value.kind == CompleteObservation ==>
              && signals == [] && evidence.Some? && evidence.value.recheck == Performed([])
              && evidence.value.body.disk.state.Observed? && evidence.value.body.resource.state.Observed?
              && evidence.value.body.buffer.state.Observed? && evidence.value.body.dirty.DirtyObserved?
    ensures var r := Classified(request, interval, target, evidence, signals, diagnostics);
            r.Ok? && r.value.snapshot.Some? ==> evidence.Some?
  {
    hide Observation.Finish, Conclude, Reduce, Degrades;
    var all := Signals(signals, evidence);
    var r := Reduce(Reduced(None, false, diagnostics), all);
    ReduceMeans(diagnostics, all);
    if Conclude(request, interval, target, evidence, r).Ok? {
      ConcludeMeans(request, interval, target, evidence, r);
      if Conclude(request, interval, target, evidence, r).value.kind == CompleteObservation {
        FinishDegrades(evidence.value, interval, r.disconnected);
        BodyWasObserved(evidence.value.body, Conclude(request, interval, target, evidence, r).value.snapshot.value.body);
      }
    }
  }

  lemma BodyWasObserved(a: Body, b: Body)
    requires Degrades(a, b)
    ensures b.disk.state.Observed? ==> a.disk.state.Observed?
    ensures b.resource.state.Observed? ==> a.resource.state.Observed?
    ensures b.buffer.state.Observed? ==> a.buffer.state.Observed?
    ensures b.dirty.DirtyObserved? ==> a.dirty.DirtyObserved?
  {
  }

  lemma NotComplete(request: Request, interval: Interval, target: Option<Target>, diagnostics: seq<Diagnostic>)
    ensures var r := Classified(request, interval, target, None, [Plain(ProtocolError)], diagnostics);
            r.Ok? ==> r.value.kind != CompleteObservation && r.value.snapshot.None?
  {
    CompleteMeans(request, interval, target, None, [Plain(ProtocolError)], diagnostics);
  }

  // ---- the supervise loop ----

  /** What one turn of the loop finds. */
  datatype Poll =
    | CancelledNow
    | BudgetSpent
    | NothingYet
    | Broken(failure: Failure)
    | Frame(event: Result<Event, Failure>, late: bool, lateAfterDecoding: bool, cancelledAfter: bool)

  function TimeoutFailure(): Failure {
    Failure(Timeout, Diagnostic.Other(1), None)
  }

  function CancelledFailure(): Failure {
    Failure(Cancelled, Diagnostic.Other(2), None)
  }

  /** A poll that disturbs nothing: no complete frame yet, or a frame in time that decodes. */
  predicate Calm(p: Poll) {
    p.NothingYet? || (p.Frame? && p.event.Ok? && !p.late && !p.lateAfterDecoding && !p.cancelledAfter)
  }

  predicate AllCalm(polls: seq<Poll>) {
    forall k | 0 <= k < |polls| :: Calm(polls[k])
  }

  /** The events of the frames among some polls. */
  function EventsOf(polls: seq<Poll>): seq<Event> {
    if polls == [] then []
    else EventsOf(polls[..|polls| - 1]) +
         if polls[|polls| - 1].Frame? && polls[|polls| - 1].event.Ok? then [polls[|polls| - 1].event.value] else []
  }

  /** The whole protocol, with every source and the dirty state observed. */
  predicate Protocol(events: seq<Event>) {
    && |events| == 6
    && events[0].Selected? && events[1].Sampled? && events[2].DiskRead?
    && events[3] == Rechecked(Performed([])) && events[4] == DiskChecked([]) && events[5] == Done
    && events[2].source.state.Observed?
    && events[1].sample.resource.state.Observed? && events[1].sample.buffer.state.Observed? && events[1].sample.dirty.DirtyObserved?
  }

  /** The collected evidence is valid, complete and about this request. */
  predicate Sufficient(request: Request, interval: Interval, target: Target, sample: Sample, disk: Source) {
    && BindDisk(sample, disk, None, target).Ok?
    && var body := BindDisk(sample, disk, None, target).value;
       body.Slotted() && Whole(body) && CheckBody(body, target, interval).None?
       && CheckTarget(request.(root := target.root), target).None?
  }

  /** The first `n` polls, with any number of empty ones among them, deliver the whole protocol and nothing
      else, over sufficient evidence. What follows them does not matter. */
  predicate CompletedBy(polls: seq<Poll>, n: nat, request: Request, interval: Interval) {
    && n <= |polls| && AllCalm(polls[..n])
    && var e := EventsOf(polls[..n]);
       Protocol(e) && Sufficient(request, interval, e[0].target, e[1].sample, e[2].source)
  }

  /** A poll that ends the attempt after these events: a disturbance, a failure, or an event out of turn. */
  ghost predicate Ends(p: Poll, accepted: seq<Event>) {
    !Calm(p) || (p.Frame? && (p.event.value.Failed? || forall e: Expected | Rank(e) == |accepted| :: !InTurn(e, p.event.value)))
  }

  /** The failure that ended the attempt, if it did not end with the protocol. */
  function Ending(polls: seq<Poll>, taken: nat, accepted: seq<Event>): Option<Failure> {
    if Done in accepted then None
    else if taken >= |polls| then Some(TimeoutFailure())
    else
      match polls[taken]
      case CancelledNow => Some(CancelledFailure())
      case BudgetSpent => Some(TimeoutFailure())
      case NothingYet => None
      case Broken(f) => Some(f)
      case Frame(event, late, lateAfterDecoding, cancelledAfter) =>
        if late || lateAfterDecoding then Some(TimeoutFailure())
        else if cancelledAfter then Some(CancelledFailure())
        else match event
          case Err(f) => Some(f)
          case Ok(Failed(f)) => Some(f)
          case Ok(_) => Some(ProtocolFailure())
  }

  /** What is known after these events and this failure. */
  function Recorded(accepted: seq<Event>, failure: Option<Failure>): Facts {
    var f := FactsOf(accepted);
    if failure.Some? then f.(diagnostics := f.diagnostics + [SignalOf(failure.value).1]) else f
  }

  function SignalsOf(failure: Option<Failure>): seq<Terminal> {
    if failure.Some? then [SignalOf(failure.value).0] else []
  }

  /** Runs until something ends the attempt; when the polls run out the budget is spent. The events
      accepted are those of the polls taken, no poll is left that could have been taken, and the result is
      the classifier's verdict on those events and on what ended the attempt. The observation is complete
      exactly when some polls from the start deliver the whole protocol, undisturbed, over sufficient
      evidence. */
  method Supervise(polls: seq<Poll>, request: Request, interval: Interval)
    returns (r: Result<Outcome, ()>, accepted: seq<Event>, taken: nat)
    ensures taken <= |polls| && AllCalm(polls[..taken]) && accepted == EventsOf(polls[..taken])
    ensures taken < |polls| ==> Done in accepted || Ends(polls[taken], accepted)
    ensures var failure := Ending(polls, taken, accepted);
            r == Verdict(Recorded(accepted, failure), SignalsOf(failure), request, interval)
    ensures r.Ok? && r.value.kind == CompleteObservation <==> exists n: nat :: CompletedBy(polls, n, request, interval)
    ensures r.Ok? && r.value.kind == CompleteObservation ==> Protocol(accepted) && CompletedBy(polls, taken, request, interval)
  {
    hide Classified, Completes, Sufficient, EventsOf, AllCalm, Protocol, CompletedBy, Ends, Verdict, FactsOf, SignalOf;
    var state := new Collected();
    var done;
    done, taken := Attend(state, polls);
    accepted := if done then state.accepted + [Done] else state.accepted;
    if done {
      OneMoreFact(state.accepted, Done);
      DoneDecides(state, polls, taken, request, interval);
    } else {
      NeverSucceeds(state, request, interval);
      NeverCompleted(polls, request, interval);
    }
    EndsWith(polls, taken, state.accepted, done);
    hide Collected.Valid, Collected.Gathered, CompletesNow;
    r := state.Finish(request, interval);
  }

  /** The loop over the polls. */
  method Attend(state: Collected, polls: seq<Poll>) returns (done: bool, taken: nat)
    requires state.Valid() && state.signals == [] && state.accepted == [] && state.Known() == NO_FACTS
    modifies state
    ensures state.Valid() && taken <= |polls| && AllCalm(polls[..taken])
    ensures EventsOf(polls[..taken]) == state.accepted + if done then [Done] else []
    ensures done ==> state.expected == ExpectDone && state.signals == []
    ensures Done !in state.accepted
    ensures !done ==> state.signals != [] && Fruitless(polls) && (taken < |polls| ==> Ends(polls[taken], state.accepted))
    ensures var failure := if done then None else Ending(polls, taken, state.accepted);
            state.signals == SignalsOf(failure) && state.Known() == Recorded(state.accepted, failure)
  {
    hide Collected.Valid, InTurn, EventsOf, AllCalm, Fruitless, Calm, Ends, FactsOf, SignalOf;
    var running := true;
    done, taken := false, 0;
    StartsAtOnce(state, polls);
    while running
      invariant taken <= |polls| && state.Valid() && AllCalm(polls[..taken])
      invariant EventsOf(polls[..taken]) == state.accepted + if done then [Done] else []
      invariant running ==> state.signals == [] && !done && |state.accepted| == Rank(state.expected)
      invariant done ==> state.expected == ExpectDone && state.signals == []
      invariant Done !in state.accepted
      invariant running || done ==> state.Known() == FactsOf(state.accepted)
      invariant !running && !done ==>
                  var failure := Ending(polls, taken, state.accepted);
                  state.signals == SignalsOf(failure) && state.Known() == Recorded(state.accepted, failure)
      invariant !running && !done ==> state.signals != [] && Fruitless(polls) && (taken < |polls| ==> Ends(polls[taken], state.accepted))
      decreases |polls| - taken, if running then 1 else 0
    {
      if taken == |polls| {
        OutOfPolls(polls, state.accepted, state.expected);
        state.Fail(TimeoutFailure());
        running := false;
      } else {
        ghost var had, was := state.accepted, state.expected;
        running, done := Turn(state, polls[taken]);
        if running {
          CalmFrame(polls[taken]);
          if polls[taken].Frame? { OneMoreFact(had, polls[taken].event.value); } else { assert had + [] == had; }
        }
        if running || done {
          OneMorePoll(polls, taken);
          taken := taken + 1;
        } else {
          StoppedHere(polls, taken, had, was);
        }
      }
    }
  }

  lemma StartsAtOnce(state: Collected, polls: seq<Poll>)
    requires state.Valid() && state.accepted == []
    ensures Rank(state.expected) == 0 && EventsOf(polls[..0]) == [] && AllCalm(polls[..0]) && FactsOf([]) == NO_FACTS
  {
  }

  lemma OneMorePoll(polls: seq<Poll>, i: nat)
    requires i < |polls| && AllCalm(polls[..i]) && Calm(polls[i])
    ensures AllCalm(polls[..i + 1])
    ensures EventsOf(polls[..i + 1]) == EventsOf(polls[..i]) + if polls[i].Frame? then [polls[i].event.value] else []
  {
    assert polls[..i + 1][..i] == polls[..i];
  }

  /** No polls from the start deliver the protocol. */
  ghost predicate Fruitless(polls: seq<Poll>) {
    forall n: nat | n <= |polls| && AllCalm(polls[..n]) :: !Protocol(EventsOf(polls[..n]))
  }

  lemma {:induction false} EventsGrow(polls: seq<Poll>, m: nat, n: nat)
    requires m <= n <= |polls|
    ensures EventsOf(polls[..m]) <= EventsOf(polls[..n])
    decreases n
  {
    if m < n {
      EventsGrow(polls, m, n - 1);
      assert polls[..n][..n - 1] == polls[..n - 1];
    }
  }

  lemma OutOfPolls(polls: seq<Poll>, accepted: seq<Event>, expected: Expected)
    requires EventsOf(polls[..|polls|]) == accepted && |accepted| == Rank(expected)
    ensures Fruitless(polls)
  {
    forall n: nat | n <= |polls| && AllCalm(polls[..n])
      ensures !Protocol(EventsOf(polls[..n]))
    {
      EventsGrow(polls, n, |polls|);
    }
  }

  /** A poll that ends the attempt, other than by finishing the protocol, leaves no way to finish it. */
  lemma StoppedHere(polls: seq<Poll>, i: nat, accepted: seq<Event>, expected: Expected)
    requires i < |polls| && EventsOf(polls[..i]) == accepted && |accepted| == Rank(expected) && AllCalm(polls[..i])
    requires Calm(polls[i]) ==> polls[i].Frame? && (polls[i].event.value.Failed? || !InTurn(expected, polls[i].event.value))
    ensures Fruitless(polls) && Ends(polls[i], accepted)
  {
    SameRank(expected);
    forall n: nat | n <= |polls| && AllCalm(polls[..n])
      ensures !Protocol(EventsOf(polls[..n]))
    {
      if n <= i {
        EventsGrow(polls, n, i);
      } else {
        assert polls[..n][i] == polls[i];
        OneMorePoll(polls, i);
        EventsGrow(polls, i + 1, n);
        var e := EventsOf(polls[..n]);
        assert e[|accepted|] == polls[i].event.value;
        if Protocol(e) { ProtocolInTurn(e, expected); }
      }
    }
  }

  lemma SameRank(e: Expected)
    ensures forall f: Expected | Rank(f) == Rank(e) :: f == e
  {
  }

  lemma ProtocolInTurn(events: seq<Event>, expected: Expected)
    requires Protocol(events)
    ensures InTurn(expected, events[Rank(expected)]) && !events[Rank(expected)].Failed?
  {
  }

  lemma NeverCompleted(polls: seq<Poll>, request: Request, interval: Interval)
    requires Fruitless(polls)
    ensures forall n: nat :: !CompletedBy(polls, n, request, interval)
  {
    hide Protocol, Sufficient, AllCalm, EventsOf;
  }

  /** Finishing this state completes the observation. */
  ghost predicate CompletesNow(state: Collected, request: Request, interval: Interval)
    reads state
  {
    && state.Gathered(request.path).Ok?
    && var v := Classified(state.RequestFor(request), interval, state.target, state.Gathered(request.path).value, state.signals, state.diagnostics);
       v.Ok? && v.value.kind == CompleteObservation
  }

  lemma SucceedsMeans(state: Collected, request: Request, interval: Interval)
    ensures CompletesNow(state, request, interval) <==>
              && state.Gathered(request.path).Ok?
              && Completes(state.RequestFor(request), interval, state.target, state.Gathered(request.path).value, state.signals)
  {
    hide Completes, Classified, Collected.Gathered;
    if state.Gathered(request.path).Ok? {
      ClassifiedCompletesExactly(state.RequestFor(request), interval, state.target, state.Gathered(request.path).value, state.signals,
                                 state.diagnostics);
    }
  }

  lemma NeverSucceeds(state: Collected, request: Request, interval: Interval)
    requires state.signals != []
    ensures !CompletesNow(state, request, interval)
  {
    SucceedsMeans(state, request, interval);
    hide CompletesNow, Collected.Gathered, CheckBody, Whole;
  }

  /** At the end of the protocol the evidence alone decides, and no other polls could have ended it. */
  lemma DoneDecides(state: Collected, polls: seq<Poll>, taken: nat, request: Request, interval: Interval)
    requires state.Valid() && state.expected == ExpectDone && state.signals == []
    requires taken <= |polls| && AllCalm(polls[..taken]) && EventsOf(polls[..taken]) == state.accepted + [Done]
    ensures CompletesNow(state, request, interval) <==> CompletedBy(polls, taken, request, interval)
    ensures CompletedBy(polls, taken, request, interval) ==> Protocol(state.accepted + [Done])
    ensures forall n: nat :: CompletedBy(polls, n, request, interval) ==> CompletedBy(polls, taken, request, interval)
  {
    hide EventsOf, AllCalm, CompletesNow;
    SucceedsMeans(state, request, interval);
    CompleteState(state, request, interval);
    forall n: nat | CompletedBy(polls, n, request, interval)
      ensures CompletedBy(polls, taken, request, interval)
    {
      hide Sufficient, Collected.Valid, Completes, Collected.Gathered;
      assert state.accepted + [Done] == EventsOf(polls[..taken]);
      if n <= taken {
        EventsGrow(polls, n, taken);
      } else {
        EventsGrow(polls, taken, n);
      }
      SixEvents(state);
      assert EventsOf(polls[..n]) == EventsOf(polls[..taken]);
    }
  }

  lemma SixEvents(state: Collected)
    requires state.Valid() && state.expected == ExpectDone
    ensures |state.accepted| == 5
  {
  }

  lemma CompleteState(state: Collected, request: Request, interval: Interval)
    requires state.Valid() && state.expected == ExpectDone && state.signals == []
    ensures var e := state.accepted + [Done];
            (&& state.Gathered(request.path).Ok?
             && Completes(state.RequestFor(request), interval, state.target, state.Gathered(request.path).value, [])) <==>
              Protocol(e) && Sufficient(request, interval, e[0].target, e[1].sample, e[2].source)
  {
    var e := state.accepted + [Done];
    hide CheckBody, BindDisk;
    if state.Gathered(request.path).Ok?
       && Completes(state.RequestFor(request), interval, state.target, state.Gathered(request.path).value, [])
    {
      state.ProtocolFollowed(request.path);
    }
  }

  lemma CalmFrame(p: Poll)
    requires Calm(p)
    ensures p.Frame? ==> p.event.Ok?
  {
  }

  lemma FailedInTurn(expected: Expected, event: Event)
    requires event.Failed?
    ensures InTurn(expected, event)
  {
  }

  lemma EndsWith(polls: seq<Poll>, taken: nat, accepted: seq<Event>, done: bool)
    requires Done !in accepted
    ensures Ending(polls, taken, if done then accepted + [Done] else accepted) == if done then None else Ending(polls, taken, accepted)
  {
  }

  method Turn(state: Collected, poll: Poll) returns (running: bool, done: bool)
    requires state.Valid() && state.signals == [] && Done !in state.accepted
    modifies state
    ensures state.Valid()
    ensures running || done ==> Calm(poll) && state.signals == [] && !(running && done)
    ensures running ==> |state.accepted| == Rank(state.expected)
                        && state.accepted == old(state.accepted) + (if poll.Frame? then [poll.event.value] else [])
                        && state.Known() == (if poll.Frame? then Learn(old(state.Known()), poll.event.value) else old(state.Known()))
                        && Done !in state.accepted
    ensures done ==> state.Known() == old(state.Known())
    ensures !running && !done ==>
              var failure := Ending([poll], 0, old(state.accepted));
              && failure.Some? && state.signals == [SignalOf(failure.value).0]
              && state.Known() == old(state.Known()).(diagnostics := old(state.diagnostics) + [SignalOf(failure.value).1])
    ensures done ==> poll.Frame? && poll.event.value.Done? && state.expected == ExpectDone && state.accepted == old(state.accepted)
    ensures !running && !done ==>
              state.signals != [] && state.accepted == old(state.accepted)
              && (Calm(poll) ==> poll.Frame? && (poll.event.value.Failed? || !InTurn(old(state.expected), poll.event.value)))
  {
    hide InTurn, SignalOf, Learn, Collected.Valid;
    match poll
    case CancelledNow =>
      state.Fail(CancelledFailure());
      return false, false;
    case BudgetSpent =>
      state.Fail(TimeoutFailure());
      return false, false;
    case NothingYet =>
      RankIsLength(state);
      return true, false;
    case Broken(f) =>
      state.Fail(f);
      return false, false;
    case Frame(event, late, lateAfterDecoding, cancelledAfter) =>
      if late || lateAfterDecoding {
        state.Fail(TimeoutFailure());
        return false, false;
      }
      if cancelledAfter {
        state.Fail(CancelledFailure());
        return false, false;
      }
      if event.Err? {
        state.Fail(event.error);
        return false, false;
      }
      running, done := Heed(state, event.value);
  }

  /** An event that arrived in time. */
  method Heed(state: Collected, event: Event) returns (running: bool, done: bool)
    requires state.Valid() && state.signals == [] && Done !in state.accepted
    modifies state
    ensures state.Valid()
    ensures running || done ==> state.signals == [] && !(running && done)
    ensures running ==> |state.accepted| == Rank(state.expected) && state.accepted == old(state.accepted) + [event]
                        && state.Known() == Learn(old(state.Known()), event) && Done !in state.accepted
    ensures done ==> event.Done? && state.expected == ExpectDone && state.accepted == old(state.accepted) && state.Known() == old(state.Known())
    ensures !running && !done ==>
              && state.accepted == old(state.accepted) && (event.Failed? || !InTurn(old(state.expected), event))
              && var f := if event.Failed? then event.failure else ProtocolFailure();
                 state.signals == [SignalOf(f).0]
                 && state.Known() == old(state.Known()).(diagnostics := old(state.diagnostics) + [SignalOf(f).1])
  {
    hide InTurn, SignalOf, Learn, Collected.Valid;
    DoneInTurn(state.expected);
    if event.Failed? { FailedInTurn(state.expected, event); }
    var more := state.Accept(event);
    RankIsLength(state);
    if more.Err? {
      state.Fail(more.error);
      return false, false;
    }
    return !more.value, more.value && event.Done?;
  }

  lemma DoneInTurn(expected: Expected)
    ensures InTurn(expected, Done) <==> expected == ExpectDone
  {
  }

  lemma RankIsLength(state: Collected)
    requires state.Valid()
    ensures |state.accepted| == Rank(state.expected)
  {
  }
}
