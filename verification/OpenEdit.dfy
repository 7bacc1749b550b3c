/** The staged edit of an open document. Disk, loaded resource and editor buffer are three
    authorities that anybody may change between calls, and inside every engine call that runs
    editor callbacks. */
module OpenEdit {
  import opened Wrappers
  import opened FileIo
  import opened SaveProfile

  const SOURCE_LIMIT: nat := 512 * 1024
  const EXPIRY_LIMIT: nat := 9_000_000

  /** Which of the samples a guard takes are available at all. */
  datatype Reads = Reads(profile: bool, versions: bool, texts: bool, editor: bool, disk: bool)

  /** The three authorities, the associations between them, and the clock. */
  datatype World = World(
    disk: string,
    mtime: int,
    resource: string,
    edited: bool,
    buffer: string,
    current: int,
    saved: int,
    profile: Profile,
    attached: bool,
    associated: bool,
    unsaved: bool,
    readable: Reads,
    tick: nat)

  datatype Stage = Prepared | Buffer | Resource | Content | Metadata | Edited | Tagged
  {
    function Rank(): nat {
      match this
      case Prepared => 0
      case Buffer => 1
      case Resource => 2
      case Content => 3
      case Metadata => 4
      case Edited => 5
      case Tagged => 6
    }
  }

  datatype Effect = Remove | Insert | SetSource | Write | Restore | ClearEdited | TagSaved

  /** What an attempt was prepared for; it never changes. */
  datatype Plan = Plan(
    serial: nat,
    session: nat,
    before: string,
    after: string,
    expires: nat,
    preparedCurrent: int,
    preparedSaved: int,
    profile: Profile,
    originalMtime: int)

  predicate WellFormed(plan: Plan) {
    && |plan.before| <= SOURCE_LIMIT && |plan.after| <= SOURCE_LIMIT && plan.before != plan.after
    && plan.preparedCurrent == plan.preparedSaved
  }

  /** Effects that may have happened; none is ever cleared. */
  datatype Flags = Flags(
    bufferChanged: bool,
    resourceChanged: bool,
    writeStarted: bool,
    truncated: bool,
    synced: bool,
    contentReadback: bool,
    futimensCalled: bool,
    restored: bool,
    editedClearAttempted: bool,
    editedCleared: bool,
    tagAttempted: bool,
    tagged: bool)

  const UNTOUCHED := Flags(false, false, false, false, false, false, false, false, false, false, false, false)

  datatype Attempt = Attempt(plan: Plan, stage: Stage, frozenCurrent: int, flags: Flags, written: nat)
  {
    /** An attempt that may have touched anything ends as partial. */
    function FailureStatus(): Status {
      if flags.bufferChanged || flags.resourceChanged || flags.writeStarted || flags.editedClearAttempted || flags.tagAttempted
      then Partial else Refused
    }

    /** The flags between two calls are determined by the stage. */
    predicate Consistent() {
      var n := stage.Rank();
      && stage != Tagged
      && flags == Flags(n >= 1, n >= 2, n >= 3, n >= 3, n >= 3, n >= 3, n >= 4, n >= 4, n >= 5, n >= 5, false, false)
      && (n >= 1 ==> frozenCurrent > plan.preparedCurrent)
      && written == (if n >= 3 then |plan.after| else 0)
    }
  }

  datatype Status = Ready | Complete | Partial | Refused | Busy | AttemptPrepared

  datatype Reason =
    | Nothing | SlotBusy | InvalidArguments | UnsupportedSource | InvalidBinding | DocumentMismatch
    | UnsafeEditorEffects | EditedStateUnavailable | Dirty | SourceUnavailable | SaveWouldReformat
    | DirtyOrChanged | WrongAttemptOrStage | WrongAttempt | SessionOrExpiryChanged | NamespaceOrDescriptorChanged
    | DocumentAssociationChanged | SaveProfileChanged | VersionUnavailable | VersionChanged | SourceChanged
    | EditedStateChanged | IncompleteContentReceipt | DiskContentChanged | MtimeChanged
    | CancelledOrExpiredDuringEdit | DiskOrNamespaceChanged | IntermediateSourceOrVersionChanged
    | InvalidBuffer | DocumentClosedDuringEdit | CancelledDuringEdit | BufferReadbackFailed
    | ResourceReadbackFailed | WriteFailed | TruncateFailed | FsyncFailed | PreadOrNamespaceChanged
    | MetadataPreflightFailed | MtimeRestoreFailed | MtimeReadbackFailed | EditorUnavailable | EditedReadbackFailed
    | PostTagDocumentChanged | PostTagUnverified | CancelledDuringStage | Cancelled | ClosingAfterActiveStage

  datatype Reply = Reply(status: Status, reason: Reason)

  datatype CallState = Idle | Running | Closing

  /** The engine, the operating system and everybody else, indexed by a step counter. */
  datatype Env = Env(
    /** What callbacks and other writers do to the world during one step. */
    interfere: (nat, World) -> World,
    /** Whether a cancellation, an expiry or a session close arrives during the step. */
    closes: nat -> bool,
    /** Whether the buffer object is still there after the step. */
    survives: nat -> bool,
    succeeds: nat -> bool,
    io: nat -> seq<Io>)
  {
    /** Nobody interferes and every call succeeds. */
    ghost predicate Calm() {
      && (forall k, w :: interfere(k, w) == w)
      && (forall k :: !closes(k) && survives(k) && succeeds(k) && io(k) == [])
    }
  }

  // ---- the guards ----

  predicate Readable(w: World) {
    w.readable.profile && w.readable.versions && w.readable.texts && w.readable.editor && w.readable.disk
  }

  predicate DiskIs(w: World, bytes: string) {
    w.readable.disk && w.disk == bytes
  }

  /** The guard every stage passes before it runs; `None` admits the stage. */
  function GuardFault(state: CallState, session: nat, a: Attempt, w: World): Option<Reason> {
    var content := a.stage.Rank() >= 3;
    if state != Idle || session != a.plan.session || w.tick >= a.plan.expires then Some(SessionOrExpiryChanged)
    else if !w.attached then Some(NamespaceOrDescriptorChanged)
    else if !w.associated then Some(DocumentAssociationChanged)
    else if !w.readable.profile || w.profile != a.plan.profile || !Preserved(w.profile, a.plan.before) || !Preserved(w.profile, a.plan.after)
    then Some(SaveProfileChanged)
    else if !w.readable.versions then Some(VersionUnavailable)
    else if w.current != (if a.stage == Prepared then a.plan.preparedCurrent else a.frozenCurrent) || w.saved != a.plan.preparedSaved
    then Some(VersionChanged)
    else if !w.readable.texts || |w.buffer| > SOURCE_LIMIT || |w.resource| > SOURCE_LIMIT then Some(SourceUnavailable)
    else if w.buffer != (if a.stage == Prepared then a.plan.before else a.plan.after)
         || w.resource != (if a.stage.Rank() <= 1 then a.plan.before else a.plan.after) then Some(SourceChanged)
    else if !w.readable.editor then Some(EditedStateUnavailable)
    else if w.edited then Some(EditedStateChanged)
    else if content && !(a.flags.writeStarted && a.flags.truncated && a.flags.synced && a.flags.contentReadback) then Some(IncompleteContentReceipt)
    else if !DiskIs(w, if content then a.plan.after else a.plan.before) then Some(DiskContentChanged)
    else if a.stage.Rank() >= 4 && (!a.flags.restored || w.mtime != a.plan.originalMtime) then Some(MtimeChanged)
    else None
  }

  /** The exact state in which stage `stage` of an attempt expects the three authorities: the
      bindings hold, nobody marked the resource as edited, saving would not rewrite either text. */
  predicate Predicted(stage: Stage, plan: Plan, frozen: int, w: World) {
    && w.attached && w.associated && w.profile == plan.profile
    && Preserved(plan.profile, plan.before) && Preserved(plan.profile, plan.after)
    && !w.edited && w.saved == plan.preparedSaved
    && w.current == (if stage == Prepared then plan.preparedCurrent else frozen)
    && w.buffer == (if stage == Prepared then plan.before else plan.after)
    && w.resource == (if stage.Rank() <= 1 then plan.before else plan.after)
    && w.disk == (if stage.Rank() <= 2 then plan.before else plan.after)
    && (stage.Rank() >= 4 ==> w.mtime == plan.originalMtime)
  }

  /** The guard admits a stage exactly when the session and expiry still hold, everything can be
      read, and all three authorities are what the stage predicts. */
  lemma GuardIsExact(state: CallState, session: nat, a: Attempt, w: World)
    requires a.Consistent() && WellFormed(a.plan)
    ensures GuardFault(state, session, a, w).None? <==>
              state == Idle && session == a.plan.session && w.tick < a.plan.expires && Readable(w) && Predicted(a.stage, a.plan, a.frozenCurrent, w)
  {
    hide Preserved;
  }

  /** Content receipts are complete at every stage that asks for them. */
  lemma ReceiptAlwaysComplete(state: CallState, session: nat, a: Attempt, w: World)
    requires a.Consistent()
    ensures GuardFault(state, session, a, w) != Some(IncompleteContentReceipt)
  {
    hide Preserved;
  }

  /** The state between removal and insertion: the buffer is empty by this very removal, and the
      other authorities are untouched. */
  predicate Emptied(plan: Plan, w: World) {
    && w.attached && w.associated && w.profile == plan.profile && !w.edited
    && w.buffer == "" && w.current == plan.preparedCurrent + 1 && w.saved == plan.preparedSaved
    && w.resource == plan.before && w.disk == plan.before
  }

  /** The check made on the stack of the removal, before the candidate is inserted. */
  function AfterRemove(state: CallState, session: nat, plan: Plan, w: World): Option<Reason> {
    if state != Running || session != plan.session || w.tick >= plan.expires then Some(CancelledOrExpiredDuringEdit)
    else if !w.attached || !DiskIs(w, plan.before) then Some(DiskOrNamespaceChanged)
    else if !w.associated then Some(DocumentAssociationChanged)
    else if !w.readable.editor || w.edited then Some(EditedStateChanged)
    else if !w.readable.profile || w.profile != plan.profile then Some(SaveProfileChanged)
    else if !w.readable.versions || w.current != plan.preparedCurrent + 1 || w.saved != plan.preparedSaved
         || !w.readable.texts || w.buffer != "" || w.resource != plan.before then Some(IntermediateSourceOrVersionChanged)
    else None
  }

  lemma AfterRemoveIsExact(state: CallState, session: nat, plan: Plan, w: World)
    ensures AfterRemove(state, session, plan, w).None? <==>
              state == Running && session == plan.session && w.tick < plan.expires && Readable(w) && Emptied(plan, w)
    ensures AfterRemove(state, session, plan, w) != Some(IncompleteContentReceipt)
  {
  }

  // ---- the trace of entered effects ----

  /** One effect, with the plan of the attempt that entered it and the world it was entered in. */
  datatype Entry = Entry(effect: Effect, plan: Plan, frozen: int, world: World)

  function StageOf(effect: Effect): Stage {
    match effect
    case Remove => Prepared
    case Insert => Prepared
    case SetSource => Buffer
    case Write => Resource
    case Restore => Content
    case ClearEdited => Metadata
    case TagSaved => Edited
  }

  predicate Justified(e: Entry) {
    if e.effect == Insert then Emptied(e.plan, e.world) else Predicted(StageOf(e.effect), e.plan, e.frozen, e.world)
  }

  const ORDER: seq<Effect> := [Remove, Insert, SetSource, Write, Restore, ClearEdited, TagSaved]

  /** How many effects an attempt has entered when it waits in a stage. */
  function Entered(stage: Stage): nat {
    if stage == Prepared then 0 else stage.Rank() + 1
  }

  /** The effects attempt `serial` entered, in order. */
  function Effects(trace: seq<Entry>, serial: nat): seq<Effect> {
    if trace == [] then []
    else
      var last := trace[|trace| - 1];
      Effects(trace[..|trace| - 1], serial) + if last.plan.serial == serial then [last.effect] else []
  }

  lemma EffectsStep(trace: seq<Entry>, e: Entry, serial: nat)
    ensures Effects(trace + [e], serial) == Effects(trace, serial) + if e.plan.serial == serial then [e.effect] else []
  {
    assert (trace + [e])[..|trace|] == trace;
  }

  lemma {:induction false} NoEffects(trace: seq<Entry>, serial: nat)
    requires forall e | e in trace :: e.plan.serial < serial
    ensures Effects(trace, serial) == []
  {
    if trace != [] {
      NoEffects(trace[..|trace| - 1], serial);
    }
  }

  /** Every effect was entered in the state predicted for it, and every attempt entered a prefix
      of the one plan. */
  ghost predicate Disciplined(trace: seq<Entry>, serials: nat) {
    && (forall e | e in trace :: Justified(e) && e.plan.serial < serials)
    && (forall s: nat :: Effects(trace, s) <= ORDER)
  }

  lemma Enter(trace: seq<Entry>, serials: nat, e: Entry)
    requires Disciplined(trace, serials) && Justified(e) && e.plan.serial < serials
    requires |Effects(trace, e.plan.serial)| < |ORDER| && e.effect == ORDER[|Effects(trace, e.plan.serial)|]
    ensures Disciplined(trace + [e], serials)
    ensures |Effects(trace + [e], e.plan.serial)| == |Effects(trace, e.plan.serial)| + 1
  {
    hide Justified, Effects;
    forall s: nat
      ensures Effects(trace + [e], s) <= ORDER
    {
      EffectsStep(trace, e, s);
    }
    EffectsStep(trace, e, e.plan.serial);
  }

  /** The trace facts that hold while an attempt owns the slot. */
  ghost predicate Owned(a: Attempt, session: nat, serials: nat, trace: seq<Entry>) {
    && Disciplined(trace, serials)
    && a.plan.serial < serials && a.plan.session == session != 0 && WellFormed(a.plan)
    && (Progress(a.plan, trace) > 0 ==> a.flags.bufferChanged)
  }

  /** The trace grew by effects of one attempt. */
  ghost predicate Extends(had: seq<Entry>, trace: seq<Entry>, serial: nat) {
    had <= trace && forall s: nat | s != serial :: Effects(trace, s) == Effects(had, s)
  }

  lemma ExtendsItself(trace: seq<Entry>, serial: nat)
    ensures Extends(trace, trace, serial)
  {
  }

  ghost function Progress(plan: Plan, trace: seq<Entry>): nat {
    |Effects(trace, plan.serial)|
  }

  lemma OwnedEnter(a: Attempt, session: nat, serials: nat, trace: seq<Entry>, e: Entry)
    requires Owned(a, session, serials, trace) && Justified(e) && a.plan == e.plan && a.flags.bufferChanged
    requires Progress(a.plan, trace) < |ORDER| && e.effect == ORDER[Progress(a.plan, trace)]
    ensures Owned(a, session, serials, trace + [e])
    ensures Extends(trace, trace + [e], a.plan.serial)
    ensures Progress(a.plan, trace + [e]) == Progress(a.plan, trace) + 1
  {
    hide Justified;
    Enter(trace, serials, e);
    forall s: nat { EffectsStep(trace, e, s); }
  }

  /** Flags and stage may move on as long as the plan stays and nothing is un-flagged. */
  lemma OwnedMove(a: Attempt, b: Attempt, session: nat, serials: nat, trace: seq<Entry>)
    requires Owned(a, session, serials, trace) && a.plan == b.plan && (a.flags.bufferChanged ==> b.flags.bufferChanged)
    ensures Owned(b, session, serials, trace)
  {
  }

  /** The three authorities agree, and nothing is left marked as modified. */
  predicate Finished(plan: Plan, frozen: int, w: World) {
    && w.disk == w.resource == w.buffer == plan.after
    && w.mtime == plan.originalMtime
    && w.saved == w.current == frozen
    && !w.edited && !w.unsaved && w.attached && w.associated
  }

  /** The last sample, taken after the buffer was tagged. */
  predicate TaggedAsPlanned(plan: Plan, frozen: int, w: World) {
    && w.readable.versions && w.current == frozen && w.saved == w.current
    && w.readable.texts && w.buffer == plan.after && w.resource == plan.after
    && w.readable.editor && !w.edited
    && w.mtime == plan.originalMtime
    && DiskIs(w, plan.after) && w.attached && !w.unsaved
  }

  lemma TaggedIsFinished(plan: Plan, frozen: int, w: World)
    requires w.associated
    ensures TaggedAsPlanned(plan, frozen, w) ==> Finished(plan, frozen, w)
  {
  }

  lemma CalmlyTagged(plan: Plan, frozen: int, w: World)
    requires Predicted(Edited, plan, frozen, w) && Readable(w) && !w.unsaved
    ensures TaggedAsPlanned(plan, frozen, w.(saved := w.current)) && w.associated
  {
  }

  /** What a stage does to the world when nobody interferes. */
  function Applied(stage: Stage, plan: Plan, w: World): World {
    match stage
    case Prepared => w.(buffer := plan.after, current := w.current + 2)
    case Buffer => w.(resource := plan.after)
    case Resource => w.(disk := plan.after)
    case Content => w.(mtime := plan.originalMtime)
    case Metadata => w.(edited := false)
    case Edited => w.(saved := w.current)
    case Tagged => w
  }

  function Next(stage: Stage): Stage {
    match stage
    case Prepared => Buffer
    case Buffer => Resource
    case Resource => Content
    case Content => Metadata
    case Metadata => Edited
    case _ => Tagged
  }

  /** What a client asks for; the booleans stand for checks on argument types, on the source
      bytes, on the correlation record, and on the identifiers the sources load. */
  datatype Request = Request(
    original: string,
    desired: string,
    expires: nat,
    expectedVersion: int,
    arguments: bool,
    supported: bool,
    binding: bool,
    inert: bool)

  const NO_CLOCK: nat := 0xFFFF_FFFF_FFFF_FFFF

  function NewAttempt(request: Request, serial: nat, session: nat, w: World): Attempt {
    Attempt(Plan(serial, session, request.original, request.desired, request.expires, w.current, w.saved, w.profile, w.mtime),
            Prepared, 0, UNTOUCHED, 0)
  }

  function PrepareFault(request: Request, w: World): Option<Reason> {
    if !request.arguments || |request.original| > SOURCE_LIMIT || |request.desired| > SOURCE_LIMIT then Some(InvalidArguments)
    else if request.original == request.desired || !request.supported then Some(UnsupportedSource)
    else if w.tick == NO_CLOCK || request.expires <= w.tick || request.expires - w.tick > EXPIRY_LIMIT || !request.binding
    then Some(InvalidBinding)
    else if !w.associated then Some(DocumentMismatch)
    else if !request.inert then Some(UnsafeEditorEffects)
    else if !w.readable.editor then Some(EditedStateUnavailable)
    else if w.edited || w.unsaved then Some(Dirty)
    else if !w.attached then Some(NamespaceOrDescriptorChanged)
    else if !DiskIs(w, request.original) then Some(DiskContentChanged)
    else if !w.readable.profile then Some(SourceUnavailable)
    else if !Preserved(w.profile, request.original) || !Preserved(w.profile, request.desired) then Some(SaveWouldReformat)
    else if !w.readable.texts || w.buffer != request.original || w.resource != request.original || !w.readable.versions
         || w.current < 0 || w.current != w.saved || w.current != request.expectedVersion then Some(DirtyOrChanged)
    else None
  }

  /** A request is admitted exactly when it is well formed and timely and all three authorities
      hold the clean original text at the expected version. */
  predicate Admits(request: Request, w: World) {
    && request.arguments && request.supported && request.binding && request.inert
    && |request.original| <= SOURCE_LIMIT && |request.desired| <= SOURCE_LIMIT && request.original != request.desired
    && w.tick < request.expires <= w.tick + EXPIRY_LIMIT && w.tick != NO_CLOCK
    && Readable(w) && w.attached && w.associated && !w.edited && !w.unsaved
    && w.disk == w.resource == w.buffer == request.original
    && w.current == w.saved == request.expectedVersion >= 0
    && Preserved(w.profile, request.original) && Preserved(w.profile, request.desired)
  }

  lemma PrepareIsExact(request: Request, w: World)
    ensures PrepareFault(request, w).None? <==> Admits(request, w)
    ensures PrepareFault(request, w) != Some(IncompleteContentReceipt)
  {
    hide Preserved;
  }

  /** An admitted request makes a well-formed attempt whose first stage finds what it predicts. */
  lemma NewIsWellFormed(request: Request, serial: nat, session: nat, w: World)
    requires Admits(request, w)
    ensures var a := NewAttempt(request, serial, session, w);
            && a.Consistent() && WellFormed(a.plan) && Predicted(Prepared, a.plan, 0, w)
            && a.plan.serial == serial && a.plan.session == session && a.plan.expires == request.expires
            && a.stage == Prepared && a.frozenCurrent == 0
  {
    hide Preserved;
  }

  lemma StartOwned(a: Attempt, session: nat, serials: nat, trace: seq<Entry>)
    requires Disciplined(trace, serials) && a.plan.serial == serials && a.plan.session == session != 0 && WellFormed(a.plan)
    ensures Owned(a, session, serials + 1, trace) && Progress(a.plan, trace) == 0
  {
    NoEffects(trace, serials);
  }

  /** What every stage promises about the reply it is going to finish with. */
  ghost predicate Staged(stage: Stage, a: Attempt, trace: seq<Entry>, w: World, r: Reply) {
    && (r.status == Ready ==> a.Consistent() && a.stage == Next(stage) && Progress(a.plan, trace) == Entered(a.stage))
    && (r.status == Complete ==>
          stage == Edited && Finished(a.plan, a.frozenCurrent, w) && Progress(a.plan, trace) == |ORDER|)
    && (r.status == Refused ==> a.FailureStatus() == Refused && Progress(a.plan, trace) == 0)
    && (r.status == Ready || r.status == Complete || r.status == Refused || r.status == Partial)
    && (r.status != Refused ==> a.flags.bufferChanged)
    && Entered(stage) <= Progress(a.plan, trace) <= Entered(Next(stage))
    && r.reason != IncompleteContentReceipt
  }

  lemma PartialStaged(stage: Stage, a: Attempt, trace: seq<Entry>, w: World, reason: Reason)
    requires a.flags.bufferChanged && Entered(stage) <= Progress(a.plan, trace) <= Entered(Next(stage)) && reason != IncompleteContentReceipt
    ensures Staged(stage, a, trace, w, Reply(Partial, reason))
  {
  }

  lemma CompleteStaged(a: Attempt, trace: seq<Entry>, w: World)
    requires a.flags.bufferChanged && Progress(a.plan, trace) == |ORDER| && Finished(a.plan, a.frozenCurrent, w)
    ensures Staged(Edited, a, trace, w, Reply(Complete, Nothing))
  {
    hide Finished, Effects;
  }

  lemma PredictedFacts(stage: Stage, plan: Plan, frozen: int, w: World)
    requires Predicted(stage, plan, frozen, w)
    ensures w.associated && w.saved == plan.preparedSaved && !w.edited && w.attached
    ensures w.current == (if stage == Prepared then plan.preparedCurrent else frozen)
    ensures w.buffer == (if stage == Prepared then plan.before else plan.after)
    ensures w.resource == (if stage.Rank() <= 1 then plan.before else plan.after)
    ensures w.disk == (if stage.Rank() <= 2 then plan.before else plan.after)
    ensures stage.Rank() >= 4 ==> w.mtime == plan.originalMtime
  {
  }

  /** The flags the last three stages leave are the ones the next stage expects. */
  lemma MarkedConsistent(a: Attempt)
    requires a.Consistent() && a.stage.Rank() >= 3
    ensures a.flags.bufferChanged
    ensures a.stage == Content ==>
              a.(stage := Metadata, flags := a.flags.(futimensCalled := true, restored := true)).Consistent()
    ensures a.stage == Metadata ==>
              a.(stage := Edited, flags := a.flags.(editedClearAttempted := true, editedCleared := true)).Consistent()
  {
  }

  lemma PersistedConsistent(a: Attempt)
    requires a.stage == Resource && a.Consistent()
    ensures a.flags.bufferChanged
    ensures a.(stage := Content, written := |a.plan.after|,
               flags := a.flags.(writeStarted := true, truncated := true, synced := true, contentReadback := true)).Consistent()
  {
  }

  lemma JustifyStage(effect: Effect, plan: Plan, frozen: int, w: World)
    requires effect != Insert && Predicted(StageOf(effect), plan, frozen, w)
    ensures Justified(Entry(effect, plan, frozen, w))
  {
  }

  lemma JustifyInsert(plan: Plan, frozen: int, w: World)
    requires Emptied(plan, w)
    ensures Justified(Entry(Insert, plan, frozen, w))
  {
  }

  lemma CalmStep(env: Env, k: nat, w: World)
    ensures env.Calm() ==> env.interfere(k, w) == w && !env.closes(k) && env.survives(k) && env.succeeds(k) && env.io(k) == []
  {
  }

  /** The editor between two operations. */
  datatype View = View(world: World, turn: nat, session: nat, owner: Option<Attempt>, serials: nat, trace: seq<Entry>)

  /** What one request to run a stage does. A request that names another attempt or stage does nothing,
      and a document that fails the guard ends the attempt with nothing entered. */
  ghost predicate Advanced(env: Env, request: nat, stage: Stage, s: View, r: Reply, t: View) {
    if s.owner.None? || request != s.owner.value.plan.serial || stage != s.owner.value.stage then
      r == Reply(Refused, WrongAttemptOrStage) && t == s
    else
      var fault := GuardFault(Idle, s.session, s.owner.value, s.world);
      if fault.Some? then r == Reply(s.owner.value.FailureStatus(), fault.value) && t == s.(owner := None)
      else Ran(env, stage, s.owner.value, s, r, t)
  }

  /** A stage that ran: it entered effects of its own stage only, and all of them if it says so. */
  ghost predicate Ran(env: Env, stage: Stage, a: Attempt, s: View, r: Reply, t: View) {
    && t.serials == s.serials && (t.session == s.session || (t.session == 0 && t.owner.None?))
    && Extends(s.trace, t.trace, a.plan.serial) && stage != Tagged
    && Entered(stage) <= Progress(a.plan, t.trace) <= Entered(Next(stage))
    && (r.status == Ready || r.status == Complete || r.status == Partial || r.status == Refused)
    && (r.status == Ready <==> t.owner.Some?)
    && (r.status == Ready ==>
          && t.owner.value.plan == a.plan && t.owner.value.stage == Next(stage) && t.session == s.session
          && t.owner.value.frozenCurrent == (if stage == Prepared then t.world.current else a.frozenCurrent)
          && Progress(a.plan, t.trace) == Entered(Next(stage)))
    && (r.status == Complete ==>
          stage == Edited && Finished(a.plan, a.frozenCurrent, t.world) && Progress(a.plan, t.trace) == |ORDER|)
    && (r.status == Refused ==> Progress(a.plan, t.trace) == 0)
    && (env.Calm() && !s.world.unsaved ==>
          t.world == Applied(stage, a.plan, s.world) && t.session == s.session && r.status == (if stage == Edited then Complete else Ready))
  }

  /** What one request to prepare an attempt does: a new attempt takes the slot exactly when the slot was
      free, the request was admitted and the last sample still holds what the attempt was prepared for. */
  ghost predicate Began(env: Env, request: Request, s: View, r: Reply, t: View) {
    && (t.world == s.world || t.world == env.interfere(s.turn, s.world))
    && t.trace == s.trace && t.session == s.session
    && (r.status == AttemptPrepared <==>
          && s.owner.None? && s.session != 0 && Admits(request, s.world)
          && t.world == env.interfere(s.turn, s.world) && t.world.tick < request.expires && Readable(t.world)
          && Predicted(Prepared, NewAttempt(request, s.serials, s.session, s.world).plan, 0, t.world))
    && (if r.status == AttemptPrepared
        then t.owner == Some(NewAttempt(request, s.serials, s.session, s.world)) && t.serials == s.serials + 1
        else t.owner == s.owner && t.serials == s.serials && (r.status == Refused || r.status == Busy))
  }

  class Editor {
    const env: Env
    var world: World
    var turn: nat
    var state: CallState
    var session: nat
    var owner: Option<Attempt>
    var serials: nat
    var trace: seq<Entry>

    ghost predicate Valid()
      reads this`state, this`session, this`owner, this`serials, this`trace
    {
      && Disciplined(trace, serials)
      && (owner.Some? ==> Owned(owner.value, session, serials, trace))
      && (state == Idle && owner.Some? ==>
            owner.value.Consistent() && Progress(owner.value.plan, trace) == Entered(owner.value.stage))
    }

    function Seen(): View
      reads this
    {
      View(world, turn, session, owner, serials, trace)
    }

    /** A stage is on the stack: an attempt owns the slot. */
    ghost predicate Acting()
      reads this`session, this`owner, this`serials, this`trace
    {
      owner.Some? && Owned(owner.value, session, serials, trace)
    }

    twostate predicate Kept()
      reads this
    {
      && old(owner).Some? && owner.Some? && old(owner).value.plan == owner.value.plan
      && Extends(old(trace), trace, owner.value.plan.serial)
    }

    constructor (env: Env, world: World, session: nat)
      ensures Valid() && this.env == env && this.world == world && this.session == session
      ensures state == Idle && owner == None && serials == 0 && trace == [] && turn == 0
    {
      this.env, this.world, this.session := env, world, session;
      turn, state, owner, serials, trace := 0, Idle, None, 0, [];
    }

    /** An engine or system call that lets others run: the world it leaves is what they made of it. */
    method Call(nominal: World) returns (alive: bool)
      modifies this`world, this`turn, this`state
      ensures world == env.interfere(old(turn), nominal)
      ensures state == if env.closes(old(turn)) then Closing else old(state)
      ensures alive == env.survives(old(turn))
      ensures turn == old(turn) + 1
      ensures env.Calm() ==> world == nominal && state == old(state) && alive
    {
      CalmStep(env, turn, nominal);
      world := env.interfere(turn, nominal);
      if env.closes(turn) { state := Closing; }
      alive := env.survives(turn);
      turn := turn + 1;
    }

    method Ask() returns (ok: bool)
      modifies this`turn
      ensures ok == env.succeeds(old(turn)) && turn == old(turn) + 1
      ensures env.Calm() ==> ok
    {
      ok := env.succeeds(turn);
      turn := turn + 1;
    }

    /** Notes an effect at the moment it is entered. */
    method Enters(effect: Effect)
      requires Acting() && owner.value.flags.bufferChanged
      requires Progress(owner.value.plan, trace) < |ORDER| && effect == ORDER[Progress(owner.value.plan, trace)]
      requires Justified(Entry(effect, owner.value.plan, owner.value.frozenCurrent, world))
      modifies this`trace
      ensures Acting() && Extends(old(trace), trace, owner.value.plan.serial)
      ensures Progress(owner.value.plan, trace) == Progress(owner.value.plan, old(trace)) + 1
    {
      hide Justified, Owned;
      OwnedEnter(owner.value, session, serials, trace, Entry(effect, owner.value.plan, owner.value.frozenCurrent, world));
      trace := trace + [Entry(effect, owner.value.plan, owner.value.frozenCurrent, world)];
    }

    /** Moves the owner's bookkeeping on. */
    method Becomes(a: Attempt)
      requires Acting() && a.plan == owner.value.plan && (owner.value.flags.bufferChanged ==> a.flags.bufferChanged)
      modifies this`owner
      ensures Acting() && owner == Some(a)
      ensures Progress(a.plan, trace) == Progress(old(owner).value.plan, trace)
    {
      hide Owned, Progress;
      OwnedMove(owner.value, a, session, serials, trace);
      owner := Some(a);
    }

    /** Empties the buffer, then checks that nothing but this removal happened. */
    method RemoveText() returns (r: Option<Reply>)
      requires Acting() && state == Running && owner.value.flags.bufferChanged
      requires Progress(owner.value.plan, trace) == 0 && Predicted(Prepared, owner.value.plan, owner.value.frozenCurrent, world)
      modifies this`world, this`turn, this`state, this`trace
      ensures Acting() && Kept()
      ensures Progress(owner.value.plan, trace) <= 1
      ensures r.None? ==> state == Running && Emptied(owner.value.plan, world) && Progress(owner.value.plan, trace) == 1
      ensures r.Some? ==> r.value.status == Partial && r.value.reason != IncompleteContentReceipt
      ensures env.Calm() && Readable(old(world)) && old(world).tick < owner.value.plan.expires ==>
                r.None? && world == old(world).(buffer := "", current := old(world).current + 1)
    {
      hide Owned, Preserved, Justified, Env.Calm, Progress, Emptied, AfterRemove;
      var plan := owner.value.plan;
      JustifyStage(Remove, plan, owner.value.frozenCurrent, world);
      NominallyEmptied(plan, owner.value.frozenCurrent, world);
      hide Predicted;
      var alive := Begin();
      if !alive { return Some(Reply(Partial, DocumentClosedDuringEdit)); }
      if state == Closing { return Some(Reply(Partial, CancelledDuringEdit)); }
      Enters(Remove);
      var empty := world.(buffer := "", current := world.current + 1);
      alive := Call(empty);
      if !alive { return Some(Reply(Partial, DocumentClosedDuringEdit)); }
      var fault := AfterRemove(state, session, plan, world);
      AfterRemoveIsExact(state, session, plan, world);
      if fault.Some? {
        OwnedSession(owner.value, session, serials, trace);
        alive := Call(world);
        return Some(Reply(Partial, fault.value));
      }
      return None;
    }

    /** Opening the history bracket runs no document callback, but the session may be closed. */
    method Begin() returns (alive: bool)
      modifies this`turn, this`state
      ensures state == if env.closes(old(turn)) then Closing else old(state)
      ensures turn == old(turn) + 1
      ensures env.Calm() ==> state == old(state) && alive
    {
      if env.closes(turn) { state := Closing; }
      alive := env.survives(turn);
      turn := turn + 1;
    }

    /** Inserts the candidate and closes the history bracket. */
    method InsertText() returns (r: Option<Reply>)
      requires Acting() && owner.value.flags.bufferChanged
      requires Progress(owner.value.plan, trace) == 1 && Emptied(owner.value.plan, world)
      modifies this`world, this`turn, this`state, this`trace
      ensures Acting() && Kept() && Progress(owner.value.plan, trace) == 2
      ensures r.Some? ==> r.value.status == Partial && r.value.reason != IncompleteContentReceipt
      ensures env.Calm() ==>
                r.None? && state == old(state) &&
                world == old(world).(buffer := owner.value.plan.after, current := old(world).current + 1)
    {
      hide Owned, Justified, Env.Calm, Progress, Emptied;
      JustifyInsert(owner.value.plan, owner.value.frozenCurrent, world);
      Enters(Insert);
      var alive := Call(world.(buffer := owner.value.plan.after, current := world.current + 1));
      if !alive { return Some(Reply(Partial, DocumentClosedDuringEdit)); }
      alive := Call(world);
      return None;
    }

    /** Reads the buffer back and freezes the version that the later stages will expect. */
    method ReadBack() returns (r: Reply)
      requires Acting()
      modifies this`owner
      ensures Acting() && Kept() && Progress(owner.value.plan, trace) == Progress(old(owner).value.plan, trace)
      ensures owner.value == old(owner).value.(frozenCurrent := owner.value.frozenCurrent)
      ensures r.status == Partial || r.status == Ready
      ensures r.status == Ready ==>
                owner.value.frozenCurrent == world.current > owner.value.plan.preparedCurrent
                && world.buffer == owner.value.plan.after
      ensures r.reason != IncompleteContentReceipt
      ensures (&& world.associated && world.readable.versions && world.readable.texts
               && world.current > owner.value.plan.preparedCurrent
               && world.saved == owner.value.plan.preparedSaved && world.buffer == owner.value.plan.after) ==> r.status == Ready
    {
      hide Owned, Progress;
      if !world.associated { return Reply(Partial, DocumentAssociationChanged); }
      if !world.readable.versions { return Reply(Partial, BufferReadbackFailed); }
      Becomes(owner.value.(frozenCurrent := world.current));
      if world.current <= owner.value.plan.preparedCurrent || world.saved != owner.value.plan.preparedSaved
         || !world.readable.texts || world.buffer != owner.value.plan.after {
        return Reply(Partial, BufferReadbackFailed);
      }
      return Reply(Ready, Nothing);
    }

    /** Removal and insertion form one history entry; the candidate goes only into the buffer the
        removal itself emptied. */
    method ApplyBuffer() returns (r: Reply)
      requires Acting() && state == Running && owner.value.Consistent() && owner.value.stage == Prepared
      requires Progress(owner.value.plan, trace) == 0 && Predicted(Prepared, owner.value.plan, owner.value.frozenCurrent, world)
      modifies this`world, this`turn, this`state, this`owner, this`trace
      ensures Acting() && Kept() && Staged(Prepared, owner.value, trace, world, r)
      ensures r.status == Ready ==> owner.value.frozenCurrent == world.current
      ensures env.Calm() && Readable(old(world)) && old(world).tick < owner.value.plan.expires ==>
                r.status == Ready && state == Running && world == Applied(Prepared, owner.value.plan, old(world))
    {
      hide Owned, Preserved, Env.Calm, Progress, Emptied;
      PredictedFacts(Prepared, owner.value.plan, owner.value.frozenCurrent, world);
      hide Predicted;
      var lines := Ask();
      if !lines { return Reply(Refused, InvalidBuffer); }
      Becomes(owner.value.(flags := owner.value.flags.(bufferChanged := true)));
      var removed := RemoveText();
      if removed.Some? { return removed.value; }
      var inserted := InsertText();
      if inserted.Some? { return inserted.value; }
      Becomes(owner.value.(stage := Buffer));
      r := ReadBack();
    }

    /** Sets the source of the loaded resource. */
    method ApplyResource() returns (r: Reply)
      requires Acting() && owner.value.Consistent() && owner.value.stage == Buffer
      requires Progress(owner.value.plan, trace) == Entered(Buffer)
      requires Predicted(Buffer, owner.value.plan, owner.value.frozenCurrent, world)
      modifies this`world, this`turn, this`state, this`owner, this`trace
      ensures Acting() && Kept() && Staged(Buffer, owner.value, trace, world, r)
      ensures owner.value.frozenCurrent == old(owner).value.frozenCurrent
      ensures env.Calm() && Readable(old(world)) ==>
                r.status == Ready && state == old(state) && world == Applied(Buffer, owner.value.plan, old(world))
    {
      hide Owned, Preserved, Env.Calm, Progress, Justified, Extends;
      ExtendsItself(trace, owner.value.plan.serial);
      PredictedFacts(Buffer, owner.value.plan, owner.value.frozenCurrent, world);
      JustifyStage(SetSource, owner.value.plan, owner.value.frozenCurrent, world);
      hide Predicted;
      Becomes(owner.value.(flags := owner.value.flags.(resourceChanged := true)));
      Enters(SetSource);
      var _ := Call(world.(resource := owner.value.plan.after));
      Becomes(owner.value.(stage := Resource));
      if !world.associated { return Reply(Partial, DocumentAssociationChanged); }
      if !world.readable.texts || world.resource != owner.value.plan.after {
        return Reply(Partial, ResourceReadbackFailed);
      }
      return Reply(Ready, Nothing);
    }

    /** Writes, truncates, flushes and reads back the file. */
    method Persist() returns (r: Reply)
      requires Acting() && owner.value.Consistent() && owner.value.stage == Resource
      requires Progress(owner.value.plan, trace) == Entered(Resource)
      requires Predicted(Resource, owner.value.plan, owner.value.frozenCurrent, world)
      modifies this`world, this`turn, this`state, this`owner, this`trace
      ensures Acting() && Kept() && Staged(Resource, owner.value, trace, world, r)
      ensures owner.value.frozenCurrent == old(owner).value.frozenCurrent
      ensures env.Calm() && Readable(old(world)) ==>
                r.status == Ready && state == old(state) && world == Applied(Resource, owner.value.plan, old(world))
    {
      hide Owned, Preserved, Env.Calm, Progress, Justified, Extends;
      ExtendsItself(trace, owner.value.plan.serial);
      PredictedFacts(Resource, owner.value.plan, owner.value.frozenCurrent, world);
      hide Predicted;
      PersistedConsistent(owner.value);
      hide Attempt.Consistent;
      StartWrite();
      var stored := Store();
      if stored.Some? { return stored.value; }
      var same := ReadStored();
      return if same then Reply(Ready, Nothing) else Reply(Partial, PreadOrNamespaceChanged);
    }

    method StartWrite()
      requires Acting() && owner.value.flags.bufferChanged && Progress(owner.value.plan, trace) == Entered(Resource)
      requires Predicted(Resource, owner.value.plan, owner.value.frozenCurrent, world)
      modifies this`owner, this`trace
      ensures Acting() && Kept() && Progress(owner.value.plan, trace) == Entered(Content)
      ensures owner.value == old(owner).value.(flags := old(owner).value.flags.(writeStarted := true))
    {
      hide Owned, Progress, Justified, Extends, Predicted;
      JustifyStage(Write, owner.value.plan, owner.value.frozenCurrent, world);
      Becomes(owner.value.(flags := owner.value.flags.(writeStarted := true)));
      Enters(Write);
    }

    /** Reads the file back after the flush, at a moment when others may have written it. */
    method ReadStored() returns (same: bool)
      requires Acting() && owner.value.flags.bufferChanged
      modifies this`world, this`turn, this`state, this`owner
      ensures Acting() && Kept() && owner.value.flags.bufferChanged
      ensures owner.value.frozenCurrent == old(owner).value.frozenCurrent
      ensures Progress(owner.value.plan, trace) == Progress(old(owner).value.plan, old(trace))
      ensures same ==>
                owner.value == old(owner).value.(stage := Content, flags := old(owner).value.flags.(contentReadback := true))
      ensures env.Calm() ==>
                state == old(state) && world == old(world) &&
                (DiskIs(world, owner.value.plan.after) && world.attached ==> same)
    {
      hide Owned, Env.Calm, Progress, Extends, DiskIs;
      ExtendsItself(trace, owner.value.plan.serial);
      same := Reread(owner.value.plan.after);
      if same { Becomes(owner.value.(flags := owner.value.flags.(contentReadback := true), stage := Content)); }
    }

    method Reread(after: string) returns (same: bool)
      modifies this`world, this`turn, this`state
      ensures env.Calm() ==>
                state == old(state) && world == old(world) && (DiskIs(world, after) && world.attached ==> same)
    {
      hide Env.Calm, DiskIs;
      var _ := Call(world);
      same := DiskIs(world, after) && world.attached;
    }

    /** Write, truncate, flush. */
    method Store() returns (r: Option<Reply>)
      requires Acting() && owner.value.flags.bufferChanged
      modifies this`world, this`turn, this`owner
      ensures Acting() && Kept() && Progress(owner.value.plan, trace) == Progress(old(owner).value.plan, trace)
      ensures world == old(world).(disk := world.disk)
      ensures owner.value.flags.bufferChanged && owner.value.frozenCurrent == old(owner).value.frozenCurrent
      ensures r.Some? ==> r.value.status == Partial && r.value.reason != IncompleteContentReceipt
      ensures r.None? ==>
                world.disk == owner.value.plan.after &&
                owner.value == old(owner).value.(written := |owner.value.plan.after|,
                                                 flags := old(owner).value.flags.(truncated := true, synced := true))
      ensures env.Calm() ==> r.None?
    {
      hide Owned, Progress, Env.Calm, Overlay, Extends;
      ghost var original := world.disk;
      r := StoreBytes();
      if r.None? { r := Commit(original); }
    }

    /** The write loop: what is on disk is always a front of the candidate over the original. */
    method StoreBytes() returns (r: Option<Reply>)
      requires Acting()
      modifies this`world, this`turn, this`owner
      ensures Acting() && Kept() && Progress(owner.value.plan, trace) == Progress(old(owner).value.plan, trace)
      ensures world == old(world).(disk := world.disk)
      ensures owner.value == old(owner).value.(written := owner.value.written)
      ensures owner.value.written <= |owner.value.plan.after|
      ensures world.disk == Overlay(owner.value.plan.after, old(world).disk, owner.value.written)
      ensures r.None? ==> owner.value.written == |owner.value.plan.after|
      ensures r.Some? ==> r.value.status == Partial && r.value.reason != IncompleteContentReceipt
      ensures env.Calm() ==> r.None?
    {
      hide Owned, Progress, Env.Calm, Overlay;
      CalmStep(env, turn, world);
      var file, written, calls, error := WriteAll(world.disk, owner.value.plan.after, env.io(turn));
      turn := turn + 1;
      world := world.(disk := file);
      Becomes(owner.value.(written := written));
      if error.Some? { return Some(Reply(Partial, WriteFailed)); }
      return None;
    }

    /** Truncation and flush after a complete write: the file is exactly the candidate. */
    method Commit(ghost original: string) returns (r: Option<Reply>)
      requires Acting() && owner.value.flags.bufferChanged
      requires world.disk == Overlay(owner.value.plan.after, original, |owner.value.plan.after|)
      modifies this`world, this`turn, this`owner
      ensures Acting() && Kept() && Progress(owner.value.plan, trace) == Progress(old(owner).value.plan, trace)
      ensures world == old(world).(disk := world.disk)
      ensures r.Some? ==> r.value.status == Partial && r.value.reason != IncompleteContentReceipt
      ensures owner.value.flags.bufferChanged && owner.value.frozenCurrent == old(owner).value.frozenCurrent
      ensures r.None? ==>
                world.disk == owner.value.plan.after &&
                owner.value == old(owner).value.(flags := old(owner).value.flags.(truncated := true, synced := true))
      ensures env.Calm() ==> r.None?
    {
      hide Owned, Progress, Env.Calm, Overlay;
      var after := owner.value.plan.after;
      OverlayTruncated(after, original);
      var cut := Ask();
      if !cut { return Some(Reply(Partial, TruncateFailed)); }
      world := world.(disk := world.disk[..|after|]);
      Becomes(owner.value.(flags := owner.value.flags.(truncated := true)));
      var flushed := Ask();
      if !flushed { return Some(Reply(Partial, FsyncFailed)); }
      Becomes(owner.value.(flags := owner.value.flags.(synced := true)));
      return None;
    }

    /** Restores the modification time the file had when the attempt was prepared. */
    method RestoreTime() returns (r: Reply)
      requires Acting() && owner.value.Consistent() && owner.value.stage == Content
      requires Progress(owner.value.plan, trace) == Entered(Content)
      requires Predicted(Content, owner.value.plan, owner.value.frozenCurrent, world)
      modifies this`world, this`turn, this`state, this`owner, this`trace
      ensures Acting() && Kept() && Staged(Content, owner.value, trace, world, r)
      ensures owner.value.frozenCurrent == old(owner).value.frozenCurrent
      ensures env.Calm() && Readable(old(world)) ==>
                r.status == Ready && state == old(state) && world == Applied(Content, owner.value.plan, old(world))
    {
      hide Owned, Preserved, Env.Calm, Progress, Justified, Extends;
      ExtendsItself(trace, owner.value.plan.serial);
      PredictedFacts(Content, owner.value.plan, owner.value.frozenCurrent, world);
      JustifyStage(Restore, owner.value.plan, owner.value.frozenCurrent, world);
      hide Predicted;
      MarkedConsistent(owner.value);
      hide Attempt.Consistent;
      var plan := owner.value.plan;
      var sampled := Ask();
      if !sampled { return Reply(Partial, MetadataPreflightFailed); }
      Becomes(owner.value.(flags := owner.value.flags.(futimensCalled := true)));
      var stamped := Stamp();
      if !stamped { return Reply(Partial, MtimeRestoreFailed); }
      var observed := Ask();
      if !observed || world.mtime != plan.originalMtime || !DiskIs(world, plan.after) || !world.attached {
        return Reply(Partial, MtimeReadbackFailed);
      }
      Becomes(owner.value.(flags := owner.value.flags.(restored := true), stage := Metadata));
      return Reply(Ready, Nothing);
    }

    method Stamp() returns (ok: bool)
      requires Acting() && owner.value.flags.bufferChanged && Progress(owner.value.plan, trace) == Entered(Content)
      requires Justified(Entry(Restore, owner.value.plan, owner.value.frozenCurrent, world))
      modifies this`world, this`turn, this`state, this`trace
      ensures Acting() && Kept() && Progress(owner.value.plan, trace) == Entered(Metadata)
      ensures env.Calm() ==>
                ok && state == old(state) && world == old(world).(mtime := owner.value.plan.originalMtime)
    {
      hide Owned, Env.Calm, Progress, Justified, Extends;
      Enters(Restore);
      ok := Ask();
      if !ok { return; }
      var _ := Call(world.(mtime := owner.value.plan.originalMtime));
    }

    /** Clears the edited mark of the resource. */
    method ClearMark() returns (r: Reply)
      requires Acting() && owner.value.Consistent() && owner.value.stage == Metadata
      requires Progress(owner.value.plan, trace) == Entered(Metadata)
      requires Predicted(Metadata, owner.value.plan, owner.value.frozenCurrent, world)
      modifies this`world, this`turn, this`state, this`owner, this`trace
      ensures Acting() && Kept() && Staged(Metadata, owner.value, trace, world, r)
      ensures owner.value.frozenCurrent == old(owner).value.frozenCurrent
      ensures env.Calm() && Readable(old(world)) ==>
                r.status == Ready && state == old(state) && world == Applied(Metadata, owner.value.plan, old(world))
    {
      hide Owned, Preserved, Env.Calm, Progress, Justified, Extends;
      ExtendsItself(trace, owner.value.plan.serial);
      JustifyStage(ClearEdited, owner.value.plan, owner.value.frozenCurrent, world);
      hide Predicted;
      MarkedConsistent(owner.value);
      hide Attempt.Consistent;
      var editor := Ask();
      if !editor { return Reply(Partial, EditorUnavailable); }
      Becomes(owner.value.(flags := owner.value.flags.(editedClearAttempted := true)));
      Unmark();
      if !world.readable.editor || world.edited { return Reply(Partial, EditedReadbackFailed); }
      Becomes(owner.value.(flags := owner.value.flags.(editedCleared := true)));
      return Reply(Ready, Nothing);
    }

    method Unmark()
      requires Acting() && owner.value.flags.bufferChanged && Progress(owner.value.plan, trace) == Entered(Metadata)
      requires Justified(Entry(ClearEdited, owner.value.plan, owner.value.frozenCurrent, world))
      modifies this`world, this`turn, this`state, this`owner, this`trace
      ensures Acting() && Kept() && Progress(owner.value.plan, trace) == Entered(Edited)
      ensures owner.value == old(owner).value.(stage := Edited)
      ensures env.Calm() ==> state == old(state) && world == old(world).(edited := false)
    {
      hide Owned, Env.Calm, Progress, Justified, Extends;
      Enters(ClearEdited);
      var _ := Call(world.(edited := false));
      Becomes(owner.value.(stage := Edited));
    }

    /** Tags the buffer as saved, then samples all three authorities once more. */
    method TagVersion() returns (r: Reply)
      requires Acting() && owner.value.Consistent() && owner.value.stage == Edited
      requires Progress(owner.value.plan, trace) == Entered(Edited)
      requires Predicted(Edited, owner.value.plan, owner.value.frozenCurrent, world)
      modifies this`world, this`turn, this`state, this`owner, this`trace
      ensures Acting() && Kept() && Staged(Edited, owner.value, trace, world, r)
      ensures owner.value.frozenCurrent == old(owner).value.frozenCurrent
      ensures env.Calm() && Readable(old(world)) && !old(world).unsaved ==>
                r.status == Complete && state == old(state) && world == Applied(Edited, owner.value.plan, old(world))
      ensures r.status != Ready
    {
      hide Owned, Preserved, Env.Calm, Progress, Justified, TaggedAsPlanned, Finished, Extends, Predicted, Attempt.Consistent,
           Staged;
      if Readable(world) && !world.unsaved { CalmlyTagged(owner.value.plan, owner.value.frozenCurrent, world); }
      PredictedFacts(Edited, owner.value.plan, owner.value.frozenCurrent, world);
      MarkedConsistent(owner.value);
      Tag();
      r := Resample();
    }

    /** The last sample: everything must be as planned, with the buffer tagged as saved. */
    method Resample() returns (r: Reply)
      requires Acting() && owner.value.flags.bufferChanged && Progress(owner.value.plan, trace) == |ORDER|
      modifies this`turn, this`owner
      ensures Acting() && Kept() && Staged(Edited, owner.value, trace, world, r)
      ensures owner.value.frozenCurrent == old(owner).value.frozenCurrent
      ensures env.Calm() && world.associated && TaggedAsPlanned(owner.value.plan, owner.value.frozenCurrent, world) ==> r.status == Complete
      ensures r.status != Ready
    {
      hide Owned, Env.Calm, Progress, TaggedAsPlanned, Finished, Extends, Staged;
      var plan, frozen := owner.value.plan, owner.value.frozenCurrent;
      ExtendsItself(trace, plan.serial);
      PartialStaged(Edited, owner.value, trace, world, PostTagDocumentChanged);
      PartialStaged(Edited, owner.value, trace, world, PostTagUnverified);
      if !world.associated { return Reply(Partial, PostTagDocumentChanged); }
      var sampled := Ask();
      TaggedIsFinished(plan, frozen, world);
      if !sampled || !TaggedAsPlanned(plan, frozen, world) { return Reply(Partial, PostTagUnverified); }
      Becomes(owner.value.(flags := owner.value.flags.(tagged := true)));
      CompleteStaged(owner.value, trace, world);
      return Reply(Complete, Nothing);
    }

    /** Sets the saved version of the buffer. */
    method Tag()
      requires Acting() && owner.value.flags.bufferChanged && Progress(owner.value.plan, trace) == Entered(Edited)
      requires Predicted(Edited, owner.value.plan, owner.value.frozenCurrent, world)
      modifies this`world, this`turn, this`state, this`owner, this`trace
      ensures Acting() && Kept() && Progress(owner.value.plan, trace) == |ORDER|
      ensures owner.value == old(owner).value.(stage := Tagged, flags := old(owner).value.flags.(tagAttempted := true))
      ensures env.Calm() ==> state == old(state) && world == old(world).(saved := old(world).current)
    {
      hide Owned, Env.Calm, Progress, Justified, Extends, Predicted;
      JustifyStage(TagSaved, owner.value.plan, owner.value.frozenCurrent, world);
      Becomes(owner.value.(flags := owner.value.flags.(tagAttempted := true)));
      Enters(TagSaved);
      var _ := Call(world.(saved := world.current));
      Becomes(owner.value.(stage := Tagged));
    }

    method RunStage() returns (r: Reply)
      requires Acting() && state == Running && owner.value.Consistent()
      requires Progress(owner.value.plan, trace) == Entered(owner.value.stage)
      requires Predicted(owner.value.stage, owner.value.plan, owner.value.frozenCurrent, world)
      modifies this`world, this`turn, this`state, this`owner, this`trace
      ensures Acting() && Kept() && Staged(old(owner).value.stage, owner.value, trace, world, r)
      ensures r.status == Complete ==> owner.value.frozenCurrent == old(owner).value.frozenCurrent
      ensures r.status == Ready ==>
                owner.value.frozenCurrent == if old(owner).value.stage == Prepared then world.current else old(owner).value.frozenCurrent
      ensures env.Calm() && Readable(old(world)) && old(world).tick < owner.value.plan.expires && !old(world).unsaved ==>
                state == Running && world == Applied(old(owner).value.stage, owner.value.plan, old(world)) &&
                r.status == if old(owner).value.stage == Edited then Complete else Ready
    {
      hide Owned, Preserved, Env.Calm, Progress, Predicted, Finished;
      match owner.value.stage
      case Prepared => r := ApplyBuffer();
      case Buffer => r := ApplyResource();
      case Resource => r := Persist();
      case Content => r := RestoreTime();
      case Metadata => r := ClearMark();
      case Edited => r := TagVersion();
      case Tagged => assert false;
    }

    /** Turns a stage's result into the reply: a close that arrived meanwhile overrides it, and
        anything but `Ready` ends the attempt. */
    method Finish(r: Reply) returns (out: Reply)
      requires owner.Some?
      modifies this`owner
      ensures out == if state == Closing then Reply(old(owner).value.FailureStatus(), CancelledDuringStage) else r
      ensures owner == if out.status == Ready then old(owner) else None
    {
      out := if state == Closing then Reply(owner.value.FailureStatus(), CancelledDuringStage) else r;
      if out.status != Ready { owner := None; }
    }

    /** The outermost frame unwinds: a requested close takes effect now. */
    method Unwind()
      modifies this`state, this`session, this`owner
      ensures state == Idle
      ensures old(state) == Closing ==> session == 0 && owner == None
      ensures old(state) != Closing ==> session == old(session) && owner == old(owner)
    {
      var closing := state == Closing;
      state := Idle;
      if closing { session, owner := 0, None; }
    }

    /** One client request to run the stage it names. */
    method Advance(request: nat, stage: Stage) returns (r: Reply)
      requires Valid()
      modifies this
      ensures Valid() && r.reason != IncompleteContentReceipt
      ensures old(state) != Idle ==> r.status == Busy && state == old(state) && Seen() == old(Seen())
      ensures old(state) == Idle ==> state == Idle && Advanced(env, request, stage, old(Seen()), r, Seen())
    {
      hide Preserved, Env.Calm, Progress, Predicted, Finished, Disciplined, Staged, Applied, GuardFault, Readable,
           Attempt.Consistent, Ran, Extends;
      if state != Idle { return Reply(Busy, SlotBusy); }
      if owner.None? || request != owner.value.plan.serial || stage != owner.value.stage {
        return Reply(Refused, WrongAttemptOrStage);
      }
      ghost var a := owner.value;
      GuardIsExact(state, session, a, world);
      ReceiptAlwaysComplete(state, session, a, world);
      var fault := GuardFault(state, session, owner.value, world);
      if fault.Some? {
        FailureIsHonest(a, session, serials, trace);
        r := Finish(Reply(owner.value.FailureStatus(), fault.value));
        return;
      }
      r := RunToEnd();
    }

    /** Runs the stage the guard admitted and unwinds. */
    method RunToEnd() returns (r: Reply)
      requires Valid() && state == Idle && owner.Some?
      requires session == owner.value.plan.session && world.tick < owner.value.plan.expires && Readable(world)
      requires Predicted(owner.value.stage, owner.value.plan, owner.value.frozenCurrent, world)
      modifies this
      ensures Valid() && state == Idle && r.reason != IncompleteContentReceipt
      ensures Ran(env, old(owner).value.stage, old(owner).value, old(Seen()), r, Seen())
    {
      hide Preserved, Env.Calm, Progress, Predicted, Finished, Disciplined, Staged, Applied, GuardFault, Readable, Extends;
      state := Running;
      r := RunStage();
      EndsHonestly(old(owner).value.stage, owner.value, session, serials, trace, world, r);
      r := Finish(r);
      Unwind();
    }

    /** Binds an attempt to the document and file as they are now, then samples everything again. */
    method Prepare(request: Request) returns (r: Reply)
      requires Valid()
      modifies this`owner, this`serials, this`world, this`turn
      ensures Valid() && r.reason != IncompleteContentReceipt
      ensures old(state) != Idle ==> r.status == Busy && Seen() == old(Seen())
      ensures old(state) == Idle ==> Began(env, request, old(Seen()), r, Seen())
      ensures env.Calm() ==> world == old(world)
    {
      hide Preserved, Disciplined, Progress, Admits, GuardFault, Predicted, PrepareFault, Env.Calm, NewAttempt, Readable,
           WellFormed,
           Attempt.Consistent, Owned;
      if owner.Some? || state != Idle { return Reply(Busy, SlotBusy); }
      if session == 0 { return Reply(Refused, InvalidArguments); }
      var fault := PrepareFault(request, world);
      PrepareIsExact(request, world);
      if fault.Some? { return Reply(Refused, fault.value); }
      NewIsWellFormed(request, serials, session, world);
      r := Take(NewAttempt(request, serials, session, world));
    }

    /** Samples everything again and takes the slot when the sample still holds. */
    method Take(a: Attempt) returns (r: Reply)
      requires Valid() && state == Idle && owner.None? && session != 0
      requires a.Consistent() && WellFormed(a.plan) && a.plan.serial == serials && a.plan.session == session && a.stage == Prepared
      modifies this`owner, this`serials, this`world, this`turn
      ensures Valid() && r.reason != IncompleteContentReceipt
      ensures world == env.interfere(old(turn), old(world)) && (env.Calm() ==> world == old(world))
      ensures r.status == AttemptPrepared <==>
                world.tick < a.plan.expires && Readable(world) && Predicted(Prepared, a.plan, a.frozenCurrent, world)
      ensures if r.status == AttemptPrepared then owner == Some(a) && serials == old(serials) + 1
              else owner == old(owner) && serials == old(serials) && r.status == Refused
    {
      hide Preserved, Disciplined, Progress, GuardFault, Predicted, Env.Calm, Readable, WellFormed, Attempt.Consistent, Owned;
      CalmStep(env, turn, world);
      world := env.interfere(turn, world);
      turn := turn + 1;
      GuardIsExact(state, session, a, world);
      ReceiptAlwaysComplete(state, session, a, world);
      var fault := GuardFault(state, session, a, world);
      if fault.Some? { return Reply(Refused, fault.value); }
      StartOwned(a, session, serials, trace);
      owner, serials := Some(a), serials + 1;
      return Reply(AttemptPrepared, Nothing);
    }

    /** Cancels the attempt; while a stage is on the stack it only requests a close. */
    method Cancel(request: nat) returns (r: Reply)
      requires Valid()
      modifies this`owner, this`state
      ensures Valid()
      ensures old(owner).None? || request != old(owner).value.plan.serial ==>
                r == Reply(Refused, WrongAttempt) && owner == old(owner) && state == old(state)
      ensures old(owner).Some? && request == old(owner).value.plan.serial ==>
                if old(state) == Idle then owner.None? && state == Idle && r == Reply(old(owner).value.FailureStatus(), Cancelled)
                else owner == old(owner) && state == Closing && r == Reply(Partial, ClosingAfterActiveStage)
      ensures old(owner).Some? && owner.None? && r.status == Refused ==> Progress(old(owner).value.plan, trace) == 0
    {
      if owner.None? || request != owner.value.plan.serial { return Reply(Refused, WrongAttempt); }
      if state != Idle {
        state := Closing;
        return Reply(Partial, ClosingAfterActiveStage);
      }
      r := Reply(owner.value.FailureStatus(), Cancelled);
      owner := None;
    }

    /** Drops an attempt whose time is over; while a stage is on the stack it only requests a close. */
    method Expire() returns (due: bool)
      requires Valid()
      modifies this`owner, this`state
      ensures Valid()
      ensures due <==> old(owner).Some? && world.tick >= old(owner).value.plan.expires
      ensures !due ==> owner == old(owner) && state == old(state)
      ensures due && old(state) == Idle ==> owner.None? && state == Idle
      ensures due && old(state) != Idle ==> owner == old(owner) && state == Closing
    {
      if owner.None? || world.tick < owner.value.plan.expires { return false; }
      if state == Idle { owner := None; } else { state := Closing; }
      return true;
    }

    method CloseSession()
      requires Valid()
      modifies this`owner, this`state, this`session
      ensures Valid()
      ensures old(state) == Idle ==> owner.None? && session == 0 && state == Idle
      ensures old(state) != Idle ==> owner == old(owner) && session == old(session) && state == Closing
    {
      if state != Idle { state := Closing; return; }
      owner, session := None, 0;
    }

    method Configure(id: nat) returns (ok: bool)
      requires Valid()
      modifies this`owner, this`state, this`session
      ensures Valid()
      ensures ok <==> old(owner).None? && old(state) == Idle && id != 0
      ensures owner == old(owner) && state == old(state) && session == if ok then id else old(session)
    {
      if owner.Some? || state != Idle || id == 0 { return false; }
      session := id;
      return true;
    }
  }

  /** An attempt that would end as refused has entered nothing. */
  lemma FailureIsHonest(a: Attempt, session: nat, serials: nat, trace: seq<Entry>)
    requires Owned(a, session, serials, trace)
    ensures a.FailureStatus() == Refused ==> Progress(a.plan, trace) == 0
    ensures a.FailureStatus() == Refused || a.FailureStatus() == Partial
  {
  }

  lemma EndsHonestly(stage: Stage, a: Attempt, session: nat, serials: nat, trace: seq<Entry>, w: World, r: Reply)
    requires Owned(a, session, serials, trace) && Staged(stage, a, trace, w, r)
    ensures Disciplined(trace, serials)
    ensures a.FailureStatus() == Refused ==> Progress(a.plan, trace) == 0
    ensures a.FailureStatus() == Refused || a.FailureStatus() == Partial
    ensures r.status == Refused ==> Progress(a.plan, trace) == 0
    ensures r.status == Ready ==> a.Consistent() && a.stage == Next(stage) && Progress(a.plan, trace) == Entered(a.stage)
    ensures r.status == Complete ==> stage == Edited && Finished(a.plan, a.frozenCurrent, w) && Progress(a.plan, trace) == |ORDER|
    ensures Entered(stage) <= Progress(a.plan, trace) <= Entered(Next(stage))
    ensures r.status == Ready || r.status == Complete || r.status == Refused || r.status == Partial
    ensures r.reason != IncompleteContentReceipt
  {
  }

  lemma OwnedSession(a: Attempt, session: nat, serials: nat, trace: seq<Entry>)
    requires Owned(a, session, serials, trace)
    ensures a.plan.session == session
  {
  }

  lemma NominallyEmptied(plan: Plan, frozen: int, w: World)
    requires Predicted(Prepared, plan, frozen, w)
    ensures Emptied(plan, w.(buffer := "", current := w.current + 1))
  {
  }

  // ---- whole runs ----

  datatype Op =
    | DoPrepare(request: Request)
    | DoAdvance(attempt: nat, stage: Stage)
    | DoCancel(attempt: nat)
    | DoExpire
    | DoClose
    | DoConfigure(id: nat)
    | DoInterfere

  /** One reply, the attempt it ended (if it ended one), and the world it was given in. */
  datatype Outcome = Outcome(reply: Option<Reply>, ended: Option<Attempt>, world: World)

  predicate Says(o: Outcome, status: Status) {
    o.reply.Some? && o.reply.value.status == status
  }

  /** What a client may conclude from a reply, now and whatever happens later. */
  ghost predicate Honest(o: Outcome, trace: seq<Entry>) {
    && (o.reply.Some? ==> o.reply.value.reason != IncompleteContentReceipt)
    && (Says(o, Complete) ==>
          && o.ended.Some?
          && Finished(o.ended.value.plan, o.ended.value.frozenCurrent, o.world)
          && Effects(trace, o.ended.value.plan.serial) == ORDER)
    && (o.ended.Some? && Says(o, Refused) ==> Effects(trace, o.ended.value.plan.serial) == [])
  }

  ghost predicate Recorded(outcomes: seq<Outcome>, trace: seq<Entry>, owner: Option<Attempt>, serials: nat) {
    forall o | o in outcomes ::
      && Honest(o, trace)
      && (o.ended.Some? ==> o.ended.value.plan.serial < serials
                            && (owner.Some? ==> owner.value.plan.serial != o.ended.value.plan.serial))
  }

  /** Outcomes of ended attempts are not affected by what a later attempt does. */
  lemma RecordedStays(outcomes: seq<Outcome>, had: seq<Entry>, trace: seq<Entry>, owner: Option<Attempt>,
                      owner': Option<Attempt>, serials: nat, serials': nat)
    requires Recorded(outcomes, had, owner, serials) && serials <= serials'
    requires if owner.Some? then Extends(had, trace, owner.value.plan.serial) else trace == had
    requires owner'.Some? ==> owner'.value.plan.serial >= serials || (owner.Some? && owner'.value.plan == owner.value.plan)
    ensures Recorded(outcomes, trace, owner', serials')
  {
    hide Effects, Finished;
    forall o | o in outcomes
      ensures Honest(o, trace)
    {
      assert Honest(o, had);
    }
  }

  lemma RecordedAlso(outcomes: seq<Outcome>, o: Outcome, trace: seq<Entry>, owner: Option<Attempt>, serials: nat)
    requires Recorded(outcomes, trace, owner, serials) && Honest(o, trace)
    requires o.ended.Some? ==> o.ended.value.plan.serial < serials && owner.None?
    ensures Recorded(outcomes + [o], trace, owner, serials)
  {
    hide Honest;
  }

  lemma WholeOrder(trace: seq<Entry>, serials: nat, plan: Plan)
    requires Disciplined(trace, serials)
    ensures Progress(plan, trace) == |ORDER| ==> Effects(trace, plan.serial) == ORDER
    ensures Progress(plan, trace) == 0 ==> Effects(trace, plan.serial) == []
  {
    var effects := Effects(trace, plan.serial);
    assert effects <= ORDER;
    assert effects == ORDER[..|effects|];
  }

  /** One operation of a run: what it does to the editor and what it answers. */
  ghost predicate Stepped(env: Env, op: Op, s: View, o: Outcome, t: View) {
    && o.world == t.world && o.ended == (if s.owner.Some? && t.owner.None? then s.owner else None)
    && match op
       case DoPrepare(request) => o.reply.Some? && Began(env, request, s, o.reply.value, t)
       case DoAdvance(attempt, stage) => o.reply.Some? && Advanced(env, attempt, stage, s, o.reply.value, t)
       case DoCancel(attempt) =>
         if s.owner.None? || attempt != s.owner.value.plan.serial then t == s && o.reply == Some(Reply(Refused, WrongAttempt))
         else t == s.(owner := None) && o.reply == Some(Reply(s.owner.value.FailureStatus(), Cancelled))
       case DoExpire =>
         o.reply == None && t == if s.owner.Some? && s.world.tick >= s.owner.value.plan.expires then s.(owner := None) else s
       case DoClose => o.reply == None && t == s.(owner := None, session := 0)
       case DoConfigure(id) => o.reply == None && t == if s.owner.None? && id != 0 then s.(session := id) else s
       case DoInterfere => o.reply == None && t == s.(world := env.interfere(s.turn, s.world), turn := s.turn + 1)
  }

  /** The view operation `k` started from. */
  function Before(first: View, views: seq<View>, k: nat): View
    requires k <= |views|
  {
    if k == 0 then first else views[k - 1]
  }

  /** Every view and outcome is what the operation made of the view before it. */
  ghost predicate Chained(env: Env, first: View, ops: seq<Op>, views: seq<View>, outcomes: seq<Outcome>) {
    && |views| == |outcomes| <= |ops|
    && forall k | 0 <= k < |views| :: Stepped(env, ops[k], Before(first, views, k), outcomes[k], views[k])
  }

  lemma NothingChained(env: Env, first: View, ops: seq<Op>)
    ensures Chained(env, first, ops, [], [])
  {
  }

  lemma ChainOn(env: Env, first: View, ops: seq<Op>, views: seq<View>, outcomes: seq<Outcome>, o: Outcome, t: View)
    requires Chained(env, first, ops, views, outcomes) && |views| < |ops|
    requires Stepped(env, ops[|views|], Before(first, views, |views|), o, t)
    ensures Chained(env, first, ops, views + [t], outcomes + [o])
  {
    hide Stepped;
    forall k | 0 <= k < |views| + 1
      ensures Stepped(env, ops[k], Before(first, views + [t], k), (outcomes + [o])[k], (views + [t])[k])
    {
      assert Before(first, views + [t], k) == Before(first, views, k);
    }
  }

  /** Runs one operation. */
  method Perform(editor: Editor, op: Op) returns (o: Outcome)
    requires editor.Valid() && editor.state == Idle
    modifies editor
    ensures editor.Valid() && editor.state == Idle
    ensures Stepped(editor.env, op, old(editor.Seen()), o, editor.Seen())
    ensures o.reply.Some? ==> o.reply.value.reason != IncompleteContentReceipt
  {
    hide Effects, Justified, Finished, Preserved, Progress, Extends, Admits, Disciplined, Predicted, Applied, Env.Calm,
         Editor.Valid,
         Advanced, Began;
    var had := editor.owner;
    var reply: Option<Reply> := None;
    match op {
      case DoPrepare(request) =>
        var r := editor.Prepare(request);
        reply := Some(r);
      case DoAdvance(attempt, stage) =>
        var r := editor.Advance(attempt, stage);
        reply := Some(r);
      case DoCancel(attempt) =>
        var r := editor.Cancel(attempt);
        reply := Some(r);
      case DoExpire =>
        var _ := editor.Expire();
      case DoClose =>
        editor.CloseSession();
      case DoConfigure(id) =>
        var _ := editor.Configure(id);
      case DoInterfere =>
        editor.world := editor.env.interfere(editor.turn, editor.world);
        editor.turn := editor.turn + 1;
    }
    o := Outcome(reply, if had.Some? && editor.owner.None? then had else None, editor.world);
  }

  /** What a step means for the outcomes so far: the trace grows by effects of the attempt in the slot only. */
  lemma StepIsHonest(env: Env, op: Op, s: View, o: Outcome, t: View)
    requires Stepped(env, op, s, o, t) && Sound(s) && Sound(t)
    requires o.reply.Some? ==> o.reply.value.reason != IncompleteContentReceipt
    ensures Honest(o, t.trace) && s.serials <= t.serials
    ensures if s.owner.Some? then Extends(s.trace, t.trace, s.owner.value.plan.serial) else t.trace == s.trace
    ensures o.ended.Some? ==> o.ended.value.plan.serial < t.serials && t.owner.None?
    ensures t.owner.Some? ==> t.owner.value.plan.serial >= s.serials || (s.owner.Some? && t.owner.value.plan == s.owner.value.plan)
  {
    hide Effects, Finished, Justified, Disciplined, Progress, Extends, Predicted, Applied, Env.Calm, Preserved, Admits,
         GuardFault;
    if s.owner.Some? {
      ExtendsItself(s.trace, s.owner.value.plan.serial);
      WholeOrder(t.trace, t.serials, s.owner.value.plan);
      FailureIsHonest(s.owner.value, s.session, s.serials, s.trace);
    }
  }

  /** The trace facts of a view between two operations. */
  ghost predicate Sound(v: View) {
    && Disciplined(v.trace, v.serials)
    && (v.owner.Some? ==>
          && Owned(v.owner.value, v.session, v.serials, v.trace)
          && v.owner.value.Consistent() && Progress(v.owner.value.plan, v.trace) == Entered(v.owner.value.stage))
  }

  lemma SoundBetween(editor: Editor)
    requires editor.Valid() && editor.state == Idle
    ensures Sound(editor.Seen())
  {
    hide Disciplined, Owned, Progress, Attempt.Consistent;
  }

  /** Any sequence of client requests, timer ticks, session closes and interference. */
  method Run(env: Env, world: World, session: nat, ops: seq<Op>) returns (views: seq<View>, outcomes: seq<Outcome>)
    ensures |views| == |ops| && Chained(env, View(world, 0, session, None, 0, []), ops, views, outcomes)
    ensures forall v | v in views :: Sound(v)
    ensures var trace := Before(View(world, 0, session, None, 0, []), views, |views|).trace;
            && (forall e | e in trace :: Justified(e))
            && (forall serial: nat :: Effects(trace, serial) <= ORDER)
            && (forall o | o in outcomes :: Honest(o, trace))
  {
    hide Effects, Justified, Finished, Preserved, Progress, Extends, Stepped, Recorded, Sound, Chained, Honest;
    var editor := new Editor(env, world, session);
    views, outcomes := [], [];
    ghost var first := editor.Seen();
    NothingChained(env, first, ops);
    NoneRecorded(editor.trace, editor.owner, editor.serials);
    for i := 0 to |ops|
      invariant |views| == |outcomes| == i && editor.env == env
      invariant editor.Valid() && editor.state == Idle && editor.Seen() == Before(first, views, i)
      invariant Chained(env, first, ops, views, outcomes) && forall v | v in views :: Sound(v)
      invariant Recorded(outcomes, editor.trace, editor.owner, editor.serials)
    {
      ghost var s := editor.Seen();
      SoundBetween(editor);
      var o := Perform(editor, ops[i]);
      SoundBetween(editor);
      StepIsHonest(env, ops[i], s, o, editor.Seen());
      RecordedStays(outcomes, s.trace, editor.trace, s.owner, editor.owner, s.serials, editor.serials);
      RecordedAlso(outcomes, o, editor.trace, editor.owner, editor.serials);
      ChainOn(env, first, ops, views, outcomes, o, editor.Seen());
      views, outcomes := views + [editor.Seen()], outcomes + [o];
    }
    OutcomesHonest(outcomes, editor.trace, editor.owner, editor.serials);
  }

  lemma NoneRecorded(trace: seq<Entry>, owner: Option<Attempt>, serials: nat)
    ensures Recorded([], trace, owner, serials)
  {
  }

  lemma OutcomesHonest(outcomes: seq<Outcome>, trace: seq<Entry>, owner: Option<Attempt>, serials: nat)
    requires Recorded(outcomes, trace, owner, serials)
    ensures forall o | o in outcomes :: Honest(o, trace)
  {
  }

  // ---- an edit nobody interferes with ----

  const STAGES: seq<Stage> := [Prepared, Buffer, Resource, Content, Metadata, Edited]

  /** The world after the first `n` stages. */
  function After(n: nat, plan: Plan, w: World): World
    requires n <= |STAGES|
  {
    if n == 0 then w else Applied(STAGES[n - 1], plan, After(n - 1, plan, w))
  }

  /** Each stage leaves what the next one predicts. */
  lemma StagesConnect(n: nat, plan: Plan, frozen: int, w: World)
    requires n + 1 < |STAGES|
    requires Predicted(STAGES[n], plan, frozen, w)
    ensures var w' := Applied(STAGES[n], plan, w);
            Predicted(STAGES[n + 1], plan, if n == 0 then w'.current else frozen, w')
    ensures var w' := Applied(STAGES[n], plan, w);
            w'.readable == w.readable && w'.tick == w.tick && w'.unsaved == w.unsaved && STAGES[n + 1] == Next(STAGES[n])
  {
    hide Preserved;
  }

  lemma Overall(plan: Plan, w: World)
    ensures After(6, plan, w) ==
            w.(disk := plan.after, mtime := plan.originalMtime, resource := plan.after, edited := false,
               buffer := plan.after, current := w.current + 2, saved := w.current + 2)
  {
    assert After(1, plan, w) == Applied(Prepared, plan, w);
    assert After(2, plan, w) == Applied(Buffer, plan, After(1, plan, w));
    assert After(3, plan, w) == Applied(Resource, plan, After(2, plan, w));
    assert After(4, plan, w) == Applied(Content, plan, After(3, plan, w));
    assert After(5, plan, w) == Applied(Metadata, plan, After(4, plan, w));
    assert After(6, plan, w) == Applied(Edited, plan, After(5, plan, w));
  }

  /** An attempt of plan `plan` that waits for stage `n` of an undisturbed edit of `w`. */
  ghost predicate Waiting(n: nat, plan: Plan, w: World, v: View) {
    && n < |STAGES| && Sound(v)
    && v.owner.Some? && v.owner.value.plan == plan && v.owner.value.stage == STAGES[n] && plan.session == v.session
    && Predicted(STAGES[n], plan, v.owner.value.frozenCurrent, v.world) && v.world == After(n, plan, w)
    && Readable(v.world) && v.world.tick < plan.expires && !v.world.unsaved
  }

  lemma CalmStart(env: Env, request: Request, session: nat, w: World, o: Outcome, v: View)
    requires env.Calm() && session != 0 && Admits(request, w) && Sound(v)
    requires Stepped(env, DoPrepare(request), View(w, 0, session, None, 0, []), o, v)
    ensures Says(o, AttemptPrepared) && Waiting(0, NewAttempt(request, 0, session, w).plan, w, v)
  {
    hide Preserved, Predicted, Env.Calm, Admits, Sound;
    NewIsWellFormed(request, 0, session, w);
    AdmittedReadable(request, w);
    CalmStep(env, 0, w);
  }

  /** One stage of an undisturbed edit leaves the attempt waiting for the next one. */
  lemma CalmStage(env: Env, n: nat, plan: Plan, w: World, s: View, o: Outcome, v: View)
    requires env.Calm() && Waiting(n, plan, w, s) && Sound(v)
    requires Stepped(env, DoAdvance(plan.serial, STAGES[n]), s, o, v)
    ensures Says(o, if n == 5 then Complete else Ready) && v.world == After(n + 1, plan, w)
    ensures n < 5 ==> Waiting(n + 1, plan, w, v)
  {
    hide Preserved, Predicted, Env.Calm, Finished, Applied, GuardFault, Disciplined, Progress, Extends, Attempt.Consistent;
    GuardIsExact(Idle, s.session, s.owner.value, s.world);
    if n < 5 { StagesConnect(n, plan, s.owner.value.frozenCurrent, s.world); }
  }

  /** The operations of an edit that is left alone. */
  function WholeEdit(request: Request): seq<Op> {
    [DoPrepare(request), DoAdvance(0, Prepared), DoAdvance(0, Buffer), DoAdvance(0, Resource), DoAdvance(0, Content),
     DoAdvance(0, Metadata), DoAdvance(0, Edited)]
  }

  /** With nobody interfering an admitted request runs through all six stages and leaves the three
      authorities equal, the modification time kept and the buffer tagged as saved. */
  method UninterruptedEdit(env: Env, world: World, session: nat, request: Request)
    returns (views: seq<View>, outcomes: seq<Outcome>)
    requires env.Calm() && session != 0 && Admits(request, world)
    ensures |views| == 7 && Chained(env, View(world, 0, session, None, 0, []), WholeEdit(request), views, outcomes)
    ensures Says(outcomes[0], AttemptPrepared) && Says(outcomes[6], Complete) && forall k | 1 <= k < 6 :: Says(outcomes[k], Ready)
    ensures views[6].world == world.(disk := request.desired, resource := request.desired, buffer := request.desired,
                                     current := world.current + 2, saved := world.current + 2)
  {
    hide Preserved, Predicted, Applied, Env.Calm, Admits, Stepped, Sound, Waiting, After, Honest, Effects;
    var ops := WholeEdit(request);
    ghost var first := View(world, 0, session, None, 0, []);
    views, outcomes := Run(env, world, session, ops);
    ghost var plan := NewAttempt(request, 0, session, world).plan;
    assert Stepped(env, ops[0], Before(first, views, 0), outcomes[0], views[0]) && views[0] in views;
    CalmStart(env, request, session, world, outcomes[0], views[0]);
    for n := 0 to 6
      invariant n < 6 ==> Waiting(n, plan, world, views[n])
      invariant forall k | 1 <= k <= n :: Says(outcomes[k], if k == 6 then Complete else Ready)
      invariant n > 0 ==> views[n].world == After(n, plan, world)
    {
      assert Stepped(env, ops[n + 1], Before(first, views, n + 1), outcomes[n + 1], views[n + 1]) && views[n + 1] in views;
      assert ops[n + 1] == DoAdvance(plan.serial, STAGES[n]);
      CalmStage(env, n, plan, world, views[n], outcomes[n + 1], views[n + 1]);
    }
    Overall(plan, world);
    AdmittedReadable(request, world);
  }

  lemma AdmittedReadable(request: Request, w: World)
    requires Admits(request, w)
    ensures Readable(w) && w.tick < request.expires && !w.unsaved && !w.edited
  {
  }
}
