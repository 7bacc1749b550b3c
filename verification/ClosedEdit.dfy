/** The edit of a closed script: one call writes a resource and a file, while callbacks may abort,
    expire or close the attempt and others may change what it sampled. */
module ClosedEdit {
  import opened Wrappers
  import opened FileIo
  import ClosedEffects

  datatype Revision = Revision(mtime: int, ctime: int)

  /** What a sample finds: the file, the cached resource if there is one, and the context both
      are validated in. */
  datatype World = World(
    disk: string,
    revision: Revision,
    /** The cached resource: its instance and its source. */
    resource: Option<(nat, string)>,
    edited: bool,
    /** The save settings and the compiled context, as one digest. */
    profile: nat,
    /** The validator's settings file. */
    settings: string,
    attached: bool,
    closed: bool,
    sampled: bool,
    tick: nat)

  datatype Phase = Prepared | Resource | Content | Metadata

  /** What an attempt was prepared for. */
  datatype Plan = Plan(
    serial: nat,
    session: nat,
    before: string,
    after: string,
    original: Revision,
    resource: Option<nat>,
    profile: nat,
    settings: string,
    epoch: nat)

  datatype Attempt = Attempt(
    plan: Plan,
    expires: nat,
    phase: Phase,
    terminal: bool,
    reason: Option<Reason>,
    flags: Flags,
    resourceChanged: bool,
    written: nat,
    verified: Revision)

  /** Which effects an attempt has entered or finished. */
  datatype Flags = Flags(
    resourceEntered: bool,
    diskEntered: bool,
    truncated: bool,
    synced: bool,
    readback: bool,
    restoreEntered: bool,
    restored: bool)

  datatype Reason =
    | TerminalDiscard | SessionOrExpiryChanged | CloseEpochChanged | CloseEpochUnavailable | SettingsChanged
    | NamespaceChanged | TargetOpen | SampleUnavailable | BranchOrIdentityChanged | ResourceEdited
    | ResourceDiskDivergent | ExpectedChanged | ProfileChanged | DiskSourceChanged | FileRevisionChanged
    | ResourceSourceChanged | MtimeChanged | DuplicateApply | ValidationBindingChanged | ForbiddenUnchanged
    | SetterUnavailable | WriteFailed | TruncateFailed | FlushFailed | ReadbackFailed | MetadataUnavailable
    | NewerDiskWork | MtimeRestoreFailed | MtimeReadbackFailed | InvalidPurpose | InvalidStage | ContextChanged
    | SessionClosed | Cancelled | Expired | SlotBusy | WrongAttempt | InvalidBinding | UnsupportedSource

  datatype Status = AttemptPrepared | Applied | Verified | Rechecked | Finished | Partial | Refused

  datatype Reply = Reply(status: Status, reason: Option<Reason>)

  datatype CallState = Idle | Running | Closing

  datatype Purpose = Preflight | Unchanged | PostChange | UnknownPurpose

  // ---- the trace of entered effects ----

  datatype Effect = SetResource | EnterDisk | Truncated | Flushed | ReadBack | EnterRestore | Restored

  datatype Entry = Entry(effect: Effect, plan: Plan, world: World)

  const DISK: seq<Effect> := [EnterDisk, Truncated, Flushed, ReadBack, EnterRestore, Restored]

  function Order(plan: Plan): seq<Effect> {
    if plan.resource.Some? then [SetResource] + DISK else DISK
  }

  /** The cached resource holds `text`, or there is still none. */
  predicate ResourceIs(plan: Plan, w: World, text: string) {
    w.resource == if plan.resource.Some? then Some((plan.resource.value, text)) else None
  }

  predicate Undisturbed(plan: Plan, w: World) {
    w.attached && w.closed && !w.edited && w.profile == plan.profile && w.settings == plan.settings
  }

  /** The state each effect may be entered in, or was observed in. */
  predicate Justified(e: Entry) {
    var plan, w := e.plan, e.world;
    match e.effect
    case SetResource =>
      Undisturbed(plan, w) && plan.before != plan.after &&
      w.disk == plan.before && w.revision == plan.original && ResourceIs(plan, w, plan.before)
    case EnterDisk =>
      Undisturbed(plan, w) && plan.before != plan.after &&
      w.disk == plan.before && w.revision == plan.original && ResourceIs(plan, w, plan.after)
    case Truncated => w.disk == plan.after
    case Flushed => w.disk == plan.after
    case ReadBack => w.disk == plan.after && w.attached
    case EnterRestore => Undisturbed(plan, w) && w.disk == plan.after && ResourceIs(plan, w, plan.after)
    case Restored => w.revision.mtime == plan.original.mtime
  }

  /** The effects attempt `serial` entered, in order. */
  function Effects(trace: seq<Entry>, serial: nat): seq<Effect> {
    if trace == [] then []
    else
      var last := trace[|trace| - 1];
      Effects(trace[..|trace| - 1], serial) + if last.plan.serial == serial then [last.effect] else []
  }

  lemma EffectsStep(trace: seq<Entry>, e: Entry, serial: nat)
    ensures Effects(trace + [e], serial) ==
            if e.plan.serial == serial then Effects(trace, serial) + [e.effect] else Effects(trace, serial)
  {
    assert (trace + [e])[..|trace|] == trace;
  }

  lemma {:induction false} NoEffects(trace: seq<Entry>, serial: nat)
    requires forall e | e in trace :: e.plan.serial < serial
    ensures Effects(trace, serial) == []
  {
    if trace != [] {
      NoEffects(trace[..|trace| - 1], serial);
    }
  }

  /** The flags of an attempt show exactly the effects it entered. */
  predicate Matches(a: Attempt, effects: seq<Effect>) {
    && (a.flags.resourceEntered <==> SetResource in effects)
    && (a.flags.diskEntered <==> EnterDisk in effects)
    && (a.flags.truncated <==> Truncated in effects)
    && (a.flags.synced <==> Flushed in effects)
    && (a.flags.readback <==> ReadBack in effects)
    && (a.flags.restoreEntered <==> EnterRestore in effects)
    && (a.flags.restored <==> Restored in effects)
    && (a.resourceChanged ==> a.flags.resourceEntered)
    && (a.written > 0 ==> a.flags.diskEntered)
  }

  function On(flags: Flags, effect: Effect): Flags {
    match effect
    case SetResource => flags.(resourceEntered := true)
    case EnterDisk => flags.(diskEntered := true)
    case Truncated => flags.(truncated := true)
    case Flushed => flags.(synced := true)
    case ReadBack => flags.(readback := true)
    case EnterRestore => flags.(restoreEntered := true)
    case Restored => flags.(restored := true)
  }

  function Flag(a: Attempt, effect: Effect): Attempt {
    a.(flags := On(a.flags, effect))
  }

  lemma FlagMatches(a: Attempt, effects: seq<Effect>, effect: Effect)
    requires Matches(a, effects)
    ensures Matches(Flag(a, effect), effects + [effect])
  {
    assert forall x :: x in effects + [effect] <==> x in effects || x == effect;
  }

  function ReceiptOf(a: Attempt): ClosedEffects.Receipt {
    ClosedEffects.Receipt(a.plan.serial, a.flags.resourceEntered, a.resourceChanged, a.flags.diskEntered, a.written,
                          a.flags.truncated, a.flags.synced, a.flags.readback, a.flags.restored, a.terminal)
  }

  /** A receipt never shows more than was entered, and a refusal is final. */
  predicate Honest(r: ClosedEffects.Receipt, effects: seq<Effect>) {
    && (r.resourceEntered ==> SetResource in effects)
    && (r.resourceChanged ==> SetResource in effects)
    && (r.diskEntered ==> EnterDisk in effects)
    && (r.written > 0 ==> EnterDisk in effects)
    && (r.truncated ==> Truncated in effects)
    && (r.flushed ==> Flushed in effects)
    && (r.readback ==> ReadBack in effects)
    && (r.restored ==> Restored in effects)
    && (ClosedEffects.Refusal(r) ==> effects == [])
  }

  ghost predicate InOrder(effects: seq<Effect>) {
    effects <= [SetResource] + DISK || effects <= DISK
  }

  /** Every effect was entered in a state that justifies it, and each attempt's in the one order. */
  ghost predicate Disciplined(trace: seq<Entry>, serials: nat) {
    && (forall e | e in trace :: Justified(e) && e.plan.serial < serials)
    && (forall s: nat :: InOrder(Effects(trace, s)))
  }

  ghost predicate Told(receipts: seq<ClosedEffects.Receipt>, trace: seq<Entry>, serials: nat) {
    forall r | r in receipts :: r.serial < serials && Honest(r, Effects(trace, r.serial))
  }

  /** The attempt in the slot: its flags show exactly what it entered, and no receipt called it a
      refusal unless it is terminal. */
  ghost predicate Sound(a: Attempt, serials: nat, trace: seq<Entry>, receipts: seq<ClosedEffects.Receipt>) {
    && Disciplined(trace, serials) && Told(receipts, trace, serials)
    && a.plan.serial < serials
    && Matches(a, Effects(trace, a.plan.serial)) && Effects(trace, a.plan.serial) <= Order(a.plan)
    && (forall r | r in receipts && r.serial == a.plan.serial :: r.terminal ==> a.terminal)
  }

  ghost function Progress(plan: Plan, trace: seq<Entry>): nat {
    |Effects(trace, plan.serial)|
  }

  /** Bookkeeping that shows the same effects keeps the attempt sound; `terminal` never clears. */
  lemma Move(a: Attempt, b: Attempt, serials: nat, trace: seq<Entry>, receipts: seq<ClosedEffects.Receipt>)
    requires Sound(a, serials, trace, receipts)
    requires b.plan.serial == a.plan.serial && (b.plan == a.plan || Progress(a.plan, trace) == 0)
    requires a.flags == b.flags && (a.terminal ==> b.terminal)
    requires (b.resourceChanged ==> b.flags.resourceEntered) && (b.written > 0 ==> b.flags.diskEntered)
    ensures Sound(b, serials, trace, receipts)
  {
    hide Honest, InOrder, Justified;
  }

  /** Showing the attempt to somebody. */
  lemma Tell(a: Attempt, serials: nat, trace: seq<Entry>, receipts: seq<ClosedEffects.Receipt>)
    requires Sound(a, serials, trace, receipts)
    ensures Sound(a, serials, trace, receipts + [ReceiptOf(a)])
  {
    hide Disciplined, Matches;
    ReceiptIsHonest(a, Effects(trace, a.plan.serial));
  }

  lemma ReceiptIsHonest(a: Attempt, effects: seq<Effect>)
    requires Matches(a, effects) && effects <= Order(a.plan)
    ensures Honest(ReceiptOf(a), effects)
  {
    if effects != [] {
      assert effects[0] == Order(a.plan)[0] && effects[0] in effects;
    }
  }

  /** Entering an effect: an attempt that was refused, and so is terminal, never gets here. */
  lemma Advance(a: Attempt, effect: Effect, w: World, serials: nat, trace: seq<Entry>, receipts: seq<ClosedEffects.Receipt>)
    requires Sound(a, serials, trace, receipts) && Justified(Entry(effect, a.plan, w))
    requires Progress(a.plan, trace) < |Order(a.plan)| && effect == Order(a.plan)[Progress(a.plan, trace)]
    requires Progress(a.plan, trace) == 0 ==> !a.terminal
    ensures Sound(Flag(a, effect), serials, trace + [Entry(effect, a.plan, w)], receipts)
    ensures Progress(a.plan, trace + [Entry(effect, a.plan, w)]) == Progress(a.plan, trace) + 1
  {
    hide Disciplined, Told, Matches, On, Effects, Justified;
    var e := Entry(effect, a.plan, w);
    ToldStep(receipts, trace, serials, e);
    DisciplinedStep(trace, serials, e);
    EffectsStep(trace, e, a.plan.serial);
    FlagMatches(a, Effects(trace, a.plan.serial), effect);
  }

  lemma DisciplinedStep(trace: seq<Entry>, serials: nat, e: Entry)
    requires Disciplined(trace, serials) && Justified(e) && e.plan.serial < serials
    requires Effects(trace, e.plan.serial) <= Order(e.plan) && Progress(e.plan, trace) < |Order(e.plan)|
    requires e.effect == Order(e.plan)[Progress(e.plan, trace)]
    ensures Disciplined(trace + [e], serials)
    ensures Effects(trace + [e], e.plan.serial) <= Order(e.plan)
  {
    hide Justified, Effects;
    EffectsStep(trace, e, e.plan.serial);
    forall s: nat
      ensures InOrder(Effects(trace + [e], s))
    {
      EffectsStep(trace, e, s);
      assert InOrder(Effects(trace, s));
    }
  }

  lemma ToldStep(receipts: seq<ClosedEffects.Receipt>, trace: seq<Entry>, serials: nat, e: Entry)
    requires Told(receipts, trace, serials)
    requires forall r | r in receipts && r.serial == e.plan.serial && Effects(trace, r.serial) == [] :: !r.terminal
    ensures Told(receipts, trace + [e], serials)
  {
    hide Honest;
    forall r | r in receipts
      ensures Honest(r, Effects(trace + [e], r.serial))
    {
      EffectsStep(trace, e, r.serial);
      if r.serial == e.plan.serial { StaysHonest(r, Effects(trace, r.serial), e.effect); }
    }
  }

  lemma StaysHonest(r: ClosedEffects.Receipt, effects: seq<Effect>, effect: Effect)
    requires Honest(r, effects) && (effects == [] ==> !r.terminal)
    ensures Honest(r, effects + [effect])
  {
    assert forall x :: x in effects ==> x in effects + [effect];
  }

  // ---- the slot ----

  /** What a callback may ask for while a call is on the stack. */
  datatype Nested = NestedAbort | NestedExpire | NestedClose | NestedProbe | EpochSignal

  datatype Env = Env(
    interfere: (nat, World) -> World,
    nested: nat -> seq<Nested>,
    succeeds: nat -> bool,
    io: nat -> seq<Io>)
  {
    /** Nobody interferes, no callback asks for anything, and every call succeeds. */
    ghost predicate Calm() {
      && (forall k, w :: interfere(k, w) == w)
      && (forall k :: nested(k) == [] && succeeds(k) && io(k) == [])
    }
  }

  lemma CalmStep(env: Env, k: nat, w: World)
    ensures env.Calm() ==> env.interfere(k, w) == w && env.nested(k) == [] && env.succeeds(k) && env.io(k) == []
  {
  }

  const EXPIRY_LIMIT: nat := 9_000_000
  const EPOCH_LIMIT: nat := 0xFFFF_FFFF_FFFF_FFFF

  /** A request to prepare; the booleans stand for its checks of types, identity and parsing. */
  datatype Request = Request(after: string, expires: nat, bound: bool, supported: bool, expected: Expected)

  datatype Expected = Expected(disk: string, revision: Revision, epoch: nat, resource: Option<(nat, string)>, profile: nat)

  function ExpectedOf(w: World, epoch: nat): Expected {
    Expected(w.disk, w.revision, epoch, w.resource, w.profile)
  }

  function Provisional(request: Request, serial: nat, session: nat): Attempt {
    Attempt(Plan(serial, session, "", request.after, Revision(0, 0), None, 0, "", 0), request.expires, Prepared, false, None,
            Flags(false, false, false, false, false, false, false), false, 0, Revision(0, 0))
  }

  function PlanFrom(request: Request, serial: nat, session: nat, epoch: nat, w: World): Plan {
    Plan(serial, session, w.disk, request.after, w.revision,
         if w.resource.Some? then Some(w.resource.value.0) else None, w.profile, w.settings, epoch)
  }

  /** The first failure reason stays. */
  function Discarded(a: Attempt, reason: Reason): Attempt {
    a.(terminal := true, reason := if a.reason.None? then Some(reason) else a.reason)
  }

  function Entered(a: Attempt): bool {
    a.flags.resourceEntered || a.flags.diskEntered
  }

  function OwnerFault(state: CallState, session: nat, epoch: nat, epochValid: bool, a: Attempt, w: World): Option<Reason> {
    if a.terminal then Some(TerminalDiscard)
    else if state == Closing || session != a.plan.session || w.tick >= a.expires then Some(SessionOrExpiryChanged)
    else if !epochValid || epoch != a.plan.epoch then Some(CloseEpochChanged)
    else None
  }

  predicate Holds(state: CallState, session: nat, epoch: nat, epochValid: bool, plan: Plan, terminal: bool, expires: nat,
                  tick: nat)
  {
    && !terminal && state != Closing && session == plan.session && tick < expires && epochValid && epoch == plan.epoch
  }

  /** The sample compared with what the attempt was prepared for. */
  function SampleFault(a: Attempt, w: World, diskAfter: bool, resourceAfter: bool, metadata: bool): Option<Reason> {
    var plan := a.plan;
    if w.settings != plan.settings then Some(SettingsChanged)
    else if !w.attached then Some(NamespaceChanged)
    else if !w.closed then Some(TargetOpen)
    else if !w.sampled then Some(SampleUnavailable)
    else if w.resource.Some? != plan.resource.Some? || (w.resource.Some? && w.resource.value.0 != plan.resource.value)
    then Some(BranchOrIdentityChanged)
    else if w.edited then Some(ResourceEdited)
    else if w.profile != plan.profile then Some(ProfileChanged)
    else if w.disk != (if diskAfter then plan.after else plan.before) then Some(DiskSourceChanged)
    else if !diskAfter && w.revision != plan.original then Some(FileRevisionChanged)
    else if w.resource.Some? && w.resource.value.1 != (if resourceAfter then plan.after else plan.before)
    then Some(ResourceSourceChanged)
    else if diskAfter && metadata && (!a.flags.restored || w.revision.mtime != plan.original.mtime) then Some(MtimeChanged)
    else if diskAfter && metadata && w.revision != a.verified then Some(FileRevisionChanged)
    else None
  }

  /** Exactly what an admitting sample establishes. */
  predicate Admitted(a: Attempt, w: World, diskAfter: bool, resourceAfter: bool, metadata: bool) {
    && Undisturbed(a.plan, w) && w.sampled
    && w.disk == (if diskAfter then a.plan.after else a.plan.before)
    && ResourceIs(a.plan, w, if resourceAfter then a.plan.after else a.plan.before)
    && (!diskAfter ==> w.revision == a.plan.original)
    && (diskAfter && metadata ==>
          a.flags.restored && w.revision == a.verified && w.revision.mtime == a.plan.original.mtime)
  }

  lemma SampleIsExact(a: Attempt, w: World, diskAfter: bool, resourceAfter: bool, metadata: bool)
    ensures SampleFault(a, w, diskAfter, resourceAfter, metadata).None? <==>
              Admitted(a, w, diskAfter, resourceAfter, metadata)
  {
  }

  /** What each purpose asks of the attempt and of the world. */
  predicate Verifiable(a: Attempt, w: World, purpose: Purpose) {
    && purpose != UnknownPurpose
    && a.phase == (if purpose == PostChange then Metadata else Prepared)
    && (purpose == Unchanged ==> a.plan.before == a.plan.after)
    && if purpose == PostChange then Admitted(a, w, true, true, true) else Admitted(a, w, false, false, true)
  }

  /** Since an operation started, only one attempt entered effects and was shown. */
  ghost predicate Since(hadTrace: seq<Entry>, hadReceipts: seq<ClosedEffects.Receipt>, trace: seq<Entry>,
                        receipts: seq<ClosedEffects.Receipt>, serial: nat)
  {
    && hadTrace <= trace && (forall k | |hadTrace| <= k < |trace| :: trace[k].plan.serial == serial)
    && hadReceipts <= receipts && (forall k | |hadReceipts| <= k < |receipts| :: receipts[k].serial == serial)
  }

  lemma SinceNow(trace: seq<Entry>, receipts: seq<ClosedEffects.Receipt>, serial: nat)
    ensures Since(trace, receipts, trace, receipts, serial)
  {
  }

  lemma SinceEntered(hadTrace: seq<Entry>, hadReceipts: seq<ClosedEffects.Receipt>, trace: seq<Entry>,
                     receipts: seq<ClosedEffects.Receipt>, e: Entry)
    requires Since(hadTrace, hadReceipts, trace, receipts, e.plan.serial)
    ensures Since(hadTrace, hadReceipts, trace + [e], receipts, e.plan.serial)
  {
  }

  lemma SinceShown(hadTrace: seq<Entry>, hadReceipts: seq<ClosedEffects.Receipt>, trace: seq<Entry>,
                   receipts: seq<ClosedEffects.Receipt>, r: ClosedEffects.Receipt)
    requires Since(hadTrace, hadReceipts, trace, receipts, r.serial)
    ensures Since(hadTrace, hadReceipts, trace, receipts + [r], r.serial)
  {
  }

  /** The slot between two operations. */
  datatype View = View(world: World, turn: nat, session: nat, epoch: nat, epochValid: bool, owner: Option<Attempt>, serials: nat,
                       trace: seq<Entry>, receipts: seq<ClosedEffects.Receipt>)

  /** A receipt that shows exactly what was entered. */
  predicate Exact(r: ClosedEffects.Receipt, effects: seq<Effect>) {
    && (r.resourceEntered <==> SetResource in effects)
    && (r.diskEntered <==> Effect.EnterDisk in effects)
    && (r.truncated <==> Truncated in effects)
    && (r.flushed <==> Flushed in effects)
    && (r.readback <==> ReadBack in effects)
    && (r.restored <==> Restored in effects)
  }

  /** An operation on the attempt `serial` was answered: only that attempt entered effects and was shown,
      and the last receipt shows exactly what it has entered by now. */
  ghost predicate Answered(serial: nat, hadTrace: seq<Entry>, hadReceipts: seq<ClosedEffects.Receipt>, trace: seq<Entry>,
                           receipts: seq<ClosedEffects.Receipt>)
  {
    && Since(hadTrace, hadReceipts, trace, receipts, serial) && |hadReceipts| < |receipts|
    && var last := receipts[|receipts| - 1];
       last.serial == serial && Exact(last, Effects(trace, serial))
  }

  predicate Named(request: nat, s: View) {
    s.owner.Some? && s.owner.value.plan.serial == request
  }

  /** The slot afterwards: the attempt is still there, or the session was closed. */
  predicate Stays(s: View, t: View) {
    && t.serials == s.serials
    && (if t.owner.Some? then s.owner.Some? && t.owner.value.plan == s.owner.value.plan && t.session == s.session
        else t.session == 0 && !t.epochValid)
  }

  /** What one request to apply does. The reply says whether anything has been entered. */
  ghost predicate AppliedStep(env: Env, request: nat, bindingHolds: bool, s: View, r: Reply, t: View) {
    if !Named(request, s) then r == Reply(Refused, Some(WrongAttempt)) && t == s
    else
      var a := s.owner.value;
      && Answered(request, s.trace, s.receipts, t.trace, t.receipts) && Stays(s, t)
      && (r.status == Applied || r.status == Partial || r.status == Refused)
      && (r.status == Refused <==> Effects(t.trace, request) == [])
      && (r.status == Applied ==>
            && t.owner.Some? && !t.owner.value.terminal && Admitted(t.owner.value, t.world, true, true, true)
            && Effects(t.trace, request) == Order(a.plan))
      && (r.status != Applied ==> t.owner.Some? ==> t.owner.value.terminal)
      && (a.phase != Prepared || a.terminal || !bindingHolds ==> t.trace == s.trace && r.status != Applied)
      && (env.Calm() && bindingHolds && a.phase == Prepared && Admitted(a, s.world, false, false, true) && a.plan.before != a.plan.after
          && Holds(Idle, s.session, s.epoch, s.epochValid, a.plan, a.terminal, a.expires, s.world.tick) ==>
            r.status == Applied && AppliedTo(a.plan, s.world, t.world))
  }

  /** What one request to prepare does: the slot is taken before anything is sampled. */
  ghost predicate PreparedStep(env: Env, request: Request, s: View, r: Reply, t: View) {
    if s.owner.Some? then r == Reply(Refused, Some(SlotBusy)) && t == s
    else if !request.bound || request.expires <= s.world.tick || request.expires - s.world.tick > EXPIRY_LIMIT then
      r == Reply(Refused, Some(InvalidBinding)) && t == s
    else
      && Answered(s.serials, s.trace, s.receipts, t.trace, t.receipts) && t.serials == s.serials + 1 && t.trace == s.trace
      && (r.status == AttemptPrepared || r.status == Refused)
      && (t.owner.Some? ==> t.owner.value.plan.serial == s.serials && t.session == s.session)
      && (r.status == AttemptPrepared ==>
            && t.owner.Some? && !t.owner.value.terminal && t.owner.value.phase == Prepared
            && t.owner.value.plan.after == request.after && request.expected.disk == t.owner.value.plan.before
            && Admitted(t.owner.value, t.world, false, false, true))
      && (r.status == Refused ==> t.owner.Some? ==> t.owner.value.terminal)
      && (env.Calm() && Preparable(request, s.session, s.epoch, s.epochValid, s.world) ==>
            && r.status == AttemptPrepared && t.world == s.world && t.owner.Some?
            && t.owner.value.plan == PlanFrom(request, s.serials, s.session, s.epoch, s.world)
            && Holds(Idle, t.session, t.epoch, t.epochValid, t.owner.value.plan, false, t.owner.value.expires, t.world.tick))
  }

  /** What one verification does: it enters nothing. */
  ghost predicate VerifiedStep(env: Env, request: nat, purpose: Purpose, recheck: bool, s: View, r: Reply, t: View) {
    if !Named(request, s) then r == Reply(Refused, Some(WrongAttempt)) && t == s
    else
      var a := s.owner.value;
      && Answered(request, s.trace, s.receipts, t.trace, t.receipts) && Stays(s, t) && t.trace == s.trace
      && (r.status == Verified || r.status == Rechecked ==>
            && t.owner.Some? && !t.owner.value.terminal && purpose != UnknownPurpose
            && (if purpose == PostChange then Admitted(t.owner.value, t.world, true, true, true)
                else Admitted(t.owner.value, t.world, false, false, true))
            && (purpose == Unchanged ==> a.plan.before == a.plan.after))
      && (r.status == Verified || r.status == Rechecked ==> r.status == if recheck then Rechecked else Verified)
      && (env.Calm() && Verifiable(a, s.world, purpose)
          && Holds(Idle, s.session, s.epoch, s.epochValid, a.plan, a.terminal, a.expires, s.world.tick) ==>
            r.status == (if recheck then Rechecked else Verified) && t.owner == s.owner && t.world == s.world)
  }

  /** A new session observes a new close epoch; an exhausted counter never becomes valid. */
  function Configured(id: nat, s: View): View {
    var epoch := if s.epoch < EPOCH_LIMIT then s.epoch + 1 else s.epoch;
    s.(session := id, epoch := epoch, epochValid := epoch < EPOCH_LIMIT)
  }

  lemma LastExact(a: Attempt, serials: nat, trace: seq<Entry>, receipts: seq<ClosedEffects.Receipt>)
    requires Sound(a, serials, trace, receipts)
    ensures Exact(ReceiptOf(a), Effects(trace, a.plan.serial)) && ReceiptOf(a).serial == a.plan.serial
    ensures Entered(a) <==> Effects(trace, a.plan.serial) != []
  {
    hide Disciplined, Told;
    var effects := Effects(trace, a.plan.serial);
    if effects != [] {
      assert effects[0] == Order(a.plan)[0] && effects[0] in effects;
    }
  }

  lemma AnsweredNow(a: Attempt, serials: nat, hadTrace: seq<Entry>, hadReceipts: seq<ClosedEffects.Receipt>, trace: seq<Entry>,
                    receipts: seq<ClosedEffects.Receipt>)
    requires Sound(a, serials, trace, receipts) && Since(hadTrace, hadReceipts, trace, receipts, a.plan.serial)
    requires |hadReceipts| < |receipts| && receipts[|receipts| - 1] == ReceiptOf(a)
    ensures Answered(a.plan.serial, hadTrace, hadReceipts, trace, receipts)
    ensures Entered(a) <==> Effects(trace, a.plan.serial) != []
  {
    hide Sound, Since, Exact, Effects, ReceiptOf;
    LastExact(a, serials, trace, receipts);
  }

  lemma NonEmpty(plan: Plan)
    ensures Order(plan) != []
  {
  }

  lemma NotEntered(a: Attempt, serials: nat, trace: seq<Entry>, receipts: seq<ClosedEffects.Receipt>)
    requires Sound(a, serials, trace, receipts) && Progress(a.plan, trace) == 0
    ensures !Entered(a)
  {
    LastExact(a, serials, trace, receipts);
  }

  class Slot {
    const env: Env
    var world: World
    var turn: nat
    var state: CallState
    var session: nat
    var epoch: nat
    var epochValid: bool
    var owner: Option<Attempt>
    var serials: nat
    var trace: seq<Entry>
    var receipts: seq<ClosedEffects.Receipt>
    /** What had been entered and shown when the present operation started. */
    ghost var hadTrace: seq<Entry>
    ghost var hadReceipts: seq<ClosedEffects.Receipt>

    function Seen(): View
      reads this
    {
      View(world, turn, session, epoch, epochValid, owner, serials, trace, receipts)
    }

    ghost predicate Valid()
      reads this`owner, this`serials, this`trace, this`receipts, this`state
    {
      && state == Idle
      && Disciplined(trace, serials) && Told(receipts, trace, serials)
      && (owner.Some? ==>
            && Sound(owner.value, serials, trace, receipts)
            && (owner.value.phase == Prepared && !owner.value.terminal ==> Progress(owner.value.plan, trace) == 0))
    }

    ghost predicate Acting()
      reads this`owner, this`serials, this`trace, this`receipts, this`hadTrace, this`hadReceipts
    {
      && owner.Some? && Sound(owner.value, serials, trace, receipts)
      && Since(hadTrace, hadReceipts, trace, receipts, owner.value.plan.serial)
    }

    /** An operation on the attempt in the slot starts. */
    ghost method Starts()
      requires owner.Some? && Sound(owner.value, serials, trace, receipts)
      modifies this`hadTrace, this`hadReceipts
      ensures Acting() && hadTrace == trace && hadReceipts == receipts
    {
      hide Since, Sound;
      hadTrace, hadReceipts := trace, receipts;
      SinceNow(trace, receipts, owner.value.plan.serial);
    }

    constructor (env: Env, world: World, session: nat, epoch: nat)
      ensures Valid() && this.env == env && owner == None && trace == [] && receipts == [] && serials == 0
      ensures this.world == world && this.session == session && this.epoch == epoch && epochValid && turn == 0
    {
      this.env, this.world, this.session, this.epoch := env, world, session, epoch;
      turn, state, epochValid, owner, serials, trace, receipts := 0, Idle, true, None, 0, [], [];
      hadTrace, hadReceipts := [], [];
    }

    /** Moves the owner's bookkeeping on. */
    method Becomes(a: Attempt)
      requires Acting() && a.plan.serial == owner.value.plan.serial
      requires a.plan == owner.value.plan || Progress(owner.value.plan, trace) == 0
      requires a.flags == owner.value.flags && (owner.value.terminal ==> a.terminal)
      requires (a.resourceChanged ==> a.flags.resourceEntered) && (a.written > 0 ==> a.flags.diskEntered)
      modifies this`owner
      ensures Acting() && owner == Some(a)
    {
      hide Since, Sound;
      Move(owner.value, a, serials, trace, receipts);
      owner := Some(a);
    }

    /** Enters an effect, or records one that was observed. */
    method Enters(effect: Effect)
      requires Acting() && Justified(Entry(effect, owner.value.plan, world))
      requires Progress(owner.value.plan, trace) < |Order(owner.value.plan)|
      requires effect == Order(owner.value.plan)[Progress(owner.value.plan, trace)]
      requires Progress(owner.value.plan, trace) == 0 ==> !owner.value.terminal
      modifies this`owner, this`trace
      ensures Acting() && owner == Some(Flag(old(owner).value, effect))
      ensures Progress(owner.value.plan, trace) == Progress(owner.value.plan, old(trace)) + 1
    {
      hide Since, Sound, Justified, On, Order, Progress;
      Advance(owner.value, effect, world, serials, trace, receipts);
      SinceEntered(hadTrace, hadReceipts, trace, receipts, Entry(effect, owner.value.plan, world));
      trace := trace + [Entry(effect, owner.value.plan, world)];
      owner := Some(Flag(owner.value, effect));
    }

    /** Every reply carries a snapshot of the attempt. */
    method Show(status: Status, reason: Option<Reason>) returns (r: Reply)
      requires Acting()
      modifies this`receipts
      ensures Acting() && receipts == old(receipts) + [ReceiptOf(owner.value)]
      ensures r == Reply(status, reason)
    {
      hide Since, Sound;
      Tell(owner.value, serials, trace, receipts);
      SinceShown(hadTrace, hadReceipts, trace, receipts, ReceiptOf(owner.value));
      receipts := receipts + [ReceiptOf(owner.value)];
      return Reply(status, reason);
    }

    method Fail(reason: Reason) returns (r: Reply)
      requires Acting()
      modifies this`owner, this`receipts
      ensures Acting() && owner == Some(Discarded(old(owner).value, reason)) && receipts == old(receipts) + [ReceiptOf(owner.value)]
      ensures r.reason == owner.value.reason
      ensures r.status == if Entered(owner.value) then Partial else Refused
    {
      hide Since, Sound;
      SoundFacts(owner.value, serials, trace, receipts);
      Becomes(Discarded(owner.value, reason));
      r := Show(if Entered(owner.value) then Partial else Refused, owner.value.reason);
    }

    /** Whatever callbacks do, an attempt in the slot only becomes terminal. */
    twostate predicate OnlyFails()
      reads this
    {
      && old(owner).Some? && owner.Some?
      && owner.value == old(owner).value.(terminal := owner.value.terminal, reason := owner.value.reason)
      && (old(owner).value.terminal ==> owner.value.terminal)
      && (!owner.value.terminal ==> owner == old(owner))
      && (old(state) != Idle ==> state != Idle)
      && old(receipts) <= receipts
    }

    /** Runs the requests of one callback. */
    method Callbacks(asks: seq<Nested>)
      requires Acting() && state != Idle
      modifies this`owner, this`receipts, this`state, this`epoch, this`epochValid
      ensures Acting() && OnlyFails()
      ensures asks == [] ==> owner == old(owner) && state == old(state) && epoch == old(epoch) && epochValid == old(epochValid)
    {
      hide Since, Sound;
      if asks == [] { return; }
      var i := 0;
      while i < |asks|
        invariant i <= |asks|
        invariant Acting() && OnlyFails()
      {
        SoundFacts(owner.value, serials, trace, receipts);
        match asks[i] {
          case NestedAbort =>
            var _ := Fail(Cancelled);
          case NestedExpire =>
            if world.tick >= owner.value.expires { var _ := Fail(Expired); }
          case NestedClose =>
            Becomes(Discarded(owner.value, SessionClosed));
            state := Closing;
          case NestedProbe =>
            var _ := Show(Refused, Some(SlotBusy));
          case EpochSignal =>
            if epoch >= EPOCH_LIMIT { epochValid := false; } else { epoch := epoch + 1; }
        }
        i := i + 1;
      }
    }

    /** An engine or system call others can act during. */
    method Call(nominal: World)
      requires Acting() && state != Idle
      modifies this`world, this`turn, this`owner, this`receipts, this`state, this`epoch, this`epochValid
      ensures Acting() && OnlyFails()
      ensures env.Calm() ==>
                world == nominal && owner == old(owner) && state == old(state) && epoch == old(epoch) && epochValid == old(epochValid)
    {
      hide Env.Calm;
      CalmStep(env, turn, nominal);
      world := env.interfere(turn, nominal);
      Callbacks(env.nested(turn));
      turn := turn + 1;
    }

    method Ask() returns (ok: bool)
      modifies this`turn
      ensures ok == env.succeeds(old(turn))
      ensures env.Calm() ==> ok
    {
      ok := env.succeeds(turn);
      turn := turn + 1;
    }

    /** The owner check passes now. */
    ghost predicate Held()
      reads this`owner, this`world, this`state, this`session, this`epoch, this`epochValid
    {
      && owner.Some?
      && Holds(state, session, epoch, epochValid, owner.value.plan, owner.value.terminal, owner.value.expires, world.tick)
    }

    /** Owner, sample, owner again: nothing may have ended the attempt while it was sampled. */
    method Guard(diskAfter: bool, resourceAfter: bool, metadata: bool) returns (fault: Option<Reason>)
      requires Acting() && state != Idle
      modifies this`world, this`turn, this`owner, this`receipts, this`state, this`epoch, this`epochValid
      ensures Acting() && OnlyFails()
      ensures fault.None? ==>
                && owner == old(owner) && !owner.value.terminal && state == Running && session == owner.value.plan.session
                && epochValid && epoch == owner.value.plan.epoch && world.tick < owner.value.expires
                && Admitted(owner.value, world, diskAfter, resourceAfter, metadata)
      ensures env.Calm() && old(Held()) && Admitted(old(owner).value, old(world), diskAfter, resourceAfter, metadata) ==>
                fault.None? && world == old(world) && Held()
    {
      hide Since, Sound, Admitted, SampleFault, Env.Calm;
      AdmittedSettings(owner.value, world, diskAfter, resourceAfter, metadata);
      fault := OwnerFault(state, session, epoch, epochValid, owner.value, world);
      if fault.Some? { return; }
      if world.settings != owner.value.plan.settings { return Some(SettingsChanged); }
      Call(world);
      SampleIsExact(owner.value, world, diskAfter, resourceAfter, metadata);
      fault := SampleFault(owner.value, world, diskAfter, resourceAfter, metadata);
      if fault.Some? { return; }
      fault := OwnerFault(state, session, epoch, epochValid, owner.value, world);
    }

    /** Other processes act; no callback runs. */
    method Others(nominal: World)
      modifies this`world, this`turn
      ensures world == env.interfere(old(turn), nominal) && turn == old(turn) + 1
      ensures env.Calm() ==> world == nominal
    {
      CalmStep(env, turn, nominal);
      world := env.interfere(turn, nominal);
      turn := turn + 1;
    }

    /** Sets the source of the cached resource. */
    method EnterResource() returns (called: bool)
      requires Acting() && state != Idle && !owner.value.terminal && owner.value.plan.resource.Some?
      requires Progress(owner.value.plan, trace) == 0 && owner.value.plan.before != owner.value.plan.after
      requires Admitted(owner.value, world, false, false, true)
      modifies this`world, this`turn, this`owner, this`receipts, this`state, this`epoch, this`epochValid, this`trace
      ensures Acting() && owner.value.plan == old(owner).value.plan && Progress(owner.value.plan, trace) == 1
      ensures state != Idle && old(receipts) <= receipts
      ensures env.Calm() && old(Held()) ==>
                called && Held() && world == old(world).(resource := Some((owner.value.plan.resource.value, owner.value.plan.after)))
    {
      hide Since, Sound, Progress, Admitted, On, Env.Calm, Holds;
      var plan := owner.value.plan;
      AdmittedJustifies(SetResource, owner.value, world, false, false, true);
      FirstEffect(plan);
      Enters(SetResource);
      Call(world.(resource := Some((plan.resource.value, plan.after))));
      ResourceFlag(owner.value, serials, trace, receipts);
      if world.sampled && world.resource.Some? {
        Becomes(owner.value.(resourceChanged := world.resource.value.1 != plan.before));
      }
      Becomes(owner.value.(phase := Resource));
      called := Ask();
    }

    /** Writes, truncates, flushes and reads back the file. */
    method EnterDisk() returns (fault: Option<Reason>)
      requires Acting() && state != Idle && !owner.value.terminal && owner.value.plan.before != owner.value.plan.after
      requires Progress(owner.value.plan, trace) == if owner.value.plan.resource.Some? then 1 else 0
      requires Admitted(owner.value, world, false, true, true)
      modifies this`world, this`turn, this`owner, this`trace
      ensures Acting() && owner.value.plan == old(owner).value.plan
      ensures fault.None? ==>
                Progress(owner.value.plan, trace) == |Order(owner.value.plan)| - 2 && owner.value.phase == Content
      ensures env.Calm() && old(Held()) ==>
                fault.None? && Held() && world == old(world).(disk := owner.value.plan.after)
    {
      hide Since, Sound, Progress, Admitted, On, Overlay, Env.Calm, Holds;
      AdmittedAttached(owner.value, world, false, true, true);
      var plan := owner.value.plan;
      AdmittedJustifies(Effect.EnterDisk, owner.value, world, false, true, true);
      DiskEffects(plan);
      Enters(Effect.EnterDisk);
      DiskFlag(owner.value, serials, trace, receipts);
      var stored := StoreBytes();
      if !stored { return Some(WriteFailed); }
      var cut := Ask();
      if !cut { return Some(TruncateFailed); }
      world := world.(disk := world.disk[..|plan.after|]);
      fault := Settle();
    }

    /** The write loop; a complete write leaves the candidate in front of what was there. */
    method StoreBytes() returns (stored: bool)
      requires Acting() && owner.value.flags.diskEntered
      modifies this`world, this`turn, this`owner
      ensures Acting() && owner == Some(old(owner).value.(written := owner.value.written))
      ensures world == old(world).(disk := world.disk) && owner.value.written <= |owner.value.plan.after|
      ensures world.disk == Overlay(owner.value.plan.after, old(world).disk, owner.value.written)
      ensures stored ==> |owner.value.plan.after| <= |world.disk| && world.disk[..|owner.value.plan.after|] == owner.value.plan.after
      ensures env.Calm() ==> stored
    {
      hide Since, Sound, Env.Calm, Overlay;
      CalmStep(env, turn, world);
      var after := owner.value.plan.after;
      var file, written, _, error := WriteAll(world.disk, after, env.io(turn));
      OverlayTruncated(after, world.disk);
      turn := turn + 1;
      world := world.(disk := file);
      SoundFacts(owner.value, serials, trace, receipts);
      Becomes(owner.value.(written := written));
      return error.None?;
    }

    /** Flush and read back a file that was just cut to the candidate. */
    method Settle() returns (fault: Option<Reason>)
      requires Acting() && world.disk == owner.value.plan.after
      requires Progress(owner.value.plan, trace) == |Order(owner.value.plan)| - 5
      modifies this`world, this`turn, this`owner, this`trace
      ensures Acting() && owner.value.plan == old(owner).value.plan
      ensures fault.None? ==>
                Progress(owner.value.plan, trace) == |Order(owner.value.plan)| - 2 && owner.value.phase == Content
      ensures env.Calm() && old(Held()) && old(world).attached ==> fault.None? && Held() && world == old(world)
    {
      hide Since, Sound, Progress, On, Order, Env.Calm, Holds;
      var plan := owner.value.plan;
      DiskEffects(plan);
      var flushed := Flush();
      if !flushed { return Some(FlushFailed); }
      Others(world);
      if world.disk != plan.after || !world.attached { return Some(ReadbackFailed); }
      Enters(ReadBack);
      SoundFacts(owner.value, serials, trace, receipts);
      Becomes(owner.value.(phase := Content));
      return None;
    }

    method Flush() returns (flushed: bool)
      requires Acting() && world.disk == owner.value.plan.after
      requires Progress(owner.value.plan, trace) == |Order(owner.value.plan)| - 5
      modifies this`turn, this`owner, this`trace
      ensures Acting() && owner.value.plan == old(owner).value.plan
      ensures flushed ==> Progress(owner.value.plan, trace) == |Order(owner.value.plan)| - 3
      ensures owner.value == old(owner).value.(flags := owner.value.flags)
      ensures env.Calm() ==> flushed
    {
      hide Since, Sound, Progress, On, Order, Env.Calm;
      DiskEffects(owner.value.plan);
      Enters(Truncated);
      flushed := Ask();
      if flushed { Enters(Flushed); }
    }

    /** Restores the modification time, unless newer work is visible. */
    method RestoreTime() returns (fault: Option<Reason>)
      requires Acting() && state != Idle
      requires Progress(owner.value.plan, trace) == |Order(owner.value.plan)| - 2
      modifies this`world, this`turn, this`owner, this`receipts, this`state, this`epoch, this`epochValid, this`trace
      ensures Acting() && owner.value.plan == old(owner).value.plan
      ensures state != Idle && old(receipts) <= receipts
      ensures fault.None? ==> Progress(owner.value.plan, trace) == |Order(owner.value.plan)| && owner.value.phase == Metadata
      ensures fault.None? ==> owner.value.verified == world.revision && world.revision.mtime == owner.value.plan.original.mtime
      ensures env.Calm() && old(Held()) && Admitted(old(owner).value, old(world), true, true, false) ==>
                fault.None? && Held() && world == old(world).(revision := world.revision)
    {
      hide Since, Sound, Progress, On, Order, Admitted, Env.Calm, Holds;
      var plan := owner.value.plan;
      DiskEffects(plan);
      var persisted := world.revision;
      var sampled := Ask();
      if !sampled { return Some(MetadataUnavailable); }
      fault := Guard(true, true, false);
      if fault.Some? { return; }
      if world.revision != persisted { return Some(NewerDiskWork); }
      AdmittedJustifies(EnterRestore, owner.value, world, true, true, false);
      Enters(EnterRestore);
      fault := Stamp();
    }

    /** The metadata change itself, and its read-back. */
    method Stamp() returns (fault: Option<Reason>)
      requires Acting() && Progress(owner.value.plan, trace) == |Order(owner.value.plan)| - 1
      modifies this`world, this`turn, this`owner, this`trace
      ensures Acting() && owner.value.plan == old(owner).value.plan
      ensures fault.None? ==>
                && Progress(owner.value.plan, trace) == |Order(owner.value.plan)| && owner.value.phase == Metadata
                && owner.value.verified == world.revision && world.revision.mtime == owner.value.plan.original.mtime
      ensures env.Calm() && old(Held()) ==> fault.None? && Held() && world == old(world).(revision := world.revision)
    {
      hide Since, Sound, Progress, On, Order, Env.Calm, Holds;
      var plan := owner.value.plan;
      DiskEffects(plan);
      var stamped := Ask();
      if !stamped { return Some(MtimeRestoreFailed); }
      Others(world.(revision := Revision(plan.original.mtime, turn)));
      var observed := Ask();
      if !observed || world.revision.mtime != plan.original.mtime { return Some(MtimeReadbackFailed); }
      Enters(Restored);
      SoundFacts(owner.value, serials, trace, receipts);
      Becomes(owner.value.(verified := world.revision, phase := Metadata));
      return None;
    }

    /** Everything `Apply` does between taking and giving up the call. */
    method Perform(bindingHolds: bool) returns (fault: Option<Reason>)
      requires Acting() && state == Running
      requires owner.value.phase == Prepared && !owner.value.terminal ==> Progress(owner.value.plan, trace) == 0
      modifies this`world, this`turn, this`owner, this`receipts, this`state, this`epoch, this`epochValid, this`trace
      ensures Acting() && owner.value.plan == old(owner).value.plan
      ensures state != Idle && old(receipts) <= receipts
      ensures fault.None? ==>
                && Progress(owner.value.plan, trace) == |Order(owner.value.plan)| && owner.value.phase == Metadata
                && !owner.value.terminal && state == Running
                && Admitted(owner.value, world, true, true, true)
      ensures old(owner).value.phase != Prepared || old(owner).value.terminal || !bindingHolds ==> fault.Some? && trace == old(trace)
      ensures env.Calm() && old(Held()) && bindingHolds && old(owner).value.phase == Prepared
              && Admitted(old(owner).value, old(world), false, false, true)
              && old(owner).value.plan.before != old(owner).value.plan.after ==>
                fault.None? && Held() && AppliedTo(owner.value.plan, old(world), world)
    {
      hide Since, Sound, Progress, On, Order, Admitted, Env.Calm;
      if owner.value.phase != Prepared || owner.value.terminal { return Some(DuplicateApply); }
      if !bindingHolds { return Some(ValidationBindingChanged); }
      fault := Guard(false, false, true);
      if fault.Some? { return; }
      if owner.value.plan.before == owner.value.plan.after { return Some(ForbiddenUnchanged); }
      hide Holds;
      ghost var a, w := owner.value, world;
      if owner.value.plan.resource.Some? {
        var called := EnterResource();
        if !called { return Some(SetterUnavailable); }
      }
      ResourceDone(a, owner.value, w);
      fault := Persist();
      if env.Calm() && fault.None? { ResultOf(a.plan, w, world); }
    }

    /** The file half of an application. */
    method Persist() returns (fault: Option<Reason>)
      requires Acting() && state != Idle && owner.value.plan.before != owner.value.plan.after
      requires Progress(owner.value.plan, trace) == if owner.value.plan.resource.Some? then 1 else 0
      modifies this`world, this`turn, this`owner, this`receipts, this`state, this`epoch, this`epochValid, this`trace
      ensures Acting() && owner.value.plan == old(owner).value.plan
      ensures state != Idle && old(receipts) <= receipts
      ensures fault.None? ==>
                && Progress(owner.value.plan, trace) == |Order(owner.value.plan)| && owner.value.phase == Metadata
                && !owner.value.terminal && state == Running
                && Admitted(owner.value, world, true, true, true)
      ensures env.Calm() && old(Held()) && Admitted(old(owner).value, old(world), false, true, true) ==>
                fault.None? && Held() && PersistedTo(owner.value.plan, old(world), world)
    {
      hide Since, Sound, Progress, On, Order, Admitted, Holds, Env.Calm;
      ghost var a, w := owner.value, world;
      fault := Guard(false, true, true);
      if fault.Some? { return; }
      fault := Guard(false, true, true);
      if fault.Some? { return; }
      fault := EnterDisk();
      if fault.Some? { return; }
      ghost var b := owner.value;
      DiskDone(a, b, w);
      fault := RestoreTime();
      if fault.Some? { return; }
      RestoredFlag(owner.value, serials, trace, receipts);
      RestoreDone(b, owner.value, w.(disk := a.plan.after), world.revision);
      fault := Guard(true, true, true);
    }

    /** The frame that took the call unwinds; a requested close takes effect now. */
    method Unwind()
      modifies this`state, this`session, this`owner, this`epochValid
      ensures state == Idle
      ensures old(state) == Closing ==> owner == None && session == 0 && !epochValid
      ensures old(state) != Closing ==> owner == old(owner) && session == old(session) && epochValid == old(epochValid)
    {
      var closing := state == Closing;
      state := Idle;
      if closing { owner, session, epochValid := None, 0, false; }
    }

    method Apply(request: nat, bindingHolds: bool) returns (r: Reply)
      requires Valid()
      modifies this
      ensures Valid() && AppliedStep(env, request, bindingHolds, old(Seen()), r, Seen())
    {
      hide Since, Sound, Progress, On, Order, Admitted, Disciplined, Told, Env.Calm, AppliedTo, Exact, Effects, Honest,
           Answered, ReceiptOf;
      if owner.None? || owner.value.plan.serial != request { return Reply(Refused, Some(WrongAttempt)); }
      Starts();
      state := Running;
      r := Applying(bindingHolds);
      SoundFacts(owner.value, serials, trace, receipts);
      Unwind();
    }

    /** Applies, and shows what has been entered. */
    method Applying(bindingHolds: bool) returns (r: Reply)
      requires Acting() && state == Running && hadTrace == trace && hadReceipts == receipts
      requires owner.value.phase == Prepared && !owner.value.terminal ==> Progress(owner.value.plan, trace) == 0
      modifies this`world, this`turn, this`owner, this`receipts, this`state, this`epoch, this`epochValid, this`trace
      ensures Acting() && state != Idle && owner.value.plan == old(owner).value.plan
      ensures Answered(owner.value.plan.serial, hadTrace, hadReceipts, trace, receipts)
      ensures r.status == Applied || r.status == Partial || r.status == Refused
      ensures r.status == Refused <==> Effects(trace, owner.value.plan.serial) == []
      ensures r.status == Applied ==>
                && !owner.value.terminal && state == Running && Admitted(owner.value, world, true, true, true)
                && Effects(trace, owner.value.plan.serial) == Order(owner.value.plan)
      ensures r.status != Applied ==> owner.value.terminal
      ensures r.status == Applied ==> owner.value.phase == Metadata
      ensures old(owner).value.phase != Prepared || old(owner).value.terminal || !bindingHolds ==> r.status != Applied && trace == old(trace)
      ensures env.Calm() && old(Held()) && bindingHolds && old(owner).value.phase == Prepared
              && Admitted(old(owner).value, old(world), false, false, true)
              && old(owner).value.plan.before != old(owner).value.plan.after ==>
                r.status == Applied && AppliedTo(owner.value.plan, old(world), world)
    {
      hide Since, Sound, Progress, On, Order, Admitted, Env.Calm, AppliedTo, Effects, Exact, Answered, Holds, ReceiptOf;
      var fault := Perform(bindingHolds);
      if fault.Some? {
        r := Fail(fault.value);
      } else {
        WholeOrder(owner.value, serials, trace, receipts);
        NonEmpty(owner.value.plan);
        r := Show(Applied, None);
      }
      AnsweredNow(owner.value, serials, hadTrace, hadReceipts, trace, receipts);
    }

    /** Prepares an attempt: the slot is taken before anything is sampled, so a refused preparation
        stays in the slot as a terminal attempt. */
    method Prepare(request: Request) returns (r: Reply)
      requires Valid()
      modifies this
      ensures Valid() && PreparedStep(env, request, old(Seen()), r, Seen())
    {
      hide Since, Sound, Progress, Order, Admitted, Disciplined, Told, Env.Calm, Preparable, PlanFrom, Provisional,
           Exact, Effects, Honest, Answered, ReceiptOf;
      PreparableTimely(request, session, epoch, epochValid, world);
      if owner.Some? || state != Idle { return Reply(Refused, Some(SlotBusy)); }
      if !request.bound || request.expires <= world.tick || request.expires - world.tick > EXPIRY_LIMIT {
        return Reply(Refused, Some(InvalidBinding));
      }
      Reserve(request);
      state := Running;
      r := Preparing(request);
      SoundFacts(owner.value, serials, trace, receipts);
      Unwind();
    }

    /** Takes the slot for a provisional attempt. */
    method Reserve(request: Request)
      requires Valid() && owner.None?
      modifies this`owner, this`serials, this`hadTrace, this`hadReceipts
      ensures Acting() && hadTrace == trace && hadReceipts == receipts && Progress(owner.value.plan, trace) == 0
      ensures owner == Some(Provisional(request, old(serials), session)) && serials == old(serials) + 1
      ensures owner.value.plan.serial == old(serials) && owner.value.plan.session == session
    {
      hide Since, Sound, Progress, Disciplined, Told, Provisional;
      Begin(request, session, serials, trace, receipts);
      owner, serials := Some(Provisional(request, serials, session)), serials + 1;
      Starts();
    }

    /** Samples, and shows what was found. */
    method Preparing(request: Request) returns (r: Reply)
      requires Acting() && state == Running && Progress(owner.value.plan, trace) == 0 && hadReceipts == receipts
      requires owner.value == Provisional(request, owner.value.plan.serial, owner.value.plan.session)
      modifies this`world, this`turn, this`owner, this`receipts, this`state, this`epoch, this`epochValid
      ensures Acting() && state != Idle && owner.value.plan.serial == old(owner).value.plan.serial
      ensures Progress(owner.value.plan, trace) == 0
      ensures Answered(owner.value.plan.serial, hadTrace, hadReceipts, trace, receipts)
      ensures r.status == AttemptPrepared || r.status == Refused
      ensures r.status == AttemptPrepared ==>
                && !owner.value.terminal && owner.value.phase == Prepared && state == Running
                && owner.value.plan.after == request.after && owner.value.plan.before == request.expected.disk
                && Admitted(owner.value, world, false, false, true)
      ensures r.status == Refused ==> owner.value.terminal
      ensures env.Calm() && old(owner).value.plan.session == old(session)
              && Preparable(request, old(session), old(epoch), old(epochValid), old(world)) ==>
                && r.status == AttemptPrepared && Held() && world == old(world)
                && owner.value.plan == PlanFrom(request, old(owner).value.plan.serial, old(session), old(epoch), old(world))
    {
      hide Since, Sound, Progress, Order, Admitted, Env.Calm, Preparable, PlanFrom, Provisional, Effects, Exact,
           Answered, ReceiptOf, Holds;
      var fault := Bind(request);
      NotEntered(owner.value, serials, trace, receipts);
      if fault.Some? {
        r := Fail(fault.value);
      } else {
        r := Show(AttemptPrepared, None);
      }
      AnsweredNow(owner.value, serials, hadTrace, hadReceipts, trace, receipts);
    }

    /** Samples the target and fixes the plan. */
    method Bind(request: Request) returns (fault: Option<Reason>)
      requires Acting() && state == Running && Progress(owner.value.plan, trace) == 0
      requires owner.value == Provisional(request, owner.value.plan.serial, owner.value.plan.session)
      modifies this`world, this`turn, this`owner, this`receipts, this`state, this`epoch, this`epochValid
      ensures Acting() && state != Idle && owner.value.plan.serial == old(owner).value.plan.serial && old(receipts) <= receipts
      ensures Progress(owner.value.plan, trace) == 0
      ensures fault.None? ==>
                && !owner.value.terminal && owner.value.phase == Prepared && state == Running
                && owner.value.plan.after == request.after && owner.value.plan.before == request.expected.disk
                && Admitted(owner.value, world, false, false, true)
      ensures env.Calm() && old(owner).value.plan.session == old(session)
              && Preparable(request, old(session), old(epoch), old(epochValid), old(world)) ==>
                && fault.None? && Held() && world == old(world)
                && owner.value.plan == PlanFrom(request, old(owner).value.plan.serial, old(session), old(epoch), old(world))
    {
      hide Since, Sound, Order, Admitted, Env.Calm;
      var serial, session := owner.value.plan.serial, owner.value.plan.session;
      var captured := Ask();
      if !captured { return Some(SettingsChanged); }
      Call(world);
      if !world.attached { return Some(NamespaceChanged); }
      if !world.closed { return Some(TargetOpen); }
      if !world.sampled || !epochValid { return Some(SampleUnavailable); }
      if world.edited { return Some(ResourceEdited); }
      if world.resource.Some? && world.resource.value.1 != world.disk { return Some(ResourceDiskDivergent); }
      if ExpectedOf(world, epoch) != request.expected { return Some(ExpectedChanged); }
      if !request.supported { return Some(UnsupportedSource); }
      var pinned := Ask();
      if !pinned { return Some(NamespaceChanged); }
      Becomes(owner.value.(plan := PlanFrom(request, serial, session, epoch, world)));
      FreshlyAdmitted(request, owner.value, epoch, world);
      fault := Guard(false, false, true);
    }

    /** Verification of the original before, or of the result after, the write. */
    method Verify(request: nat, purpose: Purpose, recheck: bool) returns (r: Reply)
      requires Valid()
      modifies this
      ensures Valid() && VerifiedStep(env, request, purpose, recheck, old(Seen()), r, Seen())
    {
      hide Since, Sound, Progress, Order, Admitted, Disciplined, Told, Exact, Effects, Honest, Answered, ReceiptOf;
      if owner.None? || owner.value.plan.serial != request { return Reply(Refused, Some(WrongAttempt)); }
      Starts();
      state := Running;
      r := Examined(purpose, recheck);
      SoundFacts(owner.value, serials, trace, receipts);
      Unwind();
    }

    /** Samples, and shows what was found. */
    method Examined(purpose: Purpose, recheck: bool) returns (r: Reply)
      requires Acting() && state == Running && hadReceipts == receipts
      modifies this`world, this`turn, this`owner, this`receipts, this`state, this`epoch, this`epochValid
      ensures Acting() && state != Idle && owner.value.plan == old(owner).value.plan
      ensures Answered(owner.value.plan.serial, hadTrace, hadReceipts, trace, receipts)
      ensures old(owner).value.phase == owner.value.phase && (old(owner).value.terminal ==> owner.value.terminal)
      ensures r.status == Verified || r.status == Rechecked ==>
                && !owner.value.terminal && state == Running && r.status == (if recheck then Rechecked else Verified)
                && purpose != UnknownPurpose
                && (if purpose == PostChange then Admitted(owner.value, world, true, true, true)
                    else Admitted(owner.value, world, false, false, true))
                && (purpose == Unchanged ==> owner.value.plan.before == owner.value.plan.after)
      ensures env.Calm() && old(Held()) && Verifiable(old(owner).value, old(world), purpose) ==>
                r.status == (if recheck then Rechecked else Verified) && owner == old(owner) && world == old(world) && state != Closing
    {
      hide Since, Sound, Admitted, Env.Calm, Answered, Effects, ReceiptOf, Holds;
      var survivor, fault := false, Some(InvalidPurpose);
      if purpose != UnknownPurpose { survivor, fault := Examine(purpose); }
      if survivor {
        r := Show(Partial, owner.value.reason);
      } else if fault.Some? {
        r := Fail(fault.value);
      } else {
        r := Show(if recheck then Rechecked else Verified, None);
      }
      AnsweredNow(owner.value, serials, hadTrace, hadReceipts, trace, receipts);
    }

    /** The sample behind a verification; a failed attempt may still be observed after the change. */
    method Examine(purpose: Purpose) returns (survivor: bool, fault: Option<Reason>)
      requires Acting() && state == Running && purpose != UnknownPurpose
      modifies this`world, this`turn, this`owner, this`receipts, this`state, this`epoch, this`epochValid
      ensures Acting() && OnlyFails()
      ensures !survivor && fault.None? ==>
                && !owner.value.terminal && state == Running && owner == old(owner)
                && (if purpose == PostChange then Admitted(owner.value, world, true, true, true)
                    else Admitted(owner.value, world, false, false, true))
                && (purpose == Unchanged ==> owner.value.plan.before == owner.value.plan.after)
      ensures env.Calm() && old(Held()) && Verifiable(old(owner).value, old(world), purpose) ==>
                !survivor && fault.None? && world == old(world)
    {
      hide Since, Sound, Admitted;
      var after := purpose == PostChange;
      if owner.value.terminal && after {
        Call(world);
        return true, None;
      }
      if owner.value.phase != (if after then Metadata else Prepared)
         || (purpose == Unchanged && owner.value.plan.before != owner.value.plan.after) {
        return false, Some(InvalidStage);
      }
      fault := Guard(after, after, true);
      if fault.Some? { return false, fault; }
      var sameContext := Ask();
      if !after && !sameContext { return false, Some(ContextChanged); }
      return false, None;
    }

    method Finish(request: nat) returns (r: Reply)
      requires Valid()
      modifies this`owner, this`receipts, this`hadTrace, this`hadReceipts
      ensures Valid()
      ensures if Named(request, old(Seen()))
              then Seen() == old(Seen()).(owner := None, receipts := old(receipts) + [ReceiptOf(old(owner).value.(terminal := true))])
                   && r == Reply(Finished, old(owner).value.reason)
              else Seen() == old(Seen()) && r == Reply(Refused, Some(WrongAttempt))
    {
      hide Since, Sound, Progress, Disciplined, Told;
      if owner.None? || owner.value.plan.serial != request { return Reply(Refused, Some(WrongAttempt)); }
      Starts();
      SoundFacts(owner.value, serials, trace, receipts);
      Becomes(owner.value.(terminal := true));
      r := Show(Finished, owner.value.reason);
      SoundFacts(owner.value, serials, trace, receipts);
      owner := None;
    }

    method Abort(request: nat) returns (r: Reply)
      requires Valid()
      modifies this`owner, this`receipts, this`hadTrace, this`hadReceipts
      ensures Valid()
      ensures if Named(request, old(Seen()))
              then Seen() == old(Seen()).(owner := None, receipts := old(receipts) + [ReceiptOf(Discarded(old(owner).value, Cancelled))])
                   && r.status == if Entered(old(owner).value) then Partial else Refused
              else Seen() == old(Seen()) && r == Reply(Refused, Some(WrongAttempt))
    {
      hide Since, Sound, Progress, Disciplined, Told;
      if owner.None? || owner.value.plan.serial != request { return Reply(Refused, Some(WrongAttempt)); }
      Starts();
      r := Fail(Cancelled);
      SoundFacts(owner.value, serials, trace, receipts);
      owner := None;
    }

    method Expire() returns (due: bool)
      requires Valid()
      modifies this`owner, this`receipts, this`hadTrace, this`hadReceipts
      ensures Valid() && (due <==> old(owner).Some? && world.tick >= old(owner).value.expires)
      ensures Seen() == if due
                        then old(Seen()).(owner := None, receipts := old(receipts) + [ReceiptOf(Discarded(old(owner).value, Expired))])
                        else old(Seen())
    {
      hide Since, Sound, Progress, Disciplined, Told;
      if owner.None? || world.tick < owner.value.expires { return false; }
      Starts();
      var _ := Fail(Expired);
      SoundFacts(owner.value, serials, trace, receipts);
      owner := None;
      return true;
    }

    method CloseSession()
      requires Valid()
      modifies this`owner, this`session, this`epochValid
      ensures Valid() && Seen() == old(Seen()).(owner := None, session := 0, epochValid := false)
    {
      owner, session, epochValid := None, 0, false;
    }

    method Configure(id: nat) returns (ok: bool)
      requires Valid()
      modifies this`session, this`epoch, this`epochValid
      ensures Valid()
      ensures ok <==> old(owner).None? && id != 0
      ensures Seen() == if ok then Configured(id, old(Seen())) else old(Seen())
    {
      if owner.Some? || id == 0 { return false; }
      if epoch < EPOCH_LIMIT { epoch := epoch + 1; }
      session, epochValid := id, epoch < EPOCH_LIMIT;
      return true;
    }
  }

  lemma AdmittedJustifies(effect: Effect, a: Attempt, w: World, diskAfter: bool, resourceAfter: bool, metadata: bool)
    requires Admitted(a, w, diskAfter, resourceAfter, metadata)
    ensures effect == SetResource && !diskAfter && !resourceAfter && a.plan.before != a.plan.after ==>
              Justified(Entry(effect, a.plan, w))
    ensures effect == Effect.EnterDisk && !diskAfter && resourceAfter && a.plan.before != a.plan.after ==>
              Justified(Entry(effect, a.plan, w))
    ensures effect == EnterRestore && diskAfter && resourceAfter ==> Justified(Entry(effect, a.plan, w))
  {
  }

  lemma FirstEffect(plan: Plan)
    ensures plan.resource.Some? ==> |Order(plan)| == 7 && Order(plan)[0] == SetResource
  {
  }

  lemma DiskEffects(plan: Plan)
    ensures var n := |Order(plan)|;
            n >= 6 && Order(plan)[n - 6] == Effect.EnterDisk && Order(plan)[n - 5] == Truncated && Order(plan)[n - 4] == Flushed
            && Order(plan)[n - 3] == ReadBack && Order(plan)[n - 2] == EnterRestore && Order(plan)[n - 1] == Restored
            && n == if plan.resource.Some? then 7 else 6
  {
  }

  lemma ResourceFlag(a: Attempt, serials: nat, trace: seq<Entry>, receipts: seq<ClosedEffects.Receipt>)
    requires Sound(a, serials, trace, receipts) && a.plan.resource.Some? && Progress(a.plan, trace) > 0
    ensures a.flags.resourceEntered && (a.written > 0 ==> a.flags.diskEntered)
  {
    var effects := Effects(trace, a.plan.serial);
    assert effects[0] == Order(a.plan)[0] && effects[0] in effects;
  }

  lemma DiskFlag(a: Attempt, serials: nat, trace: seq<Entry>, receipts: seq<ClosedEffects.Receipt>)
    requires Sound(a, serials, trace, receipts) && Progress(a.plan, trace) > |Order(a.plan)| - 6
    ensures a.flags.diskEntered && (a.resourceChanged ==> a.flags.resourceEntered)
  {
    var effects, k := Effects(trace, a.plan.serial), |Order(a.plan)| - 6;
    DiskEffects(a.plan);
    assert effects[k] == Order(a.plan)[k] && effects[k] in effects;
  }

  lemma WholeOrder(a: Attempt, serials: nat, trace: seq<Entry>, receipts: seq<ClosedEffects.Receipt>)
    requires Sound(a, serials, trace, receipts) && Progress(a.plan, trace) == |Order(a.plan)|
    ensures Effects(trace, a.plan.serial) == Order(a.plan)
  {
  }

  /** What an uninterrupted application leaves. */
  predicate AppliedTo(plan: Plan, w: World, w': World) {
    && w' == w.(disk := plan.after, revision := w'.revision,
                resource := if plan.resource.Some? then Some((plan.resource.value, plan.after)) else w.resource)
    && w'.revision.mtime == plan.original.mtime
  }

  predicate PersistedTo(plan: Plan, w: World, w': World) {
    w' == w.(disk := plan.after, revision := w'.revision) && w'.revision.mtime == plan.original.mtime
  }

  lemma ResultOf(plan: Plan, w: World, w': World)
    ensures var v := w.(resource := if plan.resource.Some? then Some((plan.resource.value, plan.after)) else w.resource);
            PersistedTo(plan, v, w') ==> AppliedTo(plan, w, w')
  {
  }

  /** A request that names the target exactly as it is. */
  predicate Preparable(request: Request, session: nat, epoch: nat, epochValid: bool, w: World) {
    && request.bound && request.supported && epochValid
    && w.tick < request.expires <= w.tick + EXPIRY_LIMIT
    && request.expected == ExpectedOf(w, epoch)
    && w.attached && w.closed && w.sampled && !w.edited
    && (w.resource.Some? ==> w.resource.value.1 == w.disk)
  }

  lemma PreparableTimely(request: Request, session: nat, epoch: nat, epochValid: bool, w: World)
    ensures Preparable(request, session, epoch, epochValid, w) ==>
              request.bound && w.tick < request.expires <= w.tick + EXPIRY_LIMIT
  {
  }

  lemma FreshlyAdmitted(request: Request, a: Attempt, epoch: nat, w: World)
    requires a.plan == PlanFrom(request, a.plan.serial, a.plan.session, epoch, w)
    requires w.attached && w.closed && w.sampled && !w.edited && (w.resource.Some? ==> w.resource.value.1 == w.disk)
    ensures Admitted(a, w, false, false, true)
  {
  }

  lemma ResourceDone(a: Attempt, b: Attempt, w: World)
    requires b.plan == a.plan
    ensures Admitted(a, w, false, false, true) ==>
              Admitted(b, w.(resource := if a.plan.resource.Some? then Some((a.plan.resource.value, a.plan.after)) else w.resource),
                       false, true, true)
  {
  }

  lemma DiskDone(a: Attempt, b: Attempt, w: World)
    requires b.plan == a.plan
    ensures Admitted(a, w, false, true, true) ==> Admitted(b, w.(disk := a.plan.after), true, true, false)
  {
  }

  lemma RestoreDone(a: Attempt, b: Attempt, w: World, revision: Revision)
    requires b.plan == a.plan && b.flags.restored && b.verified == revision && revision.mtime == a.plan.original.mtime
    ensures Admitted(a, w, true, true, false) ==>
              Admitted(b, w.(revision := revision), true, true, true)
  {
  }

  lemma RestoredFlag(a: Attempt, serials: nat, trace: seq<Entry>, receipts: seq<ClosedEffects.Receipt>)
    requires Sound(a, serials, trace, receipts) && Progress(a.plan, trace) == |Order(a.plan)|
    ensures a.flags.restored
  {
    WholeOrder(a, serials, trace, receipts);
    DiskEffects(a.plan);
    assert Order(a.plan)[|Order(a.plan)| - 1] in Effects(trace, a.plan.serial);
  }

  lemma AdmittedAttached(a: Attempt, w: World, diskAfter: bool, resourceAfter: bool, metadata: bool)
    requires Admitted(a, w, diskAfter, resourceAfter, metadata)
    ensures w.attached
  {
  }

  lemma AdmittedSettings(a: Attempt, w: World, diskAfter: bool, resourceAfter: bool, metadata: bool)
    ensures Admitted(a, w, diskAfter, resourceAfter, metadata) ==> w.settings == a.plan.settings
  {
  }

  lemma SoundFacts(a: Attempt, serials: nat, trace: seq<Entry>, receipts: seq<ClosedEffects.Receipt>)
    requires Sound(a, serials, trace, receipts)
    ensures a.resourceChanged ==> a.flags.resourceEntered
    ensures a.written > 0 ==> a.flags.diskEntered
    ensures Disciplined(trace, serials) && Told(receipts, trace, serials)
  {
  }

  lemma Begin(request: Request, session: nat, serials: nat, trace: seq<Entry>, receipts: seq<ClosedEffects.Receipt>)
    requires Disciplined(trace, serials) && Told(receipts, trace, serials)
    ensures var a := Provisional(request, serials, session);
            Sound(a, serials + 1, trace, receipts) && Progress(a.plan, trace) == 0
            && a.plan.serial == serials && a.plan.session == session
  {
    hide Justified, Honest;
    NoEffects(trace, serials);
  }

  // ---- whole runs ----

  datatype Op =
    | DoPrepare(request: Request)
    | DoApply(attempt: nat, bindingHolds: bool)
    | DoVerify(attempt: nat, purpose: Purpose, recheck: bool)
    | DoFinish(attempt: nat)
    | DoAbort(attempt: nat)
    | DoExpire
    | DoClose
    | DoConfigure(id: nat)
    | DoInterfere(epochSignal: bool)

  /** One operation of a run: what it does to the slot and what it answers. */
  ghost predicate Stepped(env: Env, op: Op, s: View, r: Option<Reply>, t: View) {
    match op
    case DoPrepare(request) => r.Some? && PreparedStep(env, request, s, r.value, t)
    case DoApply(attempt, bindingHolds) => r.Some? && AppliedStep(env, attempt, bindingHolds, s, r.value, t)
    case DoVerify(attempt, purpose, recheck) => r.Some? && VerifiedStep(env, attempt, purpose, recheck, s, r.value, t)
    case DoFinish(attempt) =>
      if Named(attempt, s)
      then t == s.(owner := None, receipts := s.receipts + [ReceiptOf(s.owner.value.(terminal := true))])
           && r == Some(Reply(Finished, s.owner.value.reason))
      else t == s && r == Some(Reply(Refused, Some(WrongAttempt)))
    case DoAbort(attempt) =>
      if Named(attempt, s)
      then t == s.(owner := None, receipts := s.receipts + [ReceiptOf(Discarded(s.owner.value, Cancelled))])
           && r.Some? && r.value.status == if Entered(s.owner.value) then Partial else Refused
      else t == s && r == Some(Reply(Refused, Some(WrongAttempt)))
    case DoExpire =>
      r == None && t == if s.owner.Some? && s.world.tick >= s.owner.value.expires
                        then s.(owner := None, receipts := s.receipts + [ReceiptOf(Discarded(s.owner.value, Expired))]) else s
    case DoClose => r == None && t == s.(owner := None, session := 0, epochValid := false)
    case DoConfigure(id) => r == None && t == if s.owner.None? && id != 0 then Configured(id, s) else s
    case DoInterfere(epochSignal) =>
      && r == None
      && t == s.(world := env.interfere(s.turn, s.world), turn := s.turn + 1,
                 epoch := if epochSignal && s.epoch < EPOCH_LIMIT then s.epoch + 1 else s.epoch,
                 epochValid := s.epochValid && !(epochSignal && s.epoch >= EPOCH_LIMIT))
  }

  /** The view operation `k` started from. */
  function Before(first: View, views: seq<View>, k: nat): View
    requires k <= |views|
  {
    if k == 0 then first else views[k - 1]
  }

  /** Every view and reply is what the operation made of the view before it. */
  ghost predicate Chained(env: Env, first: View, ops: seq<Op>, views: seq<View>, replies: seq<Option<Reply>>) {
    && |views| == |replies| <= |ops|
    && forall k | 0 <= k < |views| :: Stepped(env, ops[k], Before(first, views, k), replies[k], views[k])
  }

  lemma NothingChained(env: Env, first: View, ops: seq<Op>)
    ensures Chained(env, first, ops, [], [])
  {
  }

  lemma ChainOn(env: Env, first: View, ops: seq<Op>, views: seq<View>, replies: seq<Option<Reply>>, r: Option<Reply>, t: View)
    requires Chained(env, first, ops, views, replies) && |views| < |ops|
    requires Stepped(env, ops[|views|], Before(first, views, |views|), r, t)
    ensures Chained(env, first, ops, views + [t], replies + [r])
  {
    hide Stepped;
    forall k | 0 <= k < |views| + 1
      ensures Stepped(env, ops[k], Before(first, views + [t], k), (replies + [r])[k], (views + [t])[k])
    {
      assert Before(first, views + [t], k) == Before(first, views, k);
    }
  }

  method Perform(slot: Slot, op: Op) returns (r: Option<Reply>)
    requires slot.Valid()
    modifies slot
    ensures slot.Valid() && Stepped(slot.env, op, old(slot.Seen()), r, slot.Seen())
  {
    hide Since, Sound, Progress, Disciplined, Told, Slot.Valid, PreparedStep, AppliedStep, VerifiedStep, Discarded,
         ReceiptOf, Configured;
    r := None;
    match op {
      case DoPrepare(request) =>
        var reply := slot.Prepare(request);
        r := Some(reply);
      case DoApply(attempt, bindingHolds) =>
        var reply := slot.Apply(attempt, bindingHolds);
        r := Some(reply);
      case DoVerify(attempt, purpose, recheck) =>
        var reply := slot.Verify(attempt, purpose, recheck);
        r := Some(reply);
      case DoFinish(attempt) =>
        var reply := slot.Finish(attempt);
        r := Some(reply);
      case DoAbort(attempt) =>
        var reply := slot.Abort(attempt);
        r := Some(reply);
      case DoExpire => var _ := slot.Expire();
      case DoClose => slot.CloseSession();
      case DoConfigure(id) => var _ := slot.Configure(id);
      case DoInterfere(epochSignal) =>
        slot.Others(slot.world);
        if epochSignal {
          if slot.epoch >= EPOCH_LIMIT { slot.epochValid := false; } else { slot.epoch := slot.epoch + 1; }
        }
    }
  }

  /** What holds of the effects and receipts at any moment of a run. */
  ghost predicate Orderly(v: View) {
    && (forall e | e in v.trace :: Justified(e))
    && (forall serial: nat :: InOrder(Effects(v.trace, serial)))
    && (forall r | r in v.receipts :: Honest(r, Effects(v.trace, r.serial)))
    && (v.owner.Some? ==> Matches(v.owner.value, Effects(v.trace, v.owner.value.plan.serial)))
  }

  lemma OrderlyNow(slot: Slot)
    requires slot.Valid()
    ensures Orderly(slot.Seen())
  {
    hide Justified, InOrder, Honest, Matches, Effects;
  }

  /** Any sequence of requests, timer ticks, closes and interference, with any callbacks inside. */
  method Run(env: Env, world: World, session: nat, ops: seq<Op>) returns (views: seq<View>, replies: seq<Option<Reply>>)
    ensures |views| == |ops| && Chained(env, Start(world, session), ops, views, replies)
    ensures forall v | v in views :: Orderly(v)
  {
    hide Stepped, Orderly, Slot.Valid, Chained;
    var slot := new Slot(env, world, session, 0);
    views, replies := [], [];
    NothingChained(env, Start(world, session), ops);
    for i := 0 to |ops|
      invariant slot.Valid() && slot.env == env && |views| == |replies| == i && slot.Seen() == Before(Start(world, session), views, i)
      invariant Chained(env, Start(world, session), ops, views, replies) && forall v | v in views :: Orderly(v)
    {
      var r := Perform(slot, ops[i]);
      OrderlyNow(slot);
      ChainOn(env, Start(world, session), ops, views, replies, r, slot.Seen());
      views, replies := views + [slot.Seen()], replies + [r];
    }
  }

  function Start(world: World, session: nat): View {
    View(world, 0, session, 0, true, None, 0, [], [])
  }

  /** With nobody interfering, a request that names a closed, clean script exactly is applied: file
      and cached resource hold the candidate and the modification time is the original one. */
  method UninterruptedEdit(env: Env, world: World, session: nat, request: Request)
    returns (views: seq<View>, replies: seq<Option<Reply>>)
    requires env.Calm() && Preparable(request, session, 0, true, world) && request.after != world.disk
    ensures |views| == 2 && Chained(env, Start(world, session), [DoPrepare(request), DoApply(0, true)], views, replies)
    ensures replies[0].Some? && replies[0].value.status == AttemptPrepared
    ensures replies[1].Some? && replies[1].value.status == Applied
    ensures var end := views[1].world;
            && end.disk == request.after && end.revision.mtime == world.revision.mtime
            && end.resource == (if world.resource.Some? then Some((world.resource.value.0, request.after)) else None)
            && end == world.(disk := end.disk, resource := end.resource, revision := end.revision)
  {
    hide Env.Calm, Preparable, Admitted, Holds, Answered, Orderly;
    var ops := [DoPrepare(request), DoApply(0, true)];
    views, replies := Run(env, world, session, ops);
    PreparableTimely(request, session, 0, true, world);
    assert Stepped(env, ops[0], Start(world, session), replies[0], views[0]);
    assert Stepped(env, ops[1], views[0], replies[1], views[1]);
  }

  /** The client's verdict agrees with what the attempt did. Whatever part of an attempt's receipts
      it merged, in whatever order and however often: an authorized "not applied" means that no
      effect was entered in the whole run, and "verified changed" means that truncation, flush,
      read-back and the restored time all happened. */
  lemma VerdictIsTrue(trace: seq<Entry>, receipts: seq<ClosedEffects.Receipt>, serial: nat, merged: seq<ClosedEffects.Receipt>,
                      verified: bool, noChange: bool, denied: bool, present: bool)
    requires forall r | r in receipts :: Honest(r, Effects(trace, r.serial))
    requires forall r | r in merged :: r in receipts && r.serial == serial
    ensures var e := ClosedEffects.MergeAll(ClosedEffects.Nothing(true), merged);
            var (verdict, application) := ClosedEffects.Outcome(e, verified, noChange, denied, present);
            && (application.NotApplied? ==> Effects(trace, serial) == [])
            && (verdict.VerifiedChanged? ==>
                  forall x | x in [Effect.EnterDisk, Truncated, Flushed, ReadBack, Restored] :: x in Effects(trace, serial))
            && (verdict.VerifiedChanged? && present ==> SetResource in Effects(trace, serial))
  {
    hide Effects;
    ClosedEffects.MergeIsJoin(true, merged);
    ClosedEffects.NotAppliedNeedsRefusal(merged, verified, noChange, denied, present);
  }

  /** The receipts of attempt `serial` among the picked ones, in the order in which they were picked. */
  function Picked(receipts: seq<ClosedEffects.Receipt>, serial: nat, picks: seq<nat>): seq<ClosedEffects.Receipt> {
    if picks == [] then []
    else
      var last := picks[|picks| - 1];
      Picked(receipts, serial, picks[..|picks| - 1]) +
      if last < |receipts| && receipts[last].serial == serial then [receipts[last]] else []
  }

  /** A whole edit as the client sees it: any operations on the slot, then any selection of the receipts
      of one attempt, in any order and with repetitions. The answer is the verdict on exactly those receipts,
      and it agrees with what the attempt did. */
  method Conclude(env: Env, world: World, session: nat, ops: seq<Op>, serial: nat, picks: seq<nat>, verified: bool, noChange: bool,
                  denied: bool, present: bool)
    returns (verdict: ClosedEffects.Verdict, application: ClosedEffects.Application, views: seq<View>, replies: seq<Option<Reply>>)
    ensures |views| == |ops| && Chained(env, Start(world, session), ops, views, replies)
    ensures var merged := Picked(Before(Start(world, session), views, |views|).receipts, serial, picks);
            (verdict, application) ==
            ClosedEffects.Outcome(ClosedEffects.MergeAll(ClosedEffects.Nothing(true), merged), verified, noChange, denied, present)
    ensures var effects := Effects(Before(Start(world, session), views, |views|).trace, serial);
            && (application.NotApplied? ==> effects == [])
            && (verdict.VerifiedChanged? ==>
                  forall x | x in [Effect.EnterDisk, Truncated, Flushed, ReadBack, Restored] :: x in effects)
            && (verdict.VerifiedChanged? && present ==> SetResource in effects)
  {
    hide Chained, Effects, Honest, Orderly, ClosedEffects.Outcome, ClosedEffects.Reducer.Valid, ClosedEffects.MergeAll;
    views, replies := Run(env, world, session, ops);
    var last := Before(Start(world, session), views, |views|);
    LastOrderly(world, session, views);
    var reducer := new ClosedEffects.Reducer(true);
    for k := 0 to |picks|
      invariant reducer.Valid() && reducer.effects.authorized
      invariant reducer.seen == Picked(last.receipts, serial, picks[..k])
      invariant forall r | r in reducer.seen :: r in last.receipts && r.serial == serial
    {
      assert picks[..k + 1][..k] == picks[..k];
      if picks[k] < |last.receipts| && last.receipts[picks[k]].serial == serial { reducer.Merge(last.receipts[picks[k]]); }
    }
    assert picks[..|picks|] == picks;
    var outcome := ClosedEffects.Outcome(reducer.effects, verified, noChange, denied, present);
    verdict, application := outcome.0, outcome.1;
    ReducedIsJoin(reducer);
    VerdictIsTrue(last.trace, last.receipts, serial, reducer.seen, verified, noChange, denied, present);
  }

  lemma LastOrderly(world: World, session: nat, views: seq<View>)
    requires forall v | v in views :: Orderly(v)
    ensures var last := Before(Start(world, session), views, |views|);
            forall r | r in last.receipts :: Honest(r, Effects(last.trace, r.serial))
  {
    hide Honest, Effects, InOrder, Justified, Matches;
    if views != [] { assert views[|views| - 1] in views; }
  }

  lemma ReducedIsJoin(reducer: ClosedEffects.Reducer)
    requires reducer.Valid() && reducer.effects.authorized
    ensures reducer.effects == ClosedEffects.MergeAll(ClosedEffects.Nothing(true), reducer.seen)
  {
    hide ClosedEffects.IsJoin;
    ClosedEffects.MergeIsJoin(true, reducer.seen);
    ClosedEffects.JoinIsUnique(true, reducer.seen, reducer.seen, reducer.effects,
                               ClosedEffects.MergeAll(ClosedEffects.Nothing(true), reducer.seen));
  }
}
