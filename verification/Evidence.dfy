/** Once-observed evidence and its one way into "invalidated": sources, document facts and the
    dirty state, and what a detected change does to them. */
module Evidence {
  import opened Wrappers

  datatype Authority = D | R | B

  datatype ScriptKind = ExternalGdscript | BuiltinGdscript

  /** A resource path and the kind of script its form allows. */
  datatype ResourcePath = ResourcePath(name: nat, kind: Option<ScriptKind>)

  type FileIdentity = (nat, nat)

  datatype Request = Request(id: nat, root: nat, session: Option<nat>, path: ResourcePath)

  datatype Target = Target(request: nat, root: nat, projectFile: FileIdentity, session: nat, version: nat, path: ResourcePath)

  datatype Clock = Caller | Editor(session: nat)

  datatype Stamp = Stamp(clock: Clock, started: nat, finished: nat, received: nat)

  datatype Identity = Identity(kind: ScriptKind, path: ResourcePath, script: Option<nat>, editor: Option<nat>,
                               buffer: Option<nat>, disk: Option<FileIdentity>)

  datatype Witness = Witness(path: ResourcePath, script: Option<nat>, editor: Option<nat>, buffer: Option<nat>,
                             disk: Option<FileIdentity>, version: Option<nat>)

  datatype StaleChange = StaleChange(incorporated: nat, authority: Authority, version: nat, stamp: Stamp, seen: Witness)

  datatype EvidenceError =
    | WrongTarget | InvalidTiming | WrongClock | InvalidDocument | InvalidAvailability | InvalidStaleness | InvalidReason
    | InvalidSelection

  datatype SourceReason =
    | TooLarge | DiskMissing | DiskUnreadable | InvalidUtf8 | NoStandaloneDiskSource | ResourceNotLoaded | ResourceUnreadable
    | BufferUnreadable | BufferAttributionUnavailable | OpenStateUnknown | IdentityChanged | SourceChanged | DocumentClosed
    | SessionEnded | DeadlineExceeded | UnsupportedCapability | DocumentNotOpen
  {
    predicate Applicable(authority: Authority) {
      match this
      case DiskMissing => authority == D
      case DiskUnreadable => authority == D
      case InvalidUtf8 => authority == D
      case NoStandaloneDiskSource => authority == D
      case ResourceNotLoaded => authority == R
      case ResourceUnreadable => authority == R
      case BufferUnreadable => authority == B
      case BufferAttributionUnavailable => authority == B
      case OpenStateUnknown => authority == B
      case DocumentNotOpen => authority == B
      case DocumentClosed => authority == B
      case SessionEnded => authority != D
      case _ => true
    }
  }

  datatype DirtyReason =
    | DirtyAttributionUnavailable | DirtyUnsupported | DirtyOpenUnknown | DirtyIdentityChanged | DirtySourceChanged
    | DirtyDocumentClosed | DirtySessionEnded | DirtyDeadline | DirtyNotOpen

  datatype FactReason =
    | FactUnavailable | FactOpenUnknown | FactIdentityChanged | FactSourceChanged | FactDocumentClosed | FactSessionEnded
    | FactDeadline

  // ---- sources ----

  datatype Observation = Observation(text: string, stamp: Stamp, seen: Witness, stale: Option<seq<StaleChange>>)

  datatype SourceState =
    | Observed(value: Observation)
    | Unavailable(reason: SourceReason, invalidated: Option<(Observation, SourceReason)>)
    | NotApplicable

  datatype Source = Source(authority: Authority, state: SourceState)
  {
    function Text(): Option<string> {
      if state.Observed? then Some(state.value.text) else None
    }

    function Invalidated(): Option<(Observation, SourceReason)> {
      if state.Unavailable? then state.invalidated else None
    }

    function Reason(): Option<SourceReason> {
      match state
      case Observed(_) => None
      case Unavailable(reason, _) => Some(reason)
      case NotApplicable => Some(DocumentNotOpen)
    }

    /** Moves observed text into invalidated evidence; the first invalidated value stays. */
    function Invalidate(reason: SourceReason): Result<Source, EvidenceError> {
      if !reason.Applicable(authority) || reason == DocumentNotOpen then Err(InvalidReason)
      else if state.NotApplicable? && reason != IdentityChanged && reason != SessionEnded then Err(InvalidAvailability)
      else
        Ok(Source(authority, Unavailable(reason,
          match state
          case Observed(value) => Some((value, reason))
          case Unavailable(_, invalidated) => invalidated
          case NotApplicable => None)))
    }
  }

  /** The only way a source may develop: it stays as it is, or becomes unavailable while its first
      observed value and the first reason against it are kept. */
  predicate SourceDegrades(a: Source, b: Source) {
    && a.authority == b.authority
    && match b.state
       case Observed(_) => b == a
       case NotApplicable => b == a
       case Unavailable(_, invalidated) =>
         match a.state
         case Observed(value) => invalidated.Some? && invalidated.value.0 == value
         case Unavailable(_, before) => invalidated == before
         case NotApplicable => invalidated == None
  }

  lemma SourceDegradesOnward(a: Source, b: Source, c: Source)
    requires SourceDegrades(a, b) && SourceDegrades(b, c)
    ensures SourceDegrades(a, c)
  {
  }

  /** Invalidation keeps what was known and never makes anything current. */
  lemma InvalidateDegrades(s: Source, reason: SourceReason)
    requires s.Invalidate(reason).Ok?
    ensures SourceDegrades(s, s.Invalidate(reason).value)
    ensures s.Invalidate(reason).value.Reason() == Some(reason)
  {
  }

  // ---- document facts ----

  datatype Validity = Valid | Missing | Invalid

  datatype OpenState = Open | NotOpen

  datatype Fact<T> =
    | Known(value: T, stamp: Stamp)
    | Unknown(reason: FactReason, invalidated: Option<(T, Stamp, FactReason)>)
  {
    function Value(): Option<T> {
      if Known? then Some(value) else None
    }

    function Because(): Option<FactReason> {
      if Unknown? then Some(reason) else None
    }

    function Invalidate(why: FactReason): Fact<T> {
      match this
      case Known(v, s) => Unknown(why, Some((v, s, why)))
      case Unknown(_, before) => Unknown(why, before)
    }
  }

  predicate FactDegrades<T(==)>(a: Fact<T>, b: Fact<T>) {
    match b
    case Known(_, _) => b == a
    case Unknown(_, invalidated) =>
      match a
      case Known(value, stamp) => invalidated.Some? && invalidated.value.0 == value && invalidated.value.1 == stamp
      case Unknown(_, before) => invalidated == before
  }

  // ---- the dirty state ----

  datatype Dirty =
    | DirtyObserved(dirty: bool, stamp: Stamp, seen: Witness)
    | DirtyUnavailable(reason: DirtyReason, invalidated: Option<(bool, Stamp, Witness, DirtyReason)>)
    | DirtyNotApplicable
  {
    function Because(): Option<DirtyReason> {
      match this
      case DirtyObserved(_, _, _) => None
      case DirtyUnavailable(reason, _) => Some(reason)
      case DirtyNotApplicable => Some(DirtyNotOpen)
    }

    function Invalidated(): Option<(bool, Stamp, Witness, DirtyReason)> {
      if DirtyUnavailable? then invalidated else None
    }

    function Invalidate(why: DirtyReason): Result<Dirty, EvidenceError> {
      if why == DirtyNotOpen then Err(InvalidReason)
      else if DirtyNotApplicable? && why != DirtyIdentityChanged && why != DirtySessionEnded then Err(InvalidAvailability)
      else
        Ok(DirtyUnavailable(why,
          match this
          case DirtyObserved(d, s, w) => Some((d, s, w, why))
          case DirtyUnavailable(_, before) => before
          case DirtyNotApplicable => None))
    }
  }

  predicate DirtyDegrades(a: Dirty, b: Dirty) {
    match b
    case DirtyObserved(_, _, _) => b == a
    case DirtyNotApplicable => b == a
    case DirtyUnavailable(_, invalidated) =>
      match a
      case DirtyObserved(d, s, w) =>
        invalidated.Some? && invalidated.value.0 == d && invalidated.value.1 == s && invalidated.value.2 == w
      case DirtyUnavailable(_, before) => invalidated == before
      case DirtyNotApplicable => invalidated == None
  }

  // ---- all of it ----

  datatype Body = Body(
    identity: Option<Identity>,
    validity: Fact<Validity>,
    open: Fact<OpenState>,
    disk: Source,
    resource: Source,
    buffer: Source,
    dirty: Dirty)
  {
    function Get(authority: Authority): Source {
      match authority
      case D => disk
      case R => resource
      case B => buffer
    }

    function Set(authority: Authority, s: Source): Body {
      match authority
      case D => this.(disk := s)
      case R => this.(resource := s)
      case B => this.(buffer := s)
    }

    predicate Slotted() {
      disk.authority == D && resource.authority == R && buffer.authority == B
    }

    function InvalidateSource(authority: Authority, reason: SourceReason): Result<Body, EvidenceError> {
      match Get(authority).Invalidate(reason)
      case Err(e) => Err(e)
      case Ok(s) => Ok(Set(authority, s))
    }

    function InvalidateDirty(reason: DirtyReason): Result<Body, EvidenceError> {
      match dirty.Invalidate(reason)
      case Err(e) => Err(e)
      case Ok(d) => Ok(this.(dirty := d))
    }

    function InvalidateOpen(reason: FactReason): Body {
      this.(open := open.Invalidate(reason))
    }

    function InvalidateValidity(reason: FactReason): Body {
      this.(validity := validity.Invalidate(reason))
    }
  }

  /** Nothing becomes current again; every first invalidated value is kept. */
  predicate Degrades(a: Body, b: Body) {
    && a.identity == b.identity
    && FactDegrades(a.validity, b.validity) && FactDegrades(a.open, b.open)
    && SourceDegrades(a.disk, b.disk) && SourceDegrades(a.resource, b.resource) && SourceDegrades(a.buffer, b.buffer)
    && DirtyDegrades(a.dirty, b.dirty)
  }

  lemma DegradesOnward(a: Body, b: Body, c: Body)
    requires Degrades(a, b) && Degrades(b, c)
    ensures Degrades(a, c)
  {
    SourceDegradesOnward(a.disk, b.disk, c.disk);
    SourceDegradesOnward(a.resource, b.resource, c.resource);
    SourceDegradesOnward(a.buffer, b.buffer, c.buffer);
  }

  lemma InvalidateSourceDegrades(body: Body, authority: Authority, reason: SourceReason)
    requires body.InvalidateSource(authority, reason).Ok?
    ensures Degrades(body, body.InvalidateSource(authority, reason).value)
  {
  }

  lemma InvalidateDirtyDegrades(body: Body, reason: DirtyReason)
    requires body.InvalidateDirty(reason).Ok?
    ensures Degrades(body, body.InvalidateDirty(reason).value)
  {
  }

  lemma InvalidateFactsDegrade(body: Body, reason: FactReason)
    ensures Degrades(body, body.InvalidateOpen(reason)) && Degrades(body, body.InvalidateValidity(reason))
  {
  }

  // ---- detected changes ----

  datatype Change =
    | SourceChange(authority: Authority)
    | DirtyChange
    | DocumentClosedChange
    | DocumentIdentityReplaced
    | SessionReplaced
    | SessionEndedChange
    | DiskIdentityReplaced

  /** The end of the editor session: everything the editor told is no longer current. */
  function EndSession(body: Body): Result<Body, EvidenceError> {
    match body.InvalidateSource(R, SessionEnded)
    case Err(e) => Err(e)
    case Ok(b1) =>
      match b1.InvalidateSource(B, SessionEnded)
      case Err(e) => Err(e)
      case Ok(b2) =>
        match b2.InvalidateDirty(DirtySessionEnded)
        case Err(e) => Err(e)
        case Ok(b3) =>
          var b4 := b3.InvalidateOpen(FactSessionEnded);
          Ok(if b4.validity.Known? && b4.validity.stamp.clock.Editor? then b4.InvalidateValidity(FactSessionEnded) else b4)
  }

  function ReplaceIdentity(body: Body): Result<Body, EvidenceError> {
    match body.InvalidateSource(D, IdentityChanged)
    case Err(e) => Err(e)
    case Ok(b1) =>
      match b1.InvalidateSource(R, IdentityChanged)
      case Err(e) => Err(e)
      case Ok(b2) =>
        match b2.InvalidateSource(B, IdentityChanged)
        case Err(e) => Err(e)
        case Ok(b3) =>
          match b3.InvalidateDirty(DirtyIdentityChanged)
          case Err(e) => Err(e)
          case Ok(b4) => Ok(b4.InvalidateValidity(FactIdentityChanged).InvalidateOpen(FactIdentityChanged))
  }

  function CloseDocument(body: Body): Result<Body, EvidenceError> {
    match body.InvalidateOpen(FactDocumentClosed).InvalidateSource(B, DocumentClosed)
    case Err(e) => Err(e)
    case Ok(b) => b.InvalidateDirty(DirtyDocumentClosed)
  }

  function ReplaceDisk(body: Body): Result<Body, EvidenceError> {
    match body.InvalidateSource(D, IdentityChanged)
    case Err(e) => Err(e)
    case Ok(b) => Ok(b.InvalidateValidity(FactIdentityChanged))
  }

  function Apply(body: Body, change: Change): Result<Body, EvidenceError> {
    match change
    case SourceChange(authority) => body.InvalidateSource(authority, SourceChanged)
    case DirtyChange => body.InvalidateDirty(DirtySourceChanged)
    case DocumentClosedChange => CloseDocument(body)
    case DiskIdentityReplaced => ReplaceDisk(body)
    case DocumentIdentityReplaced => ReplaceIdentity(body)
    case SessionReplaced => ReplaceIdentity(body)
    case SessionEndedChange => EndSession(body)
  }

  lemma EndSessionDegrades(body: Body)
    requires EndSession(body).Ok?
    ensures Degrades(body, EndSession(body).value)
  {
    hide Degrades, Body.InvalidateSource, Body.InvalidateDirty, Body.InvalidateOpen, Body.InvalidateValidity;
    var b1 := body.InvalidateSource(R, SessionEnded).value;
    InvalidateSourceDegrades(body, R, SessionEnded);
    var b2 := b1.InvalidateSource(B, SessionEnded).value;
    InvalidateSourceDegrades(b1, B, SessionEnded);
    var b3 := b2.InvalidateDirty(DirtySessionEnded).value;
    InvalidateDirtyDegrades(b2, DirtySessionEnded);
    var b4 := b3.InvalidateOpen(FactSessionEnded);
    InvalidateFactsDegrade(b3, FactSessionEnded);
    InvalidateFactsDegrade(b4, FactSessionEnded);
    DegradesOnward(body, b1, b2);
    DegradesOnward(body, b2, b3);
    DegradesOnward(body, b3, b4);
    DegradesOnward(body, b4, b4.InvalidateValidity(FactSessionEnded));
  }

  lemma ReplaceIdentityDegrades(body: Body)
    requires ReplaceIdentity(body).Ok?
    ensures Degrades(body, ReplaceIdentity(body).value)
  {
    hide Degrades, Body.InvalidateSource, Body.InvalidateDirty, Body.InvalidateOpen, Body.InvalidateValidity;
    var b1 := body.InvalidateSource(D, IdentityChanged).value;
    InvalidateSourceDegrades(body, D, IdentityChanged);
    var b2 := b1.InvalidateSource(R, IdentityChanged).value;
    InvalidateSourceDegrades(b1, R, IdentityChanged);
    var b3 := b2.InvalidateSource(B, IdentityChanged).value;
    InvalidateSourceDegrades(b2, B, IdentityChanged);
    var b4 := b3.InvalidateDirty(DirtyIdentityChanged).value;
    InvalidateDirtyDegrades(b3, DirtyIdentityChanged);
    var b5 := b4.InvalidateValidity(FactIdentityChanged);
    InvalidateFactsDegrade(b4, FactIdentityChanged);
    InvalidateFactsDegrade(b5, FactIdentityChanged);
    DegradesOnward(body, b1, b2);
    DegradesOnward(body, b2, b3);
    DegradesOnward(body, b3, b4);
    DegradesOnward(body, b4, b5);
    DegradesOnward(body, b5, b5.InvalidateOpen(FactIdentityChanged));
  }

  lemma CloseDocumentDegrades(body: Body)
    requires CloseDocument(body).Ok?
    ensures Degrades(body, CloseDocument(body).value)
  {
    hide Degrades, Body.InvalidateSource, Body.InvalidateDirty, Body.InvalidateOpen, Body.InvalidateValidity;
    var b1 := body.InvalidateOpen(FactDocumentClosed);
    InvalidateFactsDegrade(body, FactDocumentClosed);
    var b2 := b1.InvalidateSource(B, DocumentClosed).value;
    InvalidateSourceDegrades(b1, B, DocumentClosed);
    InvalidateDirtyDegrades(b2, DirtyDocumentClosed);
    DegradesOnward(body, b1, b2);
    DegradesOnward(body, b2, b2.InvalidateDirty(DirtyDocumentClosed).value);
  }

  lemma ReplaceDiskDegrades(body: Body)
    requires ReplaceDisk(body).Ok?
    ensures Degrades(body, ReplaceDisk(body).value)
  {
    hide Degrades, Body.InvalidateSource, Body.InvalidateValidity;
    var b1 := body.InvalidateSource(D, IdentityChanged).value;
    InvalidateSourceDegrades(body, D, IdentityChanged);
    InvalidateFactsDegrade(b1, FactIdentityChanged);
    DegradesOnward(body, b1, b1.InvalidateValidity(FactIdentityChanged));
  }

  /** No detected change ever makes evidence current. */
  lemma ApplyDegrades(body: Body, change: Change)
    requires Apply(body, change).Ok?
    ensures Degrades(body, Apply(body, change).value)
  {
    hide Degrades, EndSession, ReplaceIdentity, CloseDocument, ReplaceDisk, Body.InvalidateSource, Body.InvalidateDirty;
    match change
    case SourceChange(authority) => InvalidateSourceDegrades(body, authority, SourceChanged);
    case DirtyChange => InvalidateDirtyDegrades(body, DirtySourceChanged);
    case DocumentClosedChange => CloseDocumentDegrades(body);
    case DiskIdentityReplaced => ReplaceDiskDegrades(body);
    case DocumentIdentityReplaced => ReplaceIdentityDegrades(body);
    case SessionReplaced => ReplaceIdentityDegrades(body);
    case SessionEndedChange => EndSessionDegrades(body);
  }

  function ApplyAll(body: Body, changes: seq<Change>): Result<Body, EvidenceError> {
    if changes == [] then Ok(body)
    else
      match ApplyAll(body, changes[..|changes| - 1])
      case Err(e) => Err(e)
      case Ok(b) => Apply(b, changes[|changes| - 1])
  }

  lemma {:induction false} ApplyAllDegrades(body: Body, changes: seq<Change>)
    requires ApplyAll(body, changes).Ok?
    ensures Degrades(body, ApplyAll(body, changes).value)
  {
    hide Degrades, Apply;
    if changes == [] {
      DegradesItself(body);
    } else {
      var init, last := changes[..|changes| - 1], changes[|changes| - 1];
      ApplyAllDegrades(body, init);
      ApplyDegrades(ApplyAll(body, init).value, last);
      DegradesOnward(body, ApplyAll(body, init).value, ApplyAll(body, changes).value);
    }
  }

  lemma DegradesItself(body: Body)
    ensures Degrades(body, body)
  {
  }

  // ---- what a change takes away ----

  /** The parts of the evidence that may be current. */
  datatype Part = SourceOf(authority: Authority) | DirtyFlag | OpenFact | ValidityFact

  predicate Current(body: Body, part: Part) {
    match part
    case SourceOf(authority) => body.Get(authority).state.Observed?
    case DirtyFlag => body.dirty.DirtyObserved?
    case OpenFact => body.open.Known?
    case ValidityFact => body.validity.Known?
  }

  /** The parts a detected change bears on. What the editor said about validity ends with its session. */
  predicate Touches(body: Body, change: Change, part: Part) {
    match change
    case SourceChange(authority) => part == SourceOf(authority)
    case DirtyChange => part == DirtyFlag
    case DocumentClosedChange => part == OpenFact || part == SourceOf(B) || part == DirtyFlag
    case DiskIdentityReplaced => part == SourceOf(D) || part == ValidityFact
    case DocumentIdentityReplaced => true
    case SessionReplaced => true
    case SessionEndedChange =>
      if part == ValidityFact then body.validity.Known? && body.validity.stamp.clock.Editor? else part != SourceOf(D)
  }

  predicate SamePart(a: Body, b: Body, part: Part) {
    match part
    case SourceOf(authority) => a.Get(authority) == b.Get(authority)
    case DirtyFlag => a.dirty == b.dirty
    case OpenFact => a.open == b.open
    case ValidityFact => a.validity == b.validity
  }

  /** A document that is not open has no buffer and no dirty flag that a change could take away;
      only the loss of its identity or of the session speaks of them. */
  predicate Bears(body: Body, change: Change) {
    match change
    case SourceChange(authority) => !body.Get(authority).state.NotApplicable?
    case DirtyChange => !body.dirty.DirtyNotApplicable?
    case DocumentClosedChange => !body.buffer.state.NotApplicable? && !body.dirty.DirtyNotApplicable?
    case _ => true
  }

  /** A change applies exactly when it can bear on the evidence; what it touches is no longer current,
      and everything else is as it was. */
  lemma ApplyTouches(body: Body, change: Change, part: Part)
    requires body.Slotted()
    ensures Apply(body, change).Ok? <==> Bears(body, change)
    ensures Apply(body, change).Ok? ==>
              var b := Apply(body, change).value;
              b.Slotted() && if Touches(body, change, part) then !Current(b, part) else SamePart(body, b, part)
  {
    hide EndSession, ReplaceIdentity, CloseDocument, ReplaceDisk;
    match change
    case DocumentClosedChange => CloseTouches(body, part);
    case DiskIdentityReplaced => DiskTouches(body, part);
    case DocumentIdentityReplaced => IdentityTouches(body, part);
    case SessionReplaced => IdentityTouches(body, part);
    case SessionEndedChange => SessionTouches(body, part);
    case _ =>
  }

  lemma CloseTouches(body: Body, part: Part)
    requires body.Slotted()
    ensures CloseDocument(body).Ok? <==> Bears(body, DocumentClosedChange)
    ensures CloseDocument(body).Ok? ==>
              var b := CloseDocument(body).value;
              b.Slotted() && if Touches(body, DocumentClosedChange, part) then !Current(b, part) else SamePart(body, b, part)
  {
  }

  lemma DiskTouches(body: Body, part: Part)
    requires body.Slotted()
    ensures ReplaceDisk(body).Ok? && ReplaceDisk(body).value.Slotted()
    ensures var b := ReplaceDisk(body).value;
            if Touches(body, DiskIdentityReplaced, part) then !Current(b, part) else SamePart(body, b, part)
  {
  }

  lemma IdentityTouches(body: Body, part: Part)
    requires body.Slotted()
    ensures ReplaceIdentity(body).Ok? && ReplaceIdentity(body).value.Slotted() && !Current(ReplaceIdentity(body).value, part)
  {
  }

  lemma SessionTouches(body: Body, part: Part)
    requires body.Slotted()
    ensures EndSession(body).Ok? && EndSession(body).value.Slotted()
    ensures var b := EndSession(body).value;
            if Touches(body, SessionEndedChange, part) then !Current(b, part) else SamePart(body, b, part)
  {
  }

  lemma NeverCurrentAgain(a: Body, b: Body, part: Part)
    requires Degrades(a, b) && !Current(a, part)
    ensures !Current(b, part)
  {
  }

  /** After any sequence of changes nothing that any of them touches is current. */
  lemma {:induction false} TouchedStaysLost(body: Body, changes: seq<Change>, k: nat, part: Part)
    requires body.Slotted() && ApplyAll(body, changes).Ok? && k < |changes|
    requires Touches(body, changes[k], part)
    ensures !Current(ApplyAll(body, changes).value, part)
    decreases |changes|
  {
    hide Apply, Current, Degrades;
    var init, last := changes[..|changes| - 1], changes[|changes| - 1];
    var before := ApplyAll(body, init).value;
    ApplyDegrades(before, last);
    AppliedSlotted(body, init);
    if k < |init| {
      TouchedStaysLost(body, init, k, part);
      NeverCurrentAgain(before, ApplyAll(body, changes).value, part);
    } else {
      ApplyAllDegrades(body, init);
      StillTouched(body, before, last, part);
      if Touches(before, last, part) {
        ApplyTouches(before, last, part);
      } else {
        NeverCurrentAgain(before, ApplyAll(body, changes).value, part);
      }
    }
  }

  /** Degrading evidence only removes what a change could touch. */
  lemma StillTouched(a: Body, b: Body, change: Change, part: Part)
    requires Degrades(a, b) && Touches(a, change, part)
    ensures Touches(b, change, part) || !Current(b, part)
  {
  }

  lemma {:induction false} AppliedSlotted(body: Body, changes: seq<Change>)
    requires body.Slotted() && ApplyAll(body, changes).Ok?
    ensures ApplyAll(body, changes).value.Slotted()
  {
    ApplyAllDegrades(body, changes);
  }
}
