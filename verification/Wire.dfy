/** The evidence records that cross the worker boundary: what the decoders admit, what the encoders
    write, and that nothing but receipt times is lost on a second crossing. */
module Wire {
  import opened Wrappers
  import Decimal
  import opened Evidence
  import opened Observation

  const SOURCE_LIMIT: nat := 512 * 1024
  const COLLECTION_LIMIT: nat := 64

  /** A counter of at most 64 decimal digits. */
  predicate Fits(n: nat) {
    n < Decimal.Pow10(64)
  }

  predicate FitsOption(n: Option<nat>) {
    n.Some? ==> Fits(n.value)
  }

  // ---- records ----

  datatype WireStale = WireStale(known: bool, evidence: Option<seq<StaleChange>>)

  datatype Availability = IsObserved | IsUnavailable | IsNotApplicable

  datatype WireInvalidated = WireInvalidated(text: string, stamp: Stamp, seen: Witness, stale: WireStale, reason: SourceReason)

  datatype WireSource = WireSource(
    authority: Authority,
    availability: Availability,
    text: Option<string>,
    stamp: Option<Stamp>,
    seen: Option<Witness>,
    stale: Option<WireStale>,
    reason: Option<SourceReason>,
    invalidated: Option<WireInvalidated>)

  datatype WireFact<T> = WireFact(value: Option<T>, stamp: Option<Stamp>, reason: Option<FactReason>,
                                  invalidated: Option<(T, Stamp, FactReason)>)

  datatype DirtyWord = IsDirty | IsClean | IsUnknown | IsNot

  datatype WireDirty = WireDirty(
    availability: Availability,
    state: DirtyWord,
    stamp: Option<Stamp>,
    seen: Option<Witness>,
    reason: Option<DirtyReason>,
    invalidated: Option<(bool, Stamp, Witness, DirtyReason)>)

  /** Who reads, for which session and path, when it was received, and what was established before. */
  datatype Context = Context(session: nat, path: ResourcePath, receipt: nat, identity: Option<Identity>, interval: Option<Stamp>)
  {
    /** The same reader at a later time; the enclosing collection was read again as well. */
    function Later(receipt: nat): Context {
      this.(receipt := receipt,
            interval := match interval case None => None case Some(s) => Some(s.(received := receipt)))
    }

    predicate Timely() {
      interval.Some? ==> interval.value.received == receipt
    }
  }

  // ---- stamps and witnesses ----

  function DecodeStamp(s: Stamp, c: Context, editor: bool): Option<Stamp> {
    if s.clock != (if editor then Editor(c.session) else Caller) || s.received > c.receipt
       || !Fits(s.started) || !Fits(s.finished) || s.started > s.finished
    then None
    else Some(s.(received := c.receipt))
  }

  function DecodeWitness(w: Witness, c: Context): Option<Witness> {
    if w.path != c.path || !FitsOption(w.script) || !FitsOption(w.editor) || !FitsOption(w.buffer) || !FitsOption(w.version)
       || (w.disk.Some? && !(Fits(w.disk.value.0) && Fits(w.disk.value.1)))
    then None
    else Some(w)
  }

  predicate Within(s: Stamp, c: Context) {
    c.interval.Some? ==>
      && s.clock == c.interval.value.clock && s.started >= c.interval.value.started && s.finished <= c.interval.value.finished
      && s.received == c.interval.value.received
  }

  function DecodeChange(e: StaleChange, c: Context, authority: Authority): Option<StaleChange> {
    if e.authority == authority || (authority != D && e.authority == D) || !Fits(e.incorporated) || !Fits(e.version) then None
    else
      match (DecodeStamp(e.stamp, c, e.authority != D), DecodeWitness(e.seen, c))
      case (Some(stamp), Some(seen)) =>
        if e.incorporated >= e.version || seen.version != Some(e.version) then None else Some(e.(stamp := stamp, seen := seen))
      case _ => None
  }

  function DecodeChanges(es: seq<StaleChange>, c: Context, authority: Authority): Option<seq<StaleChange>> {
    if es == [] then Some([])
    else
      match (DecodeChange(es[0], c, authority), DecodeChanges(es[1..], c, authority))
      case (Some(e), Some(rest)) => Some([e] + rest)
      case _ => None
  }

  function DecodeStale(w: WireStale, c: Context, authority: Authority): Option<Option<seq<StaleChange>>> {
    match w
    case WireStale(false, None) => Some(None)
    case WireStale(true, Some(es)) =>
      if es == [] || |es| > COLLECTION_LIMIT then None
      else (match DecodeChanges(es, c, authority) case Some(all) => Some(Some(all)) case None => None)
    case _ => None
  }

  predicate StaleWithin(es: Option<seq<StaleChange>>, c: Context) {
    es.Some? ==> forall e | e in es.value && e.authority != D :: Within(e.stamp, c)
  }

  predicate StaleWitnessed(es: Option<seq<StaleChange>>, identity: Identity) {
    es.Some? ==> forall e | e in es.value :: CheckWitness(e.seen, identity, e.authority).None?
  }

  // ---- sources ----

  /** The parts of an observed value, decoded and placed inside the enclosing collection. */
  function DecodeObservation(text: string, s: Stamp, w: Witness, stale: WireStale, c: Context, authority: Authority)
    : Option<Evidence.Observation>
  {
    match (DecodeStamp(s, c, authority != D), DecodeWitness(w, c), DecodeStale(stale, c, authority))
    case (Some(stamp), Some(seen), Some(changes)) =>
      if !Within(stamp, c) || !StaleWithin(changes, c) || (authority == D && changes.Some?) then None
      else Some(Evidence.Observation(text, stamp, seen, changes))
    case _ => None
  }

  predicate DiskOnly(w: Witness) {
    w.disk.Some? && w.script.None? && w.editor.None? && w.buffer.None?
  }

  predicate Attributed(v: Evidence.Observation, c: Context, authority: Authority) {
    if c.identity.Some? then
      CheckWitness(v.seen, c.identity.value, authority).None? && StaleWitnessed(v.stale, c.identity.value)
    else DiskOnly(v.seen)
  }

  function TooLargeSource(authority: Authority): Source {
    Source(authority, Unavailable(TooLarge, None))
  }

  function DecodeSource(w: WireSource, authority: Authority, c: Context): Option<Source> {
    if w.authority != authority
       || (authority != D && c.identity.None? && (w.availability.IsObserved? || w.invalidated.Some?)) then None
    else match w.availability
      case IsObserved => DecodeObserved(w, authority, c)
      case IsUnavailable => DecodeUnavailable(w, authority, c)
      case IsNotApplicable =>
        if authority == B && w.text.None? && w.stamp.None? && w.seen.None? && w.stale.None? && w.invalidated.None?
           && w.reason == Some(DocumentNotOpen)
        then Some(Source(B, NotApplicable)) else None
  }

  function DecodeObserved(w: WireSource, authority: Authority, c: Context): Option<Source> {
    if w.invalidated.Some? || w.reason.Some? || w.text.None? || w.stamp.None? || w.seen.None? || w.stale.None? then None
    else
      match DecodeObservation(w.text.value, w.stamp.value, w.seen.value, w.stale.value, c, authority)
      case None => None
      case Some(v) =>
        if |v.text| <= SOURCE_LIMIT then Some(Source(authority, Observed(v)))
        else if c.identity.None? && v.stale.Some? then None
        else if Attributed(v, c, authority) then Some(TooLargeSource(authority))
        else None
  }

  function DecodeUnavailable(w: WireSource, authority: Authority, c: Context): Option<Source> {
    if w.text.Some? || w.stamp.Some? || w.seen.Some? || w.stale.Some? || w.reason.None? then None
    else if !w.reason.value.Applicable(authority) || w.reason.value == DocumentNotOpen then None
    else if w.invalidated.None? then Some(Source(authority, Unavailable(w.reason.value, None)))
    else
      var lost := w.invalidated.value;
      match DecodeObservation(lost.text, lost.stamp, lost.seen, lost.stale, c, authority)
      case None => None
      case Some(v) =>
        if !Attributed(v, c, authority) then None
        else if |v.text| > SOURCE_LIMIT then Some(TooLargeSource(authority))
        else Replay(Source(authority, Observed(v)), lost.reason, w.reason.value)
  }

  /** The first and the current reason of an invalidated value are replayed in order. */
  function Replay(s: Source, first: SourceReason, current: SourceReason): Option<Source> {
    match s.Invalidate(first)
    case Err(_) => None
    case Ok(once) =>
      match once.Invalidate(current)
      case Err(_) => None
      case Ok(twice) => Some(twice)
  }

  function EncodeStale(es: Option<seq<StaleChange>>): WireStale {
    WireStale(es.Some?, es)
  }

  function EncodeSource(s: Source): WireSource {
    match s.state
    case Observed(v) =>
      WireSource(s.authority, IsObserved, Some(v.text), Some(v.stamp), Some(v.seen), Some(EncodeStale(v.stale)), None, None)
    case Unavailable(reason, invalidated) =>
      WireSource(s.authority, IsUnavailable, None, None, None, None, Some(reason),
                 match invalidated
                 case None => None
                 case Some((v, first)) => Some(WireInvalidated(v.text, v.stamp, v.seen, EncodeStale(v.stale), first)))
    case NotApplicable => WireSource(s.authority, IsNotApplicable, None, None, None, None, Some(DocumentNotOpen), None)
  }

  // ---- the same value with a later receipt time ----

  function RestampStamp(s: Stamp, receipt: nat): Stamp {
    s.(received := receipt)
  }

  function RestampChanges(es: seq<StaleChange>, receipt: nat): seq<StaleChange> {
    if es == [] then [] else [es[0].(stamp := RestampStamp(es[0].stamp, receipt))] + RestampChanges(es[1..], receipt)
  }

  function RestampStale(es: Option<seq<StaleChange>>, receipt: nat): Option<seq<StaleChange>> {
    match es case None => None case Some(all) => Some(RestampChanges(all, receipt))
  }

  function RestampObservation(v: Evidence.Observation, receipt: nat): Evidence.Observation {
    v.(stamp := RestampStamp(v.stamp, receipt), stale := RestampStale(v.stale, receipt))
  }

  function RestampSource(s: Source, receipt: nat): Source {
    match s.state
    case Observed(v) => s.(state := Observed(RestampObservation(v, receipt)))
    case Unavailable(reason, Some((v, first))) => s.(state := Unavailable(reason, Some((RestampObservation(v, receipt), first))))
    case _ => s
  }

  // ---- the round trip of sources ----

  lemma {:induction false} ChangesAgain(es: seq<StaleChange>, c: Context, authority: Authority, receipt: nat)
    requires DecodeChanges(es, c, authority).Some? && c.receipt <= receipt
    ensures var once := DecodeChanges(es, c, authority).value;
            && |once| == |es|
            && DecodeChanges(once, c.Later(receipt), authority) == Some(RestampChanges(once, receipt))
  {
    if es != [] {
      ChangesAgain(es[1..], c, authority, receipt);
      var once := DecodeChanges(es, c, authority).value;
      assert once[1..] == DecodeChanges(es[1..], c, authority).value;
    }
  }

  lemma {:induction false} RestampedWithin(es: seq<StaleChange>, c: Context, receipt: nat)
    requires c.Timely() && forall e | e in es && e.authority != D :: Within(e.stamp, c)
    ensures forall e | e in RestampChanges(es, receipt) && e.authority != D :: Within(e.stamp, c.Later(receipt))
  {
    if es != [] {
      RestampedWithin(es[1..], c, receipt);
    }
  }

  lemma {:induction false} RestampedWitnessed(es: seq<StaleChange>, identity: Identity, receipt: nat)
    requires forall e | e in es :: CheckWitness(e.seen, identity, e.authority).None?
    ensures forall e | e in RestampChanges(es, receipt) :: CheckWitness(e.seen, identity, e.authority).None?
  {
    if es != [] {
      RestampedWitnessed(es[1..], identity, receipt);
    }
  }

  lemma StaleAgain(w: WireStale, c: Context, authority: Authority, receipt: nat)
    requires DecodeStale(w, c, authority).Some? && c.receipt <= receipt
    ensures var once := DecodeStale(w, c, authority).value;
            DecodeStale(EncodeStale(once), c.Later(receipt), authority) == Some(RestampStale(once, receipt))
  {
    if w.evidence.Some? {
      ChangesAgain(w.evidence.value, c, authority, receipt);
    }
  }

  lemma StampAgain(s: Stamp, c: Context, editor: bool, receipt: nat)
    requires DecodeStamp(s, c, editor).Some? && c.receipt <= receipt
    ensures var once := DecodeStamp(s, c, editor).value;
            && DecodeStamp(once, c.Later(receipt), editor) == Some(RestampStamp(once, receipt))
            && (c.Timely() && Within(once, c) ==> Within(RestampStamp(once, receipt), c.Later(receipt)))
  {
  }

  lemma ObservationAgain(text: string, s: Stamp, w: Witness, stale: WireStale, c: Context, authority: Authority, receipt: nat)
    requires DecodeObservation(text, s, w, stale, c, authority).Some? && c.Timely() && c.receipt <= receipt
    ensures var v := DecodeObservation(text, s, w, stale, c, authority).value;
            && DecodeObservation(v.text, v.stamp, v.seen, EncodeStale(v.stale), c.Later(receipt), authority)
               == Some(RestampObservation(v, receipt))
            && (Attributed(v, c, authority) ==> Attributed(RestampObservation(v, receipt), c.Later(receipt), authority))
  {
    hide DecodeStamp, DecodeWitness, DecodeStale, Within, CheckWitness;
    var v := DecodeObservation(text, s, w, stale, c, authority).value;
    StampAgain(s, c, authority != D, receipt);
    WitnessAgain(w, c, receipt);
    StaleAgain(stale, c, authority, receipt);
    if v.stale.Some? {
      RestampedWithin(v.stale.value, c, receipt);
      if c.identity.Some? && StaleWitnessed(v.stale, c.identity.value) {
        RestampedWitnessed(v.stale.value, c.identity.value, receipt);
      }
    }
  }

  lemma WitnessAgain(w: Witness, c: Context, receipt: nat)
    requires DecodeWitness(w, c).Some?
    ensures DecodeWitness(w, c) == Some(w) && DecodeWitness(w, c.Later(receipt)) == Some(w)
  {
  }

  /** Whatever a decoder produced, encoding it and decoding it with a later receipt time gives it
      back, with only the receipt times replaced: the first and the current reason of an
      invalidated value survive the replay. */
  lemma SourceRoundTrip(w: WireSource, authority: Authority, c: Context, receipt: nat)
    requires c.Timely() && c.receipt <= receipt && DecodeSource(w, authority, c).Some?
    ensures var s := DecodeSource(w, authority, c).value;
            DecodeSource(EncodeSource(s), authority, c.Later(receipt)) == Some(RestampSource(s, receipt))
  {
    hide DecodeObservation, Attributed, RestampObservation;
    match w.availability
    case IsObserved =>
      var v := DecodeObservation(w.text.value, w.stamp.value, w.seen.value, w.stale.value, c, authority).value;
      ObservationAgain(w.text.value, w.stamp.value, w.seen.value, w.stale.value, c, authority, receipt);
      RestampedText(v, receipt);
    case IsUnavailable =>
      if w.invalidated.Some? {
        var lost := w.invalidated.value;
        ObservationAgain(lost.text, lost.stamp, lost.seen, lost.stale, c, authority, receipt);
        RestampedText(DecodeObservation(lost.text, lost.stamp, lost.seen, lost.stale, c, authority).value, receipt);
      }
    case IsNotApplicable =>
  }

  lemma RestampedText(v: Evidence.Observation, receipt: nat)
    ensures RestampObservation(v, receipt).text == v.text
  {
  }

  // ---- exactly which sources cross ----

  predicate StampCrosses(s: Stamp, c: Context, editor: bool) {
    && s.clock == (if editor then Editor(c.session) else Caller) && s.received <= c.receipt
    && Fits(s.started) && Fits(s.finished) && s.started <= s.finished
  }

  predicate WitnessCrosses(w: Witness, c: Context) {
    && w.path == c.path && FitsOption(w.script) && FitsOption(w.editor) && FitsOption(w.buffer) && FitsOption(w.version)
    && (w.disk.Some? ==> Fits(w.disk.value.0) && Fits(w.disk.value.1))
  }

  /** A change to another authority, newer than what was incorporated, that its witness dates. */
  predicate ChangeCrosses(e: StaleChange, c: Context, authority: Authority) {
    && e.authority != authority && (authority != D ==> e.authority != D) && Fits(e.incorporated) && Fits(e.version)
    && StampCrosses(e.stamp, c, e.authority != D) && WitnessCrosses(e.seen, c)
    && e.incorporated < e.version && e.seen.version == Some(e.version)
  }

  predicate ObservationCrosses(v: Evidence.Observation, c: Context, authority: Authority) {
    && StampCrosses(v.stamp, c, authority != D) && WitnessCrosses(v.seen, c)
    && Within(RestampStamp(v.stamp, c.receipt), c)
    && (v.stale.Some? ==>
          && authority != D && 0 < |v.stale.value| <= COLLECTION_LIMIT
          && (forall e | e in v.stale.value :: ChangeCrosses(e, c, authority)))
    && StaleWithin(RestampStale(v.stale, c.receipt), c)
    && |v.text| <= SOURCE_LIMIT
  }

  predicate ReasonCrosses(reason: SourceReason, authority: Authority) {
    reason.Applicable(authority) && reason != DocumentNotOpen
  }

  predicate SourceCrosses(s: Source, authority: Authority, c: Context) {
    && s.authority == authority
    && match s.state
       case Observed(v) => (authority == D || c.identity.Some?) && ObservationCrosses(v, c, authority)
       case Unavailable(reason, None) => ReasonCrosses(reason, authority)
       case Unavailable(reason, Some((v, first))) =>
         && (authority == D || c.identity.Some?) && ObservationCrosses(v, c, authority)
         && Attributed(RestampObservation(v, c.receipt), c, authority)
         && ReasonCrosses(first, authority) && ReasonCrosses(reason, authority)
       case NotApplicable => authority == B
  }

  lemma {:induction false} ChangesCross(es: seq<StaleChange>, c: Context, authority: Authority)
    ensures DecodeChanges(es, c, authority).Some? <==> forall e | e in es :: ChangeCrosses(e, c, authority)
    ensures DecodeChanges(es, c, authority).Some? ==> DecodeChanges(es, c, authority).value == RestampChanges(es, c.receipt)
  {
    if es != [] {
      ChangesCross(es[1..], c, authority);
      ChangeCross(es[0], c, authority);
      hide ChangeCrosses, DecodeChange;
      assert forall e :: e in es <==> e == es[0] || e in es[1..];
    }
  }

  lemma ChangeCross(e: StaleChange, c: Context, authority: Authority)
    ensures DecodeChange(e, c, authority) == if ChangeCrosses(e, c, authority) then Some(e.(stamp := RestampStamp(e.stamp, c.receipt))) else None
  {
  }

  lemma ObservationCross(v: Evidence.Observation, c: Context, authority: Authority)
    requires |v.text| <= SOURCE_LIMIT
    ensures DecodeObservation(v.text, v.stamp, v.seen, EncodeStale(v.stale), c, authority) ==
            if ObservationCrosses(v, c, authority) then Some(RestampObservation(v, c.receipt)) else None
  {
    hide ChangeCrosses, Within, RestampChanges, DecodeChanges, StaleWithin;
    StampCross(v.stamp, c, authority != D);
    WitnessCross(v.seen, c);
    StaleCross(v.stale, c, authority);
    hide DecodeStamp, DecodeWitness, DecodeStale, StampCrosses, WitnessCrosses;
  }

  lemma StampCross(s: Stamp, c: Context, editor: bool)
    ensures DecodeStamp(s, c, editor) == if StampCrosses(s, c, editor) then Some(RestampStamp(s, c.receipt)) else None
  {
  }

  lemma WitnessCross(w: Witness, c: Context)
    ensures DecodeWitness(w, c) == if WitnessCrosses(w, c) then Some(w) else None
  {
  }

  lemma StaleCross(stale: Option<seq<StaleChange>>, c: Context, authority: Authority)
    ensures DecodeStale(EncodeStale(stale), c, authority) ==
            if stale.None? || (0 < |stale.value| <= COLLECTION_LIMIT && forall e | e in stale.value :: ChangeCrosses(e, c, authority))
            then Some(RestampStale(stale, c.receipt)) else None
  {
    hide ChangeCrosses, DecodeChanges, RestampChanges;
    if stale.Some? { ChangesCross(stale.value, c, authority); }
  }

  /** A source survives the crossing, with only its receipts replaced, exactly when it is one of the
      expected authority, its text is within the limit, its stamps, witnesses and staleness are
      admissible, its reasons apply, and an invalidated value is attributed. */
  lemma SourceSurvives(s: Source, authority: Authority, c: Context)
    ensures DecodeSource(EncodeSource(s), authority, c) == Some(RestampSource(s, c.receipt)) <==> SourceCrosses(s, authority, c)
  {
    hide ObservationCrosses, DecodeObservation, RestampObservation, Attributed, SourceReason.Applicable;
    match s.state
    case Observed(v) =>
      if |v.text| <= SOURCE_LIMIT {
        ObservationCross(v, c, authority);
        RestampedText(v, c.receipt);
      } else {
        LongText(v, c, authority);
      }
    case Unavailable(_, Some((v, _))) =>
      if |v.text| <= SOURCE_LIMIT {
        ObservationCross(v, c, authority);
        RestampedText(v, c.receipt);
      } else {
        LongText(v, c, authority);
      }
    case _ =>
  }

  lemma LongText(v: Evidence.Observation, c: Context, authority: Authority)
    requires |v.text| > SOURCE_LIMIT
    ensures !ObservationCrosses(v, c, authority)
    ensures var d := DecodeObservation(v.text, v.stamp, v.seen, EncodeStale(v.stale), c, authority);
            d.Some? ==> d.value.text == v.text
  {
  }

  // ---- facts and the dirty state ----

  function DecodeFact<T>(w: WireFact<T>, c: Context, editor: bool): Option<Fact<T>> {
    match w
    case WireFact(Some(value), Some(s), None, None) =>
      (match DecodeStamp(s, c, editor) case Some(stamp) => Some(Known(value, stamp)) case None => None)
    case WireFact(None, None, Some(reason), None) => Some(Unknown(reason, None))
    case WireFact(None, None, Some(reason), Some((value, s, first))) =>
      (match DecodeStamp(s, c, editor)
       case Some(stamp) => Some(Known(value, stamp).Invalidate(first).Invalidate(reason))
       case None => None)
    case _ => None
  }

  function EncodeFact<T>(f: Fact<T>): WireFact<T> {
    match f
    case Known(value, s) => WireFact(Some(value), Some(s), None, None)
    case Unknown(reason, invalidated) => WireFact(None, None, Some(reason), invalidated)
  }

  function RestampFact<T>(f: Fact<T>, receipt: nat): Fact<T> {
    match f
    case Known(value, s) => Known(value, RestampStamp(s, receipt))
    case Unknown(reason, Some((value, s, first))) => Unknown(reason, Some((value, RestampStamp(s, receipt), first)))
    case Unknown(reason, None) => f
  }

  lemma FactRoundTrip<T>(w: WireFact<T>, c: Context, editor: bool, receipt: nat)
    requires c.receipt <= receipt && DecodeFact(w, c, editor).Some?
    ensures var f := DecodeFact(w, c, editor).value;
            DecodeFact(EncodeFact(f), c.Later(receipt), editor) == Some(RestampFact(f, receipt))
  {
    hide DecodeStamp;
    if w.stamp.Some? { StampAgain(w.stamp.value, c, editor, receipt); }
    if w.invalidated.Some? { StampAgain(w.invalidated.value.1, c, editor, receipt); }
  }

  function DecodeDirty(w: WireDirty, c: Context): Option<Dirty> {
    match w.availability
    case IsObserved =>
      if w.reason.Some? || w.invalidated.Some? || (w.state != IsDirty && w.state != IsClean) || w.stamp.None? || w.seen.None? then None
      else (
        match (DecodeStamp(w.stamp.value, c, true), DecodeWitness(w.seen.value, c))
        case (Some(stamp), Some(seen)) => Some(DirtyObserved(w.state == IsDirty, stamp, seen))
        case _ => None)
    case IsUnavailable =>
      if w.state != IsUnknown || w.stamp.Some? || w.seen.Some? || w.reason.None? then None
      else if w.invalidated.None? then
        if w.reason.value == DirtyNotOpen then None else Some(DirtyUnavailable(w.reason.value, None))
      else (
        var (dirty, s, seen, first) := w.invalidated.value;
        match (DecodeStamp(s, c, true), DecodeWitness(seen, c))
        case (Some(stamp), Some(seen')) => ReplayDirty(DirtyObserved(dirty, stamp, seen'), first, w.reason.value)
        case _ => None)
    case IsNotApplicable =>
      if w.state == IsNot && w.stamp.None? && w.seen.None? && w.invalidated.None? && w.reason == Some(DirtyNotOpen)
      then Some(DirtyNotApplicable) else None
  }

  function ReplayDirty(d: Dirty, first: DirtyReason, current: DirtyReason): Option<Dirty> {
    match d.Invalidate(first)
    case Err(_) => None
    case Ok(once) =>
      match once.Invalidate(current)
      case Err(_) => None
      case Ok(twice) => Some(twice)
  }

  function EncodeDirty(d: Dirty): WireDirty {
    match d
    case DirtyObserved(dirty, s, seen) => WireDirty(IsObserved, if dirty then IsDirty else IsClean, Some(s), Some(seen), None, None)
    case DirtyUnavailable(reason, invalidated) => WireDirty(IsUnavailable, IsUnknown, None, None, Some(reason), invalidated)
    case DirtyNotApplicable => WireDirty(IsNotApplicable, IsNot, None, None, Some(DirtyNotOpen), None)
  }

  function RestampDirty(d: Dirty, receipt: nat): Dirty {
    match d
    case DirtyObserved(dirty, s, seen) => DirtyObserved(dirty, RestampStamp(s, receipt), seen)
    case DirtyUnavailable(reason, Some((dirty, s, seen, first))) =>
      DirtyUnavailable(reason, Some((dirty, RestampStamp(s, receipt), seen, first)))
    case _ => d
  }

  lemma DirtyRoundTrip(w: WireDirty, c: Context, receipt: nat)
    requires c.receipt <= receipt && DecodeDirty(w, c).Some?
    ensures var d := DecodeDirty(w, c).value;
            DecodeDirty(EncodeDirty(d), c.Later(receipt)) == Some(RestampDirty(d, receipt))
  {
    hide DecodeStamp, DecodeWitness;
    if w.stamp.Some? && w.seen.Some? && w.availability.IsObserved? {
      StampAgain(w.stamp.value, c, true, receipt);
      WitnessAgain(w.seen.value, c, receipt);
    }
    if w.invalidated.Some? && w.availability.IsUnavailable? {
      StampAgain(w.invalidated.value.1, c, true, receipt);
      WitnessAgain(w.invalidated.value.2, c, receipt);
    }
  }

  // ---- changes and rechecks ----

  datatype Surface = OnD | OnR | OnB | OnDirty | OnDocument | OnSession

  datatype ChangeCode = CodeSourceChanged | CodeDocumentClosed | CodeIdentityChanged | CodeSessionEnded | OtherCode

  function DecodeDetected(surface: Surface, code: ChangeCode): Option<Change> {
    match (surface, code)
    case (OnD, CodeSourceChanged) => Some(SourceChange(D))
    case (OnR, CodeSourceChanged) => Some(SourceChange(R))
    case (OnB, CodeSourceChanged) => Some(SourceChange(B))
    case (OnDirty, CodeSourceChanged) => Some(DirtyChange)
    case (OnDocument, CodeDocumentClosed) => Some(DocumentClosedChange)
    case (OnDocument, CodeIdentityChanged) => Some(DocumentIdentityReplaced)
    case (OnSession, CodeIdentityChanged) => Some(SessionReplaced)
    case (OnSession, CodeSessionEnded) => Some(SessionEndedChange)
    case (OnD, CodeIdentityChanged) => Some(DiskIdentityReplaced)
    case _ => None
  }

  function EncodeDetected(change: Change): (Surface, ChangeCode) {
    match change
    case SourceChange(D) => (OnD, CodeSourceChanged)
    case SourceChange(R) => (OnR, CodeSourceChanged)
    case SourceChange(B) => (OnB, CodeSourceChanged)
    case DirtyChange => (OnDirty, CodeSourceChanged)
    case DocumentClosedChange => (OnDocument, CodeDocumentClosed)
    case DocumentIdentityReplaced => (OnDocument, CodeIdentityChanged)
    case SessionReplaced => (OnSession, CodeIdentityChanged)
    case SessionEndedChange => (OnSession, CodeSessionEnded)
    case DiskIdentityReplaced => (OnD, CodeIdentityChanged)
  }

  function DecodeAll(ws: seq<(Surface, ChangeCode)>): Option<seq<Change>> {
    if ws == [] then Some([])
    else
      match (DecodeDetected(ws[0].0, ws[0].1), DecodeAll(ws[1..]))
      case (Some(change), Some(rest)) => Some([change] + rest)
      case _ => None
  }

  function EncodeAll(changes: seq<Change>): seq<(Surface, ChangeCode)> {
    if changes == [] then [] else [EncodeDetected(changes[0])] + EncodeAll(changes[1..])
  }

  predicate OnDisk(change: Change) {
    change == SourceChange(D) || change == DiskIdentityReplaced
  }

  lemma {:induction false} ChangesRoundTrip(changes: seq<Change>)
    ensures DecodeAll(EncodeAll(changes)) == Some(changes) && |EncodeAll(changes)| == |changes|
  {
    if changes != [] {
      ChangesRoundTrip(changes[1..]);
      assert EncodeAll(changes)[1..] == EncodeAll(changes[1..]);
      assert changes == [changes[0]] + changes[1..];
    }
  }

  /** And every admitted wire change is the encoding of what it decodes to. */
  lemma {:induction false} ChangesDecodeOnce(ws: seq<(Surface, ChangeCode)>)
    requires DecodeAll(ws).Some?
    ensures EncodeAll(DecodeAll(ws).value) == ws
  {
    if ws != [] {
      ChangesDecodeOnce(ws[1..]);
      var changes := DecodeAll(ws).value;
      assert changes[1..] == DecodeAll(ws[1..]).value;
      assert ws == [ws[0]] + ws[1..];
    }
  }

  datatype WireRecheck = WireRecheck(performed: bool, changes: seq<(Surface, ChangeCode)>, reason: Option<RecheckReason>)

  function DecodeRecheck(w: WireRecheck): Option<Recheck> {
    if |w.changes| > COLLECTION_LIMIT then None
    else match DecodeAll(w.changes)
      case None => None
      case Some(changes) =>
        if exists c :: c in changes && OnDisk(c) then None
        else if w.performed then (if w.reason.None? then Some(Performed(changes)) else None)
        else if w.reason.None? then None
        else if changes == [] then Some(NotPerformed(w.reason.value))
        else Some(Partial(w.reason.value, changes))
  }

  function EncodeRecheck(r: Recheck): WireRecheck {
    match r
    case Performed(changes) => WireRecheck(true, EncodeAll(changes), None)
    case NotPerformed(reason) => WireRecheck(false, [], Some(reason))
    case Partial(reason, changes) => WireRecheck(false, EncodeAll(changes), Some(reason))
  }

  /** A recheck survives exactly when its changes fit, none is about the disk, and it is not a
      partial recheck without changes, which reads back as one that was not performed. */
  lemma RecheckRoundTrip(r: Recheck)
    ensures DecodeRecheck(EncodeRecheck(r)) == Some(r) <==>
              && |ChangesOf(r)| <= COLLECTION_LIMIT
              && (forall c | c in ChangesOf(r) :: !OnDisk(c))
              && !(r.Partial? && r.changes == [])
    ensures r.Partial? && r.changes == [] ==> DecodeRecheck(EncodeRecheck(r)) == Some(NotPerformed(r.reason))
  {
    ChangesRoundTrip(ChangesOf(r));
  }

  /** The decoder never produces a partial recheck without changes, so on its image encoding is
      lossless. */
  lemma RecheckImage(w: WireRecheck)
    requires DecodeRecheck(w).Some?
    ensures var r := DecodeRecheck(w).value;
            !(r.Partial? && r.changes == []) && EncodeRecheck(r) == w && DecodeRecheck(EncodeRecheck(r)) == Some(r)
  {
    ChangesDecodeOnce(w.changes);
    ChangesRoundTrip(DecodeAll(w.changes).value);
  }

  // ---- diagnostics ----

  /** A diagnostic; its message and its advice are fixed texts for each. */
  datatype Diagnosed = Diagnosed(code: nat, stage: nat, surface: Option<nat>)

  datatype Words = Words(message: Diagnosed -> string, action: Diagnosed -> string)

  datatype WireDiagnostic = WireDiagnostic(diagnosed: Diagnosed, message: string, action: string)

  /** A diagnostic is admitted only with exactly its own texts. */
  function DecodeDiagnostics(ws: seq<WireDiagnostic>, words: Words): Option<seq<Diagnosed>> {
    if ws == [] then Some([])
    else
      var w := ws[|ws| - 1];
      if w.message != words.message(w.diagnosed) || w.action != words.action(w.diagnosed) then None
      else
        match DecodeDiagnostics(ws[..|ws| - 1], words)
        case Some(ds) => Some(ds + [w.diagnosed])
        case None => None
  }

  function EncodeDiagnostics(ds: seq<Diagnosed>, words: Words): seq<WireDiagnostic> {
    seq(|ds|, i requires 0 <= i < |ds| => WireDiagnostic(ds[i], words.message(ds[i]), words.action(ds[i])))
  }

  /** Diagnostics cross in order, and what is admitted is the encoding of what it means. */
  lemma {:induction false} DiagnosticsRoundTrip(ds: seq<Diagnosed>, words: Words)
    ensures DecodeDiagnostics(EncodeDiagnostics(ds, words), words) == Some(ds)
  {
    if ds != [] {
      var init := ds[..|ds| - 1];
      DiagnosticsRoundTrip(init, words);
      assert EncodeDiagnostics(ds, words)[..|ds| - 1] == EncodeDiagnostics(init, words);
      assert init + [ds[|ds| - 1]] == ds;
    }
  }

  lemma {:induction false} DiagnosticsDecodeOnce(ws: seq<WireDiagnostic>, words: Words)
    requires DecodeDiagnostics(ws, words).Some?
    ensures EncodeDiagnostics(DecodeDiagnostics(ws, words).value, words) == ws
  {
    if ws != [] {
      DiagnosticsDecodeOnce(ws[..|ws| - 1], words);
      assert ws == ws[..|ws| - 1] + [ws[|ws| - 1]];
    }
  }

  // ---- the whole editor sample ----

  datatype WireSample = WireSample(
    stamp: Stamp,
    identity: Option<Identity>,
    validity: WireFact<Validity>,
    open: WireFact<OpenState>,
    resource: WireSource,
    buffer: WireSource,
    dirty: WireDirty,
    diagnostics: seq<WireDiagnostic>)

  datatype EditorSample = EditorSample(
    stamp: Stamp,
    identity: Option<Identity>,
    validity: Fact<Validity>,
    open: Fact<OpenState>,
    resource: Source,
    buffer: Source,
    dirty: Dirty,
    diagnostics: seq<Diagnosed>)

  predicate AdmittedIdentity(i: Identity, c: Context) {
    && i.path == c.path && FitsOption(i.script) && FitsOption(i.editor) && FitsOption(i.buffer)
    && (i.disk.Some? ==> Fits(i.disk.value.0) && Fits(i.disk.value.1))
    && i.path.kind == Some(i.kind) && !(i.kind == BuiltinGdscript && i.disk.Some?)
  }

  predicate StampOk(s: Stamp, c: Context) {
    s.received <= c.receipt && s.clock == Editor(c.session) && Within(s, c)
  }

  predicate FactOk<T>(f: Fact<T>, c: Context) {
    match f
    case Known(_, s) => StampOk(s, c)
    case Unknown(_, Some((_, s, _))) => StampOk(s, c)
    case Unknown(_, None) => true
  }

  predicate ObservationOk(v: Evidence.Observation, identity: Identity, authority: Authority, c: Context) {
    && v.stamp.received <= c.receipt && v.stamp.clock == (if authority == D then Caller else Editor(c.session))
    && CheckWitness(v.seen, identity, authority).None?
    && StaleWitnessed(v.stale, identity)
    && (v.stale.Some? ==> forall e | e in v.stale.value ::
          e.stamp.received <= c.receipt && e.stamp.clock == if e.authority == D then Caller else Editor(c.session))
  }

  predicate SourceOk(s: Source, identity: Identity, c: Context) {
    match s.state
    case Observed(v) => ObservationOk(v, identity, s.authority, c)
    case Unavailable(_, Some((v, _))) => ObservationOk(v, identity, s.authority, c)
    case _ => true
  }

  predicate DirtyOk(d: Dirty, identity: Identity, c: Context) {
    match d
    case DirtyObserved(_, s, w) => StampOk(s, c) && CheckWitness(w, identity, B).None?
    case DirtyUnavailable(_, Some((_, s, w, _))) => StampOk(s, c) && CheckWitness(w, identity, B).None?
    case _ => true
  }

  /** What else must hold of a decoded sample; `c` carries the enclosing collection. */
  predicate ValidSample(s: EditorSample, c: Context) {
    var open := s.open.Value();
    var inapplicable := s.buffer.state.NotApplicable? || s.dirty.DirtyNotApplicable?;
    && FactOk(s.validity, c) && FactOk(s.open, c)
    && (if s.identity.Some? then
          s.identity.value.disk.None? && SourceOk(s.resource, s.identity.value, c) && SourceOk(s.buffer, s.identity.value, c)
          && DirtyOk(s.dirty, s.identity.value, c)
        else
          !Held(s.resource) && !Held(s.buffer) && !s.dirty.DirtyObserved? && s.dirty.Invalidated().None?)
    && !(s.validity.Value().Some? && s.validity.value != Valid && open == Some(Open))
    && (if open == Some(NotOpen) then
          s.buffer.state.NotApplicable? && s.dirty.DirtyNotApplicable?
          && !(s.identity.Some? && (s.identity.value.editor.Some? || s.identity.value.buffer.Some?))
        else !inapplicable)
    && !(open.None? && (s.buffer.state.Observed? || s.dirty.DirtyObserved?))
  }

  function DecodeSample(w: WireSample, c: Context, words: Words): Option<EditorSample> {
    if |w.diagnostics| > COLLECTION_LIMIT || DecodeDiagnostics(w.diagnostics, words).None? then None
    else match DecodeStamp(w.stamp, c, true)
    case None => None
    case Some(stamp) =>
      if w.identity.Some? && !AdmittedIdentity(w.identity.value, c) then None
      else
        var inner := c.(identity := w.identity, interval := Some(stamp));
        match (DecodeFact(w.validity, c, true), DecodeFact(w.open, c, true), DecodeSource(w.resource, R, inner),
               DecodeSource(w.buffer, B, inner), DecodeDirty(w.dirty, c))
        case (Some(validity), Some(open), Some(resource), Some(buffer), Some(dirty)) =>
          var s := EditorSample(stamp, w.identity, validity, open, resource, buffer, dirty,
                                DecodeDiagnostics(w.diagnostics, words).value);
          if ValidSample(s, inner) then Some(s) else None
        case _ => None
  }

  function EncodeSample(s: EditorSample, words: Words): WireSample {
    WireSample(s.stamp, s.identity, EncodeFact(s.validity), EncodeFact(s.open), EncodeSource(s.resource), EncodeSource(s.buffer),
               EncodeDirty(s.dirty), EncodeDiagnostics(s.diagnostics, words))
  }

  function RestampSample(s: EditorSample, receipt: nat): EditorSample {
    EditorSample(RestampStamp(s.stamp, receipt), s.identity, RestampFact(s.validity, receipt), RestampFact(s.open, receipt),
                 RestampSource(s.resource, receipt), RestampSource(s.buffer, receipt), RestampDirty(s.dirty, receipt), s.diagnostics)
  }

  lemma {:induction false} ChangesStayOk(es: seq<StaleChange>, session: nat, receipt: nat)
    requires forall e | e in es :: e.stamp.clock == if e.authority == D then Caller else Editor(session)
    ensures forall e | e in RestampChanges(es, receipt) ::
              e.stamp.received <= receipt && e.stamp.clock == if e.authority == D then Caller else Editor(session)
  {
    if es != [] {
      ChangesStayOk(es[1..], session, receipt);
    }
  }

  lemma ObservationStaysOk(v: Evidence.Observation, identity: Identity, authority: Authority, c: Context, receipt: nat)
    requires ObservationOk(v, identity, authority, c)
    ensures ObservationOk(RestampObservation(v, receipt), identity, authority, c.Later(receipt))
  {
    if v.stale.Some? {
      ChangesStayOk(v.stale.value, c.session, receipt);
      RestampedWitnessed(v.stale.value, identity, receipt);
    }
  }

  lemma SourceStaysOk(s: Source, identity: Identity, c: Context, receipt: nat)
    requires SourceOk(s, identity, c)
    ensures SourceOk(RestampSource(s, receipt), identity, c.Later(receipt))
  {
    hide ObservationOk, RestampObservation;
    match s.state
    case Observed(v) => ObservationStaysOk(v, identity, s.authority, c, receipt);
    case Unavailable(_, Some((v, _))) => ObservationStaysOk(v, identity, s.authority, c, receipt);
    case _ =>
  }

  lemma FactStaysOk<T>(f: Fact<T>, c: Context, receipt: nat)
    requires FactOk(f, c) && c.interval.Some?
    ensures FactOk(RestampFact(f, receipt), c.Later(receipt)) && RestampFact(f, receipt).Value() == f.Value()
  {
  }

  lemma DirtyStaysOk(d: Dirty, identity: Identity, c: Context, receipt: nat)
    requires DirtyOk(d, identity, c) && c.interval.Some?
    ensures DirtyOk(RestampDirty(d, receipt), identity, c.Later(receipt))
  {
  }

  /** Restamping changes no availability and no applicability. */
  lemma SampleStaysValid(s: EditorSample, c: Context, receipt: nat)
    requires ValidSample(s, c) && c.interval.Some?
    ensures ValidSample(RestampSample(s, receipt), c.Later(receipt))
  {
    hide SourceOk, FactOk, DirtyOk, Context.Later;
    FactStaysOk(s.validity, c, receipt);
    FactStaysOk(s.open, c, receipt);
    if s.identity.Some? {
      SourceStaysOk(s.resource, s.identity.value, c, receipt);
      SourceStaysOk(s.buffer, s.identity.value, c, receipt);
      DirtyStaysOk(s.dirty, s.identity.value, c, receipt);
    }
  }

  /** The whole sample crosses the worker boundary twice without loss. */
  lemma SampleRoundTrip(w: WireSample, c: Context, receipt: nat, words: Words)
    requires c.interval.None? && c.receipt <= receipt && DecodeSample(w, c, words).Some?
    ensures var s := DecodeSample(w, c, words).value;
            DecodeSample(EncodeSample(s, words), c.Later(receipt), words) == Some(RestampSample(s, receipt))
  {
    var s := DecodeSample(w, c, words).value;
    DiagnosticsDecodeOnce(w.diagnostics, words);
    DiagnosticsRoundTrip(s.diagnostics, words);
    var inner := c.(identity := w.identity, interval := Some(s.stamp));
    StampAgain(w.stamp, c, true, receipt);
    assert inner.Timely();
    var later := c.Later(receipt);
    assert inner.Later(receipt) == later.(identity := w.identity, interval := Some(RestampStamp(s.stamp, receipt)));
    hide DecodeDiagnostics, EncodeDiagnostics, DecodeStamp, DecodeFact, DecodeDirty, DecodeSource, ValidSample,
         EncodeFact, EncodeSource, EncodeDirty,
         RestampFact, RestampSource, RestampDirty;
    FactRoundTrip(w.validity, c, true, receipt);
    FactRoundTrip(w.open, c, true, receipt);
    SourceRoundTrip(w.resource, R, inner, receipt);
    SourceRoundTrip(w.buffer, B, inner, receipt);
    DirtyRoundTrip(w.dirty, c, receipt);
    SampleStaysValid(s, inner, receipt);
  }
}
