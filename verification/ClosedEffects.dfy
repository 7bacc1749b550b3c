/** What the client concludes from the receipts of a closed edit: a sticky reduction and its
    classification. */
module ClosedEffects {

  /** The effect fields of one native receipt; a snapshot of the attempt it was taken from. */
  datatype Receipt = Receipt(
    serial: nat,
    resourceEntered: bool,
    resourceChanged: bool,
    diskEntered: bool,
    written: nat,
    truncated: bool,
    flushed: bool,
    readback: bool,
    restored: bool,
    terminal: bool)

  /** A terminal discard that shows no entry. */
  predicate Refusal(r: Receipt) {
    r.terminal && !r.resourceEntered && !r.diskEntered
  }

  datatype Effects = Effects(
    authorized: bool,
    entryRefused: bool,
    resourceEntered: bool,
    resourceChanged: bool,
    diskEntered: bool,
    written: nat,
    truncated: bool,
    flushed: bool,
    readback: bool,
    mtimeRestored: bool)

  /** The reduction kept by the client, updated in place by every receipt. */
  class Reducer {
    var effects: Effects
    /** The receipts merged so far. */
    ghost var seen: seq<Receipt>

    /** Every field is the least upper bound of that field over the receipts seen. */
    ghost predicate Valid()
      reads this
    {
      IsJoin(effects.authorized, seen, effects)
    }

    constructor (authorized: bool)
      ensures Valid() && seen == [] && effects.authorized == authorized
    {
      effects := Effects(authorized, false, false, false, false, 0, false, false, false, false);
      seen := [];
    }

    method Merge(r: Receipt)
      requires Valid()
      modifies this
      ensures Valid() && seen == old(seen) + [r] && effects.authorized == old(effects).authorized
    {
      hide IsJoin;
      JoinStep(effects.authorized, seen, r, effects);
      Raise(r);
      seen := seen + [r];
    }

    /** Every field is raised to what the receipt shows. */
    method Raise(r: Receipt)
      modifies this`effects
      ensures effects == Merged(old(effects), r)
    {
      effects := effects.(
        resourceEntered := effects.resourceEntered || r.resourceEntered,
        resourceChanged := effects.resourceChanged || r.resourceChanged,
        diskEntered := effects.diskEntered || r.diskEntered,
        written := if r.written > effects.written then r.written else effects.written,
        truncated := effects.truncated || r.truncated,
        flushed := effects.flushed || r.flushed,
        readback := effects.readback || r.readback,
        mtimeRestored := effects.mtimeRestored || r.restored);
      if r.terminal && !r.resourceEntered && !r.diskEntered {
        effects := effects.(entryRefused := true);
      }
    }
  }

  function Nothing(authorized: bool): Effects {
    Effects(authorized, false, false, false, false, 0, false, false, false, false)
  }

  function Merged(e: Effects, r: Receipt): Effects {
    Effects(
      e.authorized,
      e.entryRefused || Refusal(r),
      e.resourceEntered || r.resourceEntered,
      e.resourceChanged || r.resourceChanged,
      e.diskEntered || r.diskEntered,
      if r.written > e.written then r.written else e.written,
      e.truncated || r.truncated,
      e.flushed || r.flushed,
      e.readback || r.readback,
      e.mtimeRestored || r.restored)
  }

  function MergeAll(e: Effects, rs: seq<Receipt>): Effects {
    if rs == [] then e else Merged(MergeAll(e, rs[..|rs| - 1]), rs[|rs| - 1])
  }

  /** The reduction is a join: every field says whether some receipt showed it, and the byte count
      is the largest one shown. */
  ghost predicate IsJoin(authorized: bool, rs: seq<Receipt>, e: Effects) {
    && e.authorized == authorized
    && (e.entryRefused <==> exists r :: r in rs && Refusal(r))
    && (e.resourceEntered <==> exists r :: r in rs && r.resourceEntered)
    && (e.resourceChanged <==> exists r :: r in rs && r.resourceChanged)
    && (e.diskEntered <==> exists r :: r in rs && r.diskEntered)
    && (e.truncated <==> exists r :: r in rs && r.truncated)
    && (e.flushed <==> exists r :: r in rs && r.flushed)
    && (e.readback <==> exists r :: r in rs && r.readback)
    && (e.mtimeRestored <==> exists r :: r in rs && r.restored)
    && (forall r | r in rs :: r.written <= e.written)
    && (e.written > 0 ==> exists r :: r in rs && r.written == e.written)
  }

  lemma {:induction false} MergeIsJoin(authorized: bool, rs: seq<Receipt>)
    ensures IsJoin(authorized, rs, MergeAll(Nothing(authorized), rs))
  {
    hide IsJoin, Merged, Nothing;
    if rs == [] {
      NoReceipts(authorized);
    } else {
      var init, last := rs[..|rs| - 1], rs[|rs| - 1];
      MergeIsJoin(authorized, init);
      JoinStep(authorized, init, last, MergeAll(Nothing(authorized), init));
      assert init + [last] == rs;
    }
  }

  lemma NoReceipts(authorized: bool)
    ensures IsJoin(authorized, [], Nothing(authorized))
  {
  }

  lemma JoinStep(authorized: bool, rs: seq<Receipt>, r: Receipt, e: Effects)
    requires IsJoin(authorized, rs, e)
    ensures IsJoin(authorized, rs + [r], Merged(e, r))
  {
    var all := rs + [r];
    assert forall x :: x in all <==> x in rs || x == r;
  }

  /** The joins of receipt lists with the same members are equal. */
  lemma JoinIsUnique(authorized: bool, a: seq<Receipt>, b: seq<Receipt>, x: Effects, y: Effects)
    requires forall r :: r in a <==> r in b
    requires IsJoin(authorized, a, x) && IsJoin(authorized, b, y)
    ensures x == y
  {
    assert x.entryRefused == y.entryRefused;
    assert x.written == y.written;
  }

  /** Order and repetition of receipts do not matter. */
  lemma OrderIndependent(authorized: bool, a: seq<Receipt>, b: seq<Receipt>)
    requires forall r :: r in a <==> r in b
    ensures MergeAll(Nothing(authorized), a) == MergeAll(Nothing(authorized), b)
  {
    MergeIsJoin(authorized, a);
    MergeIsJoin(authorized, b);
    JoinIsUnique(authorized, a, b, MergeAll(Nothing(authorized), a), MergeAll(Nothing(authorized), b));
  }

  datatype Verdict = VerifiedUnchanged | VerifiedChanged | AppliedUnverified | ApplicationUnknown | Refused

  datatype Application = NotApplied | Applied | PartlyApplied | Unknown

  predicate Verified(e: Effects, verified: bool, noChange: bool, denied: bool, present: bool) {
    && verified && !denied
    && if noChange then
         !e.authorized && !e.resourceEntered && !e.diskEntered && !e.resourceChanged && e.written == 0 && !e.truncated
         && !e.flushed && !e.readback && !e.mtimeRestored
       else
         e.authorized && e.diskEntered && e.truncated && e.flushed && e.readback && e.mtimeRestored
         && (!present || e.resourceEntered)
  }

  function Outcome(e: Effects, verified: bool, noChange: bool, denied: bool, present: bool): (Verdict, Application) {
    var entered := e.resourceEntered || e.diskEntered;
    var known := e.resourceChanged || e.written > 0 || e.truncated;
    if Verified(e, verified, noChange, denied, present) then
      if noChange then (VerifiedUnchanged, NotApplied) else (VerifiedChanged, Applied)
    else if known then
      (AppliedUnverified, if e.flushed && e.readback && e.truncated then Applied else PartlyApplied)
    else if entered || (e.authorized && !e.entryRefused) then (ApplicationUnknown, Unknown)
    else (Refused, NotApplied)
  }

  /** Before authorization nothing can be entered, so only receipts can raise the verdict; after it,
      `NotApplied` needs a receipt that proves refusal, and no receipt that shows an effect. */
  lemma NotAppliedNeedsRefusal(rs: seq<Receipt>, verified: bool, noChange: bool, denied: bool, present: bool)
    ensures Outcome(MergeAll(Nothing(true), rs), verified, noChange, denied, present).1 == NotApplied <==>
              && (exists r :: r in rs && Refusal(r))
              && (forall r | r in rs ::
                    !r.resourceEntered && !r.diskEntered && !r.resourceChanged && r.written == 0 && !r.truncated)
  {
    MergeIsJoin(true, rs);
    var e := MergeAll(Nothing(true), rs);
    if Outcome(e, verified, noChange, denied, present).1 == NotApplied {
      assert e.entryRefused && !e.resourceEntered && !e.diskEntered && !e.resourceChanged && e.written == 0 && !e.truncated;
    } else if exists r :: r in rs && Refusal(r) {
      assert e.entryRefused;
      assert e.resourceEntered || e.diskEntered || e.resourceChanged || e.written > 0 || e.truncated;
    }
  }
}
