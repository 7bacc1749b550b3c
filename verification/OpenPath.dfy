/** Opening a script by its known path: inspect, prepare, bind, compile, show. A cold path publishes a
    new resource and compiles it once; a cached one is reused untouched. Everything outside may change
    between calls and inside every engine call. */
module OpenPath {
  import opened Wrappers

  datatype Stage = Inspected | Prepared | Bound | Compiled | Opened

  datatype CacheBinding = NotStarted | Reused | FailedBefore | Unknown | Published

  datatype Compilation = NoCompilation | NotApplicable | Undecided | Failed | CompiledValid | CompiledInvalid

  datatype Shown = NotShown | Entered | Obtained | Unverified | Unseen

  datatype Ids = Ids(editor: nat, buffer: nat)

  datatype Association = NoAnswer | Nowhere | At(script: nat, ids: Ids)

  datatype Cached = CacheUnavailable | Absent | Present(id: nat)

  datatype Text = Text(source: string, edited: Option<bool>)

  /** What the editor, the cache and the disk show at one moment. */
  datatype World = World(
    live: bool, tick: nat, attached: bool, disk: string, pathSafe: bool, document: Association, cache: Cached,
    texts: map<nat, Text>, effective: Option<string>, bindings: Option<string>, context: Option<string>)

  /** What preparation froze. */
  datatype Plan = Plan(source: string, effective: Option<string>, bindings: Option<string>, context: Option<string>)

  /** A call that can change the project, with the world it was entered in. */
  datatype Effect = Publish(world: World, script: nat) | Compile(world: World, script: nat) | Show(world: World, script: nat)

  datatype Status = Refused | Partial | Ready | Observed | Discarded

  /** The answers of the engine during one advance, with the world each call leaves behind. */
  datatype Answers = Answers(
    instance: Option<nat>, afterInstance: After, sourceSet: bool, afterSource: After, pathSet: bool, afterPath: After,
    reload: Option<int>, afterReload: After, shown: bool, afterShow: After)

  /** What a call leaves behind; a callback may have finished, aborted, expired or closed the attempt. */
  datatype After = After(world: World, discards: bool)

  /** The engine's code for a source that does not parse. */
  const PARSE_ERROR: int := 43

  // ---- the guards ----

  predicate Live(w: World, expires: nat) {
    w.live && w.tick < expires
  }

  /** The script object still holds the captured source and is not edited. */
  predicate ResourceOk(w: World, script: nat, source: string) {
    script in w.texts && w.texts[script].source == source && w.texts[script].edited == Some(false)
  }

  predicate DocumentOk(w: World, script: nat, target: Option<Ids>, expected: bool) {
    match w.document
    case NoAnswer => false
    case Nowhere => !expected
    case At(s, ids) => expected && s == script && (target.Some? ==> ids == target.value)
  }

  predicate CacheOk(w: World, script: nat, source: string, expected: bool) {
    match w.cache
    case CacheUnavailable => false
    case Absent => !expected
    case Present(id) => expected && id == script && ResourceOk(w, script, source)
  }

  predicate ContextOk(w: World, plan: Plan) {
    && w.effective.Some? && w.effective == plan.effective
    && w.bindings.Some? && w.bindings == plan.bindings
    && w.context.Some? && w.context == plan.context
  }

  predicate DiskOk(w: World, plan: Plan) {
    w.attached && w.disk == plan.source && w.pathSafe
  }

  /** Everything an advance relies on holds at this moment. */
  predicate Clear(w: World, plan: Plan, expires: nat, script: nat, target: Option<Ids>, shown: bool, inCache: bool) {
    && Live(w, expires) && DiskOk(w, plan) && DocumentOk(w, script, target, shown)
    && CacheOk(w, script, plan.source, inCache) && ContextOk(w, plan)
  }

  // ---- what may have been entered ----

  /** The world an effect was entered in is the one that stage predicts: publication only where nothing
      is cached, compilation and opening only on the cached resource with the captured source; and no
      document shows the script yet. */
  predicate Allowed(e: Effect, plan: Plan, expires: nat) {
    Clear(e.world, plan, expires, e.script, None, false, !e.Publish?)
  }

  predicate AllAllowed(effects: seq<Effect>, script: nat, plan: Plan, expires: nat) {
    forall e | e in effects :: e.script == script && Allowed(e, plan, expires)
  }

  lemma NothingEntered(cached: bool, script: nat, plan: Plan, expires: nat)
    ensures AllAllowed([], script, plan, expires) && InOrder([], cached)
  {
  }

  lemma NoEffects(effects: seq<Effect>, script: nat, other: nat, plan: Plan, expires: nat)
    requires AllAllowed(effects, script, plan, expires)
    ensures effects == [] ==> AllAllowed(effects, other, plan, expires)
  {
  }

  lemma OneMore(effects: seq<Effect>, e: Effect, script: nat, plan: Plan, expires: nat)
    requires AllAllowed(effects, script, plan, expires) && e.script == script
    requires Clear(e.world, plan, expires, script, None, false, !e.Publish?)
    ensures AllAllowed(effects + [e], script, plan, expires)
  {
    hide Clear;
  }

  /** Cold: publish, compile, show, each at most once. Cached: at most one show. */
  predicate InOrder(effects: seq<Effect>, cached: bool) {
    if cached then |effects| <= 1 && (|effects| == 1 ==> effects[0].Show?)
    else
      && |effects| <= 3 && (|effects| > 0 ==> effects[0].Publish?) && (|effects| > 1 ==> effects[1].Compile?)
      && (|effects| > 2 ==> effects[2].Show?)
  }

  function Count(stage: Stage, cached: bool): nat {
    match stage
    case Opened => if cached then 1 else 3
    case Compiled => if cached then 0 else 2
    case Bound => if cached then 0 else 1
    case _ => 0
  }

  /** Opened as asked: the document shows the resource in the cache, which holds the source on disk. */
  predicate Established(w: World, script: nat, source: string) {
    && w.document.At? && w.document.script == script && w.cache == Present(script)
    && w.disk == source && ResourceOk(w, script, source)
  }

  function Next(terminal: bool, targetOpen: bool, stage: Stage, cached: bool): Option<Stage> {
    if terminal || targetOpen then None
    else match stage
      case Inspected => None
      case Prepared => Some(Bound)
      case Bound => Some(if cached then Opened else Compiled)
      case Compiled => Some(Opened)
      case Opened => None
  }

  // ---- when a stage succeeds ----

  predicate Makes(answers: Answers, plan: Plan, expires: nat) {
    && answers.instance.Some? && !answers.afterInstance.discards
    && Clear(answers.afterInstance.world, plan, expires, answers.instance.value, None, false, false)
    && answers.sourceSet && !answers.afterSource.discards
    && Clear(answers.afterSource.world, plan, expires, answers.instance.value, None, false, false)
  }

  predicate Binds(answers: Answers, plan: Plan, expires: nat, cached: bool) {
    || cached
    || (&& Makes(answers, plan, expires)
        && answers.pathSet && answers.afterPath.world.cache == Present(answers.instance.value)
        && ResourceOk(answers.afterPath.world, answers.instance.value, plan.source))
  }

  predicate Reloads(answers: Answers) {
    answers.reload.Some? && (answers.reload.value == 0 || answers.reload.value == PARSE_ERROR)
  }

  predicate Shows(answers: Answers, script: nat) {
    && answers.shown && answers.afterShow.world.document.At?
    && answers.afterShow.world.document.script == script
  }

  /** The engine's part of a stage. */
  predicate Performs(stage: Stage, answers: Answers, plan: Plan, expires: nat, script: nat, cached: bool) {
    match stage
    case Bound => Binds(answers, plan, expires, cached)
    case Compiled => Reloads(answers)
    case Opened => Shows(answers, script)
    case _ => false
  }

  /** What a stage that succeeds has entered. */
  function Enters(stage: Stage, answers: Answers, w: World, script: nat, cached: bool): seq<Effect> {
    match stage
    case Bound => if cached || answers.instance.None? then [] else [Publish(answers.afterSource.world, answers.instance.value)]
    case Compiled => [Compile(w, script)]
    case Opened => [Show(w, script)]
    case _ => []
  }

  /** What its last call leaves behind. */
  function Leaves(stage: Stage, answers: Answers, w: World, cached: bool): After {
    match stage
    case Bound => if cached then After(w, false) else answers.afterPath
    case Compiled => answers.afterReload
    case Opened => answers.afterShow
    case _ => After(w, false)
  }

  function ScriptOf(stage: Stage, answers: Answers, script: nat, cached: bool): nat {
    if stage == Bound && !cached && answers.instance.Some? then answers.instance.value else script
  }

  function TargetOf(stage: Stage, answers: Answers): Option<Ids> {
    if stage == Opened && answers.afterShow.world.document.At? then Some(answers.afterShow.world.document.ids) else None
  }

  /** The engine's part, and the guards on what it leaves behind. */
  predicate Succeeds(stage: Stage, answers: Answers, plan: Plan, expires: nat, w: World, script: nat, cached: bool) {
    var after := Leaves(stage, answers, w, cached);
    && Performs(stage, answers, plan, expires, script, cached) && !after.discards
    && Clear(after.world, plan, expires, ScriptOf(stage, answers, script, cached), TargetOf(stage, answers), stage == Opened, true)
  }

  /** The attempt between two steps. */
  datatype View = View(world: World, stage: Stage, cached: bool, targetOpen: bool, terminal: bool, script: nat, target: Option<Ids>,
                       cacheText: Option<Text>, plan: Plan, effects: seq<Effect>)

  /** What an inspection finds. */
  predicate Found(w: World, expires: nat, v: View) {
    && v.world == w && v.stage == Inspected && v.effects == []
    && (!v.terminal <==>
          && w.attached && Live(w, expires) && !w.document.NoAnswer? && !w.cache.CacheUnavailable?
          && (w.document.At? ==> w.cache == Present(w.document.script)))
    && (!v.terminal ==> v.targetOpen == w.document.At? && v.cached == w.cache.Present?)
    && (!v.terminal && v.cached ==>
          v.script == w.cache.id && v.cacheText == if v.script in w.texts then Some(w.texts[v.script]) else None)
  }

  /** A failure discards the attempt; the answer says whether anything was entered. */
  predicate Discards(status: Status, v: View) {
    v.terminal && status == if v.effects == [] then Refused else Partial
  }

  /** Preparation freezes the captured source and contexts; it has no effect. */
  predicate PreparedStep(source: string, bound: bool, admitted: bool, expires: nat, s: View, status: Status, t: View) {
    var plan := Plan(source, s.world.effective, s.world.bindings, s.world.context);
    if && !s.terminal && !s.targetOpen && s.stage == Inspected && bound && admitted
       && (s.cached ==> s.cacheText == Some(Text(source, Some(false))))
       && Clear(s.world, plan, expires, s.script, None, false, s.cached)
    then status == Ready && t == s.(stage := Prepared, plan := plan)
    else Discards(status, t) && t.effects == s.effects && t.world == s.world && t.cached == s.cached
  }

  /** The request names the next stage, and everything the attempt relies on holds. */
  predicate MayEnter(wanted: Option<Stage>, validated: bool, expires: nat, s: View) {
    && validated && wanted.Some? && wanted == Next(s.terminal, s.targetOpen, s.stage, s.cached)
    && Clear(s.world, s.plan, expires, s.script, None, false, s.cached || s.stage != Prepared)
  }

  /** One stage. It succeeds exactly when it may be entered, the engine answers, and the guards hold after
      it; otherwise the attempt is discarded, and nothing is entered unless the stage was. */
  predicate AdvancedStep(wanted: Option<Stage>, validated: bool, answers: Answers, expires: nat, s: View, status: Status, t: View) {
    if MayEnter(wanted, validated, expires, s) && Succeeds(wanted.value, answers, s.plan, expires, s.world, s.script, s.cached) then
      && status == Ready
      && t.world == Leaves(wanted.value, answers, s.world, s.cached).world
      && t == s.(world := t.world, stage := wanted.value, script := ScriptOf(wanted.value, answers, s.script, s.cached),
                 target := t.target, effects := s.effects + Enters(wanted.value, answers, s.world, s.script, s.cached))
    else
      && Discards(status, t) && s.effects <= t.effects && |t.effects| <= |s.effects| + 1
      && t.plan == s.plan && t.cached == s.cached && t.targetOpen == s.targetOpen
      && (!MayEnter(wanted, validated, expires, s) ==> t.effects == s.effects && t.world == s.world)
  }

  /** Verification after the fact changes nothing unless it fails. */
  predicate ObservedStep(postOpen: bool, expires: nat, s: View, status: Status, t: View) {
    if (if postOpen
        then !s.targetOpen && s.stage == Opened && !s.terminal && Clear(s.world, s.plan, expires, s.script, s.target, true, true)
        else s.targetOpen && s.stage == Inspected && !s.terminal && Live(s.world, expires) && s.world.attached
             && DocumentOk(s.world, s.script, s.target, true))
    then status == Observed && t == s.(target := t.target)
    else Discards(status, t) && t == s.(target := t.target, terminal := true)
  }

  class Attempt {
    var world: World
    var stage: Stage
    var cached: bool
    var targetOpen: bool
    var terminal: bool
    var openEntered: bool
    var script: nat
    var target: Option<Ids>
    var cacheText: Option<Text>
    var binding: CacheBinding
    var compilation: Compilation
    var shown: Shown
    var plan: Plan
    const expires: nat
    /** The effectful calls entered so far. */
    var effects: seq<Effect>

    function Seen(): View
      reads this
    {
      View(world, stage, cached, targetOpen, terminal, script, target, cacheText, plan, effects)
    }

    predicate Effected()
      reads this`binding, this`openEntered
    {
      binding == Published || binding == Unknown || openEntered
    }

    /** The stage and the flags tell which effects were entered; `exact` while no failure is pending. */
    ghost predicate Tallied(exact: bool)
      reads this
    {
      && InOrder(effects, cached)
      && (cached ==> stage != Compiled)
      && Count(stage, cached) <= |effects| <= Count(stage, cached) + 1
      && (exact ==> |effects| == Count(stage, cached))
      && (openEntered <==> |effects| == Count(Opened, cached))
      && (binding == Published || binding == Unknown <==> !cached && |effects| > 0)
    }

    ghost predicate Lawful()
      reads this
    {
      (effects != [] ==> !stage.Inspected?) && AllAllowed(effects, script, plan, expires)
    }

    /** The target a guard remembers is set only once the document was found. */
    ghost predicate Targeted()
      reads this
    {
      (target.Some? ==> targetOpen || stage == Opened) && (targetOpen ==> stage == Inspected || terminal)
    }

    ghost predicate Valid()
      reads this
    {
      Tallied(!terminal) && Lawful() && Targeted()
    }

    /** The slot is reserved, then the document and the cache are looked up. */
    constructor (w: World, expires: nat)
      ensures Valid() && this.expires == expires && Found(w, expires, Seen())
    {
      this.expires := expires;
      world, stage, cached, targetOpen, openEntered, script := w, Inspected, false, false, false, 0;
      target, cacheText, binding, compilation, shown := None, None, NotStarted, NoCompilation, NotShown;
      plan := Plan("", None, None, None);
      effects := [];
      terminal := !w.attached || w.document.NoAnswer? || w.cache.CacheUnavailable?;
      new;
      hide AllAllowed, InOrder;
      NothingEntered(cached, script, plan, expires);
      NothingEntered(true, if world.cache.Present? then world.cache.id else 0, plan, expires);
      if !terminal {
        if world.document.At? { targetOpen, target := true, Some(world.document.ids); }
        if world.cache.Present? {
          cached, script := true, world.cache.id;
          if script in world.texts { cacheText := Some(world.texts[script]); }
        }
        if (targetOpen && (!cached || script != world.document.script)) || !Live(world, expires) { terminal := true; }
      }
    }

    /** A failure discards the attempt and says whether anything may have happened. */
    method Fail() returns (status: Status)
      requires Tallied(false) && Lawful() && (target.Some? ==> targetOpen || stage == Opened)
      modifies this`terminal
      ensures Valid() && terminal
      ensures status == (if effects == [] then Refused else Partial)
    {
      terminal := true;
      status := if Effected() then Partial else Refused;
    }

    /** Re-establishes everything the attempt relies on, and remembers where the document is shown. */
    method Guard(afterOpen: bool) returns (ok: bool)
      modifies this`target
      ensures ok <==> !terminal && Clear(world, plan, expires, script, old(target), afterOpen || targetOpen,
                                         cached || stage == Bound || stage == Compiled || stage == Opened)
      ensures target == old(target) || (ok && (afterOpen || targetOpen))
    {
      if terminal || !Live(world, expires) || !DiskOk(world, plan) { return false; }
      var expected := afterOpen || targetOpen;
      if !DocumentOk(world, script, target, expected) { return false; }
      if !CacheOk(world, script, plan.source, cached || (!stage.Inspected? && !stage.Prepared?)) { return false; }
      if !ContextOk(world, plan) { return false; }
      if world.document.At? { target := Some(world.document.ids); }
      return true;
    }

    /** Preparation freezes the captured source and contexts. It has no effect; a cached resource must
        hold exactly that source, unedited. */
    method Prepare(source: string, bound: bool, admitted: bool) returns (status: Status)
      requires Valid()
      modifies this`plan, this`stage, this`compilation, this`terminal, this`target
      ensures Valid() && PreparedStep(source, bound, admitted, expires, old(Seen()), status, Seen())
    {
      if terminal || targetOpen || stage != Inspected || !Live(world, expires) || !bound {
        status := Fail();
        return;
      }
      plan := Plan(source, world.effective, world.bindings, world.context);
      if (cached && cacheText != Some(Text(source, Some(false)))) || !DiskOk(world, plan) || !admitted {
        status := Fail();
        return;
      }
      stage := Prepared;
      if cached { compilation := NotApplicable; }
      var ok := Guard(false);
      if !ok {
        status := Fail();
        return;
      }
      status := Ready;
    }

    /** The engine ran: the world may be anything now. */
    method Settle(after: After)
      modifies this`world, this`terminal
      ensures world == after.world && terminal == (old(terminal) || after.discards)
    {
      world := after.world;
      if after.discards { terminal := true; }
    }

    method Enter(e: Effect)
      modifies this`effects
      ensures effects == old(effects) + [e]
    {
      effects := effects + [e];
    }

    /** Makes the resource object that will be published; nothing is visible yet. */
    method Make(answers: Answers) returns (ok: bool)
      requires Valid() && !terminal && stage == Prepared && !targetOpen && !cached
      modifies this`world, this`terminal, this`binding, this`script, this`target
      ensures target == old(target)
      ensures Tallied(true) && Lawful() && binding != Published && binding != Unknown
      ensures ok <==> Makes(answers, plan, expires)
      ensures ok ==> !terminal && script == answers.instance.value && world == answers.afterSource.world
    {
      hide Clear, AllAllowed;
      if answers.instance.None? {
        binding := FailedBefore;
        Settle(answers.afterInstance);
        return false;
      }
      NoEffects(effects, script, answers.instance.value, plan, expires);
      script := answers.instance.value;
      Settle(answers.afterInstance);
      ok := Guard(false);
      if !ok { return false; }
      Settle(answers.afterSource);
      if !answers.sourceSet {
        binding := FailedBefore;
        return false;
      }
      ok := Guard(false);
    }

    /** Publishes a new resource under the path once the guards held on the object made for it. */
    method Bind(answers: Answers) returns (ok: bool)
      requires Valid() && !terminal && stage == Prepared && !targetOpen
      modifies this`world, this`terminal, this`stage, this`binding, this`script, this`effects, this`target
      ensures Tallied(ok) && Lawful() && old(effects) <= effects && |effects| <= |old(effects)| + 1 && target == old(target)
      ensures ok <==> Binds(answers, plan, expires, cached)
      ensures ok ==> stage == Bound
      ensures ok && cached ==> world == old(world) && !terminal && script == old(script) && effects == old(effects)
      ensures ok && !cached ==> world == answers.afterPath.world && terminal == answers.afterPath.discards
      ensures ok && !cached ==> script == answers.instance.value && effects == [Publish(answers.afterSource.world, script)]
    {
      hide Clear, AllAllowed;
      if cached {
        binding, stage := Reused, Bound;
        return true;
      }
      ok := Make(answers);
      if !ok { return false; }
      binding := Unknown;
      OneMore(effects, Publish(world, script), script, plan, expires);
      Enter(Publish(world, script));
      Settle(answers.afterPath);
      if world.cache == Present(script) { binding, stage := Published, Bound; }
      ok := answers.pathSet && stage == Bound && ResourceOk(world, script, plan.source);
    }

    method Reload(answers: Answers) returns (ok: bool)
      requires Valid() && !terminal && stage == Bound && !cached && !targetOpen
      requires Clear(world, plan, expires, script, None, false, true)
      modifies this`world, this`terminal, this`stage, this`compilation, this`effects
      ensures Tallied(ok) && Lawful() && effects == old(effects) + [Compile(old(world), script)]
      ensures ok <==> Reloads(answers)
      ensures ok ==> stage == Compiled && compilation == if answers.reload.value == 0 then CompiledValid else CompiledInvalid
      ensures ok ==> world == answers.afterReload.world && terminal == answers.afterReload.discards
    {
      hide AllAllowed, Clear;
      compilation := Undecided;
      OneMore(effects, Compile(world, script), script, plan, expires);
      Enter(Compile(world, script));
      Settle(answers.afterReload);
      if answers.reload.None? {
        compilation := Failed;
        return false;
      }
      var code := answers.reload.value;
      if code < 0 { return false; }
      if code != 0 && code != PARSE_ERROR {
        compilation := Failed;
        return false;
      }
      compilation, stage := if code == 0 then CompiledValid else CompiledInvalid, Compiled;
      return true;
    }

    method ShowDocument(answers: Answers) returns (ok: bool)
      requires Valid() && !terminal && Next(terminal, targetOpen, stage, cached) == Some(Opened)
      requires Clear(world, plan, expires, script, None, false, true)
      modifies this`world, this`terminal, this`stage, this`shown, this`effects, this`openEntered, this`target
      ensures Tallied(ok) && Lawful() && effects == old(effects) + [Show(old(world), script)] && (target.Some? ==> stage == Opened)
      ensures ok <==> Shows(answers, script)
      ensures ok ==> stage == Opened && shown == Obtained && target == Some(answers.afterShow.world.document.ids)
      ensures ok ==> world == answers.afterShow.world && terminal == answers.afterShow.discards
    {
      hide AllAllowed, Clear;
      openEntered, shown := true, Entered;
      OneMore(effects, Show(world, script), script, plan, expires);
      Enter(Show(world, script));
      Settle(answers.afterShow);
      if world.document.At? && world.document.script == script {
        target, shown, stage := Some(world.document.ids), Obtained, Opened;
      } else {
        shown := if world.document.NoAnswer? then Unseen else Unverified;
      }
      ok := answers.shown && stage == Opened;
    }

    method Perform(wanted: Stage, answers: Answers) returns (ok: bool)
      requires Valid() && !terminal && Next(terminal, targetOpen, stage, cached) == Some(wanted)
      requires Clear(world, plan, expires, script, None, false, cached || stage != Prepared)
      modifies this`world, this`terminal, this`stage, this`binding, this`compilation, this`script, this`shown, this`effects,
               this`openEntered, this`target
      ensures Tallied(ok) && Lawful() && old(effects) <= effects && |effects| <= |old(effects)| + 1 && (target.Some? ==> stage == Opened)
      ensures ok <==> Performs(wanted, answers, plan, expires, old(script), cached)
      ensures ok ==> stage == wanted && script == ScriptOf(wanted, answers, old(script), cached) && target == TargetOf(wanted, answers)
      ensures ok ==> After(world, terminal) == Leaves(wanted, answers, old(world), cached)
      ensures ok ==> effects == old(effects) + Enters(wanted, answers, old(world), old(script), cached)
    {
      hide Clear, AllAllowed, InOrder, Reloads, Shows;
      if wanted == Bound {
        ok := Bind(answers);
      } else if wanted == Compiled {
        ok := Reload(answers);
      } else {
        ShowsSeen(answers, script);
        ok := ShowDocument(answers);
      }
    }

    /** One stage: the guards, the stage's call, the guards again. It succeeds exactly when the request
        names the next stage, the guards hold before, the engine answers, and the guards hold after. */
    method Advance(wanted: Option<Stage>, validated: bool, answers: Answers) returns (status: Status)
      requires Valid()
      modifies this
      ensures Valid() && AdvancedStep(wanted, validated, answers, expires, old(Seen()), status, Seen())
      ensures status == Ready && stage == Opened ==> Established(world, script, plan.source)
    {
      hide Clear, AllAllowed, InOrder, Performs, Leaves, Enters, ScriptOf, TargetOf, Succeeds;
      if terminal || wanted.None? || wanted != Next(terminal, targetOpen, stage, cached) || !validated {
        status := Fail();
        return;
      }
      var ok := Guard(false);
      if !ok {
        status := Fail();
        return;
      }
      status := Carry(wanted.value, answers);
    }

    /** The stage's call, and the guards on what it leaves behind. */
    method Carry(wanted: Stage, answers: Answers) returns (status: Status)
      requires Valid() && !terminal && Next(terminal, targetOpen, stage, cached) == Some(wanted)
      requires Clear(world, plan, expires, script, None, false, cached || stage != Prepared)
      modifies this`world, this`terminal, this`stage, this`binding, this`compilation, this`script, this`shown, this`effects,
               this`openEntered, this`target
      ensures Valid() && old(effects) <= effects && |effects| <= |old(effects)| + 1
      ensures if Succeeds(wanted, answers, plan, expires, old(world), old(script), cached) then
                && status == Ready && !terminal && stage == wanted && script == ScriptOf(wanted, answers, old(script), cached)
                && world == Leaves(wanted, answers, old(world), cached).world
                && effects == old(effects) + Enters(wanted, answers, old(world), old(script), cached)
              else Discards(status, Seen())
      ensures status == Ready && stage == Opened ==> Established(world, script, plan.source)
    {
      hide Clear, AllAllowed, InOrder, Performs, Leaves, Enters, ScriptOf, TargetOf;
      var ok := Perform(wanted, answers);
      if !ok {
        status := Fail();
        return;
      }
      ghost var was := target;
      ok := Guard(stage == Opened);
      if !ok {
        status := Fail();
        return;
      }
      if stage == Opened { ClearEstablished(world, plan, expires, script, was); }
      status := Ready;
    }

    /** Verification after the fact: the guards for a document this attempt opened, the association
        alone for one that was open before. */
    method Observe(postOpen: bool) returns (status: Status)
      requires Valid()
      modifies this`terminal, this`target
      ensures Valid() && ObservedStep(postOpen, expires, old(Seen()), status, Seen())
      ensures status == Observed && postOpen ==> Established(world, script, plan.source)
      ensures status == Observed && !postOpen ==> world.document.At? && world.document.script == script
    {
      hide Clear, AllAllowed, InOrder;
      if !(if postOpen then !targetOpen && stage == Opened else targetOpen && stage == Inspected) {
        status := Fail();
        return;
      }
      var ok: bool;
      ghost var was := target;
      if postOpen {
        ok := Guard(true);
        if ok { ClearEstablished(world, plan, expires, script, was); }
      } else {
        ok := !terminal && Live(world, expires) && world.attached && DocumentOk(world, script, target, true);
      }
      if !ok {
        status := Fail();
        return;
      }
      status := Observed;
    }

    /** Finish and abort. */
    method Discard() returns (status: Status)
      requires Valid()
      modifies this`terminal
      ensures Valid() && terminal && status == Discarded
    {
      terminal := true;
      status := Discarded;
    }

    /** Expiry takes the attempt out of use. */
    method Expire() returns (due: bool)
      requires Valid()
      modifies this`terminal
      ensures Valid() && due == (world.tick >= expires) && terminal == (old(terminal) || due)
    {
      due := world.tick >= expires;
      if due { terminal := true; }
    }
  }

  lemma ShowsSeen(answers: Answers, script: nat)
    ensures Shows(answers, script) ==> answers.afterShow.world.document.At?
  {
  }

  lemma ClearEstablished(w: World, plan: Plan, expires: nat, script: nat, target: Option<Ids>)
    requires Clear(w, plan, expires, script, target, true, true)
    ensures Established(w, script, plan.source) && Live(w, expires)
  {
  }

  // ---- whole runs ----

  datatype Step =
    | Change(to: World)
    | DoPrepare(source: string, bound: bool, admitted: bool)
    | DoAdvance(wanted: Option<Stage>, validated: bool, answers: Answers)
    | DoObserve(postOpen: bool)
    | DoDiscard
    | DoExpire

  /** One step: what it does to the attempt and what it answers. */
  predicate Stepped(step: Step, expires: nat, s: View, status: Option<Status>, t: View) {
    match step
    case Change(to) => status == None && t == s.(world := to)
    case DoPrepare(source, bound, admitted) => status.Some? && PreparedStep(source, bound, admitted, expires, s, status.value, t)
    case DoAdvance(wanted, validated, answers) => status.Some? && AdvancedStep(wanted, validated, answers, expires, s, status.value, t)
    case DoObserve(postOpen) => status.Some? && ObservedStep(postOpen, expires, s, status.value, t)
    case DoDiscard => status == Some(Discarded) && t == s.(terminal := true)
    case DoExpire => status == None && t == s.(terminal := s.terminal || s.world.tick >= expires)
  }

  /** The attempt after a step, and what was answered. */
  datatype Report = Report(status: Option<Status>, view: View)

  /** What one report means. */
  predicate Truthful(r: Report, expires: nat) {
    && InOrder(r.view.effects, r.view.cached)
    && AllAllowed(r.view.effects, r.view.script, r.view.plan, expires)
    && (r.status == Some(Refused) ==> r.view.effects == [])
    && (r.status == Some(Partial) ==> r.view.effects != [])
    && (r.status == Some(Ready) && r.view.stage == Opened ==> Established(r.view.world, r.view.script, r.view.plan.source))
  }

  /** Effects are never undone, and a discarded attempt enters nothing more. */
  predicate Follows(a: View, b: View) {
    a.cached == b.cached && a.effects <= b.effects && (a.terminal ==> b.terminal && b.effects == a.effects)
  }

  /** The view step `k` started from. */
  function Before(first: View, reports: seq<Report>, k: nat): View
    requires k <= |reports|
  {
    if k == 0 then first else reports[k - 1].view
  }

  /** Every report is what the step made of the view before it. */
  predicate Chained(expires: nat, first: View, steps: seq<Step>, reports: seq<Report>) {
    && |reports| <= |steps|
    && forall k | 0 <= k < |reports| :: Stepped(steps[k], expires, Before(first, reports, k), reports[k].status, reports[k].view)
  }

  lemma NothingChained(expires: nat, first: View, steps: seq<Step>)
    ensures Chained(expires, first, steps, [])
  {
  }

  lemma ChainOn(expires: nat, first: View, steps: seq<Step>, reports: seq<Report>, r: Report)
    requires Chained(expires, first, steps, reports) && |reports| < |steps|
    requires Stepped(steps[|reports|], expires, Before(first, reports, |reports|), r.status, r.view)
    ensures Chained(expires, first, steps, reports + [r])
  {
    hide Stepped;
    forall k | 0 <= k < |reports| + 1
      ensures Stepped(steps[k], expires, Before(first, reports + [r], k), (reports + [r])[k].status, (reports + [r])[k].view)
    {
      assert Before(first, reports + [r], k) == Before(first, reports, k);
    }
  }

  lemma StepFollows(step: Step, expires: nat, s: View, status: Option<Status>, t: View)
    requires Stepped(step, expires, s, status, t)
    ensures Follows(s, t)
  {
    hide Clear, Enters, Leaves, ScriptOf, Succeeds;
  }

  lemma {:induction false} AllFollow(expires: nat, first: View, steps: seq<Step>, reports: seq<Report>, i: nat, j: nat)
    requires Chained(expires, first, steps, reports) && i <= j <= |reports|
    ensures Follows(Before(first, reports, i), Before(first, reports, j))
    decreases j
  {
    hide Stepped;
    if i < j {
      AllFollow(expires, first, steps, reports, i, j - 1);
      StepFollows(steps[j - 1], expires, Before(first, reports, j - 1), reports[j - 1].status, reports[j - 1].view);
    }
  }

  /** Any sequence of calls and outside changes after any inspection: every effect was entered in the
      world its stage predicts, at most once and in order, never again after the attempt was
      discarded; a refusal means nothing was entered, a partial result means something was. */
  method Run(start: World, expires: nat, steps: seq<Step>) returns (first: View, reports: seq<Report>)
    ensures Found(start, expires, first) && |reports| == |steps| && Chained(expires, first, steps, reports)
    ensures forall r | r in reports :: Truthful(r, expires)
    ensures forall i, j | 0 <= i < j < |reports| :: Follows(reports[i].view, reports[j].view)
    ensures first.cached ==> forall r, e | r in reports && e in r.view.effects :: e.Show?
  {
    hide AllAllowed, InOrder, Established, Truthful, Stepped, Chained, Found, Follows;
    var a := new Attempt(start, expires);
    first := a.Seen();
    reports := [];
    NothingChained(expires, first, steps);
    for i := 0 to |steps|
      invariant |reports| == i && a.Valid() && a.expires == expires && a.Seen() == Before(first, reports, i)
      invariant Chained(expires, first, steps, reports) && forall r | r in reports :: Truthful(r, expires)
    {
      var status := Take(a, steps[i]);
      TruthfulNow(a, status);
      ChainOn(expires, first, steps, reports, Report(status, a.Seen()));
      reports := reports + [Report(status, a.Seen())];
    }
    forall i, j | 0 <= i < j < |reports|
      ensures Follows(reports[i].view, reports[j].view)
    {
      AllFollow(expires, first, steps, reports, i + 1, j + 1);
    }
    if first.cached {
      forall r, e | r in reports && e in r.view.effects
        ensures e.Show?
      {
        var k :| 0 <= k < |reports| && reports[k] == r;
        AllFollow(expires, first, steps, reports, 0, k + 1);
        OnlyShows(first, r, expires, e);
      }
    }
  }

  lemma OnlyShows(first: View, r: Report, expires: nat, e: Effect)
    requires first.cached && Follows(first, r.view) && Truthful(r, expires) && e in r.view.effects
    ensures e.Show?
  {
    hide Allowed;
  }

  lemma TruthfulNow(a: Attempt, status: Option<Status>)
    requires a.Valid()
    requires status == Some(Refused) ==> a.effects == []
    requires status == Some(Partial) ==> a.effects != []
    requires status == Some(Ready) && a.stage == Opened ==> Established(a.world, a.script, a.plan.source)
    ensures Truthful(Report(status, a.Seen()), a.expires)
  {
    hide AllAllowed, InOrder, Established;
  }

  method Take(a: Attempt, step: Step) returns (status: Option<Status>)
    requires a.Valid()
    modifies a
    ensures a.Valid() && Stepped(step, a.expires, old(a.Seen()), status, a.Seen())
    ensures status == Some(Refused) ==> a.effects == []
    ensures status == Some(Partial) ==> a.effects != []
    ensures status == Some(Ready) && a.stage == Opened ==> Established(a.world, a.script, a.plan.source)
  {
    hide AllAllowed, InOrder, Established, Clear, Succeeds, Enters, Leaves, ScriptOf;
    match step
    case Change(w) =>
      a.Settle(After(w, false));
      status := None;
    case DoPrepare(source, bound, admitted) =>
      var s := a.Prepare(source, bound, admitted);
      status := Some(s);
    case DoAdvance(wanted, validated, answers) =>
      var s := a.Advance(wanted, validated, answers);
      status := Some(s);
    case DoObserve(postOpen) =>
      var s := a.Observe(postOpen);
      status := Some(s);
    case DoDiscard =>
      var s := a.Discard();
      status := Some(s);
    case DoExpire =>
      var due := a.Expire();
      status := None;
  }

  // ---- an open nobody interferes with ----

  /** The world once the resource is published, and once its document is shown. */
  function PublishedIn(w: World, made: nat): World {
    w.(cache := Present(made), texts := w.texts[made := Text(w.disk, Some(false))])
  }

  function ShownIn(w: World, made: nat, ids: Ids): World {
    PublishedIn(w, made).(document := At(made, ids))
  }

  /** The engine does what it is asked, and nobody else does anything. */
  function CalmAnswers(w: World, made: nat, ids: Ids): Answers {
    var quiet, bound, open := After(w, false), After(PublishedIn(w, made), false), After(ShownIn(w, made, ids), false);
    Answers(Some(made), quiet, true, quiet, true, bound, Some(0), bound, true, open)
  }

  function WholeOpen(w: World, made: nat, ids: Ids): seq<Step> {
    var answers := CalmAnswers(w, made, ids);
    [DoPrepare(w.disk, true, true), DoAdvance(Some(Bound), true, answers), DoAdvance(Some(Compiled), true, answers),
     DoAdvance(Some(Opened), true, answers)]
  }

  /** A cold path that can be opened. */
  predicate Openable(w: World, expires: nat) {
    && Live(w, expires) && w.attached && w.pathSafe && w.document == Nowhere && w.cache == Absent
    && w.effective.Some? && w.bindings.Some? && w.context.Some?
  }

  lemma CalmSucceeds(w: World, expires: nat, made: nat, ids: Ids, script: nat)
    requires Openable(w, expires)
    ensures var plan, answers, bound := Plan(w.disk, w.effective, w.bindings, w.context), CalmAnswers(w, made, ids), PublishedIn(w, made);
            && Clear(w, plan, expires, script, None, false, false) && Succeeds(Bound, answers, plan, expires, w, script, false)
            && Clear(bound, plan, expires, made, None, false, true) && Succeeds(Compiled, answers, plan, expires, bound, made, false)
            && Succeeds(Opened, answers, plan, expires, bound, made, false)
            && Established(ShownIn(w, made, ids), made, w.disk)
  {
  }

  /** Left alone, a cold path is published, compiled and shown, in that order and each once: the
      guards do not refuse an attempt that nothing disturbs. */
  method UninterruptedOpen(w: World, expires: nat, made: nat, ids: Ids) returns (first: View, reports: seq<Report>)
    requires Openable(w, expires)
    ensures Found(w, expires, first) && |reports| == 4 && Chained(expires, first, WholeOpen(w, made, ids), reports)
    ensures forall k | 0 <= k < 4 :: reports[k].status == Some(Ready)
    ensures reports[3].view.effects ==
            [Publish(w, made), Compile(PublishedIn(w, made), made), Show(PublishedIn(w, made), made)]
    ensures Established(reports[3].view.world, made, w.disk)
  {
    var steps := WholeOpen(w, made, ids);
    first, reports := Run(w, expires, steps);
    CalmSucceeds(w, expires, made, ids, first.script);
    hide Clear, Succeeds, Established, Truthful, Follows;
    assert Stepped(steps[0], expires, first, reports[0].status, reports[0].view);
    assert Stepped(steps[1], expires, reports[0].view, reports[1].status, reports[1].view);
    assert Stepped(steps[2], expires, reports[1].view, reports[2].status, reports[2].view);
    assert Stepped(steps[3], expires, reports[2].view, reports[3].status, reports[3].view);
  }
}
