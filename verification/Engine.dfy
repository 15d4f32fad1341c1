/**
 The index of active calls and their records (internal/b2bua/engine.go, hangup and record in internal/b2bua/call.go):
 answering, BYEs from both sides, media timeouts and shutdown, in any interleaving.
 */
module Engine {
  import opened Basics

  /** Dialog IDs, as numbers. */
  type Dialog = nat

  // ---- the index ----

  datatype Index = Index(byA: map<Dialog, nat>, byB: map<Dialog, nat>, calls: set<nat>)

  function Registered(x: Index, id: nat, a: Dialog, b: Dialog): Index {
    Index(x.byA[a := id], x.byB[b := id], x.calls + {id})
  }

  function Unregistered(x: Index, id: nat, a: Dialog, b: Dialog): Index {
    Index(x.byA - {a}, x.byB - {b}, x.calls - {id})
  }

  /** The call a request belongs to and the side that sent it: 0 is the caller, 1 the callee. */
  function Found(x: Index, uas: Option<Dialog>, uac: Option<Dialog>): Option<(nat, int)> {
    if uas.Some? && uas.value in x.byA then Some((x.byA[uas.value], 0))
    else if uac.Some? && uac.value in x.byB then Some((x.byB[uac.value], 1))
    else None
  }

  class Engine {
    var byA: map<Dialog, nat>
    var byB: map<Dialog, nat>
    var calls: set<nat>

    ghost function View(): Index
      reads this
    {
      Index(byA, byB, calls)
    }

    constructor ()
      ensures View() == Index(map[], map[], {})
    {
      byA, byB, calls := map[], map[], {};
    }

    method Register(id: nat, a: Dialog, b: Dialog)
      modifies this
      ensures View() == Registered(old(View()), id, a, b)
    {
      byA := byA[a := id];
      byB := byB[b := id];
      calls := calls + {id};
    }

    method Unregister(id: nat, a: Dialog, b: Dialog)
      modifies this
      ensures View() == Unregistered(old(View()), id, a, b)
    {
      byA := byA - {a};
      byB := byB - {b};
      calls := calls - {id};
    }

    method Lookup(uas: Option<Dialog>, uac: Option<Dialog>) returns (r: Option<(nat, int)>)
      ensures r == Found(View(), uas, uac)
    {
      if uas.Some? && uas.value in byA { return Some((byA[uas.value], 0)); }
      if uac.Some? && uac.value in byB { return Some((byB[uac.value], 1)); }
      return None;
    }
  }

  // ---- calls and the goroutines that end them ----

  /**
    * endOnce: a hangup runs once; others wait for it. Inside it the relay is closed, then the record saved,
    * then the call unregistered.
    */
  datatype Once = Idle | Running(who: Actor) | Over

  datatype Stage = Ringing | Failed | Up(once: Once, recorded: bool)

  datatype CallState = CallState(a: Dialog, b: Dialog, stage: Stage, records: nat)

  /** Who hangs up: a BYE, timeout or unconfirmed answer, by number; or the n-th shutdown, for one call. */
  datatype Actor = Party(n: nat) | Shutdown(n: nat, call: nat)

  datatype Progress = Waiting | Inside | Returned

  datatype Task = Task(call: nat, progress: Progress)

  datatype World = World(index: Index, calls: map<nat, CallState>, tasks: map<Actor, Task>, shutdowns: set<nat>)

  const EMPTY := World(Index(map[], map[], {}), map[], map[], {})

  datatype Event =
    | NewCall(id: nat, a: Dialog, b: Dialog)
    | Fail(id: nat)
    | Answer(id: nat)
    | Hangup(n: nat, id: nat)
    | HangupAll(n: nat)
    | Advance(who: Actor)

  predicate DistinctDialogs(w: World, a: Dialog, b: Dialog) {
    forall i | i in w.calls :: w.calls[i].a != a && w.calls[i].b != b
  }

  function SetCall(w: World, id: nat, c: CallState): World { w.(calls := w.calls[id := c]) }

  function SetTask(w: World, who: Actor, t: Task): World { w.(tasks := w.tasks[who := t]) }

  /** One step of a hangup: enter or wait at endOnce, save the record, unregister. */
  function OnAdvance(w: World, who: Actor): World {
    if who !in w.tasks || w.tasks[who].call !in w.calls then w
    else
      var t := w.tasks[who];
      var c := w.calls[t.call];
      match (t.progress, c.stage)
      case (Waiting, Up(Idle, recorded)) =>
        SetTask(SetCall(w, t.call, c.(stage := Up(Running(who), recorded))), who, t.(progress := Inside))
      case (Waiting, Up(Over, _)) => SetTask(w, who, t.(progress := Returned))
      case (Inside, Up(once, false)) => SetCall(w, t.call, c.(stage := Up(once, true), records := c.records + 1))
      case (Inside, Up(once, true)) =>
        var w' := SetCall(w, t.call, c.(stage := Up(Over, true)));
        SetTask(w'.(index := Unregistered(w.index, t.call, c.a, c.b)), who, t.(progress := Returned))
      case _ => w
  }

  function Step(w: World, e: Event): World {
    match e
    case NewCall(id, a, b) =>
      if id in w.calls || !DistinctDialogs(w, a, b) then w else SetCall(w, id, CallState(a, b, Ringing, 0))
    case Fail(id) =>
      if id in w.calls && w.calls[id].stage.Ringing? then
        SetCall(w, id, w.calls[id].(stage := Failed, records := w.calls[id].records + 1))
      else w
    case Answer(id) =>
      if id in w.calls && w.calls[id].stage.Ringing? then
        var c := w.calls[id];
        SetCall(w, id, c.(stage := Up(Idle, false))).(index := Registered(w.index, id, c.a, c.b))
      else w
    // Whoever hangs up once found the call, perhaps long ago.
    case Hangup(n, id) =>
      if Party(n) !in w.tasks && id in w.calls && w.calls[id].stage.Up?
      then SetTask(w, Party(n), Task(id, Waiting)) else w
    case HangupAll(n) =>
      if n in w.shutdowns then w
      else
        var started := map who | who in (set id | id in w.index.calls :: Shutdown(n, id)) :: Task(who.call, Waiting);
        w.(tasks := w.tasks + started, shutdowns := w.shutdowns + {n})
    case Advance(who) => OnAdvance(w, who)
  }

  function Run(es: seq<Event>): World {
    if es == [] then EMPTY else Step(Run(es[..|es| - 1]), es[|es| - 1])
  }

  // ---- invariants ----

  /** A call is active from its answer until its hangup has unregistered it. */
  predicate Active(c: CallState) { c.stage.Up? && !c.stage.once.Over? }

  function DialogOf(c: CallState, first: bool): Dialog { if first then c.a else c.b }

  /** One of the two dialog maps: exactly the active calls, each under its own dialog; no two calls share one. */
  ghost predicate ByOk(dir: map<Dialog, nat>, calls: map<nat, CallState>, first: bool) {
    && (forall id | id in calls ::
           Active(calls[id]) <==> DialogOf(calls[id], first) in dir && dir[DialogOf(calls[id], first)] == id)
    && (forall i, j | i in calls && j in calls && i != j :: DialogOf(calls[i], first) != DialogOf(calls[j], first))
    && (forall d | d in dir :: dir[d] in calls && DialogOf(calls[dir[d]], first) == d)
  }

  ghost predicate IndexOk(w: World) {
    && (forall id :: id in w.index.calls <==> id in w.calls && Active(w.calls[id]))
    && ByOk(w.index.byA, w.calls, true) && ByOk(w.index.byB, w.calls, false)
  }

  /** One record at the end, none before. */
  ghost predicate RecordsOk(c: CallState) {
    match c.stage
    case Ringing => c.records == 0
    case Failed => c.records == 1
    case Up(once, recorded) =>
      c.records == (if recorded then 1 else 0) && (once.Idle? ==> !recorded) && (once.Over? ==> recorded)
  }

  ghost predicate TasksOk(w: World) {
    && (forall who | who in w.tasks :: w.tasks[who].call in w.calls && w.calls[w.tasks[who].call].stage.Up?)
    && (forall who | who in w.tasks && w.tasks[who].progress.Inside? ::
           w.calls[w.tasks[who].call].stage.once == Running(who))
    && (forall who | who in w.tasks && w.tasks[who].progress.Returned? :: w.calls[w.tasks[who].call].stage.once.Over?)
    && (forall id | id in w.calls && w.calls[id].stage.Up? && w.calls[id].stage.once.Running? ::
          var who := w.calls[id].stage.once.who; who in w.tasks && w.tasks[who] == Task(id, Inside))
  }

  ghost predicate WorldOk(w: World) {
    IndexOk(w) && (forall id | id in w.calls :: RecordsOk(w.calls[id])) && TasksOk(w)
  }

  lemma {:induction false} NewBy(dir: map<Dialog, nat>, calls: map<nat, CallState>, id: nat, c: CallState, first: bool)
    requires ByOk(dir, calls, first) && id !in calls && !Active(c)
    requires forall i | i in calls :: DialogOf(calls[i], first) != DialogOf(c, first)
    ensures ByOk(dir, calls[id := c], first)
  {}

  lemma {:induction false} NewCallOk(w: World, id: nat, a: Dialog, b: Dialog)
    requires WorldOk(w)
    ensures WorldOk(Step(w, NewCall(id, a, b)))
  {
    hide ByOk;
    if id !in w.calls && DistinctDialogs(w, a, b) {
      NewBy(w.index.byA, w.calls, id, CallState(a, b, Ringing, 0), true);
      NewBy(w.index.byB, w.calls, id, CallState(a, b, Ringing, 0), false);
    }
  }

  lemma {:induction false} FailOk(w: World, id: nat)
    requires WorldOk(w)
    ensures WorldOk(Step(w, Fail(id)))
  {
    hide IndexOk, DistinctDialogs;
    SameIndexOk(w, Step(w, Fail(id)));
  }

  lemma {:induction false} AnswerBy(dir: map<Dialog, nat>, calls: map<nat, CallState>, id: nat, c: CallState,
      first: bool)
    requires ByOk(dir, calls, first) && id in calls && Active(c) && DialogOf(c, first) == DialogOf(calls[id], first)
    ensures ByOk(dir[DialogOf(c, first) := id], calls[id := c], first)
  {}

  lemma {:induction false} AnswerIndexOk(w: World, id: nat)
    requires IndexOk(w)
    ensures IndexOk(Step(w, Answer(id)))
  {
    hide ByOk;
    if id in w.calls && w.calls[id].stage.Ringing? {
      var c := w.calls[id];
      AnswerBy(w.index.byA, w.calls, id, c.(stage := Up(Idle, false)), true);
      AnswerBy(w.index.byB, w.calls, id, c.(stage := Up(Idle, false)), false);
    }
  }

  lemma {:induction false} AnswerTasksOk(w: World, id: nat)
    requires TasksOk(w) && forall i | i in w.calls :: RecordsOk(w.calls[i])
    ensures var d := Step(w, Answer(id)); TasksOk(d) && forall i | i in d.calls :: RecordsOk(d.calls[i])
  {}

  lemma {:induction false} AnswerOk(w: World, id: nat)
    requires WorldOk(w)
    ensures WorldOk(Step(w, Answer(id)))
  {
    hide IndexOk, TasksOk, RecordsOk, Step;
    AnswerIndexOk(w, id);
    AnswerTasksOk(w, id);
  }

  lemma {:induction false} HangupOk(w: World, n: nat, id: nat)
    requires WorldOk(w)
    ensures WorldOk(Step(w, Hangup(n, id)))
  {
    hide IndexOk;
    SameIndexOk(w, Step(w, Hangup(n, id)));
  }

  ghost predicate ShutdownsKnown(w: World) {
    forall who | who in w.tasks && who.Shutdown? :: who.n in w.shutdowns && w.tasks[who].call == who.call
  }

  lemma ActiveUp(w: World)
    requires IndexOk(w)
    ensures forall id | id in w.index.calls :: id in w.calls && w.calls[id].stage.Up?
  {}

  lemma {:induction false} StartedTasks(w: World, n: nat)
    requires n !in w.shutdowns
    ensures var d := Step(w, HangupAll(n));
            && d.index == w.index && d.calls == w.calls && d.shutdowns == w.shutdowns + {n}
            && (forall who | who in d.tasks && (who.Party? || who.n != n) ::
                   who in w.tasks && d.tasks[who] == w.tasks[who])
            && (forall who | who in d.tasks && who.Shutdown? && who.n == n ::
                  (who in w.tasks && d.tasks[who] == w.tasks[who])
                  || (who.call in w.index.calls && d.tasks[who] == Task(who.call, Waiting)))
            && (forall who | who in w.tasks && !(who.Shutdown? && who.n == n) ::
                   who in d.tasks && d.tasks[who] == w.tasks[who])
            && (forall who | who in w.tasks ::
                   who in d.tasks && d.tasks[who].call ==
                     if who.Shutdown? && who.n == n && who.call in w.index.calls then who.call else w.tasks[who].call)
  {}

  lemma {:induction false} HangupAllOk(w: World, n: nat)
    requires WorldOk(w) && ShutdownsKnown(w)
    ensures WorldOk(Step(w, HangupAll(n))) && ShutdownsKnown(Step(w, HangupAll(n)))
  {
    hide ByOk, IndexOk, Active;
    var d := Step(w, HangupAll(n));
    if n !in w.shutdowns {
      assert forall id | id in w.index.calls :: id in w.calls && w.calls[id].stage.Up? by { ActiveUp(w); }
      StartedTasks(w, n);
      SameIndexOk(w, d);
    }
  }

  /** A step that leaves the index, and who is active, alone. */
  lemma {:induction false} SameBy(dir: map<Dialog, nat>, calls: map<nat, CallState>, after: map<nat, CallState>,
      first: bool)
    requires ByOk(dir, calls, first) && after.Keys == calls.Keys
    requires forall id | id in calls ::
               DialogOf(after[id], first) == DialogOf(calls[id], first) && Active(after[id]) == Active(calls[id])
    ensures ByOk(dir, after, first)
  {}

  lemma {:induction false} SameIndexOk(w: World, d: World)
    requires IndexOk(w) && d.index == w.index && d.calls.Keys == w.calls.Keys
    requires forall id | id in w.calls ::
               d.calls[id].a == w.calls[id].a && d.calls[id].b == w.calls[id].b
                   && Active(d.calls[id]) == Active(w.calls[id])
    ensures IndexOk(d)
  {
    hide ByOk;
    SameBy(w.index.byA, w.calls, d.calls, true);
    SameBy(w.index.byB, w.calls, d.calls, false);
  }

  lemma {:induction false} EnterTasksOk(w: World, who: Actor)
    requires TasksOk(w) && (forall id | id in w.calls :: RecordsOk(w.calls[id]))
    requires who in w.tasks && w.tasks[who].progress.Waiting?
    ensures var d := OnAdvance(w, who); TasksOk(d) && forall id | id in d.calls :: RecordsOk(d.calls[id])
  {}

  lemma {:induction false} EnterOk(w: World, who: Actor)
    requires WorldOk(w) && who in w.tasks && w.tasks[who].progress.Waiting?
    ensures WorldOk(OnAdvance(w, who))
  {
    hide IndexOk;
    EnterTasksOk(w, who);
    SameIndexOk(w, OnAdvance(w, who));
  }

  lemma {:induction false} RecordOk(w: World, who: Actor)
    requires WorldOk(w) && who in w.tasks && w.tasks[who].progress.Inside?
    requires var s := w.calls[w.tasks[who].call].stage; s.Up? && !s.recorded
    ensures WorldOk(OnAdvance(w, who))
  {
    hide IndexOk;
    SameIndexOk(w, OnAdvance(w, who));
  }

  lemma {:induction false} FinishBy(dir: map<Dialog, nat>, calls: map<nat, CallState>, id: nat, c: CallState,
      first: bool)
    requires ByOk(dir, calls, first) && id in calls && !Active(c) && DialogOf(c, first) == DialogOf(calls[id], first)
    requires Active(calls[id])
    ensures ByOk(dir - {DialogOf(c, first)}, calls[id := c], first)
  {}

  lemma {:induction false} FinishIndexOk(w: World, who: Actor)
    requires WorldOk(w) && who in w.tasks && w.tasks[who].progress.Inside?
    requires var s := w.calls[w.tasks[who].call].stage; s.Up? && s.recorded
    ensures IndexOk(OnAdvance(w, who))
  {
    hide ByOk;
    var id := w.tasks[who].call;
    var c := w.calls[id].(stage := Up(Over, true));
    FinishBy(w.index.byA, w.calls, id, c, true);
    FinishBy(w.index.byB, w.calls, id, c, false);
  }

  lemma {:induction false} FinishTasksOk(w: World, who: Actor)
    requires WorldOk(w) && who in w.tasks && w.tasks[who].progress.Inside?
    requires var s := w.calls[w.tasks[who].call].stage; s.Up? && s.recorded
    ensures var d := OnAdvance(w, who); TasksOk(d) && forall id | id in d.calls :: RecordsOk(d.calls[id])
  {
    hide IndexOk, Unregistered;
  }

  lemma AdvanceOk(w: World, who: Actor)
    requires WorldOk(w)
    ensures WorldOk(OnAdvance(w, who))
  {
    if who in w.tasks {
      var s := w.calls[w.tasks[who].call].stage;
      match w.tasks[who].progress
      case Waiting => EnterOk(w, who);
      case Inside =>
        if s.recorded {
          FinishIndexOk(w, who);
          FinishTasksOk(w, who);
        } else {
          RecordOk(w, who);
        }
      case Returned =>
    }
  }

  lemma {:induction false} StepOk(w: World, e: Event)
    requires WorldOk(w) && ShutdownsKnown(w)
    ensures WorldOk(Step(w, e)) && ShutdownsKnown(Step(w, e))
  {
    hide WorldOk;
    match e
    case NewCall(id, a, b) => NewCallOk(w, id, a, b);
    case Fail(id) => FailOk(w, id);
    case Answer(id) => AnswerOk(w, id);
    case Hangup(n, id) => HangupOk(w, n, id);
    case HangupAll(n) => HangupAllOk(w, n);
    case Advance(who) => AdvanceOk(w, who);
  }

  lemma {:induction false} RunOk(es: seq<Event>)
    ensures WorldOk(Run(es)) && ShutdownsKnown(Run(es))
  {
    if es != [] {
      RunOk(es[..|es| - 1]);
      StepOk(Run(es[..|es| - 1]), es[|es| - 1]);
    }
  }

  /** An active call's dialog with its caller. */
  ghost predicate CallerDialog(w: World, d: Option<Dialog>) {
    exists i :: i in w.index.calls && i in w.calls && d == Some(w.calls[i].a)
  }

  /**
   In every reachable state: a call is in all three maps or in none; it has at most one record, exactly one once it
   failed or has ended, and an answered call that is out of the maps has its record.
   */
  lemma CallsIndexedAndRecorded(es: seq<Event>, id: nat)
    requires id in Run(es).calls
    ensures var w := Run(es);
            var c := w.calls[id];
            && (id in w.index.calls <==> c.a in w.index.byA && w.index.byA[c.a] == id)
            && (id in w.index.calls <==> c.b in w.index.byB && w.index.byB[c.b] == id)
            && c.records <= 1
            && (c.stage.Failed? || (c.stage.Up? && id !in w.index.calls) ==> c.records == 1)
    ensures var w := Run(es);
            id in w.index.calls ==>
              && (forall uac :: Found(w.index, Some(w.calls[id].a), uac) == Some((id, 0)))
              && (forall uas | !CallerDialog(w, uas) :: Found(w.index, uas, Some(w.calls[id].b)) == Some((id, 1)))
    ensures var w := Run(es);
            forall uas: Option<Dialog>, uac: Option<Dialog> | Found(w.index, uas, uac).Some? ::
              var f := Found(w.index, uas, uac).value;
              f.0 in w.index.calls && f.0 in w.calls
              && ((f.1 == 0 && uas == Some(w.calls[f.0].a)) || (f.1 == 1 && uac == Some(w.calls[f.0].b)))
  {
    RunOk(es);
    assert RecordsOk(Run(es).calls[id]);
  }

  // ---- shutdown ----

  /** Tasks are never forgotten and keep their call; calls are never forgotten. */
  ghost predicate Later(w: World, d: World) {
    && (forall who | who in w.tasks :: who in d.tasks && d.tasks[who].call == w.tasks[who].call)
    && (forall id | id in w.calls :: id in d.calls)
  }

  lemma StepLater(w: World, e: Event)
    requires ShutdownsKnown(w)
    ensures Later(w, Step(w, e))
  {}

  lemma {:induction false} RunLater(es: seq<Event>, more: seq<Event>)
    ensures Later(Run(es), Run(es + more))
  {
    hide Step, WorldOk, ShutdownsKnown;
    if more == [] {
      assert es + more == es;
    } else {
      var init := more[..|more| - 1];
      RunLater(es, init);
      RunOk(es + init);
      assert (es + more)[..|es + more| - 1] == es + init;
      StepLater(Run(es + init), more[|more| - 1]);
    }
  }

  /** HangupAll has returned: each of its goroutines has. */
  ghost predicate ShutdownReturned(w: World, n: nat) {
    n in w.shutdowns && forall who | who in w.tasks && who.Shutdown? && who.n == n :: w.tasks[who].progress.Returned?
  }

  /** When HangupAll returns, every call that was active when it began has its record and is out of the maps. */
  lemma HangupAllCompletes(es: seq<Event>, n: nat, more: seq<Event>, id: nat)
    requires n !in Run(es).shutdowns && id in Run(es).index.calls
    requires ShutdownReturned(Run(es + [HangupAll(n)] + more), n)
    ensures var w := Run(es + [HangupAll(n)] + more);
            id in w.calls && w.calls[id].records == 1 && id !in w.index.calls
  {
    var started := es + [HangupAll(n)];
    var w := Run(started + more);
    assert started[..|started| - 1] == es;
    assert Shutdown(n, id) in Run(started).tasks && Run(started).tasks[Shutdown(n, id)].call == id;
    RunLater(started, more);
    RunOk(started + more);
    assert w.tasks[Shutdown(n, id)].progress.Returned?;
    assert RecordsOk(w.calls[id]);
  }
}
