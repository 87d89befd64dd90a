/** The web front end's pipeline runner: the table of the pipeline's steps,
    and the state machine that turns the pipeline's raw progress events into
    the enriched events the browser reads, with cancellation and exactly one
    terminal event per run. */
module Runner {

  import opened Wrappers
  import opened Text
  import opened Report

  // ------------------------------------------------------------------
  // The step table
  // ------------------------------------------------------------------

  /** One step of the pipeline: its id, its label, its phase and, for a
      chapter step, its chapter. */
  datatype StepInfo = StepInfo(step: String, stepLabel: String, phase: nat, chapter: Option<nat>)

  const STEP_MAP: seq<StepInfo> := [
    StepInfo("graphs_volumes", "Gráficos — Volumes de Entrada", 0, None),
    StepInfo("graphs_pcs", "Gráficos — Poder Calorífico", 0, None),
    StepInfo("graphs_energia", "Gráficos — Energia", 0, None),
    StepInfo("graphs_clientes", "Gráficos — Perfis de Clientes", 0, None),
    StepInfo("graphs_incertezas", "Gráficos — Incertezas", 0, None),
    StepInfo("graphs_balanco", "Gráficos — Balanço de Massa", 0, None),
    StepInfo("cap1_a_conteudo", "Cap. 1 — Conteúdo", 1, Some(1)),
    StepInfo("cap1_b_sintese", "Cap. 1 — Síntese", 1, Some(1)),
    StepInfo("cap2_a_metodologia", "Cap. 2 — Metodologia", 1, Some(2)),
    StepInfo("cap2_b_dados", "Cap. 2 — Dados", 1, Some(2)),
    StepInfo("cap2_c_graficos", "Cap. 2 — Gráficos", 1, Some(2)),
    StepInfo("cap2_d_sintese", "Cap. 2 — Síntese", 1, Some(2)),
    StepInfo("cap3_a_metodologia", "Cap. 3 — Metodologia", 1, Some(3)),
    StepInfo("cap3_b_dados", "Cap. 3 — Dados", 1, Some(3)),
    StepInfo("cap3_c_graficos", "Cap. 3 — Gráficos", 1, Some(3)),
    StepInfo("cap3_d_sintese", "Cap. 3 — Síntese", 1, Some(3)),
    StepInfo("cap4_a_metodologia", "Cap. 4 — Metodologia", 1, Some(4)),
    StepInfo("cap4_b_dados", "Cap. 4 — Dados", 1, Some(4)),
    StepInfo("cap4_c_graficos", "Cap. 4 — Gráficos", 1, Some(4)),
    StepInfo("cap4_d_sintese", "Cap. 4 — Síntese", 1, Some(4)),
    StepInfo("cap5_a_metodologia", "Cap. 5 — Metodologia", 1, Some(5)),
    StepInfo("cap5_b_dados", "Cap. 5 — Dados", 1, Some(5)),
    StepInfo("cap5_c_graficos", "Cap. 5 — Gráficos", 1, Some(5)),
    StepInfo("cap5_d_sintese", "Cap. 5 — Síntese", 1, Some(5)),
    StepInfo("cap6_a_metodologia", "Cap. 6 — Metodologia", 1, Some(6)),
    StepInfo("cap6_b_dados", "Cap. 6 — Dados", 1, Some(6)),
    StepInfo("cap6_c_graficos", "Cap. 6 — Gráficos", 1, Some(6)),
    StepInfo("cap6_d_sintese", "Cap. 6 — Síntese", 1, Some(6)),
    StepInfo("cap7_a_metodologia", "Cap. 7 — Metodologia", 1, Some(7)),
    StepInfo("cap7_b_dados", "Cap. 7 — Dados", 1, Some(7)),
    StepInfo("cap7_c_graficos", "Cap. 7 — Gráficos", 1, Some(7)),
    StepInfo("cap7_d_sintese", "Cap. 7 — Síntese", 1, Some(7)),
    StepInfo("conclusoes", "Conclusões e Recomendações", 2, None),
    StepInfo("resumo_executivo", "Resumo Executivo", 3, None),
    StepInfo("docx_assembly", "Montagem do Documento", 4, None)
  ]

  const TOTAL_STEPS: nat := |STEP_MAP|

  const PHASE_NAMES: map<nat, String> := map[
    0 := "Geração dos Gráficos",
    1 := "Geração dos Capítulos",
    2 := "Conclusões e Recomendações",
    3 := "Resumo Executivo",
    4 := "Montagem do Documento"
  ]

  /** `PHASE_NAMES.get(phase, "")`. */
  function PhaseName(phase: nat): (name: String)
    ensures phase <= 4 <==> name != []
  {
    if phase in PHASE_NAMES then PHASE_NAMES[phase] else []
  }

  /** `next(s for s in table if s["step"] == step)`: the first entry with the given step id, if any. */
  function Lookup(table: seq<StepInfo>, step: String): Option<StepInfo>
  {
    if table == [] then None
    else if table[0].step == step then Some(table[0])
    else Lookup(table[1..], step)
  }

  /** The lookup finds the first entry with the step id, and nothing only when there is none. */
  lemma {:induction false} LookupSpec(table: seq<StepInfo>, step: String)
    ensures var r := Lookup(table, step);
            (r.Some? ==> exists k :: 0 <= k < |table| && table[k] == r.value && r.value.step == step &&
                                     forall l :: 0 <= l < k ==> table[l].step != step) &&
            (r.None? <==> forall k :: 0 <= k < |table| ==> table[k].step != step)
  {
    if table != [] && table[0].step != step {
      LookupSpec(table[1..], step);
      var r := Lookup(table[1..], step);
      assert forall k :: 1 <= k < |table| ==> table[k] == table[1..][k - 1];
      if r.Some? {
        var k :| 0 <= k < |table[1..]| && table[1..][k] == r.value && r.value.step == step &&
                 forall l :: 0 <= l < k ==> table[1..][l].step != step;
        assert table[k + 1] == r.value;
      }
    }
  }

  /** The table has 35 steps, each in a named phase. */
  lemma StepMapFacts()
    ensures TOTAL_STEPS == 35
    ensures forall i :: 0 <= i < |STEP_MAP| ==> PhaseName(STEP_MAP[i].phase) != []
  {
  }

  // ------------------------------------------------------------------
  // Events for the browser
  // ------------------------------------------------------------------

  const CANCEL_DETAIL: String := "Pipeline cancelado pelo usuário"

  /** An event put on the queue; timestamps and elapsed times are not modelled. */
  datatype Event =
    | PhaseStarted(phase: nat, phaseName: String, progress: real)
    | StepStarted(step: String, stepLabel: String, phase: nat, chapter: Option<nat>, progress: real)
    | StepCompleted(step: String, stepLabel: String, phase: nat, chapter: Option<nat>,
                    completed: nat, total: nat, progress: real)
    | PhaseCompleted(phase: nat, progress: real)
    | Done(progress: real)
    | Cancelled(detail: String, progress: real)
    | Failed(detail: String, progress: real)

  /** `done`, `error` and `cancelled` end a run's stream. */
  predicate IsTerminal(e: Event) {
    e.Done? || e.Cancelled? || e.Failed?
  }

  /** The progress `_emit` attaches: completed steps over the total. */
  function Progress(completed: nat): (p: real)
    ensures 0.0 <= p
    ensures p <= 1.0 <==> completed <= TOTAL_STEPS
  {
    completed as real / TOTAL_STEPS as real
  }

  /** What `_on_progress` tracks between callbacks. */
  datatype Tracker = Tracker(completed: seq<String>, current: Option<String>, phase: nat)

  /** The step's phase from the table, or the current phase for an unknown step. */
  function StepPhase(t: Tracker, step: String): nat {
    var info := Lookup(STEP_MAP, step);
    if info.Some? then info.value.phase else t.phase
  }

  function StepLabel(step: String): String {
    var info := Lookup(STEP_MAP, step);
    if info.Some? then info.value.stepLabel else step
  }

  function StepChapter(step: String): Option<nat> {
    var info := Lookup(STEP_MAP, step);
    if info.Some? then info.value.chapter else None
  }

  /** One callback that does not raise: the tracker after it and the events it emits. */
  function OnEvent(t: Tracker, ev: RawEvent): (Tracker, seq<Event>) {
    match ev
    case StepStart(step) =>
      var phase := StepPhase(t, step);
      var p := Progress(|t.completed|);
      var start := StepStarted(step, StepLabel(step), phase, StepChapter(step), p);
      (Tracker(t.completed, Some(step), phase),
       if phase != t.phase then [PhaseStarted(phase, PhaseName(phase), p), start] else [start])
    case StepComplete(step) =>
      var completed := t.completed + [step];
      (Tracker(completed, None, t.phase),
       [StepCompleted(step, StepLabel(step), StepPhase(t, step), StepChapter(step),
                      |completed|, TOTAL_STEPS, Progress(|completed|))])
    case PhaseComplete(phase) =>
      (t, [PhaseCompleted(phase, Progress(|t.completed|))])
    case PhaseStart(_, _) =>
      (t, [])
  }

  /** A step start announces a phase exactly when the step's phase differs
      from the current one, which then becomes the step's phase; the step's
      own event comes last. */
  lemma StepStartPhases(t: Tracker, step: String)
    ensures var (t2, evs) := OnEvent(t, StepStart(step));
            var phase := StepPhase(t, step);
            t2.phase == phase && t2.current == Some(step) && t2.completed == t.completed &&
            |evs| >= 1 && evs[|evs| - 1].StepStarted? && evs[|evs| - 1].step == step &&
            (|evs| == 2 <==> phase != t.phase) &&
            (|evs| == 2 ==> evs[0] == PhaseStarted(phase, PhaseName(phase), Progress(|t.completed|)))
  {
  }

  /** An unknown step keeps the current phase, is labelled by its id and has no chapter. */
  lemma UnknownStep(t: Tracker, step: String)
    requires forall k :: 0 <= k < |STEP_MAP| ==> STEP_MAP[k].step != step
    ensures OnEvent(t, StepStart(step)) ==
            (Tracker(t.completed, Some(step), t.phase), [StepStarted(step, step, t.phase, None, Progress(|t.completed|))])
  {
    LookupSpec(STEP_MAP, step);
  }

  /** A step completion is recorded, clears the current step and reports the
      number of completed steps out of the total. */
  lemma StepCompleteCounts(t: Tracker, step: String)
    ensures var (t2, evs) := OnEvent(t, StepComplete(step));
            t2.completed == t.completed + [step] && t2.current == None && t2.phase == t.phase &&
            |evs| == 1 && evs[0].StepCompleted? && evs[0].step == step &&
            evs[0].completed == |t2.completed| && evs[0].total == 35 &&
            evs[0].progress == Progress(|t2.completed|)
  {
    StepMapFacts();
  }

  /** Phase completions are forwarded and the pipeline's own phase starts ignored. */
  lemma PhaseEventsForwarded(t: Tracker, phase: nat, name: String)
    ensures OnEvent(t, PhaseComplete(phase)) == (t, [PhaseCompleted(phase, Progress(|t.completed|))])
    ensures OnEvent(t, PhaseStart(phase, name)) == (t, [])
  {
  }

  /** The callbacks for a sequence of raw events, none of them raising. */
  function Replay(t: Tracker, raw: seq<RawEvent>): (Tracker, seq<Event>)
    decreases |raw|
  {
    if raw == [] then (t, [])
    else
      var first := OnEvent(t, raw[0]);
      var rest := Replay(first.0, raw[1..]);
      (rest.0, first.1 + rest.1)
  }

  lemma ReplayOne(t: Tracker, ev: RawEvent)
    ensures Replay(t, [ev]) == OnEvent(t, ev)
  {
    var o := OnEvent(t, ev);
    assert [ev][0] == ev && [ev][1..] == [];
    assert Replay(t, [ev]) == (Replay(o.0, []).0, o.1 + Replay(o.0, []).1);
    assert Replay(o.0, []) == (o.0, []);
    assert o.1 + [] == o.1;
  }

  /** No callback emits a terminal event. */
  lemma {:induction false} ReplayNotTerminal(t: Tracker, raw: seq<RawEvent>)
    ensures forall e :: e in Replay(t, raw).1 ==> !IsTerminal(e)
    decreases |raw|
  {
    if raw != [] {
      ReplayNotTerminal(OnEvent(t, raw[0]).0, raw[1..]);
    }
  }

  /** Replaying two runs of events one after the other is replaying their concatenation. */
  lemma {:induction false} ReplayAppend(t: Tracker, a: seq<RawEvent>, b: seq<RawEvent>)
    ensures var ra := Replay(t, a);
            var rb := Replay(ra.0, b);
            Replay(t, a + b) == (rb.0, ra.1 + rb.1)
    decreases |a|
  {
    if a == [] {
      var rb := Replay(t, b);
      assert a + b == b;
      assert Replay(t, a) == (t, []);
      assert [] + rb.1 == rb.1;
    } else {
      var o := OnEvent(t, a[0]);
      assert (a + b)[0] == a[0] && (a + b)[1..] == a[1..] + b;
      ReplayAppend(o.0, a[1..], b);
      var ra := Replay(o.0, a[1..]);
      var rb := Replay(ra.0, b);
      assert Replay(t, a + b).1 == o.1 + (ra.1 + rb.1);
      assert o.1 + (ra.1 + rb.1) == (o.1 + ra.1) + rb.1;
    }
  }

  /** The completed steps after a replay are the earlier ones followed by the
      completed steps of the events, in order. */
  lemma {:induction false} ReplayCompleted(t: Tracker, raw: seq<RawEvent>)
    ensures Replay(t, raw).0.completed == t.completed + CompletedIn(raw)
    decreases |raw|
  {
    if raw != [] {
      ReplayCompleted(OnEvent(t, raw[0]).0, raw[1..]);
    }
  }

  /** The steps the events complete, in order. */
  function CompletedIn(raw: seq<RawEvent>): seq<String> {
    if raw == [] then []
    else (if raw[0].StepComplete? then [raw[0].step] else []) + CompletedIn(raw[1..])
  }

  /** What the events stream hands the browser: everything up to and
      including the first terminal event. */
  function Delivered(q: seq<Event>): (r: seq<Event>)
    ensures |r| <= |q| && r == q[..|r|]
    ensures forall i :: 0 <= i < |r| - 1 ==> !IsTerminal(r[i])
    ensures |r| < |q| ==> |r| > 0 && IsTerminal(r[|r| - 1])
  {
    if q == [] then []
    else if IsTerminal(q[0]) then [q[0]]
    else [q[0]] + Delivered(q[1..])
  }

  /** A stream of non-terminal events followed by a terminal one is delivered whole. */
  lemma {:induction false} DeliveredWhole(body: seq<Event>, last: Event, rest: seq<Event>)
    requires forall e :: e in body ==> !IsTerminal(e)
    requires IsTerminal(last)
    ensures Delivered(body + [last] + rest) == body + [last]
  {
    if body != [] {
      assert (body + [last] + rest)[1..] == body[1..] + [last] + rest;
      DeliveredWhole(body[1..], last, rest);
    }
  }

  /** How the pipeline call ends: it returns, it lets through the
      `PipelineCancelled` a callback raised, or it raises another exception
      (a failure it met first, or one it turned the cancellation into). */
  datatype Ending = Returned | Interrupted | Raised(message: String)

  /** The number of callbacks that return: all of them, unless cancellation,
      requested before callback `k`, makes callback `k` raise. */
  function Handled(cancelled0: bool, raw: seq<RawEvent>, cancelAt: Option<nat>): (n: nat)
    ensures n <= |raw|
  {
    if cancelled0 then 0
    else if cancelAt.Some? && cancelAt.value < |raw| then cancelAt.value
    else |raw|
  }

  /** The status snapshot `status()` returns; the elapsed time is not modelled. */
  datatype StatusReport = StatusReport(
    running: bool,
    cancelled: bool,
    currentStep: Option<String>,
    currentPhase: nat,
    completedSteps: seq<String>,
    completedCount: nat,
    totalSteps: nat,
    progress: real,
    error: Option<String>)

  // ------------------------------------------------------------------
  // The runner
  // ------------------------------------------------------------------

  class PipelineRunner {
    var running: bool
    var cancelled: bool
    var completedSteps: seq<String>
    var currentStep: Option<String>
    var currentPhase: nat
    var error: Option<String>
    var queue: seq<Event>

    function Tracked(): Tracker
      reads this
    {
      Tracker(completedSteps, currentStep, currentPhase)
    }

    constructor()
      ensures !running && !cancelled && completedSteps == [] && currentStep == None
      ensures currentPhase == 0 && error == None && queue == []
    {
      running := false;
      cancelled := false;
      completedSteps := [];
      currentStep := None;
      currentPhase := 0;
      error := None;
      queue := [];
    }

    /** `start`: a fresh run; earlier events are drained from the queue. */
    method Start()
      modifies this
      ensures running && !cancelled && completedSteps == [] && currentStep == None
      ensures currentPhase == 0 && error == None && queue == []
    {
      running := true;
      cancelled := false;
      completedSteps := [];
      currentStep := None;
      currentPhase := 0;
      error := None;
      queue := [];
    }

    /** The start route: a second run is refused (HTTP 409) while one is running. */
    method TryStart() returns (accepted: bool)
      modifies this
      ensures accepted == !old(running)
      ensures !accepted ==> unchanged(this)
      ensures accepted ==> running && !cancelled && completedSteps == [] && currentStep == None &&
                           currentPhase == 0 && error == None && queue == []
    {
      if running {
        return false;
      }
      Start();
      return true;
    }

    /** `cancel`: only the flag changes. */
    method Cancel()
      modifies this
      ensures cancelled
      ensures running == old(running) && completedSteps == old(completedSteps) && currentStep == old(currentStep)
      ensures currentPhase == old(currentPhase) && error == old(error) && queue == old(queue)
    {
      cancelled := true;
    }

    /** `_on_progress`: once cancelled it raises before touching anything;
        otherwise it updates the tracked state and emits as `OnEvent` says. */
    method OnProgress(ev: RawEvent) returns (raised: bool)
      modifies this
      ensures raised == old(cancelled)
      ensures raised ==> unchanged(this)
      ensures !raised ==> (Tracked(), queue) == (OnEvent(old(Tracked()), ev).0, old(queue) + OnEvent(old(Tracked()), ev).1)
      ensures running == old(running) && cancelled == old(cancelled) && error == old(error)
    {
      if cancelled {
        return true;
      }
      raised := false;
      match ev {
        case StepStart(step) => HandleStepStart(step);
        case StepComplete(step) => HandleStepComplete(step);
        case PhaseComplete(phase) =>
          queue := queue + [PhaseCompleted(phase, Progress(|completedSteps|))];
        case PhaseStart(_, _) =>
          assert queue == old(queue) + [];
      }
    }

    /** The `step_start` branch of `_on_progress`. */
    method HandleStepStart(step: String)
      modifies this
      ensures (Tracked(), queue) == (OnEvent(old(Tracked()), StepStart(step)).0,
                                     old(queue) + OnEvent(old(Tracked()), StepStart(step)).1)
      ensures running == old(running) && cancelled == old(cancelled) && error == old(error)
    {
      ghost var t0 := Tracked();
      var phase := StepPhase(Tracked(), step);
      currentStep := Some(step);
      var p := Progress(|completedSteps|);
      var start := StepStarted(step, StepLabel(step), phase, StepChapter(step), p);
      ghost var q0 := queue;
      if phase != currentPhase {
        currentPhase := phase;
        var announce := PhaseStarted(phase, PhaseName(phase), p);
        queue := queue + [announce];
        queue := queue + [start];
        AppendAssoc(q0, [announce], [start]);
        assert OnEvent(t0, StepStart(step)).1 == [announce] + [start];
      } else {
        queue := queue + [start];
        assert OnEvent(t0, StepStart(step)).1 == [start];
      }
    }

    /** The `step_complete` branch of `_on_progress`. */
    method HandleStepComplete(step: String)
      modifies this
      ensures (Tracked(), queue) == (OnEvent(old(Tracked()), StepComplete(step)).0,
                                     old(queue) + OnEvent(old(Tracked()), StepComplete(step)).1)
      ensures running == old(running) && cancelled == old(cancelled) && error == old(error)
    {
      var phase := StepPhase(Tracked(), step);
      completedSteps := completedSteps + [step];
      currentStep := None;
      queue := queue + [StepCompleted(step, StepLabel(step), phase, StepChapter(step),
                                      |completedSteps|, TOTAL_STEPS, Progress(|completedSteps|))];
    }

    /** `_run`: the pipeline hands the callback its raw events in order,
        stopping at the first callback that raises; `cancel` is requested
        just before callback `cancelAt`, if at all. The run then emits exactly
        one terminal event, chosen by how the pipeline call ended: `done` when
        it returned, `cancelled` when `PipelineCancelled` reached `_run`, and
        `error`, with the message stored, for any other exception. */
    method Run(raw: seq<RawEvent>, cancelAt: Option<nat>, ending: Ending)
      modifies this
      ensures var n := Handled(old(cancelled), raw, cancelAt);
              var replay := Replay(old(Tracked()), raw[..n]);
              Tracked() == replay.0 &&
              queue == old(queue) + replay.1 +
                [match ending
                 case Returned => Done(1.0)
                 case Interrupted => Cancelled(CANCEL_DETAIL, Progress(|replay.0.completed|))
                 case Raised(message) => Failed(message, Progress(|replay.0.completed|))] &&
              error == (if ending.Raised? then Some(ending.message) else old(error))
      ensures !running
      ensures cancelled == (old(cancelled) || cancelAt.Some?)
    {
      var raised := Feed(raw, cancelAt);
      if cancelAt.Some? && cancelAt.value >= |raw| {
        Cancel();
      }
      match ending {
        case Returned =>
          queue := queue + [Done(1.0)];
        case Interrupted =>
          queue := queue + [Cancelled(CANCEL_DETAIL, Progress(|completedSteps|))];
        case Raised(message) =>
          error := Some(message);
          queue := queue + [Failed(message, Progress(|completedSteps|))];
      }
      running := false;
    }

    /** The callbacks of `_run`: each raw event in order until one raises. */
    method Feed(raw: seq<RawEvent>, cancelAt: Option<nat>) returns (raised: bool)
      modifies this
      ensures var n := Handled(old(cancelled), raw, cancelAt);
              raised == (n < |raw|) &&
              Tracked() == Replay(old(Tracked()), raw[..n]).0 &&
              queue == old(queue) + Replay(old(Tracked()), raw[..n]).1
      ensures cancelled == (old(cancelled) || (cancelAt.Some? && cancelAt.value < |raw|))
      ensures running == old(running) && error == old(error)
    {
      ghost var t0 := Tracked();
      ghost var q0 := queue;
      ghost var n := Handled(cancelled, raw, cancelAt);
      var i := 0;
      raised := false;
      assert raw[..0] == [];
      assert Replay(t0, []) == (t0, []);
      assert q0 + [] == q0;
      while i < |raw|
        invariant 0 <= i <= n
        invariant raised ==> i == n && n < |raw|
        invariant !raised ==> cancelled == (old(cancelled) || (cancelAt.Some? && cancelAt.value < i))
        invariant raised ==> cancelled
        invariant Tracked() == Replay(t0, raw[..i]).0
        invariant queue == q0 + Replay(t0, raw[..i]).1
        invariant running == old(running) && error == old(error)
        decreases |raw| - i, if raised then 0 else 1
      {
        if cancelAt == Some(i) {
          Cancel();
        }
        ghost var before := Tracked();
        raised := OnProgress(raw[i]);
        if raised {
          break;
        }
        ReplayAppend(t0, raw[..i], [raw[i]]);
        ReplayOne(before, raw[i]);
        assert raw[..i + 1] == raw[..i] + [raw[i]];
        ghost var ra := Replay(t0, raw[..i]);
        ghost var o := OnEvent(before, raw[i]);
        AppendAssoc(q0, ra.1, o.1);
        assert queue == (q0 + ra.1) + o.1;
        i := i + 1;
      }
    }

    /** `status()`: a snapshot whose step list is a copy. */
    function Status(): (s: StatusReport)
      reads this
      ensures s.completedSteps == completedSteps && s.completedCount == |s.completedSteps|
      ensures s.totalSteps == 35 && s.progress == Progress(s.completedCount)
      ensures s.running == running && s.cancelled == cancelled && s.error == error
      ensures s.currentStep == currentStep && s.currentPhase == currentPhase
    {
      StepMapFacts();
      StatusReport(running, cancelled, currentStep, currentPhase, completedSteps, |completedSteps|,
             TOTAL_STEPS, Progress(|completedSteps|), error)
    }
  }

  /** A run started afresh delivers its whole stream: the events of the
      callbacks that returned, none of them terminal, then the one terminal
      event, which is the last thing on the queue. */
  lemma RunDeliversAll(t0: Tracker, raw: seq<RawEvent>, n: nat, last: Event)
    requires n <= |raw| && IsTerminal(last)
    ensures var q := Replay(t0, raw[..n]).1 + [last];
            Delivered(q) == q && IsTerminal(q[|q| - 1]) &&
            forall i :: 0 <= i < |q| - 1 ==> !IsTerminal(q[i])
  {
    var body := Replay(t0, raw[..n]).1;
    ReplayNotTerminal(t0, raw[..n]);
    DeliveredWhole(body, last, []);
    assert body + [last] + [] == body + [last];
  }
}
