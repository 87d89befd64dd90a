/** The chart phase's driver: every chart generator runs once, in a fixed
    order; the file names of those that succeed are collected; and a
    progress callback hears of each group, with an error when that
    generator raised. The generators' plotting is not modelled: each
    generator's outcome is an input, as is each callback call's outcome. */
module Graphs {

  import opened Wrappers
  import opened Text

  /** One chart group: its id and its label. */
  datatype Group = Group(id: String, groupLabel: String)

  /** The groups of `GENERATORS`, in the order they run. */
  const GROUPS: seq<Group> := [
    Group("volumes", "Volumes de Entrada"),
    Group("pcs", "Poder Calorífico Superior"),
    Group("energia", "Cálculo de Energia"),
    Group("clientes", "Perfis de Clientes"),
    Group("incertezas", "Incertezas de Medição"),
    Group("balanco", "Balanço de Massa")
  ]

  /** What one generator call did: return its PNG file names or raise. */
  datatype Generation = Files(names: seq<String>) | Failure(message: String)

  /** The dictionary passed to `on_progress`; `error` is present only in
      the report of a failure. */
  datatype Progress = Progress(group: String, groupLabel: String, files: seq<String>, error: Option<String>)

  /** The `on_progress` argument: absent, or a callback whose `k`-th call
      returns (`None`) or raises with the given text; calls past the end of
      `replies` return. */
  datatype Callback = NoCallback | Callback(replies: seq<Option<String>>)

  function Reply(cb: Callback, k: nat): Option<String> {
    if cb.Callback? && k < |cb.replies| then cb.replies[k] else None
  }

  /** The loop's state: the groups whose generator ran, the files gathered,
      the callback calls made, and the exception that left the loop, if
      one did. */
  datatype Phase = Phase(invoked: seq<String>, generated: seq<String>, calls: seq<Progress>, escaped: Option<String>)

  /** The `except` branch: the callback hears of the error, and if that
      call raises in turn, its exception leaves the loop. */
  function ReportFailure(p: Phase, g: Group, message: String, cb: Callback): Phase {
    if cb.NoCallback? then p
    else p.(calls := p.calls + [Progress(g.id, g.groupLabel, [], Some(message))], escaped := Reply(cb, |p.calls|))
  }

  /** One pass of the loop body for group `g`. The files are added before
      the callback is told of them, so a callback that raises there leaves
      them gathered and is called again from the `except` branch. */
  function Step(p: Phase, g: Group, gen: Generation, cb: Callback): Phase {
    var ran := p.(invoked := p.invoked + [g.id]);
    match gen
    case Failure(message) => ReportFailure(ran, g, message, cb)
    case Files(names) =>
      var gathered := ran.(generated := ran.generated + names);
      if cb.NoCallback? then gathered
      else
        var told := gathered.(calls := gathered.calls + [Progress(g.id, g.groupLabel, names, None)]);
        match Reply(cb, |gathered.calls|)
        case None => told
        case Some(e) => ReportFailure(told, g, e, cb)
  }

  /** The state after the loop has handled the first `n` groups, or the
      state in which an exception left it. */
  function RunUpTo(outcomes: seq<Generation>, cb: Callback, n: nat): Phase
    requires n <= |outcomes| == |GROUPS|
  {
    if n == 0 then Phase([], [], [], None)
    else
      var p := RunUpTo(outcomes, cb, n - 1);
      if p.escaped.Some? then p else Step(p, GROUPS[n - 1], outcomes[n - 1], cb)
  }

  /** `gerar_todos_graficos`: the list it returns, or the callback's
      exception it lets through. */
  function Run(outcomes: seq<Generation>, cb: Callback): Result<seq<String>>
    requires |outcomes| == |GROUPS|
  {
    var p := RunUpTo(outcomes, cb, |GROUPS|);
    if p.escaped.Some? then Err(p.escaped.value) else Ok(p.generated)
  }

  /** The ids of `groups`, in order. */
  function Ids(groups: seq<Group>): (ids: seq<String>)
    ensures |ids| == |groups|
  {
    if groups == [] then [] else Ids(groups[..|groups| - 1]) + [groups[|groups| - 1].id]
  }

  /** The files of the generators that returned, in order. */
  function AllFiles(outcomes: seq<Generation>): seq<String> {
    if outcomes == [] then []
    else
      var last := outcomes[|outcomes| - 1];
      AllFiles(outcomes[..|outcomes| - 1]) + (if last.Files? then last.names else [])
  }

  /** What a callback that never raises hears of a group. */
  function Report(g: Group, gen: Generation): Progress {
    match gen
    case Files(names) => Progress(g.id, g.groupLabel, names, None)
    case Failure(message) => Progress(g.id, g.groupLabel, [], Some(message))
  }

  /** The callback's `k`-th call returns. */
  predicate Quiet(cb: Callback) {
    cb.Callback? && forall k :: 0 <= k < |cb.replies| ==> cb.replies[k].None?
  }

  /** Whatever the callback does, a pass of the loop body runs that
      group's generator and gathers its files, if it returned any. */
  lemma StepGathers(p: Phase, g: Group, gen: Generation, cb: Callback)
    ensures Step(p, g, gen, cb).invoked == p.invoked + [g.id]
    ensures Step(p, g, gen, cb).generated == p.generated + (if gen.Files? then gen.names else [])
  {
  }

  /** The generators run in list order, one call each, and stop only when
      an exception leaves the loop. */
  lemma {:induction false} InvokedInOrder(outcomes: seq<Generation>, cb: Callback, n: nat)
    requires n <= |outcomes| == |GROUPS|
    ensures var p := RunUpTo(outcomes, cb, n);
      |p.invoked| <= n && p.invoked == Ids(GROUPS[..|p.invoked|]) && (p.escaped.None? ==> |p.invoked| == n)
  {
    if n > 0 {
      InvokedInOrder(outcomes, cb, n - 1);
      var p := RunUpTo(outcomes, cb, n - 1);
      if p.escaped.None? {
        StepGathers(p, GROUPS[n - 1], outcomes[n - 1], cb);
        var q := RunUpTo(outcomes, cb, n);
        assert q == Step(p, GROUPS[n - 1], outcomes[n - 1], cb);
        assert |q.invoked| == n;
        assert GROUPS[..n][..n - 1] == GROUPS[..n - 1];
        assert Ids(GROUPS[..n]) == Ids(GROUPS[..n - 1]) + [GROUPS[n - 1].id];
      }
    }
  }

  /** The files gathered are those of the generators that ran and
      returned, in order, including a group whose callback raised after
      its files were added. */
  lemma {:induction false} GatheredFiles(outcomes: seq<Generation>, cb: Callback, n: nat)
    requires n <= |outcomes| == |GROUPS|
    ensures var p := RunUpTo(outcomes, cb, n);
      |p.invoked| <= n && p.generated == AllFiles(outcomes[..|p.invoked|])
  {
    if n > 0 {
      GatheredFiles(outcomes, cb, n - 1);
      var p := RunUpTo(outcomes, cb, n - 1);
      if p.escaped.None? {
        InvokedInOrder(outcomes, cb, n - 1);
        var gen := outcomes[n - 1];
        var extra := if gen.Files? then gen.names else [];
        StepGathers(p, GROUPS[n - 1], gen, cb);
        var q := RunUpTo(outcomes, cb, n);
        assert q == Step(p, GROUPS[n - 1], gen, cb);
        assert |q.invoked| == n;
        assert outcomes[..n][..n - 1] == outcomes[..n - 1];
        assert AllFiles(outcomes[..n]) == AllFiles(outcomes[..n - 1]) + extra;
      }
    }
  }

  /** The callback is called after every generator, and an exception
      leaves the loop only from the `except` branch: the last call it
      received then reported an error. */
  lemma {:induction false} EscapeAfterErrorReport(outcomes: seq<Generation>, cb: Callback, n: nat)
    requires n <= |outcomes| == |GROUPS|
    ensures var p := RunUpTo(outcomes, cb, n);
      p.escaped.Some? ==> cb.Callback? && p.calls != [] && p.calls[|p.calls| - 1].error.Some?
  {
    if n > 0 {
      EscapeAfterErrorReport(outcomes, cb, n - 1);
    }
  }

  /** Once an exception has left the loop, no later generator runs and
      nothing else changes. */
  lemma {:induction false} EscapeIsFinal(outcomes: seq<Generation>, cb: Callback, n: nat, m: nat)
    requires n <= m <= |outcomes| == |GROUPS|
    requires RunUpTo(outcomes, cb, n).escaped.Some?
    ensures RunUpTo(outcomes, cb, m) == RunUpTo(outcomes, cb, n)
    decreases m
  {
    if m > n {
      EscapeIsFinal(outcomes, cb, n, m - 1);
    }
  }

  /** Without a callback nothing can raise: every generator runs and the
      result is every successful generator's files, in order. */
  lemma NoCallbackRun(outcomes: seq<Generation>)
    requires |outcomes| == |GROUPS|
    ensures Run(outcomes, NoCallback) == Ok(AllFiles(outcomes))
    ensures RunUpTo(outcomes, NoCallback, |GROUPS|).invoked == Ids(GROUPS)
    ensures RunUpTo(outcomes, NoCallback, |GROUPS|).calls == []
  {
    NoCallbackUpTo(outcomes, |GROUPS|);
    InvokedInOrder(outcomes, NoCallback, |GROUPS|);
    GatheredFiles(outcomes, NoCallback, |GROUPS|);
    assert GROUPS[..|GROUPS|] == GROUPS;
    assert outcomes[..|GROUPS|] == outcomes;
  }

  lemma {:induction false} NoCallbackUpTo(outcomes: seq<Generation>, n: nat)
    requires n <= |outcomes| == |GROUPS|
    ensures RunUpTo(outcomes, NoCallback, n).escaped.None?
    ensures RunUpTo(outcomes, NoCallback, n).calls == []
  {
    if n > 0 {
      NoCallbackUpTo(outcomes, n - 1);
    }
  }

  /** With a callback that never raises, it is called exactly once per
      group, in order, with that group's files or its error, and the
      result is every successful generator's files. */
  lemma QuietCallbackRun(outcomes: seq<Generation>, cb: Callback)
    requires |outcomes| == |GROUPS|
    requires Quiet(cb)
    ensures Run(outcomes, cb) == Ok(AllFiles(outcomes))
    ensures var calls := RunUpTo(outcomes, cb, |GROUPS|).calls;
      |calls| == |GROUPS| && forall i :: 0 <= i < |GROUPS| ==> calls[i] == Report(GROUPS[i], outcomes[i])
  {
    QuietUpTo(outcomes, cb, |GROUPS|);
    InvokedInOrder(outcomes, cb, |GROUPS|);
    GatheredFiles(outcomes, cb, |GROUPS|);
    assert outcomes[..|GROUPS|] == outcomes;
  }

  lemma {:induction false} QuietUpTo(outcomes: seq<Generation>, cb: Callback, n: nat)
    requires n <= |outcomes| == |GROUPS|
    requires Quiet(cb)
    ensures RunUpTo(outcomes, cb, n).escaped.None?
    ensures |RunUpTo(outcomes, cb, n).calls| == n
    ensures forall i :: 0 <= i < n ==> RunUpTo(outcomes, cb, n).calls[i] == Report(GROUPS[i], outcomes[i])
  {
    if n > 0 {
      QuietUpTo(outcomes, cb, n - 1);
      var p := RunUpTo(outcomes, cb, n - 1);
      assert Reply(cb, |p.calls|).None?;
      assert RunUpTo(outcomes, cb, n).calls == p.calls + [Report(GROUPS[n - 1], outcomes[n - 1])];
    }
  }

  /** `gerar_todos_graficos` as the loop the source runs: the result, the
      callback calls made and the groups whose generator ran. */
  method GenerateAll(outcomes: seq<Generation>, cb: Callback)
    returns (result: Result<seq<String>>, calls: seq<Progress>, invoked: seq<String>)
    requires |outcomes| == |GROUPS|
    ensures result == Run(outcomes, cb)
    ensures calls == RunUpTo(outcomes, cb, |GROUPS|).calls
    ensures invoked == RunUpTo(outcomes, cb, |GROUPS|).invoked
  {
    var allGenerated: seq<String> := [];
    calls := [];
    invoked := [];
    var i := 0;
    while i < |GROUPS|
      invariant 0 <= i <= |GROUPS|
      invariant RunUpTo(outcomes, cb, i) == Phase(invoked, allGenerated, calls, None)
    {
      var g := GROUPS[i];
      invoked := invoked + [g.id];
      var escaped: Option<String> := None;
      var failure: Option<String> := None;
      match outcomes[i] {
        case Failure(message) =>
          failure := Some(message);
        case Files(names) =>
          allGenerated := allGenerated + names;
          if cb.Callback? {
            var reply := Reply(cb, |calls|);
            calls := calls + [Progress(g.id, g.groupLabel, names, None)];
            failure := reply;
          }
      }
      if failure.Some? && cb.Callback? {
        escaped := Reply(cb, |calls|);
        calls := calls + [Progress(g.id, g.groupLabel, [], failure)];
      }
      if escaped.Some? {
        EscapeIsFinal(outcomes, cb, i + 1, |GROUPS|);
        return Err(escaped.value), calls, invoked;
      }
      i := i + 1;
    }
    result := Ok(allGenerated);
  }
}
