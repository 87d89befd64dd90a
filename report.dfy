/** The segmented, cache-backed generation of the audit report: the cache,
    the sub-call decision between cache, placeholder and client, the parsing
    of a synthesis answer, the text of a chapter, and the two parallel waves
    of sub-calls of the chapter phase. */
module Report {

  import opened Wrappers
  import opened Text

  // ------------------------------------------------------------------
  // Cache
  // ------------------------------------------------------------------

  /** The cache directory: one Markdown file per cache key. */
  type Cache = map<String, String>

  /** Entries of this length or shorter are treated as absent. */
  const MIN_CACHED_LENGTH: nat := 50

  /** `load_cache`: the entry, when it exists and is longer than 50 characters. */
  function LoadCache(cache: Cache, key: String): (r: Option<String>)
  {
    if key in cache && |cache[key]| > MIN_CACHED_LENGTH then Some(cache[key]) else None
  }

  /** `save_cache`: overwrite the entry. */
  function SaveCache(cache: Cache, key: String, text: String): Cache
  {
    cache[key := text]
  }

  /** What `load_cache` returns right after `save_cache`: the text when it is
      long enough to count, nothing otherwise; other keys read as before. */
  lemma LoadAfterSave(cache: Cache, key: String, text: String, other: String)
    ensures LoadCache(SaveCache(cache, key, text), key) ==
            (if |text| > MIN_CACHED_LENGTH then Some(text) else None)
    ensures other != key ==> LoadCache(SaveCache(cache, key, text), other) == LoadCache(cache, other)
  {
  }

  /** The text returned in assembly-only mode when the cache has no usable entry. */
  function Placeholder(key: String): (r: String)
    ensures |r| == |key| + 37 && r[0] == '[' && r[1..|key| + 1] == key
  {
    "[" + key + " não gerado — modo montar sem cache]"
  }

  // ------------------------------------------------------------------
  // Sub-calls
  // ------------------------------------------------------------------

  /** The thinking budget passed to the client. */
  datatype Thinking = High | Low

  /** The prompt builder of a sub-call together with its arguments; the texts
      a builder reads are the only part of the prompt the model keeps. */
  datatype Prompt =
    | Cap1Content(methodology: String)
    | Methodology(chapter: nat, methodology: String)
    | Data(chapter: nat, data: String)
    | Graphs(chapter: nat)
    | Cap1Synthesis(content: String)
    | Synthesis(chapter: nat, methodology: String, data: String, graphs: String)
    | Conclusions(chapters: String)
    | ExecutiveSummary(chapters: String, conclusions: String)

  datatype Subcall = Subcall(key: String, prompt: Prompt, thinking: Thinking)

  /** What the client does with a sub-call: answer with a text or raise. */
  datatype Reply = Answer(text: String) | Raised(message: String)

  /** The client is an oracle: the same sub-call always gets the same reply. */
  type Client = Subcall -> Reply

  /** Events the pipeline hands to its progress callback. */
  datatype RawEvent =
    | StepStart(step: String)
    | StepComplete(step: String)
    | PhaseStart(phase: nat, name: String)
    | PhaseComplete(phase: nat)

  /** The effect of one sub-call: what it returns (or raises), the cache after
      it, and whether the client was called. */
  datatype Step = Step(result: Result<String>, cache: Cache, called: bool)

  /** `generate_subcall`, as a function of the cache before the call. */
  function SubcallStep(cache: Cache, call: Subcall, resume: bool, montar: bool, client: Client): (s: Step)
    // assembly-only mode never calls the client nor writes the cache
    ensures montar ==> !s.called && s.cache == cache
    ensures montar ==> s.result == Ok(if LoadCache(cache, call.key).Some? then cache[call.key]
                                      else Placeholder(call.key))
    // a usable entry is returned unchanged when the cache is consulted
    ensures (resume || montar) && LoadCache(cache, call.key).Some? ==>
              s == Step(Ok(cache[call.key]), cache, false)
    // otherwise the client is called exactly once ...
    ensures !montar && !(resume && LoadCache(cache, call.key).Some?) ==> s.called
    // ... and its answer is saved under the key and returned, or its error propagates
    ensures s.called && client(call).Answer? ==>
              s.result == Ok(client(call).text) && s.cache == SaveCache(cache, call.key, client(call).text)
    ensures s.called && client(call).Raised? ==>
              s.result == Err(client(call).message) && s.cache == cache
  {
    if (resume || montar) && LoadCache(cache, call.key).Some? then
      Step(Ok(cache[call.key]), cache, false)
    else if montar then
      Step(Ok(Placeholder(call.key)), cache, false)
    else
      match client(call)
      case Answer(text) => Step(Ok(text), SaveCache(cache, call.key, text), true)
      case Raised(message) => Step(Err(message), cache, true)
  }

  /** The events of one sub-call: its start, then its completion when it returns. */
  function SubcallEvents(key: String, result: Result<String>): (e: seq<RawEvent>)
    ensures |e| >= 1 && e[0] == StepStart(key)
    ensures result.Ok? ==> |e| == 2 && e[1] == StepComplete(key)
    ensures result.Err? ==> |e| == 1
  {
    [StepStart(key)] + (if result.Ok? then [StepComplete(key)] else [])
  }

  /** A generated answer long enough to be cached is returned by a later
      resumed or assembly-only call without calling the client again. */
  lemma ResumeAfterGenerate(cache: Cache, call: Subcall, resume: bool, montar: bool,
                            client: Client, later: Client)
    requires client(call).Answer? && |client(call).text| > MIN_CACHED_LENGTH
    requires resume || montar
    ensures var first := SubcallStep(cache, call, false, false, client);
            SubcallStep(first.cache, call, resume, montar, later) ==
              Step(Ok(client(call).text), first.cache, false)
  {
  }

  /** The sub-call reads the cache only at its own key. */
  lemma SubcallLocal(c1: Cache, c2: Cache, call: Subcall, resume: bool, montar: bool, client: Client)
    requires call.key in c1 <==> call.key in c2
    requires call.key in c1 ==> c1[call.key] == c2[call.key]
    ensures SubcallStep(c1, call, resume, montar, client).result ==
            SubcallStep(c2, call, resume, montar, client).result
    ensures SubcallStep(c1, call, resume, montar, client).called ==
            SubcallStep(c2, call, resume, montar, client).called
  {
  }

  // ------------------------------------------------------------------
  // Parsing a synthesis answer
  // ------------------------------------------------------------------

  /** The token the synthesis prompt asks the model to put between the
      introduction and the verdict. */
  const SEPARATOR: String := "---SEPARADOR---"

  /** ASCII lower case. */
  function LowerAscii(c: char): char {
    if 'A' <= c <= 'Z' then (c as int + 32) as char else c
  }

  /** The first index at or after `i` that is not whitespace. */
  function SkipSpaces(s: String, i: nat): (j: nat)
    requires i <= |s|
    ensures i <= j <= |s|
    ensures forall k :: i <= k < j ==> IsSpace(s[k])
    ensures j == |s| || !IsSpace(s[j])
    decreases |s| - i
  {
    if i < |s| && IsSpace(s[i]) then SkipSpaces(s, i + 1) else i
  }

  /** The lower-case word `w` occurs at `i`, ignoring case. */
  predicate WordAt(s: String, w: String, i: nat) {
    i + |w| <= |s| && forall k :: 0 <= k < |w| ==> LowerAscii(s[i + k]) == w[k]
  }

  /** The pattern `###\s*Parecer\s+Regulat`, ignoring case, matches at `i`.
      The letters of the pattern are not whitespace, so the greedy runs of
      whitespace never need to give characters back. */
  predicate HeadingAt(s: String, i: nat) {
    OccursAt(s, "###", i) &&
    var j := SkipSpaces(s, i + 3);
    WordAt(s, "parecer", j) &&
    j + 7 < |s| && IsSpace(s[j + 7]) &&
    WordAt(s, "regulat", SkipSpaces(s, j + 7))
  }

  /** The end of the heading match at `i`. */
  function HeadingEnd(s: String, i: nat): (e: nat)
    requires HeadingAt(s, i)
    ensures i + 3 < e <= |s|
  {
    SkipSpaces(s, SkipSpaces(s, i + 3) + 7) + 7
  }

  /** `re.search`: the leftmost heading match at or after `i`. */
  function FindHeading(s: String, i: nat): (r: Option<nat>)
    ensures r.Some? ==> i <= r.value && HeadingAt(s, r.value)
    ensures r.Some? ==> forall j :: i <= j < r.value ==> !HeadingAt(s, j)
    ensures r.None? ==> forall j :: i <= j ==> !HeadingAt(s, j)
    decreases |s| - i
  {
    if i + 3 > |s| then None
    else if HeadingAt(s, i) then Some(i)
    else FindHeading(s, i + 1)
  }

  /** `parse_synthesis`: (introduction, verdict). */
  function ParseSynthesis(text: String): (r: (String, String))
  {
    match IndexOf(text, SEPARATOR)
    case Some(p) => (Strip(text[..p]), Strip(text[p + |SEPARATOR|..]))
    case None =>
      match FindHeading(text, 0)
      case Some(m) => (Strip(text[..m]), Strip(text[m..]))
      case None => (Strip(text), [])
  }

  /** With the separator present, the answer is cut at its first occurrence
      and both halves are stripped. */
  lemma ParseAtSeparator(text: String, p: nat)
    requires OccursAt(text, SEPARATOR, p)
    requires forall j :: 0 <= j < p ==> !OccursAt(text, SEPARATOR, j)
    ensures text == text[..p] + SEPARATOR + text[p + |SEPARATOR|..]
    ensures ParseSynthesis(text) == (Strip(text[..p]), Strip(text[p + |SEPARATOR|..]))
  {
    assert IndexOf(text, SEPARATOR) == Some(p);
  }

  /** Without the separator, the answer is cut at the leftmost verdict
      heading, and the verdict starts with that heading. */
  lemma ParseAtHeading(text: String, m: nat)
    requires !Contains(text, SEPARATOR)
    requires HeadingAt(text, m)
    requires forall j :: 0 <= j < m ==> !HeadingAt(text, j)
    ensures ParseSynthesis(text) == (Strip(text[..m]), Strip(text[m..]))
    ensures |ParseSynthesis(text).1| >= HeadingEnd(text, m) - m
    ensures ParseSynthesis(text).1[..HeadingEnd(text, m) - m] == text[m..HeadingEnd(text, m)]
    ensures ParseSynthesis(text).1[..3] == "###"
  {
    assert FindHeading(text, 0) == Some(m);
    VerdictKeepsHeading(text, m);
  }

  /** Stripping the text from a heading match keeps the whole match. */
  lemma VerdictKeepsHeading(text: String, m: nat)
    requires HeadingAt(text, m)
    ensures |Strip(text[m..])| >= HeadingEnd(text, m) - m
    ensures Strip(text[m..])[..HeadingEnd(text, m) - m] == text[m..HeadingEnd(text, m)]
    ensures Strip(text[m..])[..3] == "###"
  {
    var e := HeadingEnd(text, m);
    HeadingBounds(text, m);
    var t := text[m..];
    StripKeepsPrefix(t, e - m);
    assert t[..e - m] == text[m..e];
    assert text[m..e][..3] == text[m..m + 3];
  }

  /** A heading match starts with `###` and ends on a letter. */
  lemma HeadingBounds(s: String, i: nat)
    requires HeadingAt(s, i)
    ensures s[i..i + 3] == "###" && !IsSpace(s[i])
    ensures !IsSpace(s[HeadingEnd(s, i) - 1])
  {
    assert s[i] == s[i..i + 3][0];
    var j := SkipSpaces(s, SkipSpaces(s, i + 3) + 7);
    assert LowerAscii(s[j + 6]) == "regulat"[6];
  }

  /** With neither separator nor heading, the whole stripped answer is the
      introduction and the verdict is empty. */
  lemma ParseFallback(text: String)
    requires !Contains(text, SEPARATOR)
    requires forall j :: !HeadingAt(text, j)
    ensures ParseSynthesis(text) == (Strip(text), [])
  {
  }

  /** Both halves come back stripped. */
  lemma ParseStripped(text: String)
    ensures Strip(ParseSynthesis(text).0) == ParseSynthesis(text).0
    ensures Strip(ParseSynthesis(text).1) == ParseSynthesis(text).1
  {
    match IndexOf(text, SEPARATOR)
    case Some(p) =>
      StripIdempotent(text[..p]);
      StripIdempotent(text[p + |SEPARATOR|..]);
    case None =>
      match FindHeading(text, 0)
      case Some(m) =>
        StripIdempotent(text[..m]);
        StripIdempotent(text[m..]);
      case None =>
        StripIdempotent(text);
  }

  /** Stripping keeps a prefix that starts and ends with non-whitespace. */
  lemma StripKeepsPrefix(s: String, n: nat)
    requires 0 < n <= |s|
    requires !IsSpace(s[0]) && !IsSpace(s[n - 1])
    ensures |Strip(s)| >= n && Strip(s)[..n] == s[..n]
  {
    assert LStrip(s) == s;
    RStripSpec(s);
    RStripKeeps(s, n - 1);
  }

  // ------------------------------------------------------------------
  // Chapters
  // ------------------------------------------------------------------

  /** The texts gathered for one chapter. */
  datatype ChapterResult = ChapterResult(
    number: nat,
    title: String,
    intro: String,
    methodology: String,
    data: String,
    graphs: String,
    verdict: String,
    cap1Content: String)

  const METHODOLOGY_HEADING: String := "### Fundamentação Teórica\n"
  const DATA_HEADING: String := "### Análise dos Dados\n"
  const GRAPHS_HEADING: String := "### Discussão dos Gráficos\n"
  const VERDICT_HEADING: String := "### Parecer Regulatório\n"

  /** The part a field contributes: nothing when it is empty. */
  function Part(heading: String, text: String): (r: seq<String>)
    ensures text == [] ==> r == []
    ensures text != [] ==> r == [heading + text]
  {
    if text == [] then [] else [heading + text]
  }

  /** The non-empty parts of a chapter, in their fixed order. */
  function ChapterParts(ch: ChapterResult): (parts: seq<String>)
    ensures forall k :: 0 <= k < |parts| ==> parts[k] != []
    ensures |parts| <= 6
  {
    Part([], ch.intro) + Part([], ch.cap1Content)
      + Part(METHODOLOGY_HEADING, ch.methodology) + Part(DATA_HEADING, ch.data)
      + Part(GRAPHS_HEADING, ch.graphs) + Part(VERDICT_HEADING, ch.verdict)
  }

  /** `ChapterResult.full_text`. */
  function FullText(ch: ChapterResult): (r: String)
  {
    Join(ChapterParts(ch), "\n\n")
  }

  /** A chapter's text is empty exactly when all its fields are. */
  lemma FullTextEmpty(ch: ChapterResult)
    ensures FullText(ch) == [] <==>
            ch.intro == [] && ch.cap1Content == [] && ch.methodology == [] &&
            ch.data == [] && ch.graphs == [] && ch.verdict == []
  {
    var parts := ChapterParts(ch);
    JoinEmpty(parts, "\n\n");
  }

  /** The introduction comes first. */
  lemma FullTextStartsWithIntro(ch: ChapterResult)
    requires ch.intro != []
    ensures |ch.intro| <= |FullText(ch)| && FullText(ch)[..|ch.intro|] == ch.intro
  {
    var parts := ChapterParts(ch);
    assert parts[0] == ch.intro;
    JoinStartsWith(parts, "\n\n");
  }

  /** The verdict, under its heading, comes last. */
  lemma FullTextEndsWithVerdict(ch: ChapterResult)
    requires ch.verdict != []
    ensures EndsWith(FullText(ch), VERDICT_HEADING + ch.verdict)
  {
    var before := Part([], ch.intro) + Part([], ch.cap1Content)
      + Part(METHODOLOGY_HEADING, ch.methodology) + Part(DATA_HEADING, ch.data)
      + Part(GRAPHS_HEADING, ch.graphs);
    var last := VERDICT_HEADING + ch.verdict;
    assert ChapterParts(ch) == before + [last];
    if before == [] {
      assert ChapterParts(ch) == [last];
    } else {
      JoinAppend(before, "\n\n", last);
    }
  }

  // ------------------------------------------------------------------
  // One wave of sub-calls
  // ------------------------------------------------------------------

  /** The flags of the run and the client every sub-call of it uses. */
  datatype Settings = Settings(resume: bool, montar: bool, client: Client)

  /** What task `j` of a wave does when started on the cache as it was before the wave. */
  function Outcome(cache0: Cache, tasks: seq<Subcall>, j: nat, st: Settings): Step
    requires j < |tasks|
  {
    SubcallStep(cache0, tasks[j], st.resume, st.montar, st.client)
  }

  /** The tasks of a wave have pairwise different cache keys. */
  predicate DistinctKeys(tasks: seq<Subcall>) {
    forall i, j :: 0 <= i < j < |tasks| ==> tasks[i].key != tasks[j].key
  }

  /** An order in which the pool runs the `n` tasks of a wave: each exactly once. */
  predicate IsSchedule(order: seq<nat>, n: nat) {
    |order| == n &&
    Indexes(order, n) && NoRepeats(order) &&
    (forall j :: 0 <= j < n ==> j in order)
  }

  /** Every entry of `order` names a task of the wave. */
  predicate Indexes(order: seq<nat>, n: nat) {
    forall k :: 0 <= k < |order| ==> order[k] < n
  }

  /** No task appears twice in `order`. */
  predicate NoRepeats(order: seq<nat>) {
    forall k, l :: 0 <= k < l < |order| ==> order[k] != order[l]
  }

  /** The texts of the first `i` tasks of the schedule whose step satisfies
      `keep` and returned, by key. */
  function Collected(cache0: Cache, tasks: seq<Subcall>, order: seq<nat>, i: nat, st: Settings,
                     keep: Step -> bool): map<String, String>
    requires Indexes(order, |tasks|) && i <= |order|
  {
    if i == 0 then map[]
    else
      var j := order[i - 1];
      var earlier := Collected(cache0, tasks, order, i - 1, st, keep);
      var o := Outcome(cache0, tasks, j, st);
      if keep(o) && o.result.Ok? then earlier[tasks[j].key := o.result.value] else earlier
  }

  /** The cache entries written by the first `i` tasks of the schedule. */
  function Writes(cache0: Cache, tasks: seq<Subcall>, order: seq<nat>, i: nat, st: Settings): Cache
    requires Indexes(order, |tasks|) && i <= |order|
  {
    Collected(cache0, tasks, order, i, st, (o: Step) => o.called)
  }

  /** The texts returned by the first `i` tasks of the schedule, by key. */
  function Values(cache0: Cache, tasks: seq<Subcall>, order: seq<nat>, i: nat, st: Settings): map<String, String>
    requires Indexes(order, |tasks|) && i <= |order|
  {
    Collected(cache0, tasks, order, i, st, (o: Step) => true)
  }

  /** The events of the first `i` tasks of the schedule. */
  function WaveEvents(cache0: Cache, tasks: seq<Subcall>, order: seq<nat>, i: nat, st: Settings): seq<RawEvent>
    requires Indexes(order, |tasks|) && i <= |order|
  {
    if i == 0 then []
    else
      var j := order[i - 1];
      WaveEvents(cache0, tasks, order, i - 1, st) + SubcallEvents(tasks[j].key, Outcome(cache0, tasks, j, st).result)
  }

  /** The sub-calls among the first `i` tasks of the schedule that reach the client. */
  function WaveCalls(cache0: Cache, tasks: seq<Subcall>, order: seq<nat>, i: nat, st: Settings): seq<Subcall>
    requires Indexes(order, |tasks|) && i <= |order|
  {
    if i == 0 then []
    else
      var j := order[i - 1];
      WaveCalls(cache0, tasks, order, i - 1, st) + (if Outcome(cache0, tasks, j, st).called then [tasks[j]] else [])
  }

  /** The error of the first task among the first `i` of the schedule that raised, if any. */
  function FirstFailure(cache0: Cache, tasks: seq<Subcall>, order: seq<nat>, i: nat, st: Settings): Option<String>
    requires Indexes(order, |tasks|) && i <= |order|
  {
    if i == 0 then None
    else
      var earlier := FirstFailure(cache0, tasks, order, i - 1, st);
      var o := Outcome(cache0, tasks, order[i - 1], st);
      if earlier.Some? then earlier
      else if o.result.Err? then Some(o.result.error)
      else None
  }

  /** What the wave reports: the first error met while collecting results, or
      every text by key. */
  function WaveResult(cache0: Cache, tasks: seq<Subcall>, order: seq<nat>, st: Settings): Result<map<String, String>>
    requires IsSchedule(order, |tasks|)
  {
    match FirstFailure(cache0, tasks, order, |order|, st)
    case Some(e) => Err(e)
    case None => Ok(Values(cache0, tasks, order, |order|, st))
  }

  /** What a collection holds: exactly the keys of the kept tasks that
      returned, each with its own text. */
  lemma {:induction false} CollectedSpec(cache0: Cache, tasks: seq<Subcall>, order: seq<nat>, i: nat, st: Settings,
                                         keep: Step -> bool)
    requires Indexes(order, |tasks|) && i <= |order|
    requires DistinctKeys(tasks)
    requires NoRepeats(order)
    ensures forall key :: key in Collected(cache0, tasks, order, i, st, keep) ==>
              exists k :: 0 <= k < i && tasks[order[k]].key == key
    ensures forall k :: 0 <= k < i ==>
              (tasks[order[k]].key in Collected(cache0, tasks, order, i, st, keep) <==>
               keep(Outcome(cache0, tasks, order[k], st)) && Outcome(cache0, tasks, order[k], st).result.Ok?)
    ensures forall k :: 0 <= k < i && tasks[order[k]].key in Collected(cache0, tasks, order, i, st, keep) ==>
              Collected(cache0, tasks, order, i, st, keep)[tasks[order[k]].key] ==
              Outcome(cache0, tasks, order[k], st).result.value
  {
    if i > 0 {
      var n := i - 1;
      var j := order[n];
      CollectedSpec(cache0, tasks, order, n, st, keep);
      var m := Collected(cache0, tasks, order, n, st, keep);
      var m2 := Collected(cache0, tasks, order, i, st, keep);
      forall k | 0 <= k < n ensures tasks[order[k]].key != tasks[j].key {
        assert order[k] != j;
        if order[k] < j {
          assert tasks[order[k]].key != tasks[j].key;
        } else {
          assert tasks[j].key != tasks[order[k]].key;
        }
      }
      forall key | key in m2 ensures exists k :: 0 <= k < i && tasks[order[k]].key == key {
        if key != tasks[j].key {
          assert key in m;
        }
      }
      var o := Outcome(cache0, tasks, j, st);
      assert m2 == if keep(o) && o.result.Ok? then m[tasks[j].key := o.result.value] else m;
      forall k | 0 <= k < i
        ensures tasks[order[k]].key in m2 <==>
                keep(Outcome(cache0, tasks, order[k], st)) && Outcome(cache0, tasks, order[k], st).result.Ok?
        ensures tasks[order[k]].key in m2 ==> m2[tasks[order[k]].key] == Outcome(cache0, tasks, order[k], st).result.value
      {
        if k < n {
          assert tasks[order[k]].key != tasks[j].key;
        }
      }
    }
  }

  /** Every entry a schedule collects is collected, alike, by any other. */
  lemma CollectedIncluded(cache0: Cache, tasks: seq<Subcall>, o1: seq<nat>, o2: seq<nat>,
                          st: Settings, keep: Step -> bool)
    requires DistinctKeys(tasks)
    requires IsSchedule(o1, |tasks|) && IsSchedule(o2, |tasks|)
    ensures forall key :: key in Collected(cache0, tasks, o1, |o1|, st, keep) ==>
              key in Collected(cache0, tasks, o2, |o2|, st, keep) &&
              Collected(cache0, tasks, o2, |o2|, st, keep)[key] == Collected(cache0, tasks, o1, |o1|, st, keep)[key]
  {
    var m1 := Collected(cache0, tasks, o1, |o1|, st, keep);
    var m2 := Collected(cache0, tasks, o2, |o2|, st, keep);
    CollectedSpec(cache0, tasks, o1, |o1|, st, keep);
    CollectedSpec(cache0, tasks, o2, |o2|, st, keep);
    forall key | key in m1 ensures key in m2 && m2[key] == m1[key] {
      var k :| 0 <= k < |o1| && tasks[o1[k]].key == key;
      var j := o1[k];
      assert j < |tasks|;
      assert j in o2;
      var l :| 0 <= l < |o2| && o2[l] == j;
      assert tasks[o2[l]].key == key;
    }
  }

  /** Two schedules of the same wave collect the same map. */
  lemma CollectedScheduleIndependent(cache0: Cache, tasks: seq<Subcall>, o1: seq<nat>, o2: seq<nat>,
                                     st: Settings, keep: Step -> bool)
    requires DistinctKeys(tasks)
    requires IsSchedule(o1, |tasks|) && IsSchedule(o2, |tasks|)
    ensures Collected(cache0, tasks, o1, |o1|, st, keep) == Collected(cache0, tasks, o2, |o2|, st, keep)
  {
    var m1 := Collected(cache0, tasks, o1, |o1|, st, keep);
    var m2 := Collected(cache0, tasks, o2, |o2|, st, keep);
    CollectedIncluded(cache0, tasks, o1, o2, st, keep);
    CollectedIncluded(cache0, tasks, o2, o1, st, keep);
    assert m1.Keys == m2.Keys;
  }

  /** The schedule fails exactly when one of its first `i` tasks raises, and
      the error it reports is the error of one of them. */
  lemma {:induction false} FirstFailureIff(cache0: Cache, tasks: seq<Subcall>, order: seq<nat>, i: nat, st: Settings)
    requires Indexes(order, |tasks|) && i <= |order|
    ensures FirstFailure(cache0, tasks, order, i, st).None? <==>
            forall k :: 0 <= k < i ==> Outcome(cache0, tasks, order[k], st).result.Ok?
    ensures FirstFailure(cache0, tasks, order, i, st).Some? ==>
            exists k :: 0 <= k < i && Outcome(cache0, tasks, order[k], st).result ==
                                      Err(FirstFailure(cache0, tasks, order, i, st).value)
  {
    if i > 0 {
      FirstFailureIff(cache0, tasks, order, i - 1, st);
    }
  }

  /** When a wave succeeds, it returns every task's text under the task's key. */
  lemma WaveResultValues(cache0: Cache, tasks: seq<Subcall>, order: seq<nat>, st: Settings, j: nat)
    requires DistinctKeys(tasks)
    requires IsSchedule(order, |tasks|)
    requires WaveResult(cache0, tasks, order, st).Ok?
    requires j < |tasks|
    ensures Outcome(cache0, tasks, j, st).result.Ok?
    ensures tasks[j].key in WaveResult(cache0, tasks, order, st).value
    ensures WaveResult(cache0, tasks, order, st).value[tasks[j].key] == Outcome(cache0, tasks, j, st).result.value
  {
    FirstFailureIff(cache0, tasks, order, |order|, st);
    CollectedSpec(cache0, tasks, order, |order|, st, (o: Step) => true);
    assert j in order;
    var k :| 0 <= k < |order| && order[k] == j;
  }

  /** A wave fails exactly when one of its tasks raises, whatever the schedule. */
  lemma WaveFailsIff(cache0: Cache, tasks: seq<Subcall>, order: seq<nat>, st: Settings)
    requires IsSchedule(order, |tasks|)
    ensures WaveResult(cache0, tasks, order, st).Err? <==>
            exists j :: 0 <= j < |tasks| && Outcome(cache0, tasks, j, st).result.Err?
  {
    FirstFailureIff(cache0, tasks, order, |order|, st);
    if exists j :: 0 <= j < |tasks| && Outcome(cache0, tasks, j, st).result.Err? {
      var j :| 0 <= j < |tasks| && Outcome(cache0, tasks, j, st).result.Err?;
      assert j in order;
      var k :| 0 <= k < |order| && order[k] == j;
    }
  }

  /** Which schedule the pool follows changes neither the cache after the
      wave nor whether it succeeds nor, when it does, the texts it returns. */
  lemma WaveScheduleIndependent(cache0: Cache, tasks: seq<Subcall>, o1: seq<nat>, o2: seq<nat>, st: Settings)
    requires DistinctKeys(tasks)
    requires IsSchedule(o1, |tasks|) && IsSchedule(o2, |tasks|)
    ensures Writes(cache0, tasks, o1, |o1|, st) == Writes(cache0, tasks, o2, |o2|, st)
    ensures WaveResult(cache0, tasks, o1, st).Ok? <==> WaveResult(cache0, tasks, o2, st).Ok?
    ensures WaveResult(cache0, tasks, o1, st).Ok? ==> WaveResult(cache0, tasks, o1, st) == WaveResult(cache0, tasks, o2, st)
  {
    CollectedScheduleIndependent(cache0, tasks, o1, o2, st, (o: Step) => o.called);
    CollectedScheduleIndependent(cache0, tasks, o1, o2, st, (o: Step) => true);
    WaveFailsIff(cache0, tasks, o1, st);
    WaveFailsIff(cache0, tasks, o2, st);
  }

  /** The events of one sub-call are about its key, and include its
      completion when it returned. */
  lemma OwnEvents(key: String, r: Result<String>)
    ensures forall e :: e in SubcallEvents(key, r) ==> (e.StepStart? || e.StepComplete?) && e.step == key
    ensures r.Ok? ==> StepComplete(key) in SubcallEvents(key, r)
  {
  }

  /** The events of the first `i` tasks of the schedule: each task contributes
      its start, and its completion exactly when it returned. */
  lemma {:induction false} WaveEventsSteps(cache0: Cache, tasks: seq<Subcall>, order: seq<nat>, i: nat, st: Settings)
    requires Indexes(order, |tasks|) && i <= |order|
    ensures forall e: RawEvent :: e in WaveEvents(cache0, tasks, order, i, st) ==>
              (e.StepStart? || e.StepComplete?) && exists k :: 0 <= k < i && e.step == tasks[order[k]].key
    ensures forall k :: 0 <= k < i && Outcome(cache0, tasks, order[k], st).result.Ok? ==>
              StepComplete(tasks[order[k]].key) in WaveEvents(cache0, tasks, order, i, st)
  {
    if i > 0 {
      var j := order[i - 1];
      WaveEventsSteps(cache0, tasks, order, i - 1, st);
      var before := WaveEvents(cache0, tasks, order, i - 1, st);
      var key := tasks[j].key;
      var r := Outcome(cache0, tasks, j, st).result;
      var own := SubcallEvents(key, r);
      assert WaveEvents(cache0, tasks, order, i, st) == before + own;
      OwnEvents(key, r);
      forall e: RawEvent | e in before + own
        ensures (e.StepStart? || e.StepComplete?) && exists k :: 0 <= k < i && e.step == tasks[order[k]].key
      {
        if e !in before {
          assert e.step == tasks[order[i - 1]].key;
        }
      }
    }
    forall k | 0 <= k < i && Outcome(cache0, tasks, order[k], st).result.Ok?
      ensures StepComplete(tasks[order[k]].key) in WaveEvents(cache0, tasks, order, i, st)
    {
      WaveEventsComplete(cache0, tasks, order, k, i, st);
    }
  }

  /** A task of the schedule that returned has its completion among the
      events of every longer prefix of the schedule. */
  lemma WaveEventsComplete(cache0: Cache, tasks: seq<Subcall>, order: seq<nat>, k: nat, i: nat, st: Settings)
    requires Indexes(order, |tasks|) && k < i <= |order|
    requires Outcome(cache0, tasks, order[k], st).result.Ok?
    ensures StepComplete(tasks[order[k]].key) in WaveEvents(cache0, tasks, order, i, st)
  {
    var done := StepComplete(tasks[order[k]].key);
    CompleteHere(cache0, tasks, order, k + 1, st);
    var m := k + 1;
    while m < i
      invariant k < m <= i
      invariant done in WaveEvents(cache0, tasks, order, m, st)
    {
      EventsKept(cache0, tasks, order, m + 1, st, done);
      m := m + 1;
    }
  }

  /** A task that returned has its completion among the events up to it. */
  lemma CompleteHere(cache0: Cache, tasks: seq<Subcall>, order: seq<nat>, i: nat, st: Settings)
    requires Indexes(order, |tasks|) && 0 < i <= |order|
    requires Outcome(cache0, tasks, order[i - 1], st).result.Ok?
    ensures StepComplete(tasks[order[i - 1]].key) in WaveEvents(cache0, tasks, order, i, st)
  {
    var j := order[i - 1];
    var r := Outcome(cache0, tasks, j, st).result;
    var own := SubcallEvents(tasks[j].key, r);
    assert WaveEvents(cache0, tasks, order, i, st) == WaveEvents(cache0, tasks, order, i - 1, st) + own;
    assert own[1] == StepComplete(tasks[j].key);
  }

  /** An event of a prefix of the schedule stays in every longer prefix. */
  lemma EventsKept(cache0: Cache, tasks: seq<Subcall>, order: seq<nat>, i: nat, st: Settings, e: RawEvent)
    requires Indexes(order, |tasks|) && 0 < i <= |order|
    requires e in WaveEvents(cache0, tasks, order, i - 1, st)
    ensures e in WaveEvents(cache0, tasks, order, i, st)
  {
    var j := order[i - 1];
    var own := SubcallEvents(tasks[j].key, Outcome(cache0, tasks, j, st).result);
    assert WaveEvents(cache0, tasks, order, i, st) == WaveEvents(cache0, tasks, order, i - 1, st) + own;
  }

  /** The key of the next task of the schedule is not yet among the writes. */
  lemma NotYetWritten(cache0: Cache, tasks: seq<Subcall>, order: seq<nat>, i: nat, st: Settings)
    requires DistinctKeys(tasks)
    requires IsSchedule(order, |tasks|)
    requires i < |order|
    ensures tasks[order[i]].key !in Writes(cache0, tasks, order, i, st)
  {
    CollectedSpec(cache0, tasks, order, i, st, (o: Step) => o.called);
    forall k | 0 <= k < i ensures tasks[order[k]].key != tasks[order[i]].key {
      if order[k] < order[i] {
        assert tasks[order[k]].key != tasks[order[i]].key;
      } else {
        assert tasks[order[i]].key != tasks[order[k]].key;
      }
    }
  }

  /** The next task of the schedule, started on the cache as the earlier
      tasks left it, behaves as if started on the cache before the wave. */
  lemma NextTask(cache0: Cache, tasks: seq<Subcall>, order: seq<nat>, i: nat, st: Settings, cache: Cache)
    requires DistinctKeys(tasks)
    requires IsSchedule(order, |tasks|)
    requires i < |order|
    requires cache == cache0 + Writes(cache0, tasks, order, i, st)
    ensures var s := SubcallStep(cache, tasks[order[i]], st.resume, st.montar, st.client);
            var o := Outcome(cache0, tasks, order[i], st);
            s.result == o.result && s.called == o.called &&
            s.cache == cache0 + Writes(cache0, tasks, order, i + 1, st)
  {
    var j := order[i];
    NotYetWritten(cache0, tasks, order, i, st);
    SubcallLocal(cache, cache0, tasks[j], st.resume, st.montar, st.client);
    var o := Outcome(cache0, tasks, j, st);
    if o.called && o.result.Ok? {
      MergeUpdate(cache0, Writes(cache0, tasks, order, i, st), tasks[j].key, o.result.value);
    }
  }

  /** One more task of the schedule extends the wave's events and client calls
      by that task's own. */
  lemma WaveLogStep(cache0: Cache, tasks: seq<Subcall>, order: seq<nat>, i: nat, st: Settings,
                    events0: seq<RawEvent>, calls0: seq<Subcall>)
    requires Indexes(order, |tasks|) && i < |order|
    ensures var j := order[i];
            var o := Outcome(cache0, tasks, j, st);
            (events0 + WaveEvents(cache0, tasks, order, i, st)) + SubcallEvents(tasks[j].key, o.result) ==
              events0 + WaveEvents(cache0, tasks, order, i + 1, st) &&
            (calls0 + WaveCalls(cache0, tasks, order, i, st)) + (if o.called then [tasks[j]] else []) ==
              calls0 + WaveCalls(cache0, tasks, order, i + 1, st)
  {
    var j := order[i];
    var o := Outcome(cache0, tasks, j, st);
    AppendAssoc(events0, WaveEvents(cache0, tasks, order, i, st), SubcallEvents(tasks[j].key, o.result));
    AppendAssoc(calls0, WaveCalls(cache0, tasks, order, i, st), if o.called then [tasks[j]] else []);
  }

  /** Updating a merged map updates its right operand. */
  lemma MergeUpdate(base: Cache, writes: Cache, key: String, text: String)
    ensures (base + writes)[key := text] == base + writes[key := text]
  {
  }

  // ------------------------------------------------------------------
  // The chapter phase: keys and waves
  // ------------------------------------------------------------------

  /** A one-digit chapter number as a character. */
  function Digit(n: nat): (c: char)
    requires n <= 9
    ensures '0' <= c <= '9'
  {
    (48 + n) as char
  }

  /** The cache key of a part of a chapter: `cap{n}{part}`. */
  function ChapterKey(n: nat, part: String): (key: String)
    requires n <= 9
    ensures |key| == 4 + |part| && key[3] == Digit(n) && key[4..] == part
  {
    "cap" + [Digit(n)] + part
  }

  const CONTENT: String := "_a_conteudo"
  const METHODOLOGY: String := "_a_metodologia"
  const DATA: String := "_b_dados"
  const GRAPHS: String := "_c_graficos"
  const CAP1_SYNTHESIS: String := "_b_sintese"
  const SYNTHESIS: String := "_d_sintese"

  /** Different chapters or different parts give different keys. */
  lemma ChapterKeyInjective(n1: nat, p1: String, n2: nat, p2: String)
    requires n1 <= 9 && n2 <= 9
    requires ChapterKey(n1, p1) == ChapterKey(n2, p2)
    ensures n1 == n2 && p1 == p2
  {
    assert Digit(n1) == ChapterKey(n1, p1)[3] == ChapterKey(n2, p2)[3] == Digit(n2);
  }

  /** What the chapter phase reads besides the cache: the pre-extracted
      methodology of each chapter, its formatted data, whether its
      configuration lists graph files, and its title. */
  datatype ChapterInputs = ChapterInputs(
    methodology: nat -> String,
    data: nat -> String,
    hasGraphs: nat -> bool,
    titles: nat -> String)

  function ContentTask(inp: ChapterInputs): Subcall {
    Subcall(ChapterKey(1, CONTENT), Cap1Content(inp.methodology(1)), High)
  }

  function MethodologyTask(n: nat, inp: ChapterInputs): Subcall
    requires 2 <= n <= 7
  {
    Subcall(ChapterKey(n, METHODOLOGY), Methodology(n, inp.methodology(n)), Low)
  }

  function DataTask(n: nat, inp: ChapterInputs): Subcall
    requires 2 <= n <= 7
  {
    Subcall(ChapterKey(n, DATA), Data(n, inp.data(n)), Low)
  }

  function GraphsTask(n: nat): Subcall
    requires 2 <= n <= 7
  {
    Subcall(ChapterKey(n, GRAPHS), Graphs(n), High)
  }

  /** The wave-1 tasks of chapter `n`. */
  function Wave1Chapter(n: nat, inp: ChapterInputs): seq<Subcall>
    requires 2 <= n <= 7
  {
    [MethodologyTask(n, inp), DataTask(n, inp)] + (if inp.hasGraphs(n) then [GraphsTask(n)] else [])
  }

  /** The wave-1 tasks of chapters 2 to `n - 1`, in submission order. */
  function Wave1Upto(n: nat, inp: ChapterInputs): seq<Subcall>
    requires 2 <= n <= 8
  {
    if n == 2 then [] else Wave1Upto(n - 1, inp) + Wave1Chapter(n - 1, inp)
  }

  /** Wave 1 as submitted: the chapter-1 content, then for each chapter its
      methodology, data and, when it has graph files, graphs. */
  function Wave1(inp: ChapterInputs): seq<Subcall> {
    [ContentTask(inp)] + Wave1Upto(8, inp)
  }

  /** The chapters of the report, by number. */
  type Chapters = map<nat, ChapterResult>

  /** The map holds chapters 1 to 7 and nothing else. */
  ghost predicate AllChapters(chapters: Chapters) {
    forall n: nat :: n in chapters <==> 1 <= n <= 7
  }

  function Cap1SynthesisTask(ch: ChapterResult): Subcall {
    Subcall(ChapterKey(1, CAP1_SYNTHESIS), Cap1Synthesis(ch.cap1Content), Low)
  }

  function SynthesisTask(n: nat, ch: ChapterResult): Subcall
    requires 2 <= n <= 7
  {
    Subcall(ChapterKey(n, SYNTHESIS), Synthesis(n, ch.methodology, ch.data, ch.graphs), Low)
  }

  /** The wave-2 tasks of chapters 2 to `n - 1`, in submission order. */
  function Wave2Upto(chapters: Chapters, n: nat): (ws: seq<Subcall>)
    requires AllChapters(chapters)
    requires 2 <= n <= 8
    ensures |ws| == n - 2
    ensures forall i :: 0 <= i < n - 2 ==> ws[i] == SynthesisTask(i + 2, chapters[i + 2])
  {
    if n == 2 then [] else Wave2Upto(chapters, n - 1) + [SynthesisTask(n - 1, chapters[n - 1])]
  }

  /** Wave 2 as submitted: one synthesis per chapter, fed that chapter's texts. */
  function Wave2(chapters: Chapters): (ws: seq<Subcall>)
    requires AllChapters(chapters)
    ensures |ws| == 7
    ensures ws[0] == Cap1SynthesisTask(chapters[1])
    ensures forall i :: 1 <= i < 7 ==> ws[i] == SynthesisTask(i + 1, chapters[i + 1])
  {
    [Cap1SynthesisTask(chapters[1])] + Wave2Upto(chapters, 8)
  }

  /** Joining two task lists with no key in common keeps keys distinct. */
  lemma DistinctConcat(a: seq<Subcall>, b: seq<Subcall>)
    requires DistinctKeys(a) && DistinctKeys(b)
    requires forall i, j :: 0 <= i < |a| && 0 <= j < |b| ==> a[i].key != b[j].key
    ensures DistinctKeys(a + b)
  {
    forall i, j | 0 <= i < j < |a + b| ensures (a + b)[i].key != (a + b)[j].key {
      if j < |a| {
        assert (a + b)[i] == a[i] && (a + b)[j] == a[j];
      } else if i < |a| {
        assert (a + b)[i] == a[i] && (a + b)[j] == b[j - |a|];
      } else {
        assert (a + b)[i] == b[i - |a|] && (a + b)[j] == b[j - |a|];
      }
    }
  }

  /** Each wave-1 task of chapters 2 to `n - 1` has a key naming one of
      those chapters. */
  lemma {:induction false} Wave1UptoChapters(n: nat, inp: ChapterInputs)
    requires 2 <= n <= 8
    ensures forall t :: t in Wave1Upto(n, inp) ==> |t.key| > 5 && '2' <= t.key[3] && t.key[3] < Digit(n)
  {
    if n > 2 {
      var m := n - 1;
      Wave1UptoChapters(m, inp);
      var a := Wave1Upto(m, inp);
      var b := Wave1Chapter(m, inp);
      assert Wave1Upto(n, inp) == a + b;
      forall t: Subcall | t in a + b ensures |t.key| > 5 && '2' <= t.key[3] && t.key[3] < Digit(n) {
        if t !in a {
          assert t.key[3] == Digit(m);
        }
      }
    }
  }

  /** The wave-1 tasks of chapters 2 to `n - 1` have distinct keys. */
  lemma {:induction false} Wave1UptoKeys(n: nat, inp: ChapterInputs)
    requires 2 <= n <= 8
    ensures DistinctKeys(Wave1Upto(n, inp))
  {
    if n > 2 {
      var m := n - 1;
      Wave1UptoKeys(m, inp);
      Wave1UptoChapters(m, inp);
      var a := Wave1Upto(m, inp);
      var b := Wave1Chapter(m, inp);
      assert Wave1Upto(n, inp) == a + b;
      assert b[0].key[5] == 'a' && b[1].key[5] == 'b';
      assert |b| == 3 ==> b[2].key[5] == 'c';
      forall i, j | 0 <= i < |a| && 0 <= j < |b| ensures a[i].key != b[j].key {
        assert a[i] in a;
        assert a[i].key[3] < Digit(m) == b[j].key[3];
      }
      DistinctConcat(a, b);
    }
  }

  /** Chapter `n`'s wave-1 tasks are among those of chapters 2 to `k - 1` for every `k > n`. */
  lemma {:induction false} Wave1UptoHas(n: nat, k: nat, inp: ChapterInputs)
    requires 2 <= n < k <= 8
    ensures forall t :: t in Wave1Chapter(n, inp) ==> t in Wave1Upto(k, inp)
  {
    if k - 1 != n {
      Wave1UptoHas(n, k - 1, inp);
    }
  }

  /** Every wave-1 task of chapters 2 to `k - 1` is a methodology, data or graphs task of one of them. */
  lemma {:induction false} Wave1UptoOnly(k: nat, inp: ChapterInputs)
    requires 2 <= k <= 8
    ensures forall t :: t in Wave1Upto(k, inp) ==>
              exists n :: 2 <= n < k && t in Wave1Chapter(n, inp)
  {
    if k > 2 {
      Wave1UptoOnly(k - 1, inp);
    }
  }

  /** No two wave-1 tasks share a key, and the chapter-1 content comes first. */
  lemma Wave1Distinct(inp: ChapterInputs)
    ensures DistinctKeys(Wave1(inp))
    ensures Wave1(inp)[0] == ContentTask(inp)
  {
    var w := Wave1Upto(8, inp);
    Wave1UptoKeys(8, inp);
    Wave1UptoChapters(8, inp);
    forall j | 0 <= j < |w| ensures ContentTask(inp).key != w[j].key {
      assert w[j] in w;
    }
    DistinctConcat([ContentTask(inp)], w);
  }

  /** Wave 1 holds the chapter-1 content, the methodology and data of
      chapters 2 to 7, and the graphs of exactly those chapters with graph files. */
  lemma Wave1Holds(inp: ChapterInputs)
    ensures ContentTask(inp) in Wave1(inp)
    ensures forall n :: 2 <= n <= 7 ==> MethodologyTask(n, inp) in Wave1(inp) && DataTask(n, inp) in Wave1(inp)
    ensures forall n :: 2 <= n <= 7 ==> (GraphsTask(n) in Wave1(inp) <==> inp.hasGraphs(n))
  {
    var w := Wave1Upto(8, inp);
    forall n | 2 <= n <= 7
      ensures MethodologyTask(n, inp) in Wave1(inp) && DataTask(n, inp) in Wave1(inp)
      ensures inp.hasGraphs(n) ==> GraphsTask(n) in Wave1(inp)
    {
      Wave1UptoHas(n, 8, inp);
      assert MethodologyTask(n, inp) in Wave1Chapter(n, inp);
      assert DataTask(n, inp) in Wave1Chapter(n, inp);
      if inp.hasGraphs(n) {
        assert GraphsTask(n) in Wave1Chapter(n, inp);
      }
    }
    Wave1UptoOnly(8, inp);
    forall n | 2 <= n <= 7 && GraphsTask(n) in Wave1(inp) ensures inp.hasGraphs(n) {
      assert GraphsTask(n).key[3] != ContentTask(inp).key[3];
      assert GraphsTask(n) in w;
      var m :| 2 <= m < 8 && GraphsTask(n) in Wave1Chapter(m, inp);
      GraphsOnlyWithFiles(n, m, inp);
    }
  }

  /** Wave 1 holds nothing but those tasks. */
  lemma Wave1Only(inp: ChapterInputs)
    ensures forall t :: t in Wave1(inp) ==>
              t == ContentTask(inp) ||
              exists n :: 2 <= n <= 7 && (t == MethodologyTask(n, inp) || t == DataTask(n, inp) || t == GraphsTask(n))
  {
    Wave1UptoOnly(8, inp);
    forall t | t in Wave1(inp) && t != ContentTask(inp)
      ensures exists n :: 2 <= n <= 7 && (t == MethodologyTask(n, inp) || t == DataTask(n, inp) || t == GraphsTask(n))
    {
      assert t in Wave1Upto(8, inp);
      var m :| 2 <= m < 8 && t in Wave1Chapter(m, inp);
      assert t == MethodologyTask(m, inp) || t == DataTask(m, inp) || t == GraphsTask(m);
    }
  }

  /** The graphs task of chapter `n` is among chapter `m`'s tasks only when they are the same
      chapter and that chapter has graph files. */
  lemma GraphsOnlyWithFiles(n: nat, m: nat, inp: ChapterInputs)
    requires 2 <= n <= 7 && 2 <= m <= 7
    requires GraphsTask(n) in Wave1Chapter(m, inp)
    ensures n == m && inp.hasGraphs(n)
  {
    var c := Wave1Chapter(m, inp);
    var i :| 0 <= i < |c| && c[i] == GraphsTask(n);
    if i == 0 {
      ChapterKeyInjective(n, GRAPHS, m, METHODOLOGY);
    } else if i == 1 {
      ChapterKeyInjective(n, GRAPHS, m, DATA);
    } else {
      ChapterKeyInjective(n, GRAPHS, m, GRAPHS);
    }
  }

  /** No two wave-2 tasks share a key. */
  lemma Wave2Distinct(chapters: Chapters)
    requires AllChapters(chapters)
    ensures DistinctKeys(Wave2(chapters))
  {
    var w := Wave2(chapters);
    forall i, j | 0 <= i < j < 7 ensures w[i].key != w[j].key {
      assert w[i].key == SynthesisKey(i + 1);
      assert w[j].key == SynthesisKey(j + 1);
      assert SynthesisKey(i + 1)[3] == Digit(i + 1) != Digit(j + 1) == SynthesisKey(j + 1)[3];
    }
  }

  // ------------------------------------------------------------------
  // The chapter phase: assigning the results
  // ------------------------------------------------------------------

  /** `dict.get(key, "")`. */
  function Get(w: map<String, String>, key: String): String {
    if key in w then w[key] else []
  }

  /** The chapters before any sub-call: numbered and titled, all texts empty. */
  function InitialChapters(inp: ChapterInputs): (chapters: Chapters)
    ensures AllChapters(chapters)
    ensures forall n :: 1 <= n <= 7 ==> chapters[n] == ChapterResult(n, inp.titles(n), [], [], [], [], [], [])
  {
    map n: nat | 1 <= n <= 7 :: ChapterResult(n, inp.titles(n), [], [], [], [], [], [])
  }

  /** Chapter `n` after wave 1: its parts read from the wave's results, a missing key as "". */
  function WithWave1(n: nat, ch: ChapterResult, w1: map<String, String>): ChapterResult
    requires 1 <= n <= 7
  {
    if n == 1 then ch.(cap1Content := Get(w1, ChapterKey(1, CONTENT)))
    else ch.(methodology := Get(w1, ChapterKey(n, METHODOLOGY)),
             data := Get(w1, ChapterKey(n, DATA)),
             graphs := Get(w1, ChapterKey(n, GRAPHS)))
  }

  function AfterWave1(chapters: Chapters, w1: map<String, String>): (r: Chapters)
    requires AllChapters(chapters)
    ensures AllChapters(r)
    ensures forall n :: 1 <= n <= 7 ==> r[n] == WithWave1(n, chapters[n], w1)
  {
    map n: nat | 1 <= n <= 7 :: WithWave1(n, chapters[n], w1)
  }

  /** The cache key of chapter `n`'s synthesis. */
  function SynthesisKey(n: nat): String
    requires 1 <= n <= 7
  {
    if n == 1 then ChapterKey(1, CAP1_SYNTHESIS) else ChapterKey(n, SYNTHESIS)
  }

  /** Chapter `n` after wave 2: introduction and verdict parsed from its synthesis. */
  function WithWave2(n: nat, ch: ChapterResult, w2: map<String, String>): ChapterResult
    requires 1 <= n <= 7
  {
    var parsed := ParseSynthesis(Get(w2, SynthesisKey(n)));
    ch.(intro := parsed.0, verdict := parsed.1)
  }

  function AfterWave2(chapters: Chapters, w2: map<String, String>): (r: Chapters)
    requires AllChapters(chapters)
    ensures AllChapters(r)
    ensures forall n :: 1 <= n <= 7 ==> r[n] == WithWave2(n, chapters[n], w2)
  {
    map n: nat | 1 <= n <= 7 :: WithWave2(n, chapters[n], w2)
  }

  /** Two chapter maps that agree on chapters 1 to 7 are the same. */
  lemma ChaptersEqual(a: Chapters, b: Chapters)
    requires AllChapters(a) && AllChapters(b)
    requires forall n :: 1 <= n <= 7 ==> a[n] == b[n]
    ensures a == b
  {
  }

  /** Assigning chapter `n`'s wave-1 texts extends the assigned prefix by one. */
  lemma AssignWave1Step(chapters0: Chapters, chapters: Chapters, n: nat, w1: map<String, String>)
    requires AllChapters(chapters0) && AllChapters(chapters) && 1 <= n <= 7
    requires forall m :: 1 <= m <= 7 ==>
               chapters[m] == if m < n then WithWave1(m, chapters0[m], w1) else chapters0[m]
    ensures var next := chapters[n := WithWave1(n, chapters[n], w1)];
            AllChapters(next) &&
            forall m :: 1 <= m <= 7 ==>
              next[m] == if m < n + 1 then WithWave1(m, chapters0[m], w1) else chapters0[m]
  {
  }

  /** Assigning chapter `n`'s synthesis extends the assigned prefix by one. */
  lemma AssignWave2Step(chapters0: Chapters, chapters: Chapters, n: nat, w2: map<String, String>)
    requires AllChapters(chapters0) && AllChapters(chapters) && 1 <= n <= 7
    requires forall m :: 1 <= m <= 7 ==>
               chapters[m] == if m < n then WithWave2(m, chapters0[m], w2) else chapters0[m]
    ensures var next := chapters[n := WithWave2(n, chapters[n], w2)];
            AllChapters(next) &&
            forall m :: 1 <= m <= 7 ==>
              next[m] == if m < n + 1 then WithWave2(m, chapters0[m], w2) else chapters0[m]
  {
  }

  const PHASE1_NAME: String := "Geração dos Capítulos"

  /** Everything the chapter phase produces. */
  datatype PhaseRun = PhaseRun(result: Result<Chapters>, cache: Cache, events: seq<RawEvent>, calls: seq<Subcall>)

  /** The chapter phase: wave 1, its results assigned, wave 2 built from the
      chapters so filled, its results parsed and assigned. A failing wave
      ends the phase with its error, after all of its tasks have run. */
  function ChapterPhase(cache0: Cache, inp: ChapterInputs, order1: seq<nat>, order2: seq<nat>, st: Settings): PhaseRun
    requires IsSchedule(order1, |Wave1(inp)|) && IsSchedule(order2, 7)
  {
    var tasks1 := Wave1(inp);
    var r1 := WaveResult(cache0, tasks1, order1, st);
    var c1 := cache0 + Writes(cache0, tasks1, order1, |order1|, st);
    var e1 := [PhaseStart(1, PHASE1_NAME)] + WaveEvents(cache0, tasks1, order1, |order1|, st);
    var k1 := WaveCalls(cache0, tasks1, order1, |order1|, st);
    if r1.Err? then PhaseRun(Err(r1.error), c1, e1, k1)
    else
      var second := SynthesisWave(c1, AfterWave1(InitialChapters(inp), r1.value), order2, st);
      PhaseRun(second.result, second.cache, e1 + second.events, k1 + second.calls)
  }

  /** The second half of the chapter phase, from the chapters filled by wave 1. */
  function SynthesisWave(c1: Cache, chapters1: Chapters, order2: seq<nat>, st: Settings): PhaseRun
    requires AllChapters(chapters1) && IsSchedule(order2, 7)
  {
    var tasks2 := Wave2(chapters1);
    var r2 := WaveResult(c1, tasks2, order2, st);
    var c2 := c1 + Writes(c1, tasks2, order2, 7, st);
    var e2 := WaveEvents(c1, tasks2, order2, 7, st);
    var k2 := WaveCalls(c1, tasks2, order2, 7, st);
    if r2.Err? then PhaseRun(Err(r2.error), c2, e2, k2)
    else PhaseRun(Ok(AfterWave2(chapters1, r2.value)), c2, e2 + [PhaseComplete(1)], k2)
  }

  /** The synthesis phase in terms of its one wave. */
  lemma SynthesisWaveParts(c1: Cache, chapters1: Chapters, order2: seq<nat>, st: Settings)
    requires AllChapters(chapters1) && IsSchedule(order2, 7)
    ensures var p := SynthesisWave(c1, chapters1, order2, st);
            var tasks2 := Wave2(chapters1);
            var r2 := WaveResult(c1, tasks2, order2, st);
            var e2 := WaveEvents(c1, tasks2, order2, 7, st);
            && |order2| == 7
            && p.cache == c1 + Writes(c1, tasks2, order2, 7, st)
            && p.calls == WaveCalls(c1, tasks2, order2, 7, st)
            && (r2.Err? ==> p.result == Err(r2.error) && p.events == e2)
            && (r2.Ok? ==> p.result == Ok(AfterWave2(chapters1, r2.value)) && p.events == e2 + [PhaseComplete(1)])
  {
  }

  // ------------------------------------------------------------------
  // What the chapter phase promises
  // ------------------------------------------------------------------

  /** A task of a successful wave returned, and the wave reports its text under its key. */
  lemma WaveTaskText(cache0: Cache, tasks: seq<Subcall>, order: seq<nat>, st: Settings, t: Subcall)
    requires DistinctKeys(tasks) && IsSchedule(order, |tasks|)
    requires WaveResult(cache0, tasks, order, st).Ok?
    requires t in tasks
    ensures t.key in WaveResult(cache0, tasks, order, st).value
    ensures SubcallStep(cache0, t, st.resume, st.montar, st.client).result ==
            Ok(WaveResult(cache0, tasks, order, st).value[t.key])
  {
    var j :| 0 <= j < |tasks| && tasks[j] == t;
    WaveResultValues(cache0, tasks, order, st, j);
  }

  /** A wave collects nothing under a key none of its tasks has. */
  lemma CollectedKeys(cache0: Cache, tasks: seq<Subcall>, order: seq<nat>, st: Settings, keep: Step -> bool)
    requires DistinctKeys(tasks) && IsSchedule(order, |tasks|)
    ensures forall key :: key in Collected(cache0, tasks, order, |order|, st, keep) ==>
              exists t :: t in tasks && t.key == key
  {
    CollectedSpec(cache0, tasks, order, |order|, st, keep);
    forall key | key in Collected(cache0, tasks, order, |order|, st, keep)
      ensures exists t :: t in tasks && t.key == key
    {
      var k :| 0 <= k < |order| && tasks[order[k]].key == key;
      assert tasks[order[k]] in tasks;
    }
  }

  /** The events of a whole wave: starts and completions of its own tasks,
      and a completion for every task that returned. */
  lemma WaveEventsKeys(cache0: Cache, tasks: seq<Subcall>, order: seq<nat>, st: Settings)
    requires IsSchedule(order, |tasks|)
    ensures forall e: RawEvent :: e in WaveEvents(cache0, tasks, order, |order|, st) ==>
              (e.StepStart? || e.StepComplete?) && exists t :: t in tasks && t.key == e.step
    ensures forall t :: t in tasks && SubcallStep(cache0, t, st.resume, st.montar, st.client).result.Ok? ==>
              StepComplete(t.key) in WaveEvents(cache0, tasks, order, |order|, st)
  {
    var ev := WaveEvents(cache0, tasks, order, |order|, st);
    WaveEventsSteps(cache0, tasks, order, |order|, st);
    forall e: RawEvent | e in ev
      ensures (e.StepStart? || e.StepComplete?) && exists t :: t in tasks && t.key == e.step
    {
      var k :| 0 <= k < |order| && e.step == tasks[order[k]].key;
      assert tasks[order[k]] in tasks;
    }
    forall t | t in tasks && SubcallStep(cache0, t, st.resume, st.montar, st.client).result.Ok?
      ensures StepComplete(t.key) in ev
    {
      var j :| 0 <= j < |tasks| && tasks[j] == t;
      assert j in order;
      var k :| 0 <= k < |order| && order[k] == j;
    }
  }

  /** Without graph files, no wave-1 task has chapter `n`'s graphs key. */
  lemma GraphsKeyAbsent(inp: ChapterInputs, n: nat)
    requires 2 <= n <= 7 && !inp.hasGraphs(n)
    ensures forall t :: t in Wave1(inp) ==> t.key != ChapterKey(n, GRAPHS)
  {
    Wave1Only(inp);
    Wave1Holds(inp);
    forall t | t in Wave1(inp) ensures t.key != ChapterKey(n, GRAPHS) {
      if t == ContentTask(inp) {
        assert t.key[3] == Digit(1) != Digit(n);
      } else {
        var m :| 2 <= m <= 7 && (t == MethodologyTask(m, inp) || t == DataTask(m, inp) || t == GraphsTask(m));
        if t.key == ChapterKey(n, GRAPHS) {
          if t == MethodologyTask(m, inp) {
            ChapterKeyInjective(m, METHODOLOGY, n, GRAPHS);
          } else if t == DataTask(m, inp) {
            ChapterKeyInjective(m, DATA, n, GRAPHS);
          } else {
            ChapterKeyInjective(m, GRAPHS, n, GRAPHS);
          }
        }
      }
    }
  }

  /** The cache as wave 1 leaves it. */
  function Wave1Cache(cache0: Cache, inp: ChapterInputs, order1: seq<nat>, st: Settings): Cache
    requires IsSchedule(order1, |Wave1(inp)|)
  {
    cache0 + Writes(cache0, Wave1(inp), order1, |order1|, st)
  }

  /** When the chapter phase succeeds, both waves did, and the chapters are
      those wave 1 filled with wave 2's parsed syntheses added. */
  lemma PhaseWaves(cache0: Cache, inp: ChapterInputs, order1: seq<nat>, order2: seq<nat>, st: Settings)
    requires IsSchedule(order1, |Wave1(inp)|) && IsSchedule(order2, 7)
    requires ChapterPhase(cache0, inp, order1, order2, st).result.Ok?
    ensures WaveResult(cache0, Wave1(inp), order1, st).Ok?
    ensures var chapters1 := AfterWave1(InitialChapters(inp), WaveResult(cache0, Wave1(inp), order1, st).value);
            var c1 := Wave1Cache(cache0, inp, order1, st);
            WaveResult(c1, Wave2(chapters1), order2, st).Ok? &&
            ChapterPhase(cache0, inp, order1, order2, st).result.value ==
              AfterWave2(chapters1, WaveResult(c1, Wave2(chapters1), order2, st).value)
    ensures var chapters1 := AfterWave1(InitialChapters(inp), WaveResult(cache0, Wave1(inp), order1, st).value);
            var c1 := Wave1Cache(cache0, inp, order1, st);
            ChapterPhase(cache0, inp, order1, order2, st).events ==
              ([PhaseStart(1, PHASE1_NAME)] + WaveEvents(cache0, Wave1(inp), order1, |order1|, st)) +
              (WaveEvents(c1, Wave2(chapters1), order2, 7, st) + [PhaseComplete(1)])
  {
  }

  /** The chapters a successful phase returns: chapter `n` (2 to 7) keeps its
      number and title, its methodology and data are the texts its sub-calls
      returned on the cache as it was before the phase, its graphs discussion
      likewise when it has graph files and "" when it has none. */
  lemma PhaseChapterTexts(cache0: Cache, inp: ChapterInputs, order1: seq<nat>, order2: seq<nat>, st: Settings, n: nat)
    requires IsSchedule(order1, |Wave1(inp)|) && IsSchedule(order2, 7)
    requires ChapterPhase(cache0, inp, order1, order2, st).result.Ok?
    requires 2 <= n <= 7
    ensures var ch := ChapterPhase(cache0, inp, order1, order2, st).result.value[n];
            ch.number == n && ch.title == inp.titles(n) &&
            SubcallStep(cache0, MethodologyTask(n, inp), st.resume, st.montar, st.client).result == Ok(ch.methodology) &&
            SubcallStep(cache0, DataTask(n, inp), st.resume, st.montar, st.client).result == Ok(ch.data) &&
            (inp.hasGraphs(n) ==> SubcallStep(cache0, GraphsTask(n), st.resume, st.montar, st.client).result == Ok(ch.graphs)) &&
            (!inp.hasGraphs(n) ==> ch.graphs == [])
  {
    var tasks1 := Wave1(inp);
    PhaseWaves(cache0, inp, order1, order2, st);
    var r1 := WaveResult(cache0, tasks1, order1, st);
    Wave1Distinct(inp);
    Wave1Holds(inp);
    WaveTaskText(cache0, tasks1, order1, st, MethodologyTask(n, inp));
    WaveTaskText(cache0, tasks1, order1, st, DataTask(n, inp));
    if inp.hasGraphs(n) {
      WaveTaskText(cache0, tasks1, order1, st, GraphsTask(n));
    } else {
      GraphsKeyAbsent(inp, n);
      CollectedKeys(cache0, tasks1, order1, st, (o: Step) => true);
      assert ChapterKey(n, GRAPHS) !in r1.value;
    }
  }

  /** Chapter 1 of a successful phase: its content is the text its sub-call
      returned on the cache as it was before the phase. */
  lemma PhaseFirstChapter(cache0: Cache, inp: ChapterInputs, order1: seq<nat>, order2: seq<nat>, st: Settings)
    requires IsSchedule(order1, |Wave1(inp)|) && IsSchedule(order2, 7)
    requires ChapterPhase(cache0, inp, order1, order2, st).result.Ok?
    ensures var ch := ChapterPhase(cache0, inp, order1, order2, st).result.value[1];
            ch.number == 1 && ch.title == inp.titles(1) &&
            SubcallStep(cache0, ContentTask(inp), st.resume, st.montar, st.client).result == Ok(ch.cap1Content)
  {
    PhaseWaves(cache0, inp, order1, order2, st);
    Wave1Distinct(inp);
    Wave1Holds(inp);
    WaveTaskText(cache0, Wave1(inp), order1, st, ContentTask(inp));
  }

  /** Adding the parsed syntheses changes none of the texts a wave-2 task was prompted with. */
  lemma Wave2AfterSyntheses(chapters: Chapters, w2: map<String, String>, i: nat)
    requires AllChapters(chapters)
    requires i < 7
    ensures Wave2(AfterWave2(chapters, w2))[i] == Wave2(chapters)[i]
  {
    var ch2 := AfterWave2(chapters, w2)[i + 1];
    assert ch2 == WithWave2(i + 1, chapters[i + 1], w2);
  }

  /** The synthesis of each chapter of a successful phase: its sub-call,
      prompted with that chapter's own wave-1 texts and run on the cache as
      wave 1 left it, returned a text whose parse is the chapter's
      introduction and verdict. */
  lemma PhaseSyntheses(cache0: Cache, inp: ChapterInputs, order1: seq<nat>, order2: seq<nat>, st: Settings, n: nat)
    requires IsSchedule(order1, |Wave1(inp)|) && IsSchedule(order2, 7)
    requires ChapterPhase(cache0, inp, order1, order2, st).result.Ok?
    requires 1 <= n <= 7
    ensures var chapters := ChapterPhase(cache0, inp, order1, order2, st).result.value;
            var o := SubcallStep(Wave1Cache(cache0, inp, order1, st), Wave2(chapters)[n - 1], st.resume, st.montar, st.client).result;
            o.Ok? && ParseSynthesis(o.value) == (chapters[n].intro, chapters[n].verdict)
  {
    PhaseWaves(cache0, inp, order1, order2, st);
    var chapters1 := AfterWave1(InitialChapters(inp), WaveResult(cache0, Wave1(inp), order1, st).value);
    SynthesisOfWave2(Wave1Cache(cache0, inp, order1, st), chapters1, order2, st, n);
  }

  /** The synthesis step of wave 2 on its own: whatever the wave-1 chapters,
      a successful wave 2 leaves in chapter `n` the parse of the text its
      synthesis sub-call returned. */
  lemma SynthesisOfWave2(c1: Cache, chapters1: Chapters, order2: seq<nat>, st: Settings, n: nat)
    requires AllChapters(chapters1) && IsSchedule(order2, 7)
    requires WaveResult(c1, Wave2(chapters1), order2, st).Ok?
    requires 1 <= n <= 7
    ensures var chapters := AfterWave2(chapters1, WaveResult(c1, Wave2(chapters1), order2, st).value);
            var o := SubcallStep(c1, Wave2(chapters)[n - 1], st.resume, st.montar, st.client).result;
            o.Ok? && ParseSynthesis(o.value) == (chapters[n].intro, chapters[n].verdict)
  {
    var tasks2 := Wave2(chapters1);
    var r2 := WaveResult(c1, tasks2, order2, st);
    var chapters := AfterWave2(chapters1, r2.value);
    Wave2AfterSyntheses(chapters1, r2.value, n - 1);
    Wave2Distinct(chapters1);
    WaveTaskText(c1, tasks2, order2, st, tasks2[n - 1]);
    assert tasks2[n - 1].key == SynthesisKey(n);
    assert chapters[n] == WithWave2(n, chapters1[n], r2.value);
  }

  /** The sub-calls of a wave that reach the client are tasks of that wave. */
  lemma {:induction false} WaveCallsTasks(cache0: Cache, tasks: seq<Subcall>, order: seq<nat>, i: nat, st: Settings)
    requires Indexes(order, |tasks|) && i <= |order|
    ensures forall c :: c in WaveCalls(cache0, tasks, order, i, st) ==> c in tasks
  {
    if i > 0 {
      var prev := WaveCalls(cache0, tasks, order, i - 1, st);
      WaveCallsTasks(cache0, tasks, order, i - 1, st);
      var j := order[i - 1];
      var called := Outcome(cache0, tasks, j, st).called;
      assert WaveCalls(cache0, tasks, order, i, st) == prev + (if called then [tasks[j]] else []);
      TaskAppended(prev, tasks, j, called);
    }
  }

  /** Adding one of the tasks, or nothing, keeps a list within the tasks. */
  lemma TaskAppended(prev: seq<Subcall>, tasks: seq<Subcall>, j: nat, called: bool)
    requires j < |tasks|
    requires forall c :: c in prev ==> c in tasks
    ensures forall c :: c in prev + (if called then [tasks[j]] else []) ==> c in tasks
  {
    forall c | c in prev + (if called then [tasks[j]] else [])
      ensures c in tasks
    {
      if c !in prev {
        assert c == tasks[j];
      }
    }
  }

  /** A progress event of one of wave 1's sub-calls. */
  predicate Wave1Step(inp: ChapterInputs, e: RawEvent) {
    (e.StepStart? || e.StepComplete?) && exists t :: t in Wave1(inp) && t.key == e.step
  }

  /** A progress event of one of the syntheses. */
  predicate SynthesisStep(e: RawEvent) {
    (e.StepStart? || e.StepComplete?) && exists n :: 1 <= n <= 7 && e.step == SynthesisKey(n)
  }

  /** The events of a successful phase: the phase start, then wave 1's steps,
      which complete every wave-1 sub-call, then the syntheses' steps, then
      the phase end. No synthesis starts before all of wave 1 has completed. */
  lemma PhaseEventsOrder(cache0: Cache, inp: ChapterInputs, order1: seq<nat>, order2: seq<nat>, st: Settings)
    requires IsSchedule(order1, |Wave1(inp)|) && IsSchedule(order2, 7)
    requires ChapterPhase(cache0, inp, order1, order2, st).result.Ok?
    ensures var ev := ChapterPhase(cache0, inp, order1, order2, st).events;
            |ev| >= 2 && ev[0] == PhaseStart(1, PHASE1_NAME) && ev[|ev| - 1] == PhaseComplete(1) &&
            WavesInOrder(inp, ev)
  {
    PhaseWaves(cache0, inp, order1, order2, st);
    var chapters1 := AfterWave1(InitialChapters(inp), WaveResult(cache0, Wave1(inp), order1, st).value);
    PhaseEventsShape(cache0, inp, order1, order2, st, chapters1);
  }

  /** The split of the events of a phase whose wave 1 succeeded and whose
      wave 2 was built from wave 1's chapters. */
  lemma PhaseEventsShape(cache0: Cache, inp: ChapterInputs, order1: seq<nat>, order2: seq<nat>, st: Settings,
                         chapters1: Chapters)
    requires IsSchedule(order1, |Wave1(inp)|) && IsSchedule(order2, 7)
    requires WaveResult(cache0, Wave1(inp), order1, st).Ok?
    requires AllChapters(chapters1)
    ensures var w1 := WaveEvents(cache0, Wave1(inp), order1, |order1|, st);
            var w2 := WaveEvents(Wave1Cache(cache0, inp, order1, st), Wave2(chapters1), order2, 7, st);
            var ev := ([PhaseStart(1, PHASE1_NAME)] + w1) + (w2 + [PhaseComplete(1)]);
            WavesInOrder(inp, ev)
  {
    var c1 := Wave1Cache(cache0, inp, order1, st);
    var w1 := WaveEvents(cache0, Wave1(inp), order1, |order1|, st);
    var w2 := WaveEvents(c1, Wave2(chapters1), order2, 7, st);
    var e1 := [PhaseStart(1, PHASE1_NAME)] + w1;
    var ev := e1 + (w2 + [PhaseComplete(1)]);
    Wave1Events(cache0, inp, order1, st);
    Wave2Events(c1, chapters1, order2, st);
    PhaseEventsSplit(inp, w1, w2);
    Wave1Completes(cache0, inp, order1, st);
    assert ev[..|e1|] == e1;
    EventsCut(inp, ev, |e1|);
  }

  /** Every event of wave 1 is a step of one of its sub-calls. */
  lemma Wave1Events(cache0: Cache, inp: ChapterInputs, order1: seq<nat>, st: Settings)
    requires IsSchedule(order1, |Wave1(inp)|)
    ensures forall e :: e in WaveEvents(cache0, Wave1(inp), order1, |order1|, st) ==> Wave1Step(inp, e)
  {
    WaveEventsKeys(cache0, Wave1(inp), order1, st);
  }

  /** The events after the phase start split at some point: wave 1's steps,
      completing every wave-1 sub-call, come before it, the syntheses' steps
      after it, up to the last event. */
  ghost predicate WavesInOrder(inp: ChapterInputs, ev: seq<RawEvent>) {
    exists cut :: 1 <= cut < |ev| &&
      (forall i :: 1 <= i < cut ==> Wave1Step(inp, ev[i])) &&
      (forall i :: cut <= i < |ev| - 1 ==> SynthesisStep(ev[i])) &&
      (forall t :: t in Wave1(inp) ==> StepComplete(t.key) in ev[..cut])
  }

  /** A witness for the split of a successful phase's events. */
  lemma EventsCut(inp: ChapterInputs, ev: seq<RawEvent>, cut: nat)
    requires 1 <= cut < |ev|
    requires forall i :: 1 <= i < cut ==> Wave1Step(inp, ev[i])
    requires forall i :: cut <= i < |ev| - 1 ==> SynthesisStep(ev[i])
    requires forall t :: t in Wave1(inp) ==> StepComplete(t.key) in ev[..cut]
    ensures WavesInOrder(inp, ev)
  {
    var c := cut;
    assert (forall i :: 1 <= i < c ==> Wave1Step(inp, ev[i])) &&
           (forall i :: c <= i < |ev| - 1 ==> SynthesisStep(ev[i])) &&
           (forall t :: t in Wave1(inp) ==> StepComplete(t.key) in ev[..c]);
  }

  /** Every sub-call of a successful wave 1 has its completion among the wave's events. */
  lemma Wave1Completes(cache0: Cache, inp: ChapterInputs, order1: seq<nat>, st: Settings)
    requires IsSchedule(order1, |Wave1(inp)|)
    requires WaveResult(cache0, Wave1(inp), order1, st).Ok?
    ensures forall t :: t in Wave1(inp) ==> StepComplete(t.key) in WaveEvents(cache0, Wave1(inp), order1, |order1|, st)
  {
    var tasks1 := Wave1(inp);
    Wave1Distinct(inp);
    WaveEventsKeys(cache0, tasks1, order1, st);
    forall t | t in tasks1 ensures StepComplete(t.key) in WaveEvents(cache0, tasks1, order1, |order1|, st) {
      WaveTaskText(cache0, tasks1, order1, st, t);
    }
  }

  /** Every event of wave 2 is a step of one of the syntheses. */
  lemma Wave2Events(c1: Cache, chapters: Chapters, order2: seq<nat>, st: Settings)
    requires AllChapters(chapters) && IsSchedule(order2, 7)
    ensures forall e :: e in WaveEvents(c1, Wave2(chapters), order2, 7, st) ==> SynthesisStep(e)
  {
    var tasks2 := Wave2(chapters);
    WaveEventsKeys(c1, tasks2, order2, st);
    forall e: RawEvent | e in WaveEvents(c1, tasks2, order2, 7, st) ensures SynthesisStep(e) {
      var t :| t in tasks2 && t.key == e.step;
      var k :| 0 <= k < 7 && tasks2[k] == t;
      assert t.key == SynthesisKey(k + 1);
    }
  }

  /** Where the steps of each wave sit among the events of a successful phase. */
  lemma PhaseEventsSplit(inp: ChapterInputs, w1: seq<RawEvent>, w2: seq<RawEvent>)
    requires forall e :: e in w1 ==> Wave1Step(inp, e)
    requires forall e :: e in w2 ==> SynthesisStep(e)
    ensures var ev := ([PhaseStart(1, PHASE1_NAME)] + w1) + (w2 + [PhaseComplete(1)]);
            (forall i :: 1 <= i < 1 + |w1| ==> Wave1Step(inp, ev[i])) &&
            (forall i :: 1 + |w1| <= i < |ev| - 1 ==> SynthesisStep(ev[i]))
  {
    var ev := ([PhaseStart(1, PHASE1_NAME)] + w1) + (w2 + [PhaseComplete(1)]);
    forall i | 1 <= i < 1 + |w1| ensures Wave1Step(inp, ev[i]) {
      assert ev[i] == w1[i - 1];
    }
    forall i | 1 + |w1| <= i < |ev| - 1 ensures SynthesisStep(ev[i]) {
      assert ev[i] == w2[i - 1 - |w1|];
    }
  }

  /** When a wave-1 sub-call raises, the phase fails with the error of one
      that raised; it keeps what wave 1 wrote to the cache, starts no
      synthesis, does not report its end, and calls the client for wave-1
      tasks only. */
  lemma PhaseStopsAfterWave1(cache0: Cache, inp: ChapterInputs, order1: seq<nat>, order2: seq<nat>, st: Settings)
    requires IsSchedule(order1, |Wave1(inp)|) && IsSchedule(order2, 7)
    requires exists t :: t in Wave1(inp) && SubcallStep(cache0, t, st.resume, st.montar, st.client).result.Err?
    ensures var p := ChapterPhase(cache0, inp, order1, order2, st);
            p.result.Err? &&
            (exists t :: t in Wave1(inp) && SubcallStep(cache0, t, st.resume, st.montar, st.client).result == Err(p.result.error)) &&
            p.cache == Wave1Cache(cache0, inp, order1, st) &&
            |p.events| >= 1 && p.events[0] == PhaseStart(1, PHASE1_NAME) &&
            (forall i :: 1 <= i < |p.events| ==> Wave1Step(inp, p.events[i])) &&
            (forall c :: c in p.calls ==> c in Wave1(inp))
  {
    var tasks1 := Wave1(inp);
    WaveFailureError(cache0, tasks1, order1, st);
    PhaseWave1Failed(cache0, inp, order1, order2, st);
    Wave1Events(cache0, inp, order1, st);
    WaveCallsTasks(cache0, tasks1, order1, |order1|, st);
    StepsAfterStart(inp, WaveEvents(cache0, tasks1, order1, |order1|, st));
  }

  /** A wave in which some task raises fails, with the error of a task that raised. */
  lemma WaveFailureError(cache0: Cache, tasks: seq<Subcall>, order: seq<nat>, st: Settings)
    requires IsSchedule(order, |tasks|)
    requires exists t :: t in tasks && SubcallStep(cache0, t, st.resume, st.montar, st.client).result.Err?
    ensures WaveResult(cache0, tasks, order, st).Err?
    ensures exists t :: t in tasks &&
              SubcallStep(cache0, t, st.resume, st.montar, st.client).result == Err(WaveResult(cache0, tasks, order, st).error)
  {
    var t :| t in tasks && SubcallStep(cache0, t, st.resume, st.montar, st.client).result.Err?;
    var j :| 0 <= j < |tasks| && tasks[j] == t;
    WaveFailsIff(cache0, tasks, order, st);
    assert Outcome(cache0, tasks, j, st).result.Err?;
    FirstFailureIff(cache0, tasks, order, |order|, st);
    var k :| 0 <= k < |order| && Outcome(cache0, tasks, order[k], st).result ==
                                 Err(FirstFailure(cache0, tasks, order, |order|, st).value);
    assert tasks[order[k]] in tasks;
  }

  /** A phase whose wave 1 fails is that wave and nothing more. */
  lemma PhaseWave1Failed(cache0: Cache, inp: ChapterInputs, order1: seq<nat>, order2: seq<nat>, st: Settings)
    requires IsSchedule(order1, |Wave1(inp)|) && IsSchedule(order2, 7)
    requires WaveResult(cache0, Wave1(inp), order1, st).Err?
    ensures ChapterPhase(cache0, inp, order1, order2, st) ==
            PhaseRun(Err(WaveResult(cache0, Wave1(inp), order1, st).error),
                     Wave1Cache(cache0, inp, order1, st),
                     [PhaseStart(1, PHASE1_NAME)] + WaveEvents(cache0, Wave1(inp), order1, |order1|, st),
                     WaveCalls(cache0, Wave1(inp), order1, |order1|, st))
  {
  }

  /** After the phase start come the wave-1 steps. */
  lemma StepsAfterStart(inp: ChapterInputs, w1: seq<RawEvent>)
    requires forall e :: e in w1 ==> Wave1Step(inp, e)
    ensures forall i :: 1 <= i < |[PhaseStart(1, PHASE1_NAME)] + w1| ==>
              Wave1Step(inp, ([PhaseStart(1, PHASE1_NAME)] + w1)[i])
  {
    var ev := [PhaseStart(1, PHASE1_NAME)] + w1;
    forall i | 1 <= i < |ev| ensures Wave1Step(inp, ev[i]) {
      assert ev[i] == w1[i - 1];
    }
  }

  // ------------------------------------------------------------------
  // The run: cache directory, progress callback, waves
  // ------------------------------------------------------------------

  /** The state a run works on: the cache directory and the events handed to
      the progress callback so far. The client calls are a ghost log. */
  class Workspace {
    var cache: Cache
    var events: seq<RawEvent>
    ghost var clientCalls: seq<Subcall>

    constructor(cache0: Cache)
      ensures cache == cache0 && events == [] && clientCalls == []
    {
      cache := cache0;
      events := [];
      clientCalls := [];
    }

    /** `generate_subcall`. */
    method GenerateSubcall(call: Subcall, resume: bool, montar: bool, client: Client) returns (r: Result<String>)
      modifies this
      ensures var s := SubcallStep(old(cache), call, resume, montar, client);
              r == s.result && cache == s.cache &&
              clientCalls == old(clientCalls) + (if s.called then [call] else [])
      ensures events == old(events) + SubcallEvents(call.key, r)
    {
      events := events + [StepStart(call.key)];
      if resume || montar {
        var cached := LoadCache(cache, call.key);
        if cached.Some? {
          events := events + [StepComplete(call.key)];
          return Ok(cached.value);
        }
      }
      if montar {
        events := events + [StepComplete(call.key)];
        return Ok(Placeholder(call.key));
      }
      clientCalls := clientCalls + [call];
      var reply := client(call);
      if reply.Raised? {
        return Err(reply.message);
      }
      cache := SaveCache(cache, call.key, reply.text);
      events := events + [StepComplete(call.key)];
      return Ok(reply.text);
    }

    /** One wave: every task runs, in the order the pool happens to pick;
        the results are then collected, and the first error met propagates. */
    method RunWave(tasks: seq<Subcall>, order: seq<nat>, st: Settings) returns (r: Result<map<String, String>>)
      requires DistinctKeys(tasks)
      requires IsSchedule(order, |tasks|)
      modifies this
      ensures r == WaveResult(old(cache), tasks, order, st)
      ensures cache == old(cache) + Writes(old(cache), tasks, order, |order|, st)
      ensures events == old(events) + WaveEvents(old(cache), tasks, order, |order|, st)
      ensures clientCalls == old(clientCalls) + WaveCalls(old(cache), tasks, order, |order|, st)
    {
      ghost var cache0 := cache;
      ghost var events0 := events;
      ghost var calls0 := clientCalls;
      var w: map<String, String> := map[];
      var failure: Option<String> := None;
      var i := 0;
      while i < |order|
        invariant 0 <= i <= |order|
        invariant cache == cache0 + Writes(cache0, tasks, order, i, st)
        invariant w == Values(cache0, tasks, order, i, st)
        invariant events == events0 + WaveEvents(cache0, tasks, order, i, st)
        invariant clientCalls == calls0 + WaveCalls(cache0, tasks, order, i, st)
        invariant failure == FirstFailure(cache0, tasks, order, i, st)
      {
        var j := order[i];
        var res := RunTask(cache0, tasks, order, i, st, events0, calls0);
        if res.Ok? {
          w := w[tasks[j].key := res.value];
        } else if failure.None? {
          failure := Some(res.error);
        }
        i := i + 1;
      }
      r := if failure.Some? then Err(failure.value) else Ok(w);
    }

    /** The `i`-th task of a wave's schedule, run on the cache the earlier
        tasks left: its result is the one it has on the wave's initial cache,
        and the cache, events and client calls grow by its own. */
    method RunTask(ghost cache0: Cache, tasks: seq<Subcall>, order: seq<nat>, i: nat, st: Settings,
                   ghost events0: seq<RawEvent>, ghost calls0: seq<Subcall>) returns (res: Result<String>)
      requires DistinctKeys(tasks) && IsSchedule(order, |tasks|) && i < |order|
      requires cache == cache0 + Writes(cache0, tasks, order, i, st)
      requires events == events0 + WaveEvents(cache0, tasks, order, i, st)
      requires clientCalls == calls0 + WaveCalls(cache0, tasks, order, i, st)
      modifies this
      ensures res == Outcome(cache0, tasks, order[i], st).result
      ensures cache == cache0 + Writes(cache0, tasks, order, i + 1, st)
      ensures events == events0 + WaveEvents(cache0, tasks, order, i + 1, st)
      ensures clientCalls == calls0 + WaveCalls(cache0, tasks, order, i + 1, st)
    {
      NextTask(cache0, tasks, order, i, st, cache);
      res := GenerateSubcall(tasks[order[i]], st.resume, st.montar, st.client);
      WaveLogStep(cache0, tasks, order, i, st, events0, calls0);
    }

    /** The chapter phase of `run_pipeline`: phase start, wave 1, assignment of
        its results, wave 2 built from the filled chapters, assignment of the
        parsed syntheses, phase end. */
    method RunChapterPhase(inp: ChapterInputs, order1: seq<nat>, order2: seq<nat>, st: Settings)
      returns (r: Result<Chapters>)
      requires IsSchedule(order1, |Wave1(inp)|) && IsSchedule(order2, 7)
      modifies this
      ensures r == ChapterPhase(old(cache), inp, order1, order2, st).result
      ensures cache == ChapterPhase(old(cache), inp, order1, order2, st).cache
      ensures events == old(events) + ChapterPhase(old(cache), inp, order1, order2, st).events
      ensures clientCalls == old(clientCalls) + ChapterPhase(old(cache), inp, order1, order2, st).calls
    {
      ghost var c0 := cache;
      ghost var events0 := events;
      ghost var calls0 := clientCalls;
      events := events + [PhaseStart(1, PHASE1_NAME)];
      var chapters := InitialChapters(inp);

      // wave 1
      var tasks1 := BuildWave1(inp);
      Wave1Distinct(inp);
      var w1 := RunWave(tasks1, order1, st);
      ghost var e1 := [PhaseStart(1, PHASE1_NAME)] + WaveEvents(c0, tasks1, order1, |order1|, st);
      assert events == events0 + e1;
      ghost var k1 := WaveCalls(c0, tasks1, order1, |order1|, st);
      ghost var p := ChapterPhase(c0, inp, order1, order2, st);
      if w1.Err? {
        assert p == PhaseRun(Err(w1.error), cache, e1, k1);
        return Err(w1.error);
      }
      chapters := AssignWave1(chapters, w1.value);
      ghost var c1 := cache;
      r := RunSynthesisWave(chapters, order2, st);
      ghost var second := SynthesisWave(c1, chapters, order2, st);
      assert p == PhaseRun(second.result, second.cache, e1 + second.events, k1 + second.calls);
      assert events == (events0 + e1) + second.events;
      AppendAssoc(events0, e1, second.events);
      AppendAssoc(calls0, k1, second.calls);
      assert clientCalls == (calls0 + k1) + second.calls;
    }

    /** The second half of the chapter phase: wave 2 built from the chapters
        filled by wave 1, the parsed syntheses assigned, the phase closed. */
    method RunSynthesisWave(chapters1: Chapters, order2: seq<nat>, st: Settings) returns (r: Result<Chapters>)
      requires AllChapters(chapters1) && IsSchedule(order2, 7)
      modifies this
      ensures r == SynthesisWave(old(cache), chapters1, order2, st).result
      ensures cache == SynthesisWave(old(cache), chapters1, order2, st).cache
      ensures events == old(events) + SynthesisWave(old(cache), chapters1, order2, st).events
      ensures clientCalls == old(clientCalls) + SynthesisWave(old(cache), chapters1, order2, st).calls
    {
      var tasks2 := BuildWave2(chapters1);
      Wave2Distinct(chapters1);
      ghost var c1 := cache;
      ghost var events1 := events;
      ghost var e2 := WaveEvents(c1, tasks2, order2, 7, st);
      SynthesisWaveParts(c1, chapters1, order2, st);
      var w2 := RunWave(tasks2, order2, st);
      if w2.Err? {
        return Err(w2.error);
      }
      var chapters := CompleteSynthesis(chapters1, w2.value);
      AppendAssoc(events1, e2, [PhaseComplete(1)]);
      r := Ok(chapters);
    }

    /** The wave-2 texts assigned, and the phase's completion recorded. */
    method CompleteSynthesis(chapters1: Chapters, w2: map<String, String>) returns (chapters: Chapters)
      requires AllChapters(chapters1)
      modifies this
      ensures chapters == AfterWave2(chapters1, w2)
      ensures events == old(events) + [PhaseComplete(1)]
      ensures cache == old(cache) && clientCalls == old(clientCalls)
    {
      chapters := AssignWave2(chapters1, w2);
      events := events + [PhaseComplete(1)];
    }
    /** The wave-1 task list: chapter 1's content, then for chapters 2 to 7
        their methodology, their data and, when the chapter has graph files,
        their graphs discussion. */
    static method BuildWave1(inp: ChapterInputs) returns (tasks: seq<Subcall>)
      ensures tasks == Wave1(inp)
    {
      tasks := [ContentTask(inp)];
      for n := 2 to 8
        invariant tasks == [ContentTask(inp)] + Wave1Upto(n, inp)
      {
        tasks := tasks + [MethodologyTask(n, inp)];
        tasks := tasks + [DataTask(n, inp)];
        if inp.hasGraphs(n) {
          tasks := tasks + [GraphsTask(n)];
        }
      }
    }

    /** The wave-2 task list: chapter 1's synthesis, then chapters 2 to 7. */
    static method BuildWave2(chapters: Chapters) returns (tasks: seq<Subcall>)
      requires AllChapters(chapters)
      ensures tasks == Wave2(chapters)
    {
      tasks := [Cap1SynthesisTask(chapters[1])];
      for n := 2 to 8
        invariant tasks == [Cap1SynthesisTask(chapters[1])] + Wave2Upto(chapters, n)
      {
        tasks := tasks + [SynthesisTask(n, chapters[n])];
      }
    }

    /** The wave-1 assignments: chapter 1 gets its content, chapters 2 to 7
        their methodology, data and graphs discussion. */
    static method AssignWave1(chapters0: Chapters, w1: map<String, String>) returns (chapters: Chapters)
      requires AllChapters(chapters0)
      ensures chapters == AfterWave1(chapters0, w1)
    {
      chapters := chapters0[1 := chapters0[1].(cap1Content := Get(w1, ChapterKey(1, CONTENT)))];
      AssignWave1Step(chapters0, chapters0, 1, w1);
      for n := 2 to 8
        invariant AllChapters(chapters)
        invariant forall m :: 1 <= m <= 7 ==>
                    chapters[m] == if m < n then WithWave1(m, chapters0[m], w1) else chapters0[m]
      {
        var ch := chapters[n];
        AssignWave1Step(chapters0, chapters, n, w1);
        chapters := chapters[n := ch.(methodology := Get(w1, ChapterKey(n, METHODOLOGY)),
                                      data := Get(w1, ChapterKey(n, DATA)),
                                      graphs := Get(w1, ChapterKey(n, GRAPHS)))];
      }
      ChaptersEqual(chapters, AfterWave1(chapters0, w1));
    }
    /** The wave-2 assignments: each chapter's introduction and verdict parsed
        from its synthesis. */
    static method AssignWave2(chapters0: Chapters, w2: map<String, String>) returns (chapters: Chapters)
      requires AllChapters(chapters0)
      ensures chapters == AfterWave2(chapters0, w2)
    {
      chapters := chapters0;
      for n := 1 to 8
        invariant AllChapters(chapters)
        invariant forall m :: 1 <= m <= 7 ==>
                    chapters[m] == if m < n then WithWave2(m, chapters0[m], w2) else chapters0[m]
      {
        var parsed := ParseSynthesis(Get(w2, SynthesisKey(n)));
        AssignWave2Step(chapters0, chapters, n, w2);
        chapters := chapters[n := chapters[n].(intro := parsed.0, verdict := parsed.1)];
      }
      ChaptersEqual(chapters, AfterWave2(chapters0, w2));
    }  }
}
