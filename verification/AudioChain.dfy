/**
 A whole audio path: buffers (a loopback, either direction of an audio channel) joined by
 copy loops. Stages alternate buffers and what a loop has read but not yet written; the
 last stage is what the far end received. A byte is named by its position in the input.

 A loop's Read moves the front of a buffer into its hand, its Write the front of its hand
 into the next buffer (a failing write may move a part, and the loop then moves no more),
 and a reset empties one buffer.
 */
module AudioChain {
  import opened Wrappers
  import opened Frames

  datatype State = State(input: Bytes, stages: seq<seq<nat>>, cleared: set<nat>)

  datatype Step = Feed(data: Bytes) | Move(k: nat, n: nat) | Clear(k: nat)

  function Initial(stages: nat): State {
    State([], seq(stages, _ => []), {})
  }

  predicate Enabled(s: State, st: Step) {
    match st
    case Feed(_) => s.stages != []
    case Move(k, n) => k + 1 < |s.stages| && n <= |s.stages[k]|
    case Clear(k) => k + 1 < |s.stages|
  }

  /** The positions from, ..., from + n - 1. */
  function Span(from: nat, n: nat): seq<nat> {
    seq(n, i requires 0 <= i < n => from + i)
  }

  function Do(s: State, st: Step): State
    requires Enabled(s, st)
  {
    match st
    case Feed(data) =>
      s.(input := s.input + data, stages := s.stages[0 := s.stages[0] + Span(|s.input|, |data|)])
    case Move(k, n) =>
      s.(stages := s.stages[k := s.stages[k][n..]][k + 1 := s.stages[k + 1] + s.stages[k][..n]])
    case Clear(k) =>
      s.(stages := s.stages[k := []], cleared := s.cleared + (set i | i in s.stages[k]))
  }

  predicate Runs(s: State, run: seq<Step>)
    decreases run
  {
    run == [] || (Enabled(s, run[0]) && Runs(Do(s, run[0]), run[1..]))
  }

  function After(s: State, run: seq<Step>): State
    requires Runs(s, run)
    decreases run
  {
    if run == [] then s else After(Do(s, run[0]), run[1..])
  }

  /** Everything in transit or received, oldest first. */
  function Flat(stages: seq<seq<nat>>): seq<nat> {
    if stages == [] then [] else Flat(stages[1..]) + stages[0]
  }

  /** The positions below n that were not cleared, in order. */
  function Survivors(n: nat, cleared: set<nat>): seq<nat> {
    if n == 0 then []
    else Survivors(n - 1, cleared) + (if n - 1 in cleared then [] else [n - 1])
  }

  function Without(xs: seq<nat>, gone: set<nat>): seq<nat> {
    if xs == [] then []
    else (if xs[0] in gone then [] else [xs[0]]) + Without(xs[1..], gone)
  }

  predicate Good(s: State) {
    && s.stages != []
    && Flat(s.stages) == Survivors(|s.input|, s.cleared)
    && (forall i | i in s.cleared :: i < |s.input|)
  }

  // ------------------------------------------------------------- facts about the lists

  lemma {:induction false} SurvivorsBelow(n: nat, cleared: set<nat>)
    ensures forall i: nat :: i in Survivors(n, cleared) <==> i < n && i !in cleared
    ensures Increasing(Survivors(n, cleared))
  {
    if n > 0 {
      SurvivorsBelow(n - 1, cleared);
      var front := Survivors(n - 1, cleared);
      forall j | 0 <= j < |front| ensures front[j] < n - 1 {
        assert front[j] in front;
      }
    }
  }

  lemma {:induction false} SurvivorsExtend(n: nat, d: nat, cleared: set<nat>)
    requires forall i | i in cleared :: i < n
    ensures Survivors(n + d, cleared) == Survivors(n, cleared) + Span(n, d)
  {
    if d == 0 {
      assert Span(n, 0) == [];
    } else {
      SurvivorsExtend(n, d - 1, cleared);
      assert Span(n, d) == Span(n, d - 1) + [n + d - 1];
    }
  }

  lemma {:induction false} WithoutSplits(xs: seq<nat>, ys: seq<nat>, gone: set<nat>)
    ensures Without(xs + ys, gone) == Without(xs, gone) + Without(ys, gone)
  {
    if xs == [] {
      assert xs + ys == ys;
    } else {
      var head := if xs[0] in gone then [] else [xs[0]];
      calc {
        Without(xs + ys, gone);
        { assert (xs + ys)[0] == xs[0] && (xs + ys)[1..] == xs[1..] + ys; }
        head + Without(xs[1..] + ys, gone);
        { WithoutSplits(xs[1..], ys, gone); }
        head + (Without(xs[1..], gone) + Without(ys, gone));
        head + Without(xs[1..], gone) + Without(ys, gone);
        Without(xs, gone) + Without(ys, gone);
      }
    }
  }

  lemma {:induction false} WithoutNone(xs: seq<nat>, gone: set<nat>)
    requires forall i | i in xs :: i !in gone
    ensures Without(xs, gone) == xs
  {
    if xs != [] {
      WithoutNone(xs[1..], gone);
    }
  }

  lemma {:induction false} WithoutAll(xs: seq<nat>, gone: set<nat>)
    requires forall i | i in xs :: i in gone
    ensures Without(xs, gone) == []
  {
    if xs != [] {
      WithoutAll(xs[1..], gone);
    }
  }

  lemma {:induction false} ClearingSurvivors(n: nat, cleared: set<nat>, gone: set<nat>)
    ensures Survivors(n, cleared + gone) == Without(Survivors(n, cleared), gone)
  {
    if n > 0 {
      ClearingSurvivors(n - 1, cleared, gone);
      var last := if n - 1 in cleared then [] else [n - 1];
      WithoutSplits(Survivors(n - 1, cleared), last, gone);
      assert Without(last, gone) == if n - 1 in cleared || n - 1 in gone then [] else [n - 1];
    }
  }

  /** The path around stage k: what is ahead of it, itself, what is behind. */
  lemma {:induction false} FlatAround(stages: seq<seq<nat>>, k: nat, x: seq<nat>)
    requires k < |stages|
    ensures Flat(stages[k := x]) == Flat(stages[k + 1..]) + x + Flat(stages[..k])
    decreases k
  {
    if k == 0 {
      assert stages[0 := x][1..] == stages[1..] && stages[..0] == [];
    } else {
      FlatAround(stages[1..], k - 1, x);
      assert stages[k := x][1..] == stages[1..][k - 1 := x];
      assert stages[1..][k..] == stages[k + 1..];
      assert stages[..k][1..] == stages[1..][..k - 1] && stages[..k][0] == stages[0];
    }
  }

  lemma FlatAt(stages: seq<seq<nat>>, k: nat)
    requires k < |stages|
    ensures Flat(stages) == Flat(stages[k + 1..]) + stages[k] + Flat(stages[..k])
  {
    FlatAround(stages, k, stages[k]);
    assert stages[k := stages[k]] == stages;
  }

  // ------------------------------------------------- every step keeps the invariant

  lemma FeedKeepsGood(s: State, data: Bytes)
    requires Good(s)
    ensures Good(Do(s, Feed(data)))
  {
    var span := Span(|s.input|, |data|);
    FlatAround(s.stages, 0, s.stages[0] + span);
    FlatAt(s.stages, 0);
    assert s.stages[..0] == [];
    SurvivorsExtend(|s.input|, |data|, s.cleared);
  }

  lemma MoveKeepsFlat(s: State, k: nat, n: nat)
    requires Enabled(s, Move(k, n))
    ensures Flat(Do(s, Move(k, n)).stages) == Flat(s.stages)
  {
    var x, y := s.stages[k], s.stages[k + 1];
    var mid := s.stages[k := x[n..]];
    FlatAround(mid, k + 1, y + x[..n]);
    assert mid[k + 2..] == s.stages[k + 2..];
    assert mid[..k + 1] == s.stages[..k + 1][k := x[n..]];
    FlatAround(s.stages[..k + 1], k, x[n..]);
    FlatAt(s.stages, k + 1);
    FlatAt(s.stages[..k + 1], k);
    assert s.stages[..k + 1][k + 1..] == [] && s.stages[..k + 1][..k] == s.stages[..k];
    assert x == x[..n] + x[n..];
  }

  lemma ClearKeepsGood(s: State, k: nat)
    requires Good(s) && Enabled(s, Clear(k))
    ensures Good(Do(s, Clear(k)))
  {
    var x := s.stages[k];
    var gone := set i | i in x;
    var ahead, behind := Flat(s.stages[k + 1..]), Flat(s.stages[..k]);
    FlatAt(s.stages, k);
    FlatAround(s.stages, k, []);
    SurvivorsBelow(|s.input|, s.cleared);
    ClearingSurvivors(|s.input|, s.cleared, gone);
    Apart(ahead, x, behind);
    WithoutSplits(ahead + x, behind, gone);
    WithoutSplits(ahead, x, gone);
    WithoutNone(ahead, gone);
    WithoutNone(behind, gone);
    WithoutAll(x, gone);
    assert forall i | i in x :: i in Flat(s.stages);
  }

  /** Three parts of an increasing list share nothing. */
  lemma Apart(a: seq<nat>, b: seq<nat>, c: seq<nat>)
    requires Increasing(a + b + c)
    ensures forall i | i in b :: i !in a && i !in c
  {
    var all := a + b + c;
    forall j, m | 0 <= j < |b| && 0 <= m < |a| ensures a[m] != b[j] {
      assert all[m] == a[m] && all[|a| + j] == b[j];
    }
    forall j, m | 0 <= j < |b| && 0 <= m < |c| ensures c[m] != b[j] {
      assert all[|a| + |b| + m] == c[m] && all[|a| + j] == b[j];
    }
  }

  lemma {:induction false} RunKeepsGood(s: State, run: seq<Step>)
    requires Good(s) && Runs(s, run)
    ensures Good(After(s, run)) && |After(s, run).stages| == |s.stages|
    decreases run
  {
    if run != [] {
      match run[0] {
        case Feed(data) => FeedKeepsGood(s, data);
        case Move(k, n) => MoveKeepsFlat(s, k, n);
        case Clear(k) => ClearKeepsGood(s, k);
      }
      RunKeepsGood(Do(s, run[0]), run[1..]);
    }
  }

  // ------------------------------------------------------------- the main results

  function BytesAt(input: Bytes, at: seq<nat>): Bytes {
    seq(|at|, j requires 0 <= j < |at| => if at[j] < |input| then input[at[j]] else 0)
  }

  /** The bytes stage k holds. */
  function Contents(s: State, k: nat): Bytes
    requires k < |s.stages|
  {
    BytesAt(s.input, s.stages[k])
  }

  lemma StagesInRange(s: State, k: nat)
    requires Good(s) && k < |s.stages|
    ensures forall j | 0 <= j < |s.stages[k]| :: s.stages[k][j] < |s.input|
  {
    FlatAt(s.stages, k);
    SurvivorsBelow(|s.input|, s.cleared);
    forall j | 0 <= j < |s.stages[k]| ensures s.stages[k][j] in Flat(s.stages) {
    }
  }

  /** What the steps do to the bytes is what the calls do to the buffers: a write appends, a
      read takes the front and hands over just that, a reset empties one buffer, and no
      other buffer changes. */
  lemma StepsMoveBytes(s: State, st: Step, k: nat)
    requires Good(s) && Enabled(s, st) && k < |s.stages|
    ensures k < |Do(s, st).stages|
    ensures Contents(Do(s, st), k) ==
            match st
            case Feed(data) => if k == 0 then Contents(s, k) + data else Contents(s, k)
            case Move(j, n) =>
              if k == j then Contents(s, j)[n..]
              else if k == j + 1 then Contents(s, k) + Contents(s, j)[..n]
              else Contents(s, k)
            case Clear(j) => if k == j then [] else Contents(s, k)
  {
    StagesInRange(s, k);
  }

  /** Along any chain and over any run, what arrives is a prefix of the input with exactly
      the cleared bytes removed: in order, without loss or repetition. */
  lemma DeliveredIsPrefixOfSurvivors(stages: nat, run: seq<Step>)
    requires stages > 0 && Runs(Initial(stages), run)
    ensures var s := After(Initial(stages), run);
            && |s.stages| == stages
            && s.stages[stages - 1] <= Survivors(|s.input|, s.cleared)
            && BytesAt(s.input, s.stages[stages - 1]) <= BytesAt(s.input, Survivors(|s.input|, s.cleared))
  {
    InitialIsGood(stages);
    RunKeepsGood(Initial(stages), run);
    var s := After(Initial(stages), run);
    FlatAt(s.stages, stages - 1);
    assert s.stages[stages..] == [];
  }

  lemma {:induction false} InitialIsGood(stages: nat)
    requires stages > 0
    ensures Good(Initial(stages))
    decreases stages
  {
    assert Initial(stages).stages[1..] == Initial(stages - 1).stages;
    if stages > 1 {
      InitialIsGood(stages - 1);
    }
  }

  /** Once everything upstream is empty, all survivors have arrived. */
  lemma NothingElseIsLost(stages: nat, run: seq<Step>)
    requires stages > 0 && Runs(Initial(stages), run)
    requires forall k | 0 <= k < |After(Initial(stages), run).stages| - 1 :: After(Initial(stages), run).stages[k] == []
    ensures var s := After(Initial(stages), run);
            |s.stages| == stages && s.stages[stages - 1] == Survivors(|s.input|, s.cleared)
  {
    InitialIsGood(stages);
    RunKeepsGood(Initial(stages), run);
    var s := After(Initial(stages), run);
    FlatAt(s.stages, stages - 1);
    assert s.stages[stages..] == [];
    FlatOfEmpty(s.stages[..stages - 1]);
  }

  lemma {:induction false} FlatOfEmpty(stages: seq<seq<nat>>)
    requires forall k | 0 <= k < |stages| :: stages[k] == []
    ensures Flat(stages) == []
  {
    if stages != [] {
      FlatOfEmpty(stages[1..]);
    }
  }

  // ------------------------------------------------ what ClearReadBuffer reports

  // ClearReadBuffer asks for the length and then resets. Between the two calls others may
  // write, read, and clear as well.

  /** Bytes that came into stage k, were read from it, and were cleared from it. */
  function Entered(run: seq<Step>, k: nat): nat {
    if run == [] then 0
    else
      (match run[0]
       case Feed(data) => if k == 0 then |data| else 0
       case Move(j, n) => if j + 1 == k then n else 0
       case Clear(_) => 0) + Entered(run[1..], k)
  }

  function Departed(run: seq<Step>, k: nat): nat {
    if run == [] then 0
    else
      (match run[0]
       case Move(j, n) => if j == k then n else 0
       case _ => 0) + Departed(run[1..], k)
  }

  function Removed(s: State, run: seq<Step>, k: nat): nat
    requires Runs(s, run) && k < |s.stages|
    decreases run
  {
    if run == [] then 0
    else (if run[0] == Clear(k) then |s.stages[k]| else 0) + Removed(Do(s, run[0]), run[1..], k)
  }

  /** What a reset of stage k drops. */
  function Dropped(s: State, k: nat): nat {
    if k < |s.stages| then |s.stages[k]| else 0
  }

  /** The length asked for at s is what the reset drops after the steps between. */
  predicate ReportIsRight(s: State, between: seq<Step>, k: nat)
    requires Runs(s, between) && k < |s.stages|
  {
    Dropped(After(s, between), k) == |s.stages[k]|
  }

  /** Whatever happens between the two calls, what the reset drops differs from the report by
      exactly the three flows, so the report is right if and only if they balance. */
  lemma {:induction false} ClearReportsWithinFlow(s: State, between: seq<Step>, k: nat)
    requires k < |s.stages| && Runs(s, between)
    ensures Dropped(After(s, between), k) + Departed(between, k) + Removed(s, between, k) ==
            |s.stages[k]| + Entered(between, k)
    ensures ReportIsRight(s, between, k) <==>
            Entered(between, k) == Departed(between, k) + Removed(s, between, k)
    decreases between
  {
    if between != [] {
      ClearReportsWithinFlow(Do(s, between[0]), between[1..], k);
    }
  }

  lemma OneStep(s: State, st: Step)
    requires Enabled(s, st)
    ensures Runs(s, [st]) && After(s, [st]) == Do(s, st)
  {
    assert [st][1..] == [];
    assert Runs(Do(s, st), []) && After(Do(s, st), []) == Do(s, st);
  }

  /** A write between the two calls: nothing is reported, yet bytes are dropped. */
  lemma InterveningWriteMisreports(data: Bytes)
    requires data != []
    ensures var s, between := Initial(2), [Feed(data)];
            Runs(s, between) && |s.stages[0]| == 0 && Dropped(After(s, between), 0) == |data|
            && !ReportIsRight(s, between, 0)
  {
    OneStep(Initial(2), Feed(data));
  }

  /** Two overlapping clears: the later one reports the bytes the other dropped again. */
  lemma OverlappingClearsMisreport(data: Bytes)
    requires data != []
    ensures var past, between := [Feed(data)], [Clear(0)];
            && Runs(Initial(2), past)
            && var s := After(Initial(2), past);
            |s.stages| == 2 && Runs(s, between) && |s.stages[0]| == |data| && Dropped(After(s, between), 0) == 0
            && !ReportIsRight(s, between, 0)
  {
    OneStep(Initial(2), Feed(data));
    OneStep(Do(Initial(2), Feed(data)), Clear(0));
  }

  /** The step is an access to the buffer at stage k that can change it. */
  predicate Touches(st: Step, k: nat) {
    match st
    case Feed(data) => k == 0 && data != []
    case Move(j, n) => n > 0 && (j == k || j + 1 == k)
    case Clear(j) => j == k
  }

  predicate Among(run: seq<Step>, allowed: Step -> bool) {
    forall i | 0 <= i < |run| :: allowed(run[i])
  }

  lemma {:induction false} UntouchedReportsRight(s: State, between: seq<Step>, k: nat)
    requires k < |s.stages| && Runs(s, between)
    requires forall i | 0 <= i < |between| :: !Touches(between[i], k)
    ensures ReportIsRight(s, between, k)
    decreases between
  {
    if between != [] {
      UntouchedReportsRight(Do(s, between[0]), between[1..], k);
    }
  }

  lemma {:induction false} RunsExtend(s: State, run: seq<Step>, st: Step)
    requires Runs(s, run) && Enabled(After(s, run), st)
    ensures Runs(s, run + [st]) && After(s, run + [st]) == Do(After(s, run), st)
    decreases run
  {
    if run == [] {
      OneStep(s, st);
      assert run + [st] == [st];
    } else {
      RunsExtend(Do(s, run[0]), run[1..], st);
      assert (run + [st])[1..] == run[1..] + [st];
    }
  }

  /** Some run from the start puts n bytes and more into stage k. */
  lemma {:induction false} Fill(stages: nat, k: nat, n: nat) returns (run: seq<Step>)
    requires k < stages
    ensures Runs(Initial(stages), run)
    ensures |After(Initial(stages), run).stages| == stages && |After(Initial(stages), run).stages[k]| >= n
  {
    if k == 0 {
      var st := Feed(seq(n, _ => 0));
      OneStep(Initial(stages), st);
      run := [st];
    } else {
      var start := Fill(stages, k - 1, n);
      RunsExtend(Initial(stages), start, Move(k - 1, n));
      run := start + [Move(k - 1, n)];
    }
  }

  /** Some run from the start after which the step makes the report wrong. */
  lemma TouchMisreports(stages: nat, k: nat, st: Step) returns (past: seq<Step>)
    requires k + 1 < stages && Touches(st, k)
    ensures Runs(Initial(stages), past)
    ensures k < |After(Initial(stages), past).stages| && Enabled(After(Initial(stages), past), st)
    ensures Runs(After(Initial(stages), past), [st]) && !ReportIsRight(After(Initial(stages), past), [st], k)
  {
    match st {
      case Feed(_) => past := [];
      case Move(j, n) => past := Fill(stages, j, n);
      case Clear(_) => past := Fill(stages, k, 1);
    }
    OneStep(After(Initial(stages), past), st);
  }

  /** What a caller can arrange: if others may do only certain steps between the two calls,
      every report in every run is right exactly if none of those touches the buffer. */
  lemma ReportsAreRightIff(stages: nat, k: nat, allowed: Step -> bool)
    requires k + 1 < stages
    ensures (forall st | allowed(st) :: !Touches(st, k)) <==>
            (forall past, between |
               Runs(Initial(stages), past) && k < |After(Initial(stages), past).stages|
               && Runs(After(Initial(stages), past), between) && Among(between, allowed) ::
              ReportIsRight(After(Initial(stages), past), between, k))
  {
    if forall st | allowed(st) :: !Touches(st, k) {
      forall past, between |
        Runs(Initial(stages), past) && k < |After(Initial(stages), past).stages|
        && Runs(After(Initial(stages), past), between) && Among(between, allowed)
        ensures ReportIsRight(After(Initial(stages), past), between, k)
      {
        UntouchedReportsRight(After(Initial(stages), past), between, k);
      }
    } else {
      var st :| allowed(st) && Touches(st, k);
      var past := TouchMisreports(stages, k, st);
      assert Among([st], allowed);
    }
  }
}
