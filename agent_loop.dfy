/** The observe → judge → act → evaluate loop engine: four growing lists of
    phase callbacks threaded over one context, a bounded memory, and a run
    that stops when the context says `complete` or the iteration budget is
    spent. */
module Loop {
  import opened Values

  /** The shared context dictionary. */
  type Context = Dict

  /** What calling a callback does: it returns a (possibly updated) context,
      or it raises, and then `ctx` is the shared dictionary as the callback
      left it, with every write made before the exception. */
  datatype CallResult = Returned(ctx: Context) | Raised(ctx: Context, error: string)

  /** A registered phase callback. */
  type Callback = Context -> CallResult

  /** One guarded call `try: context = cb(context) except: log`: a callback
      that raises is logged, and the context is the shared dictionary with
      whatever it wrote before raising (best effort, not transactional). */
  function Step(cb: Callback, c: Context): Context {
    match cb(c)
    case Returned(d) => d
    case Raised(d, _) => d
  }

  /** The context after calling `cbs` one after the other, in list order. */
  function ApplyAll(cbs: seq<Callback>, c: Context): Context
    decreases |cbs|
  {
    if cbs == [] then c else Step(cbs[|cbs| - 1], ApplyAll(cbs[..|cbs| - 1], c))
  }

  /** Running two lists back to back is running their concatenation. */
  lemma {:induction false} ApplyAllConcat(a: seq<Callback>, b: seq<Callback>, c: Context)
    ensures ApplyAll(a + b, c) == ApplyAll(b, ApplyAll(a, c))
    decreases |b|
  {
    if b == [] {
      assert a + b == a;
    } else {
      var b' := b[..|b| - 1];
      assert (a + b)[..|a + b| - 1] == a + b';
      assert (a + b)[|a + b| - 1] == b[|b| - 1];
      ApplyAllConcat(a, b', c);
    }
  }

  /** A callback that raises does not stop the phase: the rest of the list
      runs on the dictionary as the callback left it, and so on the context
      it was given when it raised before writing anything. */
  lemma RaisedKeepsWrites(cb: Callback, rest: seq<Callback>, c: Context)
    requires cb(c).Raised?
    ensures ApplyAll([cb] + rest, c) == ApplyAll(rest, cb(c).ctx)
    ensures cb(c).ctx == c ==> ApplyAll([cb] + rest, c) == ApplyAll(rest, c)
  {
    ApplyAllConcat([cb], rest, c);
    assert [cb][..0] == [];
  }

  /** The four phase lists of an engine, in registration order. */
  datatype Phases = Phases(
    observers: seq<Callback>,
    judges: seq<Callback>,
    actors: seq<Callback>,
    evaluators: seq<Callback>)

  /** `run_once` before the memory entry: stamp the time, then each phase in turn. */
  function Pass(p: Phases, c: Context, now: int): Context {
    var stamped := c["timestamp" := Int(now)];
    ApplyAll(p.evaluators, ApplyAll(p.actors, ApplyAll(p.judges, ApplyAll(p.observers, stamped))))
  }

  /** Phase order: one pass calls every observer, then every judge, then
      every actor, then every evaluator, each list in registration order. */
  lemma PassIsOneOrderedSweep(p: Phases, c: Context, now: int)
    ensures Pass(p, c, now) ==
            ApplyAll(p.observers + p.judges + p.actors + p.evaluators, c["timestamp" := Int(now)])
  {
    var s := c["timestamp" := Int(now)];
    ApplyAllConcat(p.observers, p.judges, s);
    ApplyAllConcat(p.observers + p.judges, p.actors, s);
    ApplyAllConcat(p.observers + p.judges + p.actors, p.evaluators, s);
  }

  // ---------------------------------------------------------------------------
  // Keys the engine itself relies on
  // ---------------------------------------------------------------------------

  /** The two keys the engine reads back after the callbacks have run. */
  function Reserved(c: Context): (Option<Value>, Option<Value>) {
    (Lookup(c, "iterations"), Lookup(c, "timestamp"))
  }

  /** The callback never changes `iterations` or `timestamp`. */
  ghost predicate KeepsReserved(cb: Callback) {
    forall c {:trigger Reserved(Step(cb, c))} :: Reserved(Step(cb, c)) == Reserved(c)
  }

  ghost predicate AllKeepReserved(cbs: seq<Callback>) {
    forall i {:trigger KeepsReserved(cbs[i])} :: 0 <= i < |cbs| ==> KeepsReserved(cbs[i])
  }

  lemma {:induction false} ApplyAllKeepsReserved(cbs: seq<Callback>, c: Context)
    requires AllKeepReserved(cbs)
    ensures Reserved(ApplyAll(cbs, c)) == Reserved(c)
    decreases |cbs|
  {
    if cbs != [] {
      var init := cbs[..|cbs| - 1];
      assert AllKeepReserved(init) by {
        forall i | 0 <= i < |init| ensures KeepsReserved(init[i]) {
          assert init[i] == cbs[i];
        }
      }
      ApplyAllKeepsReserved(init, c);
      assert KeepsReserved(cbs[|cbs| - 1]);
    }
  }

  ghost predicate PhasesKeepReserved(p: Phases) {
    AllKeepReserved(p.observers) && AllKeepReserved(p.judges) &&
    AllKeepReserved(p.actors) && AllKeepReserved(p.evaluators)
  }

  /** A pass whose callbacks keep the reserved keys stamps `now` and keeps `iterations`. */
  lemma PassKeepsReserved(p: Phases, c: Context, now: int)
    requires PhasesKeepReserved(p)
    ensures Reserved(Pass(p, c, now)) == (Lookup(c, "iterations"), Some(Int(now)))
  {
    var s := c["timestamp" := Int(now)];
    ApplyAllKeepsReserved(p.observers, s);
    ApplyAllKeepsReserved(p.judges, ApplyAll(p.observers, s));
    ApplyAllKeepsReserved(p.actors, ApplyAll(p.judges, ApplyAll(p.observers, s)));
    ApplyAllKeepsReserved(p.evaluators, ApplyAll(p.actors, ApplyAll(p.judges, ApplyAll(p.observers, s))));
  }

  // ---------------------------------------------------------------------------
  // Memory
  // ---------------------------------------------------------------------------

  /** One memory entry: `{timestamp, task, context}`. */
  datatype MemoryEntry = MemoryEntry(timestamp: int, task: Option<string>, context: Context)

  /** The lower bound Python uses for `s[start:]` on a sequence of length `len`. */
  function SliceStart(len: nat, start: int): (r: nat)
    ensures r <= len
    ensures 0 <= start <= len ==> r == start
    ensures start < 0 && start + len >= 0 ==> r == start + len
    ensures start > len ==> r == len
    ensures start + len < 0 ==> r == 0
  {
    if start < 0 then (if start + len < 0 then 0 else start + len)
    else if start > len then len
    else start
  }

  /** `if len(m) > size: m = m[-size:]`, with Python's slicing. */
  function TrimMemory<T>(m: seq<T>, size: int): seq<T> {
    if |m| > size then m[SliceStart(|m|, -size)..] else m
  }

  /** What trimming keeps, for each sign of the size. */
  lemma TrimMemoryKeeps<T>(m: seq<T>, size: int)
    // a positive size keeps the newest min(|m|, size) elements, in order
    ensures size >= 1 ==>
              |TrimMemory(m, size)| == (if |m| < size then |m| else size) &&
              TrimMemory(m, size) == m[|m| - |TrimMemory(m, size)|..]
    // `m[-0:]` is the whole list: a size of 0 trims nothing
    ensures size == 0 ==> TrimMemory(m, size) == m
    // a negative size drops the oldest -size elements
    ensures size < 0 ==> TrimMemory(m, size) == (if -size <= |m| then m[-size..] else [])
  {
  }

  /** Adding an entry and trimming keeps the memory within a positive size,
      and the new entry is the newest one kept. */
  lemma AddEntryBounded<T>(m: seq<T>, e: T, size: int)
    requires size >= 1 && |m| <= size
    ensures |TrimMemory(m + [e], size)| <= size
    ensures TrimMemory(m + [e], size)[|TrimMemory(m + [e], size)| - 1] == e
  {
    TrimMemoryKeeps(m + [e], size);
  }

  // ---------------------------------------------------------------------------
  // Whole runs
  // ---------------------------------------------------------------------------

  /** The context `run` starts from. */
  function Start(init: Context, task: string): Context {
    init["task" := Str(task)]["iterations" := Int(0)]["complete" := Bool(false)]
  }

  /** `run` starts with `task` set, no iterations, not complete, and every
      other key of the initial context kept. */
  lemma StartContext(init: Context, task: string)
    ensures Start(init, task).Keys == init.Keys + {"task", "iterations", "complete"}
    ensures Start(init, task)["task"] == Str(task)
    ensures Start(init, task)["iterations"] == Int(0)
    ensures Start(init, task)["complete"] == Bool(false)
    ensures !Complete(Start(init, task))
    ensures forall k :: k in init && k !in {"task", "iterations", "complete"} ==> Start(init, task)[k] == init[k]
  {
  }

  /** `context.get("complete", False)` is truthy. */
  predicate Complete(c: Context) {
    Truthy(GetOr(c, "complete", Bool(false)))
  }

  /** The engine's state between passes: the context and the memory. */
  datatype State = State(ctx: Context, memory: seq<MemoryEntry>)

  /** Pass number `n` of a run: bump `iterations`, run the phases at time
      `now`, append the memory entry and trim. */
  function NextState(p: Phases, size: int, task: Option<string>, s: State, n: int, now: int): State {
    var c := Pass(p, s.ctx["iterations" := Int(n)], now);
    State(c, TrimMemory(s.memory + [MemoryEntry(now, task, c)], size))
  }

  /** The state after the first `k` passes; pass `n` runs at time `clock(n)`. */
  function Trace(p: Phases, size: int, task: Option<string>, clock: nat -> int, s0: State, k: nat): State
    decreases k
  {
    if k == 0 then s0 else NextState(p, size, task, Trace(p, size, task, clock, s0, k - 1), k, clock(k))
  }

  /** After `k` passes of callbacks that keep the reserved keys, `iterations` is `k`. */
  lemma {:induction false} TraceIterations(p: Phases, size: int, task: Option<string>, clock: nat -> int, s0: State, k: nat)
    requires PhasesKeepReserved(p)
    requires k > 0
    ensures Lookup(Trace(p, size, task, clock, s0, k).ctx, "iterations") == Some(Int(k))
  {
    var prev := Trace(p, size, task, clock, s0, k - 1);
    PassKeepsReserved(p, prev.ctx["iterations" := Int(k)], clock(k));
  }

  /** Unfolds `Trace` by one pass. */
  lemma TraceStep(p: Phases, size: int, task: Option<string>, clock: nat -> int, s0: State, k: nat)
    ensures Trace(p, size, task, clock, s0, k + 1) ==
            NextState(p, size, task, Trace(p, size, task, clock, s0, k), k + 1, clock(k + 1))
  {
  }

  /** With a positive `memory_size` and a start memory within it, every state
      of a run keeps the memory within the size, and after a pass the newest
      entry records that pass: its time, the task and the context it left.
      The memory after a pass is a suffix of the memory before it plus the
      new entry. */
  lemma {:induction false} TraceMemory(p: Phases, size: int, task: Option<string>, clock: nat -> int, s0: State, k: nat)
    requires size >= 1 && |s0.memory| <= size
    ensures |Trace(p, size, task, clock, s0, k).memory| <= size
    ensures k > 0 ==>
              var prev := Trace(p, size, task, clock, s0, k - 1).memory;
              var s := Trace(p, size, task, clock, s0, k);
              var added := prev + [MemoryEntry(clock(k), task, s.ctx)];
              && |s.memory| >= 1
              && s.memory[|s.memory| - 1] == MemoryEntry(clock(k), task, s.ctx)
              && s.memory == added[|added| - |s.memory|..]
  {
    if k > 0 {
      TraceMemory(p, size, task, clock, s0, k - 1);
      NextStateMemory(p, size, task, Trace(p, size, task, clock, s0, k - 1), k, clock(k));
    }
  }

  /** One pass keeps a memory within a positive size within it, with the
      pass's entry newest and the rest a suffix of the old memory. */
  lemma NextStateMemory(p: Phases, size: int, task: Option<string>, s: State, n: int, now: int)
    requires size >= 1 && |s.memory| <= size
    ensures var t := NextState(p, size, task, s, n, now);
      var added := s.memory + [MemoryEntry(now, task, t.ctx)];
      && |t.memory| <= size
      && |t.memory| >= 1
      && t.memory[|t.memory| - 1] == MemoryEntry(now, task, t.ctx)
      && t.memory == added[|added| - |t.memory|..]
  {
    var t := NextState(p, size, task, s, n, now);
    var e := MemoryEntry(now, task, t.ctx);
    assert t.memory == TrimMemory(s.memory + [e], size);
    AddEntryBounded(s.memory, e, size);
    TrimMemoryKeeps(s.memory + [e], size);
  }

  /** `final` is what a run from `s0` with budget `max` returns after `k`
      passes: it is the state after exactly `k` passes, none of the earlier
      passes left `complete` set, the budget bounds `k`, and the run stopped
      short of the budget only because `complete` was set. */
  ghost predicate RunOutcome(p: Phases, size: int, task: Option<string>, clock: nat -> int,
                             s0: State, max: int, final: State, k: nat)
  {
    && final == Trace(p, size, task, clock, s0, k)
    && (k == 0 || k <= max)
    && (max <= 0 ==> k == 0)
    && (0 <= max && !Complete(final.ctx) ==> k == max)
    && NoneComplete(p, size, task, clock, s0, k)
  }

  /** None of the first `k` states of the trace has `complete` set, stated
      one state at a time. */
  ghost predicate NoneComplete(p: Phases, size: int, task: Option<string>, clock: nat -> int, s0: State, k: nat)
    decreases k
  {
    k == 0 || (NoneComplete(p, size, task, clock, s0, k - 1) && !Complete(Trace(p, size, task, clock, s0, k - 1).ctx))
  }

  /** What `NoneComplete` promises about each earlier state. */
  lemma {:induction false} NoneCompleteAt(p: Phases, size: int, task: Option<string>, clock: nat -> int, s0: State, k: nat, j: nat)
    requires NoneComplete(p, size, task, clock, s0, k)
    requires j < k
    ensures !Complete(Trace(p, size, task, clock, s0, j).ctx)
    decreases k
  {
    if j < k - 1 {
      NoneCompleteAt(p, size, task, clock, s0, k - 1, j);
    }
  }

  lemma NoneCompleteStep(p: Phases, size: int, task: Option<string>, clock: nat -> int, s0: State, k: nat)
    requires NoneComplete(p, size, task, clock, s0, k)
    requires !Complete(Trace(p, size, task, clock, s0, k).ctx)
    ensures NoneComplete(p, size, task, clock, s0, k + 1)
  {
  }

  /** The loop of `run` stops with `complete` set or the budget spent; either
      way the state it reached is the outcome of the run. */
  lemma RunEnds(p: Phases, size: int, task: Option<string>, clock: nat -> int,
                s0: State, max: int, final: State, k: nat)
    requires final == Trace(p, size, task, clock, s0, k)
    requires k == 0 || k <= max
    requires NoneComplete(p, size, task, clock, s0, k)
    requires Complete(final.ctx) || k >= max
    requires !Complete(s0.ctx)
    ensures RunOutcome(p, size, task, clock, s0, max, final, k)
  {
  }

  /** The engine object. */
  class AgentLoop {
    var observers: seq<Callback>
    var judges: seq<Callback>
    var actors: seq<Callback>
    var evaluators: seq<Callback>
    var memory: seq<MemoryEntry>
    var currentTask: Option<string>
    const maxIterations: int
    const memorySize: int

    /** The four lists as one value. */
    function PhaseLists(): Phases
      reads this`observers, this`judges, this`actors, this`evaluators
    {
      Phases(observers, judges, actors, evaluators)
    }

    /** `AgentLoop()`: the two limits are what `get_config` gives for
        "agent.max_iterations" and "agent.memory_size". */
    constructor (maxIterations: int, memorySize: int)
      ensures this.maxIterations == maxIterations && this.memorySize == memorySize
      ensures observers == [] && judges == [] && actors == [] && evaluators == []
      ensures memory == [] && currentTask == None
    {
      this.maxIterations := maxIterations;
      this.memorySize := memorySize;
      observers, judges, actors, evaluators := [], [], [], [];
      memory := [];
      currentTask := None;
    }

    method RegisterObserver(cb: Callback)
      modifies this
      ensures observers == old(observers) + [cb]
      ensures judges == old(judges) && actors == old(actors) && evaluators == old(evaluators)
      ensures memory == old(memory) && currentTask == old(currentTask)
    {
      observers := observers + [cb];
    }

    method RegisterJudge(cb: Callback)
      modifies this
      ensures judges == old(judges) + [cb]
      ensures observers == old(observers) && actors == old(actors) && evaluators == old(evaluators)
      ensures memory == old(memory) && currentTask == old(currentTask)
    {
      judges := judges + [cb];
    }

    method RegisterActor(cb: Callback)
      modifies this
      ensures actors == old(actors) + [cb]
      ensures observers == old(observers) && judges == old(judges) && evaluators == old(evaluators)
      ensures memory == old(memory) && currentTask == old(currentTask)
    {
      actors := actors + [cb];
    }

    method RegisterEvaluator(cb: Callback)
      modifies this
      ensures evaluators == old(evaluators) + [cb]
      ensures observers == old(observers) && judges == old(judges) && actors == old(actors)
      ensures memory == old(memory) && currentTask == old(currentTask)
    {
      evaluators := evaluators + [cb];
    }

    /** The loop shared by the four phase methods: each callback in turn,
        exceptions swallowed. */
    static method RunPhase(cbs: seq<Callback>, ctx: Context) returns (r: Context)
      ensures r == ApplyAll(cbs, ctx)
    {
      r := ctx;
      for i := 0 to |cbs|
        invariant r == ApplyAll(cbs[..i], ctx)
      {
        assert cbs[..i + 1][..i] == cbs[..i];
        var out := cbs[i](r);
        // a callback that raised is logged; what it wrote stays in the dictionary
        r := out.ctx;
      }
      assert cbs[..|cbs|] == cbs;
    }

    method Observe(ctx: Context) returns (r: Context)
      ensures r == ApplyAll(observers, ctx)
    {
      r := RunPhase(observers, ctx);
    }

    method Judge(ctx: Context) returns (r: Context)
      ensures r == ApplyAll(judges, ctx)
    {
      r := RunPhase(judges, ctx);
    }

    method Act(ctx: Context) returns (r: Context)
      ensures r == ApplyAll(actors, ctx)
    {
      r := RunPhase(actors, ctx);
    }

    method Evaluate(ctx: Context) returns (r: Context)
      ensures r == ApplyAll(evaluators, ctx)
    {
      r := RunPhase(evaluators, ctx);
    }

    method AddToMemory(entry: MemoryEntry)
      modifies this`memory
      ensures memory == TrimMemory(old(memory) + [entry], memorySize)
    {
      memory := memory + [entry];
      if |memory| > memorySize {
        memory := memory[SliceStart(|memory|, -memorySize)..];
      }
    }

    /** `run_once` at clock time `now`. Callbacks must keep `timestamp`, which
        the memory entry reads back. */
    method RunOnce(ctx: Context, now: int) returns (r: Context)
      requires PhasesKeepReserved(PhaseLists())
      modifies this`memory
      ensures r == Pass(PhaseLists(), ctx, now)
      ensures Reserved(r) == (Lookup(ctx, "iterations"), Some(Int(now)))
      ensures memory == TrimMemory(old(memory) + [MemoryEntry(now, currentTask, r)], memorySize)
    {
      var c := ctx["timestamp" := Int(now)];
      c := Observe(c);
      c := Judge(c);
      c := Act(c);
      c := Evaluate(c);
      PassKeepsReserved(PhaseLists(), ctx, now);
      assert c["timestamp"] == Int(now);
      AddToMemory(MemoryEntry(c["timestamp"].i, currentTask, c));
      r := c;
    }

    /** `run(task, initial_context)`; pass number n runs at time `clock(n)`.
        Callbacks must keep `iterations` and `timestamp`. The result is the
        context after exactly `iterations` passes: none of the earlier ones
        left `complete` set, and either the last one did or the budget is
        spent. */
    method Run(task: string, initialContext: Context, clock: nat -> int) returns (r: Context)
      requires PhasesKeepReserved(PhaseLists())
      modifies this`memory, this`currentTask
      ensures currentTask == Some(task)
      ensures "iterations" in r && r["iterations"].Int? && 0 <= r["iterations"].i
      ensures RunOutcome(PhaseLists(), memorySize, Some(task), clock,
                         State(Start(initialContext, task), old(memory)), maxIterations,
                         State(r, memory), r["iterations"].i)
    {
      currentTask := Some(task);
      ghost var p := PhaseLists();
      var start := Start(initialContext, task);
      ghost var s0 := State(start, memory);
      var n;
      r, n := Iterate(p, s0, task, clock, start);
      RunEnds(p, memorySize, Some(task), clock, s0, maxIterations, State(r, memory), n);
    }

    /** The engine has run `n` passes of the run from `s0`: the context and
        the memory are the trace's state `n`, its `iterations` is `n`, and no
        earlier state had `complete` set. */
    ghost predicate At(p: Phases, s0: State, task: string, clock: nat -> int, ctx: Context, n: nat)
      reads this
    {
      && p == PhaseLists() && PhasesKeepReserved(p) && currentTask == Some(task)
      && "iterations" in ctx && ctx["iterations"] == Int(n)
      && State(ctx, memory) == Trace(p, memorySize, Some(task), clock, s0, n)
      && NoneComplete(p, memorySize, Some(task), clock, s0, n)
    }

    /** The `while` loop of `run`, from the start context `s0.ctx` and the
        memory `s0.memory`. */
    method Iterate(ghost p: Phases, ghost s0: State, ghost task: string, clock: nat -> int, start: Context)
      returns (ctx: Context, n: nat)
      requires At(p, s0, task, clock, start, 0)
      modifies this`memory
      ensures At(p, s0, task, clock, ctx, n)
      ensures n == 0 || n <= maxIterations
      ensures Complete(ctx) || n >= maxIterations
    {
      ctx := start;
      n := 0;
      while !Complete(ctx) && ctx["iterations"].i < maxIterations
        invariant At(p, s0, task, clock, ctx, n)
        invariant n == 0 || n <= maxIterations
        decreases maxIterations - n
      {
        ctx := Advance(p, s0, task, clock, ctx, n);
        n := n + 1;
        if Complete(ctx) {
          break;
        }
      }
    }

    /** One turn of `run`'s loop from a state that is not complete: bump
        `iterations` and run one pass. */
    method Advance(ghost p: Phases, ghost s0: State, ghost task: string, clock: nat -> int, ctx: Context, n: nat)
      returns (next: Context)
      requires At(p, s0, task, clock, ctx, n) && !Complete(ctx)
      modifies this`memory
      ensures At(p, s0, task, clock, next, n + 1)
    {
      NoneCompleteStep(p, memorySize, Some(task), clock, s0, n);
      ghost var before := State(ctx, memory);
      var bumped := ctx["iterations" := Int(ctx["iterations"].i + 1)];
      assert bumped == before.ctx["iterations" := Int(n + 1)];
      next := RunOnce(bumped, clock(n + 1));
      assert next == Pass(p, bumped, clock(n + 1));
      assert memory == TrimMemory(before.memory + [MemoryEntry(clock(n + 1), Some(task), next)], memorySize);
      assert State(next, memory) == NextState(p, memorySize, Some(task), before, n + 1, clock(n + 1));
      TraceStep(p, memorySize, Some(task), clock, s0, n);
    }
  }
}
