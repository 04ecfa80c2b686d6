/**
 * Emptying the runqueue of a CPU that goes down: the choice of another CPU for a task, and the loop that moves
 * them.
 */
module CpuDeath {
  import opened Wrappers

  type Tid = nat
  type Cpu = nat

  /**
   * The CPU masks during the stop-machine section, with n CPU numbers; `node` is cpumask_of_node() of the node of a
   * CPU, if the node is online, and `cpusets` is CONFIG_CPUSETS.
   */
  datatype Env = Env(n: nat, possible: set<Cpu>, online: set<Cpu>, active: set<Cpu>, node: seq<Option<set<Cpu>>>,
    cpusets: bool)

  /** An active CPU is online and possible, and there is one. */
  predicate EnvOk(env: Env) {
    && env.active <= env.online <= env.possible && (forall c :: c in env.possible ==> c < env.n)
    && |env.node| == env.n && env.active != {}
  }

  /** `cpuset` is the mask that cpuset_cpus_allowed_fallback() would give the task. */
  datatype Task = Task(cpu: Cpu, queued: bool, allowed: set<Cpu>, kthread: bool, cpuset: set<Cpu>, stopper: bool)

  /** is_per_cpu_kthread(): a kernel thread bound to one CPU. */
  predicate PerCpuKthread(t: Task) { t.kthread && |t.allowed| == 1 }

  /** The CPUs for which is_cpu_allowed() holds. */
  function Allowed(env: Env, t: Task): set<Cpu> {
    t.allowed * (if PerCpuKthread(t) then env.online else env.active)
  }

  predicate IsCpuAllowed(env: Env, t: Task, c: Cpu) {
    c in t.allowed && if PerCpuKthread(t) then c in env.online else c in env.active
  }

  /** An active CPU of its mask, or for a kernel thread bound to that one CPU an online one. */
  lemma IsCpuAllowedMeans(env: Env, t: Task, c: Cpu)
    ensures IsCpuAllowed(env, t, c) <==>
      c in t.allowed && c in if t.kthread && t.allowed == {c} then env.online else env.active
  {
    if c in t.allowed && |t.allowed| == 1 { OnlyOne(t.allowed, c); }
  }

  /** The first CPU of a mask, from i on, in the order of for_each_cpu(). */
  function First(mask: set<Cpu>, i: nat, n: nat): (r: Option<Cpu>)
    ensures r.Some? ==> i <= r.value < n && r.value in mask
    ensures forall c :: i <= c < n && c in mask ==> r.Some? && r.value <= c
    decreases n - i
  {
    if i >= n then None else if i in mask then Some(i) else First(mask, i + 1, n)
  }

  // ---------------------------------------------------------------- select_fallback_rq

  /** The CPU chosen, and the task with the mask it ends up with. */
  datatype Choice = Choice(dest: Cpu, task: Task)

  /** The allowed CPUs of the same node, which are looked at first. */
  function NodeLocal(env: Env, cpu: Cpu, t: Task): set<Cpu>
    requires EnvOk(env) && cpu < env.n
  { if env.node[cpu].Some? then env.node[cpu].value * env.active * t.allowed else {} }

  /** The masks tried one after the other. */
  function Widened(env: Env, t: Task): Task {
    if Allowed(env, t) != {} then t
    else if env.cpusets && Allowed(env, t.(allowed := t.cpuset)) != {} then t.(allowed := t.cpuset)
    else t.(allowed := env.possible)
  }

  /**
   * What select_fallback_rq() is for: the first allowed active CPU of the same node, or the first allowed CPU under
   * the narrowest of the three masks that leaves one.
   */
  predicate IsFallback(env: Env, cpu: Cpu, t: Task, r: Choice)
    requires EnvOk(env) && cpu < env.n
  {
    if First(NodeLocal(env, cpu, t), 0, env.n).Some?
    then r == Choice(First(NodeLocal(env, cpu, t), 0, env.n).value, t)
    else r.task == Widened(env, t) && First(Allowed(env, r.task), 0, env.n) == Some(r.dest)
  }

  lemma WidenedAllowsSome(env: Env, t: Task)
    requires EnvOk(env)
    ensures Allowed(env, Widened(env, t)) != {}
  {
    var t' := t.(allowed := env.possible);
    var c :| c in env.active;
    assert c in Allowed(env, t');
  }

  lemma AllowedInRange(env: Env, t: Task)
    requires EnvOk(env)
    ensures First(Allowed(env, t), 0, env.n).None? <==> Allowed(env, t) == {}
  {
    if c :| c in Allowed(env, t) { assert c < env.n; }
  }

  /** Where the search stands. */
  datatype Stage = Cpuset | Possible | Fail

  /** select_fallback_rq().  The last stage, where the source says BUG(), is never left without a CPU. */
  method SelectFallbackRq(env: Env, cpu: Cpu, t: Task) returns (r: Choice)
    requires EnvOk(env) && cpu < env.n
    ensures IsFallback(env, cpu, t, r)
  {
    if env.node[cpu].Some? {
      var nodemask := env.node[cpu].value;
      var c := 0;
      while c < env.n
        invariant 0 <= c <= env.n && First(NodeLocal(env, cpu, t), 0, env.n) == First(NodeLocal(env, cpu, t), c, env.n)
      {
        if c in nodemask && c in env.active && c in t.allowed { return Choice(c, t); }
        c := c + 1;
      }
    }
    var task, stage := t, Cpuset;
    while true
      invariant match stage
        case Cpuset => task == t
        case Possible => env.cpusets && task == t.(allowed := t.cpuset) && Allowed(env, t) == {}
        case Fail => task == t.(allowed := env.possible) && task == Widened(env, t)
      decreases match stage case Cpuset => 2 case Possible => 1 case Fail => 0
    {
      AllowedInRange(env, task);
      WidenedAllowsSome(env, t);
      var c := 0;
      while c < env.n
        invariant 0 <= c <= env.n && First(Allowed(env, task), 0, env.n) == First(Allowed(env, task), c, env.n)
      {
        if c in task.allowed && IsCpuAllowed(env, task, c) { return Choice(c, task); }
        c := c + 1;
      }
      match stage {
        case Cpuset =>
          if env.cpusets {
            task, stage := task.(allowed := task.cpuset), Possible;
          } else {
            task, stage := task.(allowed := env.possible), Fail;
          }
        case Possible => task, stage := task.(allowed := env.possible), Fail;
        case Fail => assert false;
      }
    }
  }

  /** The CPU chosen is one the task may run on, and the mask is only replaced when it leaves no such CPU. */
  lemma FallbackIsAllowed(env: Env, cpu: Cpu, t: Task, r: Choice)
    requires EnvOk(env) && cpu < env.n && IsFallback(env, cpu, t, r)
    ensures IsCpuAllowed(env, r.task, r.dest) && r.dest in env.online && r.dest < env.n
    ensures r.task == t.(allowed := r.task.allowed)
    ensures (exists c :: IsCpuAllowed(env, t, c)) ==> r.task == t
  {
    if c :| IsCpuAllowed(env, t, c) { assert c in Allowed(env, t); }
    if First(NodeLocal(env, cpu, t), 0, env.n).Some? { assert r.dest in Allowed(env, t); }
  }

  /** The task may run on some CPU under the mask m. */
  ghost predicate SomeCpuUnder(env: Env, t: Task, m: set<Cpu>) { exists c :: IsCpuAllowed(env, t.(allowed := m), c) }

  /** An active CPU of the node of `cpu` that the task's mask names. */
  predicate NodeOffers(env: Env, cpu: Cpu, t: Task, c: Cpu)
    requires EnvOk(env) && cpu < env.n
  { env.node[cpu].Some? && c in env.node[cpu].value && c in env.active && c in t.allowed }

  /**
   * Which mask the task ends with, and which CPU: its own mask if that leaves a CPU, else the one its cpuset gives it
   * if that does, else all possible CPUs; the first active CPU of its node that it names, else the first allowed one.
   */
  lemma FallbackMeans(env: Env, cpu: Cpu, t: Task, r: Choice)
    requires EnvOk(env) && cpu < env.n && IsFallback(env, cpu, t, r)
    ensures r.task.allowed ==
      if SomeCpuUnder(env, t, t.allowed) then t.allowed
      else if env.cpusets && SomeCpuUnder(env, t, t.cpuset) then t.cpuset else env.possible
    ensures if exists c: Cpu :: NodeOffers(env, cpu, t, c) then
        NodeOffers(env, cpu, t, r.dest) && forall c: Cpu :: c < r.dest ==> !NodeOffers(env, cpu, t, c)
      else IsCpuAllowed(env, r.task, r.dest) && forall c: Cpu :: c < r.dest ==> !IsCpuAllowed(env, r.task, c)
  {
    forall m: set<Cpu> ensures SomeCpuUnder(env, t, m) <==> Allowed(env, t.(allowed := m)) != {} {
      SomeIsNonempty(env, t, m);
    }
    assert t.(allowed := t.allowed) == t;
    var near := NodeLocal(env, cpu, t);
    assert forall c: Cpu :: NodeOffers(env, cpu, t, c) <==> c in near;
    if First(near, 0, env.n).Some? { assert r.dest in Allowed(env, t); }
    assert forall c: Cpu :: c in near ==> c < env.n;
    assert forall c: Cpu :: IsCpuAllowed(env, r.task, c) <==> c in Allowed(env, r.task);
  }

  lemma SomeIsNonempty(env: Env, t: Task, m: set<Cpu>)
    ensures SomeCpuUnder(env, t, m) <==> Allowed(env, t.(allowed := m)) != {}
  {
    var t' := t.(allowed := m);
    if c :| IsCpuAllowed(env, t', c) { assert c in Allowed(env, t'); }
    if c :| c in Allowed(env, t') { assert IsCpuAllowed(env, t', c); }
  }

  // ---------------------------------------------------------------- migrate_tasks

  /** A queued task is in the queue of its CPU and in no other. */
  ghost predicate QueueOk(tasks: seq<Task>, q: set<Tid>, c: Cpu) {
    forall t: Tid :: t in q <==> t < |tasks| && tasks[t].queued && tasks[t].cpu == c
  }

  ghost predicate QueuesOk(tasks: seq<Task>, queues: seq<set<Tid>>) {
    forall c :: 0 <= c < |queues| ==> QueueOk(tasks, queues[c], c)
  }

  /** move_queued_task() */
  lemma MovedQueues(tasks: seq<Task>, queues: seq<set<Tid>>, p: Tid, dest: Cpu)
    requires QueuesOk(tasks, queues) && p < |tasks| && tasks[p].queued && tasks[p].cpu < |queues| && dest < |queues|
    ensures var src := tasks[p].cpu; var left := queues[src := queues[src] - {p}];
      QueuesOk(tasks[p := tasks[p].(cpu := dest)], left[dest := left[dest] + {p}])
  {
    var src := tasks[p].cpu;
    var left := queues[src := queues[src] - {p}];
    var queues', tasks' := left[dest := left[dest] + {p}], tasks[p := tasks[p].(cpu := dest)];
    forall c | 0 <= c < |queues'| ensures QueueOk(tasks', queues'[c], c) {
      assert QueueOk(tasks, queues[c], c);
    }
  }

  /** do_set_cpus_allowed() leaves the queues alone. */
  lemma MaskedQueues(tasks: seq<Task>, queues: seq<set<Tid>>, p: Tid, t: Task)
    requires QueuesOk(tasks, queues) && p < |tasks| && t.queued == tasks[p].queued && t.cpu == tasks[p].cpu
    ensures QueuesOk(tasks[p := t], queues)
  {
    forall c | 0 <= c < |queues| ensures QueueOk(tasks[p := t], queues[c], c) {
      assert QueueOk(tasks, queues[c], c);
    }
  }

  /** The task of the dead runqueue, with the mask and on the CPU that select_fallback_rq() gives it. */
  predicate Rescued(env: Env, dead: Cpu, t: Task, t': Task)
    requires EnvOk(env) && dead < env.n
  { t'.queued && IsFallback(env, dead, t, Choice(t'.cpu, t'.(cpu := t.cpu))) }

  /** Of the tasks queued on the dead CPU, those no longer in q have been rescued; all others are as they were. */
  ghost predicate Progress(env: Env, dead: Cpu, tasks0: seq<Task>, queue0: set<Tid>, tasks: seq<Task>, q: set<Tid>)
    requires EnvOk(env) && dead < env.n
  {
    && |tasks| == |tasks0| && q <= queue0
    && forall t: Tid :: t < |tasks| ==>
      if t in queue0 && t !in q then Rescued(env, dead, tasks0[t], tasks[t]) else tasks[t] == tasks0[t]
  }

  lemma SomeoneElse(q: set<Tid>, s: Tid)
    requires s in q && |q| != 1
    ensures exists t :: t in q && t != s
  {
    assert q != {s};
  }

  lemma OnlyOne(q: set<Tid>, s: Tid)
    requires s in q && |q| == 1
    ensures q == {s}
  {
    assert |q - {s}| == 0;
  }

  class Machine {
    const env: Env
    var tasks: seq<Task>
    var queues: seq<set<Tid>>      // the tasks that rq->nr_running counts
    var stops: seq<Option<Tid>>    // rq->stop

    ghost predicate Valid()
      reads this
    {
      && EnvOk(env) && |queues| == |stops| == env.n
      && (forall t :: 0 <= t < |tasks| ==> tasks[t].cpu < env.n)
      && QueuesOk(tasks, queues)
    }

    constructor (env: Env, tasks: seq<Task>, queues: seq<set<Tid>>, stops: seq<Option<Tid>>)
      ensures this.env == env && this.tasks == tasks && this.queues == queues && this.stops == stops
    { this.env, this.tasks, this.queues, this.stops := env, tasks, queues, stops; }

    /** __migrate_task() with move_queued_task(); it does nothing if the CPU is not allowed. */
    method MigrateTask(p: Tid, dest: Cpu)
      requires Valid() && p < |tasks| && tasks[p].queued && dest < env.n
      modifies this`tasks, this`queues
      ensures Valid()
      ensures !IsCpuAllowed(env, old(tasks)[p], dest) ==> tasks == old(tasks) && queues == old(queues)
      ensures IsCpuAllowed(env, old(tasks)[p], dest) ==>
        && tasks == old(tasks)[p := old(tasks)[p].(cpu := dest)]
        && forall c :: 0 <= c < env.n && c != dest ==> queues[c] == old(queues)[c] - {p}
    {
      if !IsCpuAllowed(env, tasks[p], dest) { return; }
      MovedQueues(tasks, queues, p, dest);
      assert forall c :: 0 <= c < env.n && c != tasks[p].cpu ==> QueueOk(tasks, queues[c], c) && p !in queues[c];
      var src := tasks[p].cpu;
      queues := queues[src := queues[src] - {p}];
      tasks := tasks[p := tasks[p].(cpu := dest)];
      queues := queues[dest := queues[dest] + {p}];
    }

    /** The body of the loop in migrate_tasks(): `next` goes to the CPU that select_fallback_rq() names. */
    method RescueTask(dead: Cpu, next: Tid) returns (warned: bool)
      requires Valid() && dead < env.n && dead !in env.online && next in queues[dead]
      modifies this`tasks, this`queues
      ensures Valid() && !warned && queues[dead] == old(queues)[dead] - {next}
      ensures next < |old(tasks)| == |tasks| && tasks == old(tasks)[next := tasks[next]]
      ensures Rescued(env, dead, old(tasks)[next], tasks[next])
    {
      assert QueueOk(tasks, queues[dead], dead);
      warned := tasks[next].cpu != dead || !tasks[next].queued;
      var r := SelectFallbackRq(env, dead, tasks[next]);
      FallbackIsAllowed(env, dead, tasks[next], r);
      MaskedQueues(tasks, queues, next, r.task);
      tasks := tasks[next := r.task];
      MigrateTask(next, r.dest);
    }

    /** __pick_migrate_task(): the stop class comes first and offers rq->stop, the others have the other tasks. */
    method PickMigrateTask(dead: Cpu) returns (next: Tid)
      requires Valid() && dead < env.n
      requires (stops[dead].Some? && stops[dead].value in queues[dead])
        || exists t :: t in queues[dead] && t < |tasks| && !tasks[t].stopper
      ensures next in queues[dead] && next < |tasks|
      ensures if stops[dead].Some? && stops[dead].value in queues[dead] then next == stops[dead].value
        else !tasks[next].stopper
    {
      assert QueueOk(tasks, queues[dead], dead);
      if stops[dead].Some? && stops[dead].value in queues[dead] { return stops[dead].value; }
      next :| next in queues[dead] && !tasks[next].stopper;
    }

    /**
     * migrate_tasks() on a CPU that is no longer online: it ends, with only the stopper left; every other task that
     * was queued there is queued on a CPU chosen by select_fallback_rq(), and no other task is touched.
     */
    method MigrateTasks(dead: Cpu) returns (warned: bool)
      requires Valid() && dead < env.n && dead !in env.online
      requires stops[dead].Some? && stops[dead].value in queues[dead]
      requires forall t: Tid :: t in queues[dead] ==> t < |tasks| && (tasks[t].stopper <==> stops[dead] == Some(t))
      modifies this
      ensures Valid() && !warned && stops == old(stops)
      ensures queues[dead] == {old(stops)[dead].value}
      ensures Progress(env, dead, old(tasks), old(queues)[dead], tasks, {old(stops)[dead].value})
    {
      ghost var tasks0, queue0 := tasks, queues[dead];
      var stop := stops[dead];
      stops := stops[dead := None];
      warned := false;
      while |queues[dead]| != 1
        invariant Valid() && stops == old(stops)[dead := None] && !warned
        invariant stop.value in queues[dead] && Progress(env, dead, tasks0, queue0, tasks, queues[dead])
        decreases |queues[dead]|
      {
        assert QueueOk(tasks, queues[dead], dead);
        SomeoneElse(queues[dead], stop.value);
        var next := PickMigrateTask(dead);
        var w := RescueTask(dead, next);
        warned := warned || w;
      }
      OnlyOne(queues[dead], stop.value);
      stops := stops[dead := stop];
    }
  }

  /**
   * After the loop every task that was queued on the dead CPU, but the stopper, is queued exactly once, on an online
   * CPU allowed for it; a task that could have run elsewhere keeps its mask.
   */
  lemma EveryoneRescued(env: Env, dead: Cpu, tasks0: seq<Task>, queue0: set<Tid>, tasks: seq<Task>,
      queues: seq<set<Tid>>, stop: Tid, t: Tid)
    requires EnvOk(env) && dead < env.n == |queues| && dead !in env.online
    requires QueuesOk(tasks, queues) && Progress(env, dead, tasks0, queue0, tasks, {stop}) && t in queue0
      && t != stop && t < |tasks|
    ensures var c := tasks[t].cpu;
      && c != dead && c in env.online && IsCpuAllowed(env, tasks[t], c)
      && (forall d :: 0 <= d < |queues| ==> (t in queues[d] <==> d == c))
      && ((exists d :: IsCpuAllowed(env, tasks0[t], d)) ==> tasks[t].allowed == tasks0[t].allowed)
  {
    FallbackIsAllowed(env, dead, tasks0[t], Choice(tasks[t].cpu, tasks[t].(cpu := tasks0[t].cpu)));
    forall d | 0 <= d < |queues| ensures t in queues[d] <==> d == tasks[t].cpu {
      assert QueueOk(tasks, queues[d], d);
    }
  }
}
