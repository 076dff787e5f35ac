/** The workspace lock (common/lock.py) for one lock path: every process keeps a registry shared by its threads and
    lock objects, and only the first acquire of a process competes for the advisory file lock. Each atomic step of
    acquire and release is an event; any number of processes, threads and lock objects interleave. */
module Lock {
  import opened StateModels

  /** One WorkspaceLock object: _file_descriptor and _local_depth. */
  datatype Instance = Instance(fd: Option<nat>, local: nat)
  {
    predicate IsLocked() { fd.Some? && local > 0 }
  }

  /** Where a thread is between two atomic steps. */
  datatype Thread =
    | Idle
    | Polling(inst: nat, fd: nat)      // opened a descriptor, does not hold the file lock
    | Registering(inst: nat, fd: nat)  // holds the file lock, not yet in the registry
    | Unlocking(fd: nat)               // out of the registry, still holds the file lock

  /** _LOCK_REGISTRY and _FD_REGISTRY of one process, with its lock objects and threads. */
  datatype Process = Process(depth: nat, fd: Option<nat>, instances: seq<Instance>, threads: seq<Thread>)

  /** flock is the descriptor that holds the file lock; locks and unlocks count its changes. */
  datatype System = System(processes: seq<Process>, flock: Option<nat>, open: set<nat>, locks: nat, unlocks: nat)

  // ---- the registry steps, each under the registry's own mutex ----

  /** acquire while the process already holds the lock. */
  function Nested(p: Process, x: nat): Process
    requires x < |p.instances|
  {
    p.(depth := p.depth + 1, instances := p.instances[x := Instance(p.fd, p.instances[x].local + 1)])
  }

  /** acquire after the file lock was won. */
  function Registered(p: Process, x: nat, fd: nat): Process
    requires x < |p.instances|
  {
    p.(depth := 1, fd := Some(fd), instances := p.instances[x := Instance(Some(fd), 1)])
  }

  /** release of a locked object; the last one takes the descriptor out of the registry. */
  function Released(p: Process, x: nat): Process
    requires x < |p.instances| && p.instances[x].IsLocked()
  {
    var i := p.instances[x].(local := p.instances[x].local - 1);
    if p.depth > 1 then
      p.(depth := p.depth - 1, instances := p.instances[x := if i.local == 0 then i.(fd := None) else i])
    else
      p.(depth := 0, fd := None, instances := p.instances[x := i.(fd := None)])
  }

  /** The descriptor a release has to unlock and close, when it was the last one. */
  function ToUnlock(p: Process): Option<nat> {
    if p.depth > 1 then None else p.fd
  }

  datatype Event =
    | Enter(p: nat, t: nat, x: nat, fd: nat)  // acquire up to opening the lock file, or all of a nested one
    | TryLock(p: nat, t: nat)                     // one poll
    | GiveUp(p: nat, t: nat)                      // the timeout, or an error: the descriptor is closed
    | Register(p: nat, t: nat)
    | Exit(p: nat, t: nat, x: nat)                // release up to leaving the registry
    | Unlock(p: nat, t: nat)                      // unlock and close
    | Die(p: nat)                                 // the process ends: its descriptors are closed

  function ThreadAt(s: System, p: nat, t: nat): Option<Thread> {
    if p < |s.processes| && t < |s.processes[p].threads| then Some(s.processes[p].threads[t]) else None
  }

  predicate Enabled(s: System, e: Event) {
    match e
    case Enter(p, t, x, fd) => ThreadAt(s, p, t) == Some(Idle) && x < |s.processes[p].instances| && fd !in s.open
    case TryLock(p, t) => ThreadAt(s, p, t).Some? && ThreadAt(s, p, t).value.Polling?
    case GiveUp(p, t) => ThreadAt(s, p, t).Some? && ThreadAt(s, p, t).value.Polling?
    case Register(p, t) =>
      && ThreadAt(s, p, t).Some? && ThreadAt(s, p, t).value.Registering?
      && ThreadAt(s, p, t).value.inst < |s.processes[p].instances|
    case Exit(p, t, x) => ThreadAt(s, p, t) == Some(Idle) && x < |s.processes[p].instances|
    case Unlock(p, t) => ThreadAt(s, p, t).Some? && ThreadAt(s, p, t).value.Unlocking?
    case Die(p) => p < |s.processes|
  }

  function Put(s: System, p: nat, q: Process): System
    requires p < |s.processes|
  {
    s.(processes := s.processes[p := q])
  }

  function SetThread(q: Process, t: nat, th: Thread): Process
    requires t < |q.threads|
  {
    q.(threads := q.threads[t := th])
  }

  /** The descriptors a process has open. */
  function Descriptors(q: Process): set<nat> {
    (if q.fd.Some? then {q.fd.value} else {})
    + (set t | 0 <= t < |q.threads| && !q.threads[t].Idle? :: q.threads[t].fd)
  }

  function Dead(q: Process): Process {
    Process(0, None, seq(|q.instances|, _ => Instance(None, 0)), seq(|q.threads|, _ => Idle))
  }

  function After(s: System, e: Event): System
    requires Enabled(s, e)
  {
    var q := s.processes[e.p];
    match e
    case Enter(p, t, x, fd) =>
      if q.depth > 0 then Put(s, p, Nested(q, x))
      else Put(s, p, SetThread(q, t, Polling(x, fd))).(open := s.open + {fd})
    case TryLock(p, t) =>
      if s.flock.Some? then s
      else
        var th := q.threads[t];
        Put(s, p, SetThread(q, t, Registering(th.inst, th.fd))).(flock := Some(th.fd), locks := s.locks + 1)
    case GiveUp(p, t) => Put(s, p, SetThread(q, t, Idle)).(open := s.open - {q.threads[t].fd})
    case Register(p, t) =>
      var th := q.threads[t];
      Put(s, p, SetThread(Registered(q, th.inst, th.fd), t, Idle))
    case Exit(p, t, x) =>
      if !q.instances[x].IsLocked() then s
      else
        var fd := ToUnlock(q);
        Put(s, p, SetThread(Released(q, x), t, if fd.Some? then Unlocking(fd.value) else Idle))
    case Unlock(p, t) =>
      var fd := q.threads[t].fd;
      var s1 := Put(s, p, SetThread(q, t, Idle)).(open := s.open - {fd});
      if s.flock == Some(fd) then s1.(flock := None, unlocks := s.unlocks + 1) else s1
    case Die(p) =>
      var s1 := Put(s, p, Dead(q)).(open := s.open - Descriptors(q));
      if s.flock.Some? && s.flock.value in Descriptors(q) then s1.(flock := None, unlocks := s.unlocks + 1) else s1
  }

  // ---- the invariant ----

  function Sum(instances: seq<Instance>): nat {
    if instances == [] then 0 else Sum(instances[..|instances| - 1]) + Last(instances).local
  }

  predicate Holding(th: Thread) { th.Registering? || th.Unlocking? }

  /** The process has the file lock, in its registry or in one thread's hands. */
  predicate Holds(q: Process) {
    q.depth > 0 || exists t :: 0 <= t < |q.threads| && Holding(q.threads[t])
  }

  /** The registries of a process and its lock objects agree: the depth is the sum of the local depths, there is a
      descriptor exactly while it is positive, and exactly the objects that hold the lock share it. */
  predicate Tidy(q: Process) {
    && q.depth == Sum(q.instances) && (q.depth > 0 <==> q.fd.Some?)
    && (forall x :: 0 <= x < |q.instances| ==>
          if q.instances[x].local > 0 then q.fd.Some? && q.instances[x].fd == q.fd else q.instances[x].fd.None?)
  }

  /** One process: its registries are tidy, the registered descriptor is the one that holds the file lock, and the lock
      is in one place only. */
  predicate Fits(q: Process, flock: Option<nat>, open: set<nat>) {
    && Tidy(q) && (q.fd.Some? ==> flock == q.fd && q.fd.value in open)
    && (forall t :: 0 <= t < |q.threads| && !q.threads[t].Idle? ==> q.threads[t].fd in open)
    && (forall t :: 0 <= t < |q.threads| && Holding(q.threads[t]) ==> flock == Some(q.threads[t].fd) && q.depth == 0)
    && (forall t :: 0 <= t < |q.threads| && (q.threads[t].Polling? || q.threads[t].Registering?) ==>
          q.threads[t].inst < |q.instances|)
    && (forall t :: 0 <= t < |q.threads| && q.threads[t].Polling? ==> flock != Some(q.threads[t].fd))
    && (forall t, u :: 0 <= t < u < |q.threads| && Holding(q.threads[t]) ==> !Holding(q.threads[u]))
    && (forall t, u :: 0 <= t < u < |q.threads| && q.threads[t].Polling? && q.threads[u].Polling? ==>
          q.threads[t].fd != q.threads[u].fd)
  }

  predicate Apart(a: Process, b: Process) {
    && !(Holds(a) && Holds(b))
    && forall t, u :: 0 <= t < |a.threads| && 0 <= u < |b.threads| && a.threads[t].Polling? && b.threads[u].Polling? ==>
         a.threads[t].fd != b.threads[u].fd
  }

  predicate Inv(s: System) {
    && (forall p :: 0 <= p < |s.processes| ==> Fits(s.processes[p], s.flock, s.open))
    && (forall p, q :: 0 <= p < q < |s.processes| ==> Apart(s.processes[p], s.processes[q]))
    && (s.flock.Some? ==> exists p :: 0 <= p < |s.processes| && Holds(s.processes[p]))
    && s.locks == s.unlocks + (if s.flock.Some? then 1 else 0)
  }

  lemma {:induction false} SumUpdate(a: seq<Instance>, x: nat, i: Instance)
    requires x < |a|
    ensures Sum(a[x := i]) == Sum(a) - a[x].local + i.local
  {
    var n := |a| - 1;
    if x == n {
      assert a[x := i][..n] == a[..n];
    } else {
      assert a[x := i][..n] == a[..n][x := i];
      SumUpdate(a[..n], x, i);
    }
  }

  lemma {:induction false} SumBounds(a: seq<Instance>, x: nat)
    requires x < |a|
    ensures a[x].local <= Sum(a)
  {
    if x < |a| - 1 { SumBounds(a[..|a| - 1], x); }
  }

  lemma {:induction false} SumZero(a: seq<Instance>)
    requires forall x :: 0 <= x < |a| ==> a[x].local == 0
    ensures Sum(a) == 0
  {
    if a != [] { SumZero(a[..|a| - 1]); }
  }

  /** When the sum is all in one object the others have none. */
  lemma SumOnly(a: seq<Instance>, x: nat, y: nat)
    requires x < |a| && y < |a| && x != y && Sum(a) == a[x].local
    ensures a[y].local == 0
  {
    SumUpdate(a, x, Instance(None, 0));
    SumBounds(a[x := Instance(None, 0)], y);
  }

  // ---- single steps ----

  lemma NestedTidy(q: Process, x: nat)
    requires Tidy(q) && q.depth > 0 && x < |q.instances|
    ensures Tidy(Nested(q, x)) && q.fd.Some?
  {
    SumUpdate(q.instances, x, Instance(q.fd, q.instances[x].local + 1));
  }

  lemma RegisteredTidy(q: Process, x: nat, fd: nat)
    requires Tidy(q) && q.depth == 0 && x < |q.instances|
    ensures Tidy(Registered(q, x, fd)) && forall y :: 0 <= y < |q.instances| ==> q.instances[y] == Instance(None, 0)
  {
    SumUpdate(q.instances, x, Instance(Some(fd), 1));
    forall y | 0 <= y < |q.instances|
      ensures q.instances[y] == Instance(None, 0)
    {
      SumBounds(q.instances, y);
    }
  }

  /** Only the release that brings the depth to zero gives the descriptor up, and then no object holds anything. */
  lemma ReleasedTidy(q: Process, x: nat)
    requires Tidy(q) && x < |q.instances| && q.instances[x].IsLocked()
    ensures var r := Released(q, x);
            && Tidy(r) && r.depth == q.depth - 1 && q.fd.Some?
            && (r.depth == 0 ==> forall y :: 0 <= y < |r.instances| ==> r.instances[y] == Instance(None, 0))
  {
    var r := Released(q, x);
    SumBounds(q.instances, x);
    SumUpdate(q.instances, x, r.instances[x]);
    if q.depth == 1 {
      forall y | 0 <= y < |q.instances| && y != x
        ensures q.instances[y].local == 0
      {
        SumOnly(q.instances, x, y);
      }
    }
  }

  lemma NestedFits(q: Process, flock: Option<nat>, open: set<nat>, x: nat)
    requires Fits(q, flock, open) && q.depth > 0 && x < |q.instances|
    ensures Fits(Nested(q, x), flock, open) && Holds(q) && Holds(Nested(q, x))
  {
    hide Sum;
    NestedTidy(q, x);
  }

  lemma RegisterFits(q: Process, flock: Option<nat>, open: set<nat>, t: nat)
    requires Fits(q, flock, open) && t < |q.threads| && q.threads[t].Registering?
    ensures Fits(SetThread(Registered(q, q.threads[t].inst, q.threads[t].fd), t, Idle), flock, open)
    ensures Holds(q) && Holds(SetThread(Registered(q, q.threads[t].inst, q.threads[t].fd), t, Idle))
  {
    hide Sum;
    RegisteredTidy(q, q.threads[t].inst, q.threads[t].fd);
    assert Holding(q.threads[t]);
  }

  /** Releases may come in any order: only the one that brings the depth to zero gives the descriptor up. */
  lemma ReleaseFits(q: Process, flock: Option<nat>, open: set<nat>, t: nat, x: nat)
    requires Fits(q, flock, open) && t < |q.threads| && q.threads[t].Idle? && x < |q.instances|
    requires q.instances[x].IsLocked()
    ensures var fd := ToUnlock(q);
            var r := SetThread(Released(q, x), t, if fd.Some? then Unlocking(fd.value) else Idle);
            Fits(r, flock, open) && Holds(q) && Holds(r) && (fd.Some? <==> r.depth == 0) && r.depth == q.depth - 1
  {
    var fd := ToUnlock(q);
    var r := SetThread(Released(q, x), t, if fd.Some? then Unlocking(fd.value) else Idle);
    ReleasedTidy(q, x);
    if fd.Some? { assert Holding(r.threads[t]); }
  }

  lemma DeadFits(q: Process, flock: Option<nat>, open: set<nat>)
    ensures Fits(Dead(q), flock, open) && !Holds(Dead(q))
  {
    SumZero(Dead(q).instances);
  }

  /** A process that does not hold the lock still fits when others change who does, as long as they do not give it to
      a descriptor it polls. */
  lemma BystanderFits(q: Process, flock: Option<nat>, open: set<nat>, flock1: Option<nat>, open1: set<nat>)
    requires Fits(q, flock, open) && !Holds(q)
    requires forall t :: 0 <= t < |q.threads| && q.threads[t].Polling? ==>
               flock1 != Some(q.threads[t].fd) && q.threads[t].fd in open1
    ensures Fits(q, flock1, open1)
  {
  }

  // ---- every event keeps the invariant ----

  /** Replacing one process. */
  lemma ReplaceKeeps(s: System, s1: System, p: nat, q1: Process)
    requires Inv(s) && p < |s.processes| && s1.processes == s.processes[p := q1]
    requires Fits(q1, s1.flock, s1.open) && s1.locks == s1.unlocks + (if s1.flock.Some? then 1 else 0)
    requires forall r :: 0 <= r < |s.processes| && r != p ==>
               Fits(s.processes[r], s1.flock, s1.open) && Apart(q1, s.processes[r])
    requires s1.flock.Some? ==> Holds(q1) || (s.flock.Some? && !Holds(s.processes[p]))
    ensures Inv(s1)
  {
    hide Fits, Holds;
    forall a, b | 0 <= a < b < |s1.processes|
      ensures Apart(s1.processes[a], s1.processes[b])
    {
      if a == p { assert Apart(q1, s.processes[b]); }
      if b == p { assert Apart(q1, s.processes[a]); }
      if a != p && b != p { assert Apart(s.processes[a], s.processes[b]); }
    }
    if s1.flock.Some? {
      if Holds(q1) {
        assert Holds(s1.processes[p]);
      } else {
        var h :| 0 <= h < |s.processes| && Holds(s.processes[h]);
        assert Holds(s1.processes[h]);
      }
    }
  }

  lemma ApartSym(s: System, p: nat, r: nat)
    requires Inv(s) && p < |s.processes| && r < |s.processes| && p != r
    ensures Apart(s.processes[p], s.processes[r])
  {
    hide Fits;
    if p < r { assert Apart(s.processes[p], s.processes[r]); } else { assert Apart(s.processes[r], s.processes[p]); }
  }

  /** The same process with one thread moved, holding no more and polling no more than before. */
  lemma LessApart(a: Process, a1: Process, b: Process)
    requires Apart(a, b) && (Holds(a1) ==> Holds(a)) && |a1.threads| == |a.threads|
    requires forall t :: 0 <= t < |a.threads| && a1.threads[t].Polling? ==> a1.threads[t] == a.threads[t]
    ensures Apart(a1, b)
  {
    hide Holds;
  }

  /** Processes other than p are untouched by a step of p that keeps the file lock and only closes descriptors p
      alone has. */
  lemma CloseFits(r: Process, flock: Option<nat>, open: set<nat>, fd: nat)
    requires Fits(r, flock, open) && flock != Some(fd)
    requires forall t :: 0 <= t < |r.threads| && r.threads[t].Polling? ==> r.threads[t].fd != fd
    ensures Fits(r, flock, open - {fd})
  {
  }

  lemma OpenFits(r: Process, flock: Option<nat>, open: set<nat>, fd: nat)
    requires Fits(r, flock, open)
    ensures Fits(r, flock, open + {fd})
  {
  }

  lemma EnterKeeps(s: System, p: nat, t: nat, x: nat, fd: nat)
    requires Inv(s) && Enabled(s, Enter(p, t, x, fd))
    ensures Inv(After(s, Enter(p, t, x, fd)))
  {
    var q := s.processes[p];
    var s1 := After(s, Enter(p, t, x, fd));
    var q1 := s1.processes[p];
    if q.depth > 0 {
      NestedFits(q, s.flock, s.open, x);
      forall r | 0 <= r < |s.processes| && r != p
        ensures Fits(s.processes[r], s1.flock, s1.open) && Apart(q1, s.processes[r])
      {
        ApartSym(s, p, r);
        LessApart(q, q1, s.processes[r]);
      }
      hide Fits, Apart;
      ReplaceKeeps(s, s1, p, q1);
    } else {
      OpenedFits(q, s.flock, s.open, t, x, fd);
      forall r | 0 <= r < |s.processes| && r != p
        ensures Fits(s.processes[r], s1.flock, s1.open) && Apart(q1, s.processes[r])
      {
        ApartSym(s, p, r);
        OpenFits(s.processes[r], s.flock, s.open, fd);
        OpenedApart(q, s.processes[r], s.flock, s.open, t, x, fd);
      }
      hide Fits, Apart, Holds;
      ReplaceKeeps(s, s1, p, q1);
    }
  }

  lemma OpenedFits(q: Process, flock: Option<nat>, open: set<nat>, t: nat, x: nat, fd: nat)
    requires Fits(q, flock, open) && fd !in open && t < |q.threads| && q.threads[t].Idle? && x < |q.instances|
    requires q.depth == 0
    requires flock.Some? ==> flock.value in open
    ensures Fits(SetThread(q, t, Polling(x, fd)), flock, open + {fd})
    ensures Holds(SetThread(q, t, Polling(x, fd))) <==> Holds(q)
  {
    var r := SetThread(q, t, Polling(x, fd));
    if Holds(q) {
      var u :| 0 <= u < |q.threads| && Holding(q.threads[u]);
      assert Holding(r.threads[u]);
    }
  }

  lemma OpenedApart(q: Process, r: Process, flock: Option<nat>, open: set<nat>, t: nat, x: nat, fd: nat)
    requires Apart(q, r) && Fits(r, flock, open) && fd !in open && t < |q.threads| && q.threads[t].Idle?
    ensures Apart(SetThread(q, t, Polling(x, fd)), r)
  {
    var q1 := SetThread(q, t, Polling(x, fd));
    if Holds(q1) && q1.depth == 0 {
      var u :| 0 <= u < |q1.threads| && Holding(q1.threads[u]);
      assert Holding(q.threads[u]);
    }
  }

  /** A step of p that changes neither the file lock nor the open descriptors, and starts no polling. */
  lemma QuietKeeps(s: System, s1: System, p: nat, q1: Process)
    requires Inv(s) && p < |s.processes| && s1 == s.(processes := s.processes[p := q1])
    requires Fits(q1, s.flock, s.open) && Holds(q1) && Holds(s.processes[p]) && |q1.threads| == |s.processes[p].threads|
    requires forall t :: 0 <= t < |q1.threads| && q1.threads[t].Polling? ==> q1.threads[t] == s.processes[p].threads[t]
    ensures Inv(s1)
  {
    hide Fits, Holds;
    forall r | 0 <= r < |s.processes| && r != p
      ensures Fits(s.processes[r], s1.flock, s1.open) && Apart(q1, s.processes[r])
    {
      ApartSym(s, p, r);
      LessApart(s.processes[p], q1, s.processes[r]);
    }
    hide Apart;
    ReplaceKeeps(s, s1, p, q1);
  }

  lemma RegisterKeeps(s: System, p: nat, t: nat)
    requires Inv(s) && Enabled(s, Register(p, t))
    ensures Inv(After(s, Register(p, t)))
  {
    hide Apart, Holds;
    RegisterFits(s.processes[p], s.flock, s.open, t);
    QuietKeeps(s, After(s, Register(p, t)), p, After(s, Register(p, t)).processes[p]);
  }

  lemma ExitKeeps(s: System, p: nat, t: nat, x: nat)
    requires Inv(s) && Enabled(s, Exit(p, t, x))
    ensures Inv(After(s, Exit(p, t, x)))
  {
    hide Apart, Holds;
    if s.processes[p].instances[x].IsLocked() {
      ReleaseFits(s.processes[p], s.flock, s.open, t, x);
      QuietKeeps(s, After(s, Exit(p, t, x)), p, After(s, Exit(p, t, x)).processes[p]);
    }
  }

  /** With the file lock free no process holds it. */
  lemma FreeMeansNone(q: Process, open: set<nat>)
    requires Fits(q, None, open)
    ensures !Holds(q)
  {
  }

  lemma TryLockKeeps(s: System, p: nat, t: nat)
    requires Inv(s) && Enabled(s, TryLock(p, t))
    ensures Inv(After(s, TryLock(p, t)))
  {
    if s.flock.None? {
      var q := s.processes[p];
      var s1 := After(s, TryLock(p, t));
      var q1 := s1.processes[p];
      FreeMeansNone(q, s.open);
      WonFits(q, s.open, t);
      forall r | 0 <= r < |s.processes| && r != p
        ensures Fits(s.processes[r], s1.flock, s1.open) && Apart(q1, s.processes[r])
      {
        FreeMeansNone(s.processes[r], s.open);
        ApartSym(s, p, r);
        BystanderFits(s.processes[r], s.flock, s.open, s1.flock, s1.open);
      }
      hide Fits, Apart, Holds;
      ReplaceKeeps(s, s1, p, q1);
    }
  }

  lemma WonFits(q: Process, open: set<nat>, t: nat)
    requires Fits(q, None, open) && !Holds(q) && t < |q.threads| && q.threads[t].Polling?
    ensures var q1 := SetThread(q, t, Registering(q.threads[t].inst, q.threads[t].fd));
            Fits(q1, Some(q.threads[t].fd), open) && Holds(q1)
  {
    var q1 := SetThread(q, t, Registering(q.threads[t].inst, q.threads[t].fd));
    assert Holding(q1.threads[t]);
  }

  lemma GiveUpKeeps(s: System, p: nat, t: nat)
    requires Inv(s) && Enabled(s, GiveUp(p, t))
    ensures Inv(After(s, GiveUp(p, t)))
  {
    var q := s.processes[p];
    var s1 := After(s, GiveUp(p, t));
    var q1 := s1.processes[p];
    var fd := q.threads[t].fd;
    GivenUpFits(q, s.flock, s.open, t);
    forall r | 0 <= r < |s.processes| && r != p
      ensures Fits(s.processes[r], s1.flock, s1.open) && Apart(q1, s.processes[r])
    {
      ApartSym(s, p, r);
      CloseFits(s.processes[r], s.flock, s.open, fd);
      LessApart(q, q1, s.processes[r]);
    }
    hide Fits, Apart, Holds;
    ReplaceKeeps(s, s1, p, q1);
  }

  lemma GivenUpFits(q: Process, flock: Option<nat>, open: set<nat>, t: nat)
    requires Fits(q, flock, open) && t < |q.threads| && q.threads[t].Polling?
    ensures Fits(SetThread(q, t, Idle), flock, open - {q.threads[t].fd})
    ensures Holds(SetThread(q, t, Idle)) <==> Holds(q)
  {
    hide Sum;
    var r := SetThread(q, t, Idle);
    if Holds(q) && q.depth == 0 {
      var u :| 0 <= u < |q.threads| && Holding(q.threads[u]);
      assert Holding(r.threads[u]);
    }
    if Holds(r) && r.depth == 0 {
      var u :| 0 <= u < |r.threads| && Holding(r.threads[u]);
      assert Holding(q.threads[u]);
    }
  }

  lemma UnlockKeeps(s: System, p: nat, t: nat)
    requires Inv(s) && Enabled(s, Unlock(p, t))
    ensures Inv(After(s, Unlock(p, t)))
  {
    var q := s.processes[p];
    var s1 := After(s, Unlock(p, t));
    var q1 := s1.processes[p];
    UnlockedFits(q, s.flock, s.open, t);
    forall r | 0 <= r < |s.processes| && r != p
      ensures Fits(s.processes[r], s1.flock, s1.open) && Apart(q1, s.processes[r])
    {
      ApartSym(s, p, r);
      BystanderFits(s.processes[r], s.flock, s.open, s1.flock, s1.open);
      LessApart(q, q1, s.processes[r]);
    }
    hide Fits, Apart, Holds;
    ReplaceKeeps(s, s1, p, q1);
  }

  lemma UnlockedFits(q: Process, flock: Option<nat>, open: set<nat>, t: nat)
    requires Fits(q, flock, open) && t < |q.threads| && q.threads[t].Unlocking?
    ensures Holds(q) && flock == Some(q.threads[t].fd)
    ensures Fits(SetThread(q, t, Idle), None, open - {q.threads[t].fd}) && !Holds(SetThread(q, t, Idle))
  {
    assert Holding(q.threads[t]);
  }

  lemma DieKeeps(s: System, p: nat)
    requires Inv(s) && Enabled(s, Die(p))
    ensures Inv(After(s, Die(p)))
  {
    var q := s.processes[p];
    var s1 := After(s, Die(p));
    var q1 := s1.processes[p];
    DeadFits(q, s1.flock, s1.open);
    DeadLetsGo(q, s.flock, s.open);
    forall r | 0 <= r < |s.processes| && r != p
      ensures Fits(s.processes[r], s1.flock, s1.open) && Apart(q1, s.processes[r])
    {
      ApartSym(s, p, r);
      if Holds(s.processes[r]) {
        SurvivorFits(q, s.processes[r], s.flock, s.open);
      } else {
        BystanderFits(s.processes[r], s.flock, s.open, s1.flock, s1.open);
      }
    }
    hide Fits, Apart, Holds;
    ReplaceKeeps(s, s1, p, q1);
  }

  /** The file lock is among the descriptors of exactly the process that holds it. */
  lemma DeadLetsGo(q: Process, flock: Option<nat>, open: set<nat>)
    requires Fits(q, flock, open)
    ensures Holds(q) <==> flock.Some? && flock.value in Descriptors(q)
  {
    if Holds(q) && q.depth == 0 {
      var t :| 0 <= t < |q.threads| && Holding(q.threads[t]);
      assert q.threads[t].fd in Descriptors(q);
    }
  }

  lemma SurvivorFits(q: Process, r: Process, flock: Option<nat>, open: set<nat>)
    requires Fits(q, flock, open) && Fits(r, flock, open) && Apart(q, r) && Holds(r)
    ensures Fits(r, flock, open - Descriptors(q))
  {
    DeadLetsGo(q, flock, open);
    forall t | 0 <= t < |r.threads| && !r.threads[t].Idle?
      ensures r.threads[t].fd !in Descriptors(q)
    {
    }
  }

  lemma EventKeeps(s: System, e: Event)
    requires Inv(s) && Enabled(s, e)
    ensures Inv(After(s, e))
  {
    hide Inv, Enabled, After;
    match e
    case Enter(p, t, x, fd) => EnterKeeps(s, p, t, x, fd);
    case TryLock(p, t) => TryLockKeeps(s, p, t);
    case GiveUp(p, t) => GiveUpKeeps(s, p, t);
    case Register(p, t) => RegisterKeeps(s, p, t);
    case Exit(p, t, x) => ExitKeeps(s, p, t, x);
    case Unlock(p, t) => UnlockKeeps(s, p, t);
    case Die(p) => DieKeeps(s, p);
  }

  // ---- whole histories ----

  predicate CanHappen(s: System, events: seq<Event>)
    decreases |events|
  {
    events != [] ==> Enabled(s, events[0]) && CanHappen(After(s, events[0]), events[1..])
  }

  function AfterAll(s: System, events: seq<Event>): System
    requires CanHappen(s, events)
    decreases |events|
  {
    if events == [] then s else AfterAll(After(s, events[0]), events[1..])
  }

  lemma {:induction false} HistoryKeeps(s: System, events: seq<Event>)
    requires Inv(s) && CanHappen(s, events)
    ensures Inv(AfterAll(s, events))
    decreases |events|
  {
    hide Inv, Enabled, After;
    if events != [] {
      EventKeeps(s, events[0]);
      HistoryKeeps(After(s, events[0]), events[1..]);
    }
  }

  /** Nobody has touched the lock yet. */
  predicate Untouched(s: System) {
    && s.flock.None? && s.locks == s.unlocks == 0
    && forall p :: 0 <= p < |s.processes| ==> s.processes[p] == Dead(s.processes[p])
  }

  lemma UntouchedInv(s: System)
    requires Untouched(s)
    ensures Inv(s)
  {
    forall p | 0 <= p < |s.processes|
      ensures Fits(s.processes[p], s.flock, s.open) && !Holds(s.processes[p])
    {
      DeadFits(s.processes[p], s.flock, s.open);
    }
  }

  /** Everything acquired has been released or has timed out. */
  predicate AllReleased(s: System) {
    forall p :: 0 <= p < |s.processes| ==>
      s.processes[p].depth == 0 && forall t :: 0 <= t < |s.processes[p].threads| ==> s.processes[p].threads[t].Idle?
  }

  /** The lock protocol: under every interleaving of processes, threads and lock objects at most one process is in the
      lock, its registry depth is what its objects hold in all, the file lock is undone exactly once each time it was
      won, and it is free once everything was released or timed out. */
  lemma LockProtocol(s: System, events: seq<Event>)
    requires Untouched(s) && CanHappen(s, events)
    ensures var r := AfterAll(s, events);
            && (forall p, q :: 0 <= p < q < |r.processes| ==> r.processes[p].depth == 0 || r.processes[q].depth == 0)
            && (forall p :: 0 <= p < |r.processes| ==> r.processes[p].depth == Sum(r.processes[p].instances))
            && r.locks == r.unlocks + (if r.flock.Some? then 1 else 0)
            && (AllReleased(r) ==> r.flock.None? && r.locks == r.unlocks)
  {
    hide Apart;
    UntouchedInv(s);
    HistoryKeeps(s, events);
    var r := AfterAll(s, events);
    forall p, q | 0 <= p < q < |r.processes|
      ensures r.processes[p].depth == 0 || r.processes[q].depth == 0
    {
      ApartSym(r, p, q);
      ApartDepths(r.processes[p], r.processes[q]);
    }
  }

  /** The system once this process has taken the free lock for this object. */
  function Taken(s: System, p: nat, x: nat, fd: nat): System
    requires p < |s.processes| && x < |s.processes[p].instances|
  {
    Put(s, p, Registered(s.processes[p], x, fd)).(flock := Some(fd), open := s.open + {fd}, locks := s.locks + 1)
  }

  lemma Takes(s: System, p: nat, t: nat, x: nat, fd: nat)
    requires ThreadAt(s, p, t) == Some(Idle) && x < |s.processes[p].instances|
    requires s.processes[p].depth == 0 && s.flock.None? && fd !in s.open
    ensures var taking := [Enter(p, t, x, fd), TryLock(p, t), Register(p, t)];
            CanHappen(s, taking) && AfterAll(s, taking) == Taken(s, p, x, fd)
  {
    var q := s.processes[p];
    var s1 := After(s, Enter(p, t, x, fd));
    assert s1.processes[p] == SetThread(q, t, Polling(x, fd));
    var s2 := After(s1, TryLock(p, t));
    assert s2.processes[p] == SetThread(q, t, Registering(x, fd));
    var r := After(s2, Register(p, t));
    assert r.processes[p].threads == q.threads;
    assert r.processes == Taken(s, p, x, fd).processes;
    HistoryOfThree(s, Enter(p, t, x, fd), TryLock(p, t), Register(p, t));
  }

  lemma GivesBack(s: System, p: nat, t: nat, x: nat, fd: nat)
    requires ThreadAt(s, p, t) == Some(Idle) && x < |s.processes[p].instances| && Tidy(s.processes[p])
    requires s.processes[p].depth == 0 && s.flock.None? && fd !in s.open
    ensures var giving := [Exit(p, t, x), Unlock(p, t)]; var r := Taken(s, p, x, fd);
            && CanHappen(r, giving)
            && AfterAll(r, giving) == s.(locks := s.locks + 1, unlocks := s.unlocks + 1)
  {
    var q, r := s.processes[p], Taken(s, p, x, fd);
    RegisteredTidy(q, x, fd);
    var s3 := After(r, Exit(p, t, x));
    assert s3.processes[p].instances == q.instances && s3.processes[p].depth == 0;
    var s4 := After(s3, Unlock(p, t));
    assert s4.processes[p].threads == q.threads;
    assert s4.processes == s.processes && s4.open == s.open;
    HistoryOfTwo(r, Exit(p, t, x), Unlock(p, t));
  }

  /** A thread that finds the lock free takes it, and gives it back: acquiring and releasing leave the system as it was,
      with one more win and one more undoing. */
  lemma AcquireThenRelease(s: System, p: nat, t: nat, x: nat, fd: nat)
    requires Inv(s) && ThreadAt(s, p, t) == Some(Idle) && x < |s.processes[p].instances|
    requires s.processes[p].depth == 0 && s.flock.None? && fd !in s.open
    ensures var taking := [Enter(p, t, x, fd), TryLock(p, t), Register(p, t)];
            var giving := [Exit(p, t, x), Unlock(p, t)];
            && CanHappen(s, taking)
            && var r := AfterAll(s, taking);
               && r.flock == Some(fd) && p < |r.processes| && r.processes[p].depth == 1
               && x < |r.processes[p].instances| && r.processes[p].instances[x].IsLocked()
               && CanHappen(r, giving)
               && AfterAll(r, giving) == s.(locks := s.locks + 1, unlocks := s.unlocks + 1)
  {
    hide CanHappen, AfterAll;
    assert Fits(s.processes[p], s.flock, s.open);
    Takes(s, p, t, x, fd);
    GivesBack(s, p, t, x, fd);
  }

  lemma HistoryOfTwo(s: System, a: Event, b: Event)
    requires Enabled(s, a) && Enabled(After(s, a), b)
    ensures CanHappen(s, [a, b]) && AfterAll(s, [a, b]) == After(After(s, a), b)
  {
    hide After, Enabled;
    assert [a, b][1..] == [b] && [b][1..] == [];
    assert CanHappen(After(After(s, a), b), []) && CanHappen(After(s, a), [b]);
    assert AfterAll(After(s, a), [b]) == After(After(s, a), b);
  }

  lemma HistoryOfThree(s: System, a: Event, b: Event, c: Event)
    requires Enabled(s, a) && Enabled(After(s, a), b) && Enabled(After(After(s, a), b), c)
    ensures CanHappen(s, [a, b, c]) && AfterAll(s, [a, b, c]) == After(After(After(s, a), b), c)
  {
    hide After, Enabled;
    HistoryOfTwo(After(s, a), b, c);
    assert [a, b, c][1..] == [b, c];
  }

  lemma ApartDepths(a: Process, b: Process)
    requires Apart(a, b)
    ensures a.depth == 0 || b.depth == 0
  {
  }

  // ---- the methods ----

  const POLL_INTERVAL_MS: nat := 200
  const MIN_TIMEOUT_MS: nat := 100

  /** max(0.1, timeout_seconds). */
  function EffectiveTimeout(timeout: nat): nat {
    if timeout < MIN_TIMEOUT_MS then MIN_TIMEOUT_MS else timeout
  }

  /** _poll_lock, in milliseconds: free(i) is whether the i-th try wins the file lock, clock(i) the time polled when it
      is checked; every sleep takes its interval. The first try that wins is taken, unless one before it timed out. */
  method PollLock(free: nat -> bool, clock: nat -> nat, timeout: nat) returns (won: bool, polls: nat)
    requires forall i: nat :: clock(i + 1) >= clock(i) + POLL_INTERVAL_MS
    ensures forall i :: 0 <= i < polls ==> !free(i) && (clock(i) + 200 < timeout || clock(i) + 200 < 100)
    ensures won == free(polls)
    ensures !won ==> clock(polls) + 200 >= timeout && clock(polls) + 200 >= 100
  {
    var limit := EffectiveTimeout(timeout);
    polls := 0;
    while true
      invariant forall i :: 0 <= i < polls ==> !free(i) && clock(i) + POLL_INTERVAL_MS < limit
      decreases if clock(polls) < limit then limit - clock(polls) else 0
    {
      if free(polls) {
        return true, polls;
      }
      if clock(polls) + POLL_INTERVAL_MS >= limit {
        return false, polls;
      }
      assert clock(polls + 1) >= clock(polls) + POLL_INTERVAL_MS;
      polls := polls + 1;
    }
  }

  /** The two registries of one process, updated in place by its lock objects. */
  class Registries {
    var depth: nat
    var fd: Option<nat>
    var instances: seq<Instance>

    function Now(): Process
      reads this
    {
      Process(depth, fd, instances, [])
    }

    predicate Valid()
      reads this
    {
      Tidy(Now())
    }

    constructor (objects: nat)
      ensures Valid() && depth == 0 && |instances| == objects
    {
      depth := 0;
      fd := None;
      instances := seq(objects, _ => Instance(None, 0));
      new;
      SumZero(instances);
    }

    /** acquire: shares the lock the process holds, or polls for the file lock on the descriptor opened. What other
        objects hold does not change; a timeout leaves everything as it was. */
    method Acquire(x: nat, handle: nat, free: nat -> bool, clock: nat -> nat, timeout: nat) returns (won: bool)
      requires Valid() && x < |instances|
      requires forall i: nat :: clock(i + 1) >= clock(i) + POLL_INTERVAL_MS
      modifies this
      ensures Valid() && |instances| == |old(instances)|
      ensures forall y :: 0 <= y < |instances| && y != x ==> instances[y] == old(instances[y])
      ensures old(depth) > 0 ==> won && fd == old(fd)
      ensures won ==>
                depth == old(depth) + 1 && instances[x].local == old(instances[x].local) + 1 && instances[x].IsLocked()
      ensures won && old(depth) == 0 ==> fd == Some(handle)
      ensures !won ==> Now() == old(Now()) && depth == 0 && !free(0)
      ensures Now() == if !won then old(Now())
                       else if old(depth) > 0 then Nested(old(Now()), x)
                       else Registered(old(Now()), x, handle)
    {
      hide Tidy;
      if depth > 0 {
        NestedTidy(Now(), x);
        depth := depth + 1;
        instances := instances[x := Instance(fd, instances[x].local + 1)];
        return true;
      }
      var polls;
      won, polls := PollLock(free, clock, timeout);
      if won {
        RegisteredTidy(Now(), x, handle);
        depth := 1;
        fd := Some(handle);
        instances := instances[x := Instance(Some(handle), 1)];
      }
    }

    /** release: the depth goes down by one, and the descriptor to unlock and close is given out exactly when it reaches
        zero; until then every other object keeps what it holds. */
    method Release(x: nat) returns (unlock: Option<nat>)
      requires Valid() && x < |instances|
      modifies this
      ensures Valid() && |instances| == |old(instances)|
      ensures forall y :: 0 <= y < |instances| && y != x ==> instances[y] == old(instances[y])
      ensures !old(instances[x]).IsLocked() ==> unlock == None && Now() == old(Now())
      ensures old(instances[x]).IsLocked() ==>
                && depth == old(depth) - 1 && instances[x].local == old(instances[x].local) - 1
                && (unlock.Some? <==> depth == 0) && fd == (if depth == 0 then None else old(fd))
                && Now() == Released(old(Now()), x)
      ensures unlock.Some? ==> unlock == old(fd) && forall y :: 0 <= y < |instances| ==> !instances[y].IsLocked()
    {
      if !instances[x].IsLocked() {
        return None;
      }
      hide Tidy;
      ReleasedTidy(Now(), x);
      var local := instances[x].local - 1;
      if depth > 1 {
        depth := depth - 1;
        instances := instances[x := Instance(if local == 0 then None else instances[x].fd, local)];
        return None;
      }
      unlock := fd;
      depth := 0;
      fd := None;
      instances := instances[x := Instance(None, local)];
    }

    /** __enter__ and __exit__ around code that leaves the lock alone: everything is as before, and the file lock was
        won and given back exactly when the process did not hold it already. */
    method Scoped(x: nat, handle: nat, free: nat -> bool, clock: nat -> nat, timeout: nat)
      returns (won: bool, unlock: Option<nat>)
      requires Valid() && x < |instances|
      requires forall i: nat :: clock(i + 1) >= clock(i) + POLL_INTERVAL_MS
      modifies this
      ensures Valid() && Now() == old(Now())
      ensures unlock == if won && old(depth) == 0 then Some(handle) else None
    {
      unlock := None;
      won := Acquire(x, handle, free, clock, timeout);
      if won {
        unlock := Release(x);
      }
    }
  }
}
