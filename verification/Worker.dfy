/** What a node does for the controller: src/worker.rs over src/executor/shell.rs. */
module Worker {
  import opened Wrappers
  import opened Controller
  import opened Executor

  /** Starts and checks processes on this machine. */
  class ShellExecutor {
    const scopes: bool // with systemd scopes, a process is found again by its unit name or its exit file
    var processes: map<JobKey, Process>
    ghost var starts: multiset<JobKey>

    constructor (scopes: bool)
      ensures this.scopes == scopes && processes == map[] && starts == multiset{}
    {
      this.scopes := scopes;
      processes := map[];
      starts := multiset{};
    }

    /** `looks` is whether systemd tells what is in the scope; an exit file is seen in any case. */
    method Find(k: JobKey, looks: bool) returns (found: bool)
      ensures found <==> k in Remembered(processes, {}, scopes) && (looks || processes[k].Ended?)
      ensures found <==>
              && scopes && k in processes
              && match processes[k]
                 case Alive(scoped, _) => scoped && looks
                 case Ended(_, filed) => filed
    {
      found := scopes && k in processes && LeavesTrace(processes[k]) && (looks || processes[k].Ended?);
    }

    /** A process found again is taken over; otherwise one is started, unless its program isn't there or the start fails. */
    method Launch(k: JobKey, spawn: Spawn) returns (r: Result<(), ExecutorError>)
      modifies this
      ensures var known := Remembered(old(processes), {}, scopes);
              && r == LaunchOutcome(Some(NodeLaunch(known, k, spawn).1))
              && processes == (if spawn.Starts? && k !in known then old(processes)[k := STARTED] else old(processes))
              && starts == old(starts) + (if spawn.Starts? && k !in known then multiset{k} else multiset{})
    {
      var found := Find(k, true);
      if found {
        return Success(());
      }
      match spawn
      case Refused => return Failure(Rejected);
      case Breaks => return Failure(Remote);
      case Starts =>
        processes := processes[k := STARTED];
        starts := starts + multiset{k};
        return Success(());
    }

    function CheckOf(checks: bool): Check {
      if checks then Tells else if scopes then FindsNothing else Fails
    }

    method Poll(k: JobKey, checks: bool) returns (r: Result<Option<int>, ExecutorError>)
      requires k in processes
      ensures r == PollOutcome(Some(NodePoll(processes, k, CheckOf(checks))))
    {
      if scopes {
        match processes[k]
        case Alive(_, child) => return Success(if child || checks then None else Some(-1));
        case Ended(code, _) => return Success(Some(code));
      }
      if !checks {
        return Failure(Remote);
      }
      match processes[k]
      case Alive(_, _) => return Success(None);
      case Ended(code, _) => return Success(Some(code));
    }

    /** SIGTERM, then SIGKILL, to the wrapper too: what is alive ends without an exit file. `signals` is whether they can
     *  be sent; a failure to stop a scope is not noticed. */
    method Cancel(k: JobKey, signals: bool) returns (ok: bool)
      requires k in processes
      modifies this`processes
      ensures ok == (scopes || signals)
      ensures processes == if signals && old(processes)[k].Alive? then old(processes)[k := Ended(-1, false)]
                           else old(processes)
    {
      ok := scopes || signals;
      if signals && processes[k].Alive? {
        processes := processes[k := Ended(-1, false)];
      }
    }

    /** What happens to a process by itself: systemd sets its scope up, its wrapper alone is killed, or it ends. */
    method Becomes(k: JobKey, now: Process)
      requires k in processes && processes[k].Alive?
      requires now.Alive? ==> now.scoped && (now.child ==> processes[k].child)
      requires LeavesTrace(now) ==> scopes
      requires scopes && now.Ended? && !now.filed ==> now.code == -1
      modifies this`processes
      ensures processes == old(processes)[k := now]
    {
      processes := processes[k := now];
    }

    /** The daemon ends, and what it started goes on without it. */
    method Abandon()
      modifies this`processes
      ensures processes == Orphaned(old(processes))
    {
      processes := Orphaned(processes);
    }
  }

  /** A job in the table, with what the first poll after its end made of it. */
  datatype JobProcess = JobProcess(exitCode: Option<int>)

  class Worker {
    const shell: ShellExecutor
    var processes: map<JobKey, JobProcess>
    ghost var restarts: nat

    ghost function Remembers(): map<JobKey, Process>
      reads this, shell
    {
      Remembered(shell.processes, processes.Keys, shell.scopes)
    }

    predicate ExitKnown(k: JobKey)
      reads this
    {
      k in processes && processes[k].exitCode.Some?
    }

    /** Each job was started at most once between two starts of the daemon, and the table has the right codes, or -1 of a
     *  job that nothing was found of. */
    ghost predicate Valid()
      reads this, shell
    {
      && (forall k | k in processes ::
            && k in shell.processes
            && (processes[k].exitCode.Some? ==>
                  || (shell.scopes && processes[k].exitCode.value == -1)
                  || (shell.processes[k].Ended? && shell.processes[k].code == processes[k].exitCode.value)))
      && forall k :: shell.starts[k] <= restarts + (if k in processes then 1 else 0)
    }

    constructor (scopes: bool)
      ensures Valid() && fresh(shell) && shell.scopes == scopes && shell.processes == map[] && processes == map[]
      ensures shell.starts == multiset{} && restarts == 0
    {
      shell := new ShellExecutor(scopes);
      processes := map[];
      restarts := 0;
    }

    /** The daemon starts again with an empty table; what left a trace can be found again, and nothing else. */
    method Restart()
      requires Valid()
      modifies this, shell`processes
      ensures Valid() && processes == map[] && restarts == old(restarts) + 1
      ensures shell.processes == Orphaned(old(shell.processes))
      ensures Remembers() == Remembered(shell.processes, {}, shell.scopes)
    {
      shell.Abandon();
      processes := map[];
      restarts := restarts + 1;
    }

    /** A job the node knows is not started again. It is started exactly when the node does not know it and the start
     *  succeeds: also for a second time, when the table was lost and its process left no trace. */
    method Launch(k: JobKey, spawn: Spawn) returns (reply: Response)
      requires Valid()
      modifies this, shell
      ensures Valid() && restarts == old(restarts)
      ensures (Remembers(), reply) == NodeLaunch(old(Remembers()), k, spawn)
      ensures reply ==
              if k in old(processes)
                 || (&& shell.scopes && k in old(shell.processes)
                     && match old(shell.processes)[k]
                        case Alive(scoped, _) => scoped
                        case Ended(_, filed) => filed)
              then LaunchedReply
              else match spawn
                   case Starts => LaunchedReply
                   case Refused => RejectedReply
                   case Breaks => ErrorReply
      ensures shell.starts[k] > old(shell.starts[k]) <==> spawn.Starts? && k !in old(Remembers())
      ensures shell.starts == old(shell.starts) +
                              if k in Remembers() && k !in old(Remembers()) then multiset{k} else multiset{}
      ensures forall j | j != k || k in old(Remembers()) ::
                (j in shell.processes <==> j in old(shell.processes))
                && (j in shell.processes ==> shell.processes[j] == old(shell.processes[j]))
      ensures reply.LaunchedReply? ==> k in processes
      ensures k in processes && k !in old(processes) ==> processes[k].exitCode.None?
      ensures forall j | j != k || k in old(processes) ::
                (j in processes <==> j in old(processes)) && (j in processes ==> processes[j] == old(processes)[j])
    {
      if k in processes {
        assert k in Remembers();
        return LaunchedReply;
      }
      ghost var before, table := shell.processes, processes.Keys;
      var r := shell.Launch(k, spawn);
      match r
      case Success(_) =>
        RememberStarted(before, table, shell.scopes, k);
        if k in Remembered(before, table, shell.scopes) {
          RememberFound(before, table, shell.scopes, k);
        }
        processes := processes[k := JobProcess(None)];
        assert processes.Keys == table + {k};
        return LaunchedReply;
      case Failure(Rejected) => return RejectedReply;
      case Failure(_) => return ErrorReply;
    }

    /** The job is in the table, or what is left of it is seen. */
    ghost predicate Sees(k: JobKey, looks: bool)
      reads this, shell
    {
      k in Remembers() && (k in processes || looks || shell.processes[k].Ended?)
    }

    /** Whether the node knows the job's process, which goes back into the table if it had dropped out. */
    method Known(k: JobKey, looks: bool) returns (known: bool)
      requires Valid()
      modifies this`processes
      ensures Valid() && Remembers() == old(Remembers())
      ensures known <==> old(Sees(k, looks))
      ensures known <==>
              || k in old(processes)
              || (&& shell.scopes && k in shell.processes
                  && match shell.processes[k]
                     case Alive(scoped, _) => scoped && looks
                     case Ended(_, filed) => filed)
      ensures processes == if known && k !in old(processes) then old(processes)[k := JobProcess(None)] else old(processes)
    {
      if k !in processes {
        var found := shell.Find(k, looks);
        if !found {
          return false;
        }
        processes := processes[k := JobProcess(None)];
      }
      return true;
    }

    /** A code that is known is not asked for again. */
    method ExitCode(k: JobKey, checks: bool) returns (r: Result<Option<int>, ExecutorError>)
      requires Valid() && k in processes
      modifies this`processes
      ensures Valid() && processes.Keys == old(processes.Keys)
      ensures r == if old(ExitKnown(k)) then Success(old(processes)[k].exitCode)
                   else PollOutcome(Some(NodePoll(shell.processes, k, shell.CheckOf(checks))))
      ensures processes == if r.Success? && r.value.Some? then old(processes)[k := JobProcess(r.value)] else old(processes)
    {
      if processes[k].exitCode.None? {
        var polled := shell.Poll(k, checks);
        if polled.Failure? {
          return Failure(polled.error);
        }
        if polled.value.Some? {
          processes := processes[k := JobProcess(polled.value)];
        }
      }
      return Success(processes[k].exitCode);
    }

    /** How a poll's look at the job goes: not finding it is an error. */
    ghost function CheckFor(k: JobKey, looks: bool, checks: bool): Check
      reads this, shell
    {
      if Sees(k, looks) then shell.CheckOf(checks) else Fails
    }

    /** The machine's own answer about a process the node knows, right or wrong, and an error about any other; a code once
     *  given is given until the daemon restarts, even of a job that is alive. */
    method Poll(k: JobKey, looks: bool, checks: bool) returns (reply: Response)
      requires Valid()
      modifies this`processes
      ensures Valid() && Remembers() == old(Remembers())
      ensures reply == if old(ExitKnown(k)) then PolledReply(old(processes)[k].exitCode)
                       else NodePoll(old(Remembers()), k, old(CheckFor(k, looks, checks)))
      ensures && k !in old(processes)
              && !(&& shell.scopes && k in shell.processes
                   && match shell.processes[k]
                      case Alive(scoped, _) => scoped && looks
                      case Ended(_, filed) => filed) ==>
              reply == ErrorReply
      ensures || (k in old(processes) && old(processes)[k].exitCode.None?)
              || (&& k !in old(processes) && shell.scopes && k in shell.processes
                  && match shell.processes[k]
                     case Alive(scoped, _) => scoped && looks
                     case Ended(_, filed) => filed) ==>
              reply == match shell.processes[k]
                       case Alive(_, child) =>
                         if checks || (child && shell.scopes) then PolledReply(None)
                         else if shell.scopes then PolledReply(Some(-1)) else ErrorReply
                       case Ended(code, _) => if checks || shell.scopes then PolledReply(Some(code)) else ErrorReply
      ensures reply.PolledReply? && reply.exitCode.Some? ==> k in processes && processes[k].exitCode == reply.exitCode
      ensures forall j | old(ExitKnown(j)) :: j in processes && processes[j] == old(processes)[j]
    {
      var known := Known(k, looks);
      if !known {
        return ErrorReply;
      }
      var r := ExitCode(k, checks);
      match r
      case Success(exitCode) => return PolledReply(exitCode);
      case Failure(_) => return ErrorReply;
    }

    /** Nothing is signalled once the exit is known, or is thought to be. */
    method Kill(k: JobKey, looks: bool, signals: bool) returns (reply: Response)
      requires Valid()
      modifies this, shell`processes
      ensures Valid() && restarts == old(restarts)
      ensures reply == if old(Sees(k, looks)) && (shell.scopes || signals || old(ExitKnown(k))) then KilledReply
                       else ErrorReply
      ensures shell.processes ==
              if signals && old(Sees(k, looks)) && !old(ExitKnown(k)) && old(shell.processes)[k].Alive?
              then old(shell.processes)[k := Ended(-1, false)] else old(shell.processes)
    {
      var known := Known(k, looks);
      if !known {
        return ErrorReply;
      }
      if processes[k].exitCode.Some? {
        return KilledReply;
      }
      var ok := shell.Cancel(k, signals);
      return if ok then KilledReply else ErrorReply;
    }
  }

  /** With scopes, a job killed before its node's daemon restarts is unknown afterwards: polling it is an error, and a
   *  repeated Launch starts it a second time. */
  method KilledThenLaunchedAgain(k: JobKey) returns (polled: Response, launched: Response, ghost starts: nat)
    ensures polled == ErrorReply && launched == LaunchedReply && starts == 2
  {
    var worker := new Worker(true);
    var first := worker.Launch(k, Starts);
    worker.shell.Becomes(k, Alive(true, true));
    var killed := worker.Kill(k, true, true);
    worker.Restart();
    polled := worker.Poll(k, true, true);
    launched := worker.Launch(k, Starts);
    starts := worker.shell.starts[k];
  }

  /** One that ended by itself is known by its exit file, with its code, and not started again. */
  method EndedThenLaunchedAgain(k: JobKey, code: int) returns (polled: Response, launched: Response, ghost starts: nat)
    ensures polled == PolledReply(Some(code)) && launched == LaunchedReply && starts == 1
  {
    var worker := new Worker(true);
    var first := worker.Launch(k, Starts);
    worker.shell.Becomes(k, Ended(code, true));
    worker.Restart();
    polled := worker.Poll(k, true, true);
    launched := worker.Launch(k, Starts);
    starts := worker.shell.starts[k];
  }

  /** A job found again whose scope then can't be read is said to have ended, is said so from then on, and can't be killed
   *  any more, while it is alive all along. */
  method UnseenThenKilled(k: JobKey) returns (first: Response, later: Response, killed: Response, ghost process: Process)
    ensures first == PolledReply(Some(-1)) && later == first && killed == KilledReply && process.Alive?
  {
    var worker := new Worker(true);
    var launched := worker.Launch(k, Starts);
    worker.shell.Becomes(k, Alive(true, true));
    worker.Restart();
    first := worker.Poll(k, true, false);
    later := worker.Poll(k, true, true);
    killed := worker.Kill(k, true, true);
    process := worker.shell.processes[k];
  }
}
