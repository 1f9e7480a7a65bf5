// The records of runtime/sprout_scheduler.c as values: tasks, scopes, channels, the
// ready queue, the poller-parked list and the poller's registrations.
//
// A record is named by a number that is never reused, which is what the generation-checked
// handle table gives its callers (module HandleTable). A record that is freed leaves its
// map, so following a pointer to it is visible as a missing key.
module SchedState {
  import opened Common

  type TaskId = nat
  type ScopeId = nat
  type ChanId = nat
  type TimerId = nat

  // A value in flight, with its position in the channel's send log. The position is a
  // history variable: no step branches on it.
  datatype Msg = Msg(ticket: nat, value: int)

  // park_kind with the fields that only mean something for one kind.
  datatype Park =
    | NotParked
    | OnFd(fd: int)
    | OnTimer
    | OnFdTimer(fd: int)
    | OnChan(chan: ChanId, sender: bool)
    | OnSelect

  // Where a task's green stack will continue when the pump next switches into it.
  datatype Frame =
    | Running
    | InFd(fd: int)
    | InFdTimed(fd: int, tid: TimerId)
    | InSleep
    | InDeadline(scope: ScopeId, child: TaskId)
    | InDeadlineYield(scope: ScopeId, child: TaskId)
    | InAwait(target: TaskId)
    | InJoin(scope: ScopeId)
    | InSend(chan: ChanId)
    | InRecv(chan: ChanId)
    | InSelect

  datatype Recv = Got(value: int) | Closed

  datatype Ret =
    | Unit
    | Flag(ok: bool)
    | Handle(id: nat)
    | Result(value: int)
    | Received(recv: Recv)
    | Selected(index: nat, recv: Recv)

  datatype Task = Task(
    scope: Option<ScopeId>,          // None for task 0
    awaitable: bool,
    done: bool,
    dropped: bool,                   // roots == NULL: force-dropped, record kept for the scope
    result: int,
    awaiter: Option<TaskId>,
    inRq: bool,
    onIo: bool,
    park: Park,
    timer: TimerId,                  // park_timer_id
    timerDead: bool,
    wokeByTimer: bool,
    deadlineChild: Option<TaskId>,
    pending: Option<Msg>,            // chan_pending
    closedWake: bool,
    regs: seq<ChanId>,               // sel_regs: the channel of registration i
    fired: nat,                      // sel_fired_index
    frame: Frame,
    ret: Ret,                        // what the last completed builtin returned
    nest: seq<ScopeId>,              // history: scopes opened and not yet joined, innermost last
    expired: bool                    // history: the current deadline's timer event was harvested
  )

  datatype Reason = NoReason | Cancelled | TimedOut

  datatype Scope = Scope(
    live: int,
    waiter: Option<TaskId>,
    forks: seq<TaskId>,
    reason: Reason,
    owner: TaskId,
    parent: Option<ScopeId>,         // history: the scope this one is lexically inside
    level: nat,                      // history: depth of nesting
    anc: set<ScopeId>                // history: this scope and every scope around it
  )

  datatype SelReg = SelReg(task: TaskId, index: nat)

  datatype Chan = Chan(
    scope: ScopeId,
    cap: nat,
    buf: seq<Msg>,                   // the ring, oldest first (module ChanRing)
    sendq: seq<TaskId>,
    recvq: seq<TaskId>,
    selq: seq<SelReg>,
    closed: bool,
    log: seq<int>,                   // history: every value handed to send, in order
    delivered: seq<Msg>              // history: what receivers were handed, in order
  )

  datatype State = State(
    tasks: map<TaskId, Task>,
    scopes: map<ScopeId, Scope>,
    chans: map<ChanId, Chan>,
    rq: seq<TaskId>,
    io: seq<TaskId>,                 // g_io_head, most recently parked first
    fds: map<int, TaskId>,           // one-shot fd registrations held by the poller
    timers: map<TimerId, TaskId>,    // armed timers; an id may be armed again once removed
    cur: Option<TaskId>,             // None while the pump runs
    next: nat                        // every id at or above this one is unused
  )

  // Undefined behaviour of the C code. No reachable step may end in one of these.
  datatype Hazard =
    | DoubleWake       // rq_push of a queued task: the ready queue becomes a cycle
    | Dangling         // a pointer to a freed record is followed
    | ForeignTimer     // a timer is torn down that is not armed, or is armed for another task
    | ForeignFd        // another task's fd registration is removed
    | BadUnlink        // a record is unlinked from a list it is not on
    | DoubleDestroy    // a green stack is destroyed twice
    | FreedLive        // a record is freed while its task can still run
    | EmptyDelivery    // a task resumes from a channel with nothing delivered
    | NoProgress       // a drop leaves the list it was read from as long as before

  // sprout_fail is Abort: the process ends there by design.
  datatype Outcome<+T> = Next(value: T) | Abort | Fault(why: Hazard) {
    predicate IsFailure() {
      !Next?
    }

    function PropagateFailure<U>(): Outcome<U>
      requires IsFailure()
    {
      match this
      case Abort => Abort
      case Fault(w) => Fault(w)
    }

    function Extract(): T
      requires Next?
    {
      value
    }
  }

  function FreshTask(scope: Option<ScopeId>, awaitable: bool): Task {
    Task(scope, awaitable, false, false, 0, None, false, false, NotParked, 0, false, false,
         None, None, false, [], 0, Running, Unit, [], false)
  }

  // sprout_scheduler_init: task 0 is running and nothing else exists.
  const Init: State :=
    State(map[0 := FreshTask(None, false)], map[], map[], [], [], map[], map[], Some(0), 1)
}
