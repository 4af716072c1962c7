/** The session object itself: the fields the read loop and the tasks update, and its methods, each run without an
    await in between (src/server/session.rs, src/service/arduino/bridge.rs). Together they are the steps that
    FlashSession interleaves. */
module SessionObject {
  import opened Protocol
  import opened Frames
  import opened Pumps
  import opened Tasks
  import opened FlashSession
  import MonitorLink

  class Session {
    var reader: Reader
    var port: Option<string>
    var inFlight: map<string, nat>
    var tasks: seq<Task>
    var monitor: Option<string>
    var pump: Option<Pump>
    var link: MonitorLink.Link
    var scratch: Scratch
    var staged: set<nat>
    ghost var asked: map<string, Role>
    ghost var taskOf: map<string, nat>

    ghost function View(): Desk
      reads this
    {
      Desk(reader, port, asked, inFlight, taskOf, tasks, monitor, pump, link, scratch, staged)
    }

    constructor ()
      ensures View() == FreshDesk()
    {
      reader, port, inFlight, tasks := Reading, None, map[], [];
      monitor, pump, scratch, staged := None, None, Scratch(0, 0, {}), {};
      link := MonitorLink.Link(true, [], 0, false, false, false, []);
      asked, taskOf := map[], map[];
    }

    /** The scratch directory, made on first use. */
    method EnsureTempBase(fault: Option<string>) returns (failed: Option<string>)
      modifies this`scratch
      ensures failed == if TheSession in old(scratch).owners then None else fault
      ensures scratch == if failed.None? then EnsureScratch(old(scratch)) else old(scratch)
    {
      if TheSession !in scratch.owners {
        if fault.Some? { return fault; }
        scratch := Scratch(scratch.created + 1, scratch.removed, scratch.owners + {TheSession});
      }
      failed := None;
    }

    /** Registers a token and spawns the task that owns the reply. */
    method SpawnTask(id: string, kind: Kind, events: seq<Event>)
      modifies this
      ensures View() == Spawn(old(View()), id, kind, events)
    {
      var tid := |tasks|;
      inFlight := inFlight[id := tid];
      tasks := tasks + [Spawned(id, kind, events)];
      taskOf := taskOf[id := tid];
      match kind {
        case Compile => scratch := scratch.(owners := scratch.owners + {TheTask(tid)});
        case Flash => staged := staged + {tid};
        case _ =>
      }
    }

    method FireTokenOf(id: string)
      modifies this`tasks
      ensures View() == FireToken(old(View()), id)
    {
      if id in inFlight {
        var tid := inFlight[id];
        if tid < |tasks| {
          tasks := tasks[tid := Fired(tasks[tid])];
        }
      }
    }

    /** `close_monitor` as far as the first await, or what follows it when there is nothing to close. */
    method CloseMonitor(after: After)
      modifies this
      ensures View() == BeginClose(old(View()), after)
    {
      if monitor.Some? {
        monitor, reader := None, Closing(after);
      } else {
        FinishClose(after);
      }
    }

    method FinishClose(after: After)
      modifies this
      ensures View() == AfterClose(old(View()), after)
    {
      match after {
        case Reply(id, clearsPort) =>
          if clearsPort { port := None; }
          reader := Replying(id, Result("{}"));
        case TearDown =>
          reader := Draining;
      }
    }

    method Fail(id: string, code: Code, detail: string)
      modifies this`reader
      ensures reader == Replying(id, Failure(code, detail))
    {
      reader := Replying(id, Error(code, Describe(code, detail)));
    }

    /** Requests that the read loop answers itself. */
    method DispatchQuick(id: string, req: Request)
      requires req.ListBoards? || req.Connect? || req.Disconnect? || req.CloseMonitor? || req.Malformed?
      modifies this
      ensures View() == Settle(old(View()), id, Dispatch(old(View()), id, req))
    {
      match req {
        case ListBoards => reader := Listing(id);
        case Connect(chosen) =>
          if chosen == "" {
            Fail(id, InvalidRequest, PORT_REQUIRED);
          } else {
            port, reader := Some(chosen), Replying(id, Result("{}"));
          }
        case Disconnect => CloseMonitor(Reply(id, true));
        case CloseMonitor => CloseMonitor(Reply(id, false));
        case Malformed(detail) => Fail("", InvalidRequest, "malformed envelope: " + detail);
      }
    }

    /** Requests that are spawned, unless they fail before. */
    method DispatchTask(id: string, req: Request)
      requires req.CompileSketch? || req.UploadArtifact? || req.FlashFirmware? || req.InstallPlatform?
      modifies this
      ensures View() == Settle(old(View()), id, Dispatch(old(View()), id, req))
    {
      match req {
        case CompileSketch(refused, dirFault, events) =>
          if refused.Some? {
            Fail(id, refused.value.code, refused.value.detail);
          } else {
            var failed := EnsureTempBase(dirFault);
            if failed.Some? { Fail(id, Io, failed.value); } else { SpawnTask(id, Compile, events); }
          }
        case UploadArtifact(events) => SpawnTask(id, Upload, events);
        case FlashFirmware(refused, events) =>
          if refused.Some? { Fail(id, refused.value.code, refused.value.detail); } else { SpawnTask(id, Flash, events); }
        case InstallPlatform(refused, events) =>
          if refused.Some? { Fail(id, refused.value.code, refused.value.detail); } else { SpawnTask(id, Install, events); }
      }
    }

    /** Requests that reach the monitor or a running task through the session. */
    method DispatchOther(id: string, req: Request)
      requires req.OpenMonitor? || req.WriteMonitor? || req.Cancel?
      modifies this
      ensures View() == Settle(old(View()), id, Dispatch(old(View()), id, req))
    {
      match req {
        case OpenMonitor =>
          if monitor.Some? {
            Fail(id, InvalidRequest, MONITOR_IS_OPEN);
          } else {
            reader, link := Opening(id), MonitorLink.Opened();
          }
        case WriteMonitor(data) =>
          if monitor.None? {
            Fail(id, InvalidRequest, NO_MONITOR);
          } else {
            reader := Writing(id, data);
          }
        case Cancel => FireTokenOf(id);
      }
    }

    /** `handle_text` and `dispatch` up to the first await. */
    method HandleText(id: string, req: Request)
      requires reader == Reading
      modifies this
      ensures View() == Acted(old(View()), Ask(id, req))
    {
      if BringsId(req) { asked := asked[id := RoleOf(View(), req)]; }
      if req.ListBoards? || req.Connect? || req.Disconnect? || req.CloseMonitor? || req.Malformed? {
        DispatchQuick(id, req);
      } else if req.OpenMonitor? || req.WriteMonitor? || req.Cancel? {
        DispatchOther(id, req);
      } else {
        DispatchTask(id, req);
      }
    }

    /** The end of `run_compile`, `run_upload` and `run_install`: deregister, then drop what the task owned. */
    method FinishTask(tid: nat)
      requires tid < |tasks| && tasks[tid].pc == Ended
      modifies this
      ensures View() == Acted(old(View()), TaskLeave(tid))
    {
      inFlight := inFlight - {tasks[tid].id};
      tasks := tasks[tid := tasks[tid].(pc := Gone)];
      var held := TheTask(tid) in scratch.owners;
      scratch := scratch.(owners := scratch.owners - {TheTask(tid)});
      if held && scratch.owners == {} { scratch := scratch.(removed := scratch.removed + 1); }
      staged := staged - {tid};
    }

    /** The teardown loop: empties the token map and fires every token in it, in whatever order the map yields them. */
    method DrainTokens()
      modifies this`inFlight, this`tasks
      ensures inFlight == map[] && tasks == FireAll(old(tasks), old(inFlight).Values)
    {
      ghost var fired: set<nat> := {};
      assert FireAll(old(tasks), fired) == old(tasks);
      while inFlight != map[]
        invariant forall id :: id in inFlight ==> id in old(inFlight) && inFlight[id] == old(inFlight)[id]
        invariant fired <= old(inFlight).Values && forall id :: id in old(inFlight) && id !in inFlight ==> old(inFlight)[id] in fired
        invariant tasks == FireAll(old(tasks), fired)
        decreases |inFlight|
      {
        var id :| id in inFlight;
        var tid := inFlight[id];
        inFlight := inFlight - {id};
        FireOneMore(old(tasks), fired, tid);
        if tid < |tasks| {
          tasks := tasks[tid := Fired(tasks[tid])];
        }
        fired := fired + {tid};
      }
      assert fired == old(inFlight).Values;
    }

    method CancelInFlight()
      requires reader == Draining
      modifies this
      ensures View() == Acted(old(View()), Drain)
    {
      DrainTokens();
      reader := Awaiting;
    }
  }

  lemma FireOneMore(tasks: seq<Task>, tokens: set<nat>, tid: nat)
    ensures FireAll(tasks, tokens + {tid})
      == if tid < |tasks| then FireAll(tasks, tokens)[tid := Fired(FireAll(tasks, tokens)[tid])] else FireAll(tasks, tokens)
  {
  }
}
