/** The daemon handle: dialling it, re-running `Init`, and the install lock (src/service/arduino/daemon.rs). */
module Daemon {
  import opened Protocol
  import Installs

  /** Milliseconds. */
  const CONNECT_TIMEOUT: int := 5000
  const CONNECT_RETRY_INTERVAL: int := 100

  /** One dial: whether it connects, and what the clock reads when a failed one has come back. */
  datatype Dial = Dial(connects: bool, now: int)

  /** The clock never runs backwards and a sleep lasts at least its interval. */
  ghost predicate HonestClock(start: int, dials: nat -> Dial) {
    && start <= dials(0).now
    && forall i: nat, j: nat :: j == i + 1 && !dials(i).connects ==> dials(i).now + CONNECT_RETRY_INTERVAL <= dials(j).now
  }

  /** Dials until the daemon answers or the deadline has passed: the first answer wins, every dial before the last
      failed short of the deadline, and there are at most 51 of them. */
  method ConnectWithRetry(start: int, dials: nat -> Dial) returns (connected: bool, attempts: nat)
    requires HonestClock(start, dials)
    ensures 1 <= attempts <= CONNECT_TIMEOUT / CONNECT_RETRY_INTERVAL + 1
    ensures connected == dials(attempts - 1).connects
    ensures !connected ==> dials(attempts - 1).now >= start + CONNECT_TIMEOUT
    ensures forall i: nat :: i < attempts - 1 ==> !dials(i).connects && dials(i).now < start + CONNECT_TIMEOUT
  {
    var deadline := start + CONNECT_TIMEOUT;
    attempts := 0;
    while true
      invariant dials(attempts).connects || dials(attempts).now >= start + attempts * CONNECT_RETRY_INTERVAL
      invariant attempts * CONNECT_RETRY_INTERVAL <= CONNECT_TIMEOUT
      invariant forall i: nat :: i < attempts ==> !dials(i).connects && dials(i).now < deadline
      decreases CONNECT_TIMEOUT - attempts * CONNECT_RETRY_INTERVAL
    {
      var dial := dials(attempts);
      attempts := attempts + 1;
      if dial.connects { return true, attempts; }
      if dial.now >= deadline { return false, attempts; }
    }
  }

  /** One read of an `Init` stream; running out of them is the stream's end. `Reloads` is the point where the daemon
      has read its data directory. */
  datatype InitItem = Reloads | Progress | Profile | ItemError(message: string) | Empty | Broken(detail: string)

  function FirstBroken(items: seq<InitItem>): (n: nat)
    ensures n <= |items| && (n < |items| ==> items[n].Broken?)
    ensures forall i :: 0 <= i < n ==> !items[i].Broken?
  {
    if items == [] || items[0].Broken? then 0 else 1 + FirstBroken(items[1..])
  }

  /** A daemon that brings a whole `Init` to its end has reloaded its data directory on the way. */
  predicate HonestInit(items: seq<InitItem>) {
    FirstBroken(items) == |items| ==> Reloads in items
  }

  /** What the first `n` items mean for the install that waits for them. */
  function ReloadSteps(job: nat, items: seq<InitItem>, n: nat): seq<Installs.Step>
    requires n <= |items|
  {
    if n == 0 then [Installs.StartInit(job)]
    else ReloadSteps(job, items, n - 1) + if items[n - 1].Reloads? then [Installs.Reload(job)] else []
  }

  function InitSteps(job: nat, items: seq<InitItem>): seq<Installs.Step> {
    var n := FirstBroken(items);
    ReloadSteps(job, items, n) + [if n == |items| then Installs.InitOk(job) else Installs.InitFailed(job)]
  }

  /** The helper's side of installing: the lock, and one `Init` per finished download. */
  class DaemonHandle {
    var installOwner: Option<nat>
    var disk: set<string>
    var visible: set<string>
    ghost var jobs: seq<Installs.Job>
    ghost var promised: set<string>
    ghost var refused: nat

    ghost function View(): Installs.System
      reads this
    {
      Installs.System(installOwner, jobs, disk, visible, promised, refused)
    }

    constructor (bundled: set<string>)
      ensures View() == Installs.Started(bundled)
    {
      installOwner, disk, visible := None, bundled, bundled;
      jobs, promised, refused := [], {}, 0;
    }

    /** `try_lock_owned` on the install lock, whose guard moves into the new install's task. */
    method TryLockInstall(session: nat, id: string, platform: string, job: nat) returns (locked: bool)
      requires job == |jobs|
      modifies this
      ensures View() == Installs.Next(old(View()), Installs.Request(session, id, platform))
      ensures locked <==> |jobs| > |old(jobs)|
    {
      locked := installOwner.None?;
      if locked {
        installOwner := Some(job);
        jobs := jobs + [Installs.Job(session, id, platform, Installs.Downloading)];
      } else {
        refused := refused + 1;
      }
    }

    /** `reinit`: drains a whole `Init`, tolerating errors of single items; only a broken stream fails it. */
    method Reinit(ghost job: nat, items: seq<InitItem>) returns (ok: bool)
      requires Installs.At(View(), job, Installs.Done) && HonestInit(items)
      modifies this`visible, this`jobs
      ensures Installs.IsRun(old(View()), InitSteps(job, items))
      ensures View() == Installs.Final(old(View()), InitSteps(job, items))
      ensures ok <==> FirstBroken(items) == |items|
      ensures ok ==> visible == disk
    {
      ghost var s := View();
      jobs := jobs[job := jobs[job].(pc := Installs.Initing(false))];
      Installs.RunSnoc(s, [], Installs.StartInit(job));
      assert [] + [Installs.StartInit(job)] == ReloadSteps(job, items, 0);
      var i := 0;
      while i < |items|
        invariant 0 <= i <= FirstBroken(items)
        invariant Installs.IsRun(s, ReloadSteps(job, items, i)) && View() == Installs.Final(s, ReloadSteps(job, items, i))
        invariant Installs.At(View(), job, Installs.Initing(Reloads in items[..i]))
        invariant Reloads in items[..i] ==> visible == disk
      {
        match items[i] {
          case Broken(_) =>
            Installs.RunSnoc(s, ReloadSteps(job, items, i), Installs.InitFailed(job));
            jobs := jobs[job := jobs[job].(pc := Installs.Answering(false))];
            return false;
          case Reloads =>
            Installs.RunSnoc(s, ReloadSteps(job, items, i), Installs.Reload(job));
            visible := disk;
            jobs := jobs[job := jobs[job].(pc := Installs.Initing(true))];
          case _ =>
            assert ReloadSteps(job, items, i) + [] == ReloadSteps(job, items, i);
        }
        i := i + 1;
      }
      assert items[..i] == items;
      Installs.RunSnoc(s, ReloadSteps(job, items, i), Installs.InitOk(job));
      jobs := jobs[job := jobs[job].(pc := Installs.Answering(true))];
      ok := true;
    }
  }
}
