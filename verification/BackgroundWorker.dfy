/** The background worker's schedule: when it syncs, when it sleeps, and what it remembers of changes. */
module BackgroundWorker {
  import opened Results

  /** The worker's memory. Times are in seconds since some origin. */
  datatype Worker = Worker(lastSyncStarted: Option<int>, nextPollDue: int, localChangePending: bool)

  /** What one turn of the loop meets: whether sync is still enabled, whether draining the watcher saw a
      change, the clock when it decides and when a sync starts, how the sync ends, and whether an event interrupts
      the sleep. */
  datatype Input = Input(enabled: bool, drained: bool, now: int, startedAt: int, syncOk: bool, woken: bool)

  datatype Action = Stopped | Synced(startedAt: int, ok: bool) | Slept(wakeAt: int)

  const BACKGROUND_SYNC_INTERVAL_SECS: int := 10

  function DebounceDue(w: Worker, now: int): bool {
    match w.lastSyncStarted
    case Some(t) => now - t >= BACKGROUND_SYNC_INTERVAL_SECS
    case None => true
  }

  function SyncDue(w: Worker, now: int): bool {
    now >= w.nextPollDue || (w.localChangePending && DebounceDue(w, now))
  }

  function WakeAt(w: Worker, now: int): int {
    if w.localChangePending then
      var debounceAt := if w.lastSyncStarted.Some? then w.lastSyncStarted.value + BACKGROUND_SYNC_INTERVAL_SECS else now;
      if debounceAt < w.nextPollDue then debounceAt else w.nextPollDue
    else w.nextPollDue
  }

  /** The first moment of the loop's life. */
  function Initial(now: int): Worker {
    Worker(None, now, false)
  }

  function Drain(w: Worker, i: Input): Worker {
    if i.drained then w.(localChangePending := true) else w
  }

  /** One turn of the loop. */
  function Turn(w0: Worker, i: Input): (Worker, Action) {
    if !i.enabled then (w0, Stopped)
    else
      var w := Drain(w0, i);
      if SyncDue(w, i.now) then
        (Worker(Some(i.startedAt), i.startedAt + BACKGROUND_SYNC_INTERVAL_SECS, if i.syncOk then false else w.localChangePending),
         Synced(i.startedAt, i.syncOk))
      else
        (if i.woken then w.(localChangePending := true) else w, Slept(WakeAt(w, i.now)))
  }

  /** The worker before turn `k`. */
  function Before(start: int, inputs: seq<Input>, k: nat): Worker
    requires k <= |inputs|
  {
    if k == 0 then Initial(start) else Turn(Before(start, inputs, k - 1), inputs[k - 1]).0
  }

  function ActionAt(start: int, inputs: seq<Input>, k: nat): Action
    requires k < |inputs|
  {
    Turn(Before(start, inputs, k), inputs[k]).1
  }

  /** The clock never goes back, within a turn or between turns. */
  ghost predicate Monotone(start: int, inputs: seq<Input>) {
    && (forall k | 0 <= k < |inputs| :: start <= inputs[k].now <= inputs[k].startedAt)
    && (forall j, k | 0 <= j < k < |inputs| :: inputs[j].startedAt <= inputs[k].now)
  }

  ghost predicate SyncsAt(start: int, inputs: seq<Input>, k: nat) {
    k < |inputs| && ActionAt(start, inputs, k).Synced?
  }

  /** After any number of turns the next poll is due one interval after the last start. */
  lemma {:induction false} PollFollowsStart(start: int, inputs: seq<Input>, k: nat)
    requires k <= |inputs|
    ensures var w := Before(start, inputs, k);
            match w.lastSyncStarted
            case Some(t) => w.nextPollDue == t + 10
            case None => w.nextPollDue == start
  {
    if k > 0 {
      PollFollowsStart(start, inputs, k - 1);
    }
  }

  /** The last start that the worker remembers is that of the latest sync. */
  lemma {:induction false} RemembersStart(start: int, inputs: seq<Input>, j: nat, k: nat)
    requires j < k <= |inputs| && SyncsAt(start, inputs, j)
    requires Monotone(start, inputs)
    ensures Before(start, inputs, k).lastSyncStarted.Some?
    ensures Before(start, inputs, k).lastSyncStarted.value >= inputs[j].startedAt
    decreases k
  {
    if k > j + 1 {
      RemembersStart(start, inputs, j, k - 1);
    }
  }

  /** Any two sync starts are at least the interval apart. */
  lemma StartsApart(start: int, inputs: seq<Input>, j: nat, k: nat)
    requires Monotone(start, inputs) && j < k && SyncsAt(start, inputs, j) && SyncsAt(start, inputs, k)
    ensures inputs[k].startedAt - inputs[j].startedAt >= 10
  {
    RemembersStart(start, inputs, j, k);
    PollFollowsStart(start, inputs, k);
  }

  /** An enabled turn syncs exactly if there has been no sync yet or the last one started ten seconds ago or
      more. A pending change makes no difference: it is allowed to start a sync only when the next poll is
      due anyway. */
  lemma SyncsByPollAlone(start: int, inputs: seq<Input>, k: nat)
    requires k < |inputs| && Monotone(start, inputs)
    ensures var last := Before(start, inputs, k).lastSyncStarted;
            SyncsAt(start, inputs, k) <==> inputs[k].enabled && (last.Some? ==> inputs[k].now - last.value >= 10)
    ensures SyncsAt(start, inputs, k) <==> inputs[k].enabled && inputs[k].now >= Before(start, inputs, k).nextPollDue
  {
    PollFollowsStart(start, inputs, k);
  }

  /** A change was observed in turn `k`, by draining or by being woken. */
  predicate Observed(start: int, inputs: seq<Input>, k: nat)
    requires k < |inputs|
  {
    inputs[k].enabled && (inputs[k].drained || (ActionAt(start, inputs, k).Slept? && inputs[k].woken))
  }

  /** A sync that started after the change was observed in turn `k` succeeded before turn `n`. A change
      drained in a turn that goes on to sync is observed before that sync starts. */
  ghost predicate SyncedSince(start: int, inputs: seq<Input>, k: nat, n: nat)
    requires n <= |inputs|
  {
    exists m | k <= m < n :: SyncsAt(start, inputs, m) && inputs[m].syncOk
  }

  /** An observed change stays pending until such a sync. */
  lemma {:induction false} ChangeStaysPending(start: int, inputs: seq<Input>, k: nat, n: nat)
    requires k < n <= |inputs| && Observed(start, inputs, k)
    ensures Before(start, inputs, n).localChangePending || SyncedSince(start, inputs, k, n)
    decreases n
  {
    var m := n - 1;
    if k < m {
      ChangeStaysPending(start, inputs, k, m);
    }
    if SyncsAt(start, inputs, m) && inputs[m].syncOk {
      assert SyncedSince(start, inputs, k, n);
    }
  }

  /** The worker thinks of a change as pending exactly if one was observed and no sync that started after it
      has succeeded since. */
  lemma {:induction false} PendingExactly(start: int, inputs: seq<Input>, n: nat)
    requires n <= |inputs|
    ensures Before(start, inputs, n).localChangePending <==>
              exists k :: 0 <= k < n && Observed(start, inputs, k) && !SyncedSince(start, inputs, k, n)
  {
    if Before(start, inputs, n).localChangePending {
      var k := PendingSince(start, inputs, n);
    }
    if k :| 0 <= k < n && Observed(start, inputs, k) && !SyncedSince(start, inputs, k, n) {
      ChangeStaysPending(start, inputs, k, n);
    }
  }

  lemma {:induction false} PendingSince(start: int, inputs: seq<Input>, n: nat) returns (k: nat)
    requires n <= |inputs| && Before(start, inputs, n).localChangePending
    ensures k < n && Observed(start, inputs, k) && !SyncedSince(start, inputs, k, n)
  {
    assert n > 0;
    if Observed(start, inputs, n - 1) {
      k := n - 1;
    } else {
      k := PendingSince(start, inputs, n - 1);
    }
    assert !(SyncsAt(start, inputs, n - 1) && inputs[n - 1].syncOk);
  }

  /** What the worker remembers is the start of its latest sync. */
  lemma {:induction false} RemembersLatest(start: int, inputs: seq<Input>, k: nat)
    requires k <= |inputs|
    ensures match Before(start, inputs, k).lastSyncStarted
            case Some(t) => exists j: nat :: LatestSync(start, inputs, j, k) && inputs[j].startedAt == t
            case None => forall j | 0 <= j < k :: !SyncsAt(start, inputs, j)
  {
    if k > 0 {
      RemembersLatest(start, inputs, k - 1);
      TurnRemembers(start, inputs, k);
      if SyncsAt(start, inputs, k - 1) {
        assert LatestSync(start, inputs, k - 1, k);
      } else if Before(start, inputs, k - 1).lastSyncStarted.Some? {
        var j: nat :| LatestSync(start, inputs, j, k - 1) && inputs[j].startedAt == Before(start, inputs, k - 1).lastSyncStarted.value;
        assert LatestSync(start, inputs, j, k);
      }
    }
  }

  lemma TurnRemembers(start: int, inputs: seq<Input>, k: nat)
    requires 0 < k <= |inputs|
    ensures Before(start, inputs, k).lastSyncStarted
            == if SyncsAt(start, inputs, k - 1) then Some(inputs[k - 1].startedAt) else Before(start, inputs, k - 1).lastSyncStarted
  {
  }

  ghost predicate LatestSync(start: int, inputs: seq<Input>, j: nat, k: nat) {
    j < k <= |inputs| && SyncsAt(start, inputs, j) && forall m | j < m < k :: !SyncsAt(start, inputs, m)
  }

  /** The sleep is exactly as long as needed: nothing is due before the wake-up time, and a sync is due
      from then on. */
  lemma SleepIsTight(start: int, inputs: seq<Input>, k: nat, t: int)
    requires k < |inputs| && Monotone(start, inputs) && inputs[k].enabled && t >= inputs[k].now
    requires ActionAt(start, inputs, k).Slept?
    ensures SyncDue(Drain(Before(start, inputs, k), inputs[k]), t) <==> t >= ActionAt(start, inputs, k).wakeAt
    ensures ActionAt(start, inputs, k).wakeAt > inputs[k].now
  {
    PollFollowsStart(start, inputs, k);
  }

  /** The process: three fields and a loop that runs until sync is disabled or the inputs end. */
  class WorkerProcess {
    var lastSyncStarted: Option<int>
    var nextPollDue: int
    var localChangePending: bool

    ghost function State(): Worker
      reads this
    {
      Worker(lastSyncStarted, nextPollDue, localChangePending)
    }

    constructor (start: int)
      ensures State() == Initial(start)
    {
      lastSyncStarted, nextPollDue, localChangePending := None, start, false;
    }

    /** One turn, in the order of the program. */
    method RunTurn(i: Input) returns (a: Action)
      modifies this
      ensures (State(), a) == Turn(old(State()), i)
    {
      if !i.enabled {
        return Stopped;
      }
      if i.drained {
        localChangePending := true;
      }
      var pollDue := i.now >= nextPollDue;
      var debounceDue := match lastSyncStarted
        case Some(t) => i.now - t >= BACKGROUND_SYNC_INTERVAL_SECS
        case None => true;
      if pollDue || (localChangePending && debounceDue) {
        if i.syncOk {
          localChangePending := false;
        }
        lastSyncStarted := Some(i.startedAt);
        nextPollDue := i.startedAt + BACKGROUND_SYNC_INTERVAL_SECS;
        return Synced(i.startedAt, i.syncOk);
      }
      var wakeAt := nextPollDue;
      if localChangePending {
        var debounceAt := if lastSyncStarted.Some? then lastSyncStarted.value + BACKGROUND_SYNC_INTERVAL_SECS else i.now;
        if debounceAt < wakeAt {
          wakeAt := debounceAt;
        }
      }
      if i.woken {
        localChangePending := true;
      }
      return Slept(wakeAt);
    }

    /** The loop. Returns how many turns were taken, the last one being the stop if there was one. */
    method RunWorker(start: int, inputs: seq<Input>) returns (turns: nat)
      requires State() == Initial(start)
      modifies this
      ensures turns <= |inputs| && State() == Before(start, inputs, turns)
      ensures forall k | 0 <= k < turns - 1 :: inputs[k].enabled
      ensures turns < |inputs| ==> turns > 0 && !inputs[turns - 1].enabled
    {
      turns := 0;
      while turns < |inputs|
        invariant turns <= |inputs| && State() == Before(start, inputs, turns)
        invariant forall k | 0 <= k < turns :: inputs[k].enabled
      {
        var a := RunTurn(inputs[turns]);
        turns := turns + 1;
        if a == Stopped {
          return;
        }
      }
    }
  }
}
