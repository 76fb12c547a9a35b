/**
 * The motion long-poll. A writer changes the data, then raises the sequence number, then notifies; a reader arms its
 * notification, compares the number with the one it has, sleeps if they are equal, and finally reads the number and
 * then the data. Every step may interleave with those of any other writer or reader.
 */
module MotionFeed {
  import opened Wrappers

  type TaskId = nat
  type Change = nat

  datatype Task =
    | Applied(change: Change)           // the data is changed, the number is not raised yet
    | Raised                            // the number is raised, nobody is notified yet
    | Polling(since: nat)
    | Armed(since: nat, woken: bool)    // registered for the next notification
    | Asleep(since: nat)
    | Awake
    | Numbered(number: nat)             // the response's number is read
    | Answered(number: nat, data: set<Change>)

  /** `raisedAt` is the number each announced change was given. */
  datatype State = State(data: set<Change>, raisedAt: map<Change, nat>, sequence: nat, tasks: map<TaskId, Task>)

  const INITIAL: State := State({}, map[], 0, map[])

  datatype Step =
    | Write(id: TaskId, change: Change)
    | Raise(id: TaskId)
    | Notify(id: TaskId)
    | Poll(id: TaskId, since: nat)
    | Arm(id: TaskId)
    | Compare(id: TaskId)
    | TimeOut(id: TaskId)
    | ReadNumber(id: TaskId)
    | ReadData(id: TaskId)
    | Leave(id: TaskId)

  predicate Enabled(s: State, step: Step) {
    match step
    case Write(id, change) => id !in s.tasks && change !in s.data
    case Raise(id) => id in s.tasks && s.tasks[id].Applied?
    case Notify(id) => id in s.tasks && s.tasks[id].Raised?
    case Poll(id, _) => id !in s.tasks
    case Arm(id) => id in s.tasks && s.tasks[id].Polling?
    case Compare(id) => id in s.tasks && s.tasks[id].Armed?
    case TimeOut(id) => id in s.tasks && s.tasks[id].Asleep?
    case ReadNumber(id) => id in s.tasks && s.tasks[id].Awake?
    case ReadData(id) => id in s.tasks && s.tasks[id].Numbered?
    case Leave(id) => id in s.tasks && !s.tasks[id].Applied? && !s.tasks[id].Raised?
  }

  function Woken(t: Task): Task {
    match t
    case Armed(since, _) => Armed(since, true)
    case Asleep(_) => Awake
    case _ => t
  }

  function Next(s: State, step: Step): State
    requires Enabled(s, step)
  {
    match step
    case Write(id, change) => s.(data := s.data + {change}, tasks := s.tasks[id := Applied(change)])
    case Raise(id) =>
      s.(sequence := s.sequence + 1, raisedAt := s.raisedAt[s.tasks[id].change := s.sequence + 1],
         tasks := s.tasks[id := Raised])
    case Notify(id) => s.(tasks := map x | x in s.tasks && x != id :: Woken(s.tasks[x]))
    case Poll(id, since) => s.(tasks := s.tasks[id := Polling(since)])
    case Arm(id) => s.(tasks := s.tasks[id := Armed(s.tasks[id].since, false)])
    case Compare(id) =>
      var t := s.tasks[id];
      s.(tasks := s.tasks[id := if s.sequence != t.since || t.woken then Awake else Asleep(t.since)])
    case TimeOut(id) => s.(tasks := s.tasks[id := Awake])
    case ReadNumber(id) => s.(tasks := s.tasks[id := Numbered(s.sequence)])
    case ReadData(id) => s.(tasks := s.tasks[id := Answered(s.tasks[id].number, s.data)])
    case Leave(id) => s.(tasks := s.tasks - {id})
  }

  function Act(s: State, step: Step): State {
    if Enabled(s, step) then Next(s, step) else s
  }

  function Run(s: State, steps: seq<Step>): State
    decreases |steps|
  {
    if steps == [] then s else Run(Act(s, steps[0]), steps[1..])
  }

  /** Announced changes are in the data and have numbers up to the sequence; each has its own number. */
  ghost predicate NumbersSound(s: State) {
    && (forall c :: c in s.raisedAt ==> c in s.data && 0 < s.raisedAt[c] <= s.sequence)
    && (forall c, d :: c in s.raisedAt && d in s.raisedAt && s.raisedAt[c] == s.raisedAt[d] ==> c == d)
    && (forall id :: id in s.tasks && s.tasks[id].Applied? ==> s.tasks[id].change in s.data - s.raisedAt.Keys)
    && (forall id, other ::
          (id in s.tasks && other in s.tasks && s.tasks[id].Applied? && s.tasks[other].Applied?
           && s.tasks[id].change == s.tasks[other].change) ==> id == other)
  }

  /** A response holds every change announced with a number up to its own. */
  ghost predicate ResponsesSound(s: State) {
    forall id :: id in s.tasks ==>
      match s.tasks[id]
      case Numbered(number) => number <= s.sequence
      case Answered(number, data) =>
        number <= s.sequence && forall c :: c in s.raisedAt && s.raisedAt[c] <= number ==> c in data
      case _ => true
  }

  /** A reader asleep behind the sequence has a notification coming. */
  ghost predicate SleepersSound(s: State) {
    forall id :: id in s.tasks && s.tasks[id].Asleep? && s.tasks[id].since != s.sequence ==>
      exists w :: w in s.tasks && s.tasks[w].Raised?
  }

  ghost predicate Inv(s: State) {
    NumbersSound(s) && ResponsesSound(s) && SleepersSound(s)
  }

  lemma RaisingKeepsNumbers(s: State, id: TaskId)
    requires NumbersSound(s) && Enabled(s, Raise(id))
    ensures NumbersSound(Next(s, Raise(id)))
  {
  }

  lemma NotifyingKeepsNumbers(s: State, id: TaskId)
    requires NumbersSound(s) && Enabled(s, Notify(id))
    ensures NumbersSound(Next(s, Notify(id)))
  {
    var t := Next(s, Notify(id));
    assert forall x :: x in t.tasks && t.tasks[x].Applied? ==> x in s.tasks && s.tasks[x] == t.tasks[x];
  }

  lemma StepKeepsNumbers(s: State, step: Step)
    requires NumbersSound(s)
    ensures NumbersSound(Act(s, step))
  {
    if step.Raise? && Enabled(s, step) {
      hide Next, NumbersSound;
      RaisingKeepsNumbers(s, step.id);
    } else if step.Notify? && Enabled(s, step) {
      hide Next, NumbersSound;
      NotifyingKeepsNumbers(s, step.id);
    }
  }

  lemma StepKeepsResponses(s: State, step: Step)
    requires NumbersSound(s) && ResponsesSound(s)
    ensures ResponsesSound(Act(s, step))
  {
  }

  lemma StepKeepsSleepers(s: State, step: Step)
    requires SleepersSound(s)
    ensures SleepersSound(Act(s, step))
  {
    if Enabled(s, step) {
      var t := Next(s, step);
      if step.Raise? {
        assert t.tasks[step.id].Raised?;
      } else if !step.Notify? {
        forall id | id in t.tasks && t.tasks[id].Asleep? && t.tasks[id].since != t.sequence
          ensures exists w :: w in t.tasks && t.tasks[w].Raised?
        {
          assert id in s.tasks && s.tasks[id] == t.tasks[id];
          var w :| w in s.tasks && s.tasks[w].Raised?;
          assert w in t.tasks && t.tasks[w].Raised?;
        }
      }
    }
  }

  lemma {:induction false} RunKeepsInv(s: State, steps: seq<Step>)
    requires Inv(s)
    ensures Inv(Run(s, steps))
    decreases |steps|
  {
    hide NumbersSound, ResponsesSound, SleepersSound, Act;
    if steps != [] {
      StepKeepsNumbers(s, steps[0]);
      StepKeepsResponses(s, steps[0]);
      StepKeepsSleepers(s, steps[0]);
      RunKeepsInv(Act(s, steps[0]), steps[1..]);
    }
  }

  /** A response numbered n reflects every change announced by then; only later announcements can be missing. */
  lemma ResponseMissesNothing(steps: seq<Step>, reader: TaskId, change: Change)
    ensures var s := Run(INITIAL, steps);
            (reader in s.tasks && s.tasks[reader].Answered? && change in s.raisedAt
             && s.raisedAt[change] <= s.tasks[reader].number) ==> change in s.tasks[reader].data
  {
    RunKeepsInv(INITIAL, steps);
  }

  /** Once no announcement is half done, whoever is still asleep has seen the current number. */
  lemma NobodySleepsThroughAChange(steps: seq<Step>, reader: TaskId)
    ensures var s := Run(INITIAL, steps);
            (reader in s.tasks && s.tasks[reader].Asleep? && forall w :: w in s.tasks ==> !s.tasks[w].Raised?)
            ==> s.tasks[reader].since == s.sequence
  {
    RunKeepsInv(INITIAL, steps);
  }

  /**
   * A poller that always passes on the number of its last response gets every announced change: if nothing woke it,
   * nothing it lacks has been announced.
   */
  lemma SleeperLacksNothing(steps: seq<Step>, reader: TaskId, earlier: TaskId, change: Change)
    ensures var s := Run(INITIAL, steps);
            (&& reader in s.tasks && s.tasks[reader].Asleep? && (forall w :: w in s.tasks ==> !s.tasks[w].Raised?)
             && earlier in s.tasks && s.tasks[earlier].Answered? && s.tasks[earlier].number == s.tasks[reader].since
             && change in s.raisedAt)
            ==> change in s.tasks[earlier].data
  {
    RunKeepsInv(INITIAL, steps);
  }

  // ---------- what wakes a poller

  /** One of the steps is a notification. */
  predicate Notified(s: State, steps: seq<Step>)
    decreases |steps|
  {
    steps != []
    && ((steps[0].Notify? && steps[0].id in s.tasks && s.tasks[steps[0].id].Raised?)
        || Notified(Act(s, steps[0]), steps[1..]))
  }

  predicate OfOthers(steps: seq<Step>, id: TaskId) {
    forall step :: step in steps ==> step.id != id
  }

  /** What steps of others make of a task: notifications wake it, nothing else touches it. */
  lemma {:induction false} OthersOnlyNotify(s: State, steps: seq<Step>, id: TaskId)
    requires id in s.tasks && OfOthers(steps, id)
    ensures id in Run(s, steps).tasks
    ensures Run(s, steps).tasks[id] == if Notified(s, steps) then Woken(s.tasks[id]) else s.tasks[id]
    decreases |steps|
  {
    if steps != [] {
      assert steps[0] in steps && forall step :: step in steps[1..] ==> step in steps;
      OthersOnlyNotify(Act(s, steps[0]), steps[1..], id);
    }
  }

  /**
   * A poll that passes on `since` is awake before its time is up exactly if the number differs from `since` when it
   * compares, or somebody notifies after it armed; otherwise it sleeps on.
   */
  lemma PollWakesIff(s: State, id: TaskId, since: nat, first: seq<Step>, second: seq<Step>)
    requires id !in s.tasks && OfOthers(first, id) && OfOthers(second, id)
    ensures var armed := Act(Act(s, Poll(id, since)), Arm(id));
            var comparing := Run(armed, first);
            var compared := Act(comparing, Compare(id));
            var t := Run(compared, second);
            id in t.tasks
            && t.tasks[id] == if comparing.sequence != since || Notified(armed, first) || Notified(compared, second)
                              then Awake else Asleep(since)
  {
    var armed := Act(Act(s, Poll(id, since)), Arm(id));
    OthersOnlyNotify(armed, first, id);
    OthersOnlyNotify(Act(Run(armed, first), Compare(id)), second, id);
    hide Run, Notified;
  }

  /** Awake, it is answered with the number as it is now and the data as they are when it comes to read them. */
  lemma AwakeIsAnswered(s: State, id: TaskId, meanwhile: seq<Step>)
    requires id in s.tasks && s.tasks[id] == Awake && OfOthers(meanwhile, id)
    ensures var reading := Run(Act(s, ReadNumber(id)), meanwhile);
            var t := Act(reading, ReadData(id));
            id in t.tasks && t.tasks[id] == Answered(s.sequence, reading.data)
  {
    OthersOnlyNotify(Act(s, ReadNumber(id)), meanwhile, id);
    hide Run, Notified;
  }

  /** When its time is up, a sleeping poller is awake as well. */
  lemma TimeUpWakes(s: State, id: TaskId, meanwhile: seq<Step>)
    requires id in s.tasks && s.tasks[id].Asleep? && OfOthers(meanwhile, id)
    ensures var t := Act(Run(s, meanwhile), TimeOut(id)); id in t.tasks && t.tasks[id] == Awake
  {
    OthersOnlyNotify(s, meanwhile, id);
    hide Run, Notified;
  }

  /** The number counts the announced changes: every number up to it was given to exactly one of them. */
  lemma {:induction false} NumbersCountChanges(steps: seq<Step>, n: nat)
    ensures var s := Run(INITIAL, steps);
            1 <= n <= s.sequence <==> exists c :: c in s.raisedAt && s.raisedAt[c] == n
  {
    RunKeepsInv(INITIAL, steps);
    RunKeepsFull(INITIAL, steps);
    var s := Run(INITIAL, steps);
    hide Run, ResponsesSound, SleepersSound;
    if 1 <= n <= s.sequence {
      assert Given(s, n);
    }
  }

  ghost predicate Full(s: State) {
    forall n :: 1 <= n <= s.sequence ==> Given(s, n)
  }

  ghost predicate Given(s: State, n: nat) {
    exists c :: c in s.raisedAt && s.raisedAt[c] == n
  }

  lemma {:induction false} RunKeepsFull(s: State, steps: seq<Step>)
    requires Inv(s) && Full(s)
    ensures Full(Run(s, steps))
    decreases |steps|
  {
    hide Full, NumbersSound, ResponsesSound, SleepersSound, Act;
    if steps != [] {
      StepKeepsNumbers(s, steps[0]);
      StepKeepsResponses(s, steps[0]);
      StepKeepsSleepers(s, steps[0]);
      StepKeepsFull(s, steps[0]);
      RunKeepsFull(Act(s, steps[0]), steps[1..]);
    }
  }

  lemma StepKeepsFull(s: State, step: Step)
    requires NumbersSound(s) && Full(s)
    ensures Full(Act(s, step))
  {
    if step.Raise? && Enabled(s, step) {
      var t := Act(s, step);
      var change := s.tasks[step.id].change;
      assert t.raisedAt[change] == s.sequence + 1 && t.sequence == s.sequence + 1;
      forall n | 1 <= n <= t.sequence
        ensures Given(t, n)
      {
        if n <= s.sequence {
          assert Given(s, n);
          var c :| c in s.raisedAt && s.raisedAt[c] == n;
          assert c in t.raisedAt && t.raisedAt[c] == n;
        }
      }
    } else {
      assert Act(s, step).sequence == s.sequence && Act(s, step).raisedAt == s.raisedAt;
      assert forall n :: Given(s, n) ==> Given(Act(s, step), n);
    }
  }
}
