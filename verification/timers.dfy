/** The timers of the bot: the runtime's table of armed timers with the set
    still live, and the invariant that ties them to the program's own
    bookkeeping (nudge handles kept in each correspondent's record, auto-release
    handles kept per paused correspondent). */
module Timers {
  import opened Wrappers
  import opened Conversation

  /** A correspondent's WhatsApp id. */
  type Id = string

  /** A handle returned by the runtime's timer scheduler; handles are never reused. */
  type Handle = nat

  /** The three follow-up nudges, by the key they are stored under. */
  datatype NudgeName = T20 | T24 | T48

  /** What a timer does when it fires. */
  datatype Job = Nudge(name: NudgeName) | AutoRelease

  /** An armed timer: whom it concerns, what it does, when it was armed and its delay in ms. */
  datatype Timer = Timer(owner: Id, job: Job, armedAt: nat, delay: nat)

  /** The memory record of one correspondent; `timers` holds the handles of the
      last nudges armed for it, which may since have fired. */
  datatype UserState = UserState(history: seq<Turn>, lastSeen: nat, timers: map<NudgeName, Handle>)

  const MinuteMs: nat := 60 * 1000

  function NudgeDelay(n: NudgeName): nat
  {
    match n
    case T20 => 20 * MinuteMs
    case T24 => 24 * 60 * MinuteMs
    case T48 => 48 * 60 * MinuteMs
  }

  function Due(t: Timer): nat
  {
    t.armedAt + t.delay
  }

  /** The handles given to the three nudges armed with first handle `h`. */
  function NudgeHandles(h: Handle): map<NudgeName, Handle>
  {
    map[T20 := h, T24 := h + 1, T48 := h + 2]
  }

  /** The runtime's table after arming the three nudges of `id` at `now`. */
  function ArmNudges(armed: map<Handle, Timer>, id: Id, now: nat, h: Handle): map<Handle, Timer>
  {
    armed[h := Timer(id, Nudge(T20), now, NudgeDelay(T20))]
         [h + 1 := Timer(id, Nudge(T24), now, NudgeDelay(T24))]
         [h + 2 := Timer(id, Nudge(T48), now, NudgeDelay(T48))]
  }

  /** `h` was issued before `next`. */
  ghost predicate Issued(armed: map<Handle, Timer>, next: Handle, h: Handle)
  {
    h in armed ==> h < next
  }

  /** Every armed timer has a handle below the next one to be issued; only armed timers are live. */
  ghost predicate HandlesIssued(armed: map<Handle, Timer>, live: set<Handle>, next: Handle)
  {
    && (forall h :: Issued(armed, next, h))
    && live <= armed.Keys
  }

  /** The handle recorded under `n` in `id`'s record, if any, is a nudge of `id` under that name. */
  ghost predicate RecordedNudge(memory: map<Id, UserState>, armed: map<Handle, Timer>, id: Id, n: NudgeName)
  {
    id in memory && n in memory[id].timers ==>
      && memory[id].timers[n] in armed
      && armed[memory[id].timers[n]].owner == id
      && armed[memory[id].timers[n]].job == Nudge(n)
  }

  /** If `h` is a live nudge, it is the one recorded under its name, with its fixed delay. */
  ghost predicate LiveNudge(memory: map<Id, UserState>, armed: map<Handle, Timer>, live: set<Handle>, h: Handle)
  {
    h in live && h in armed && armed[h].job.Nudge? ==>
      && armed[h].owner in memory
      && armed[h].job.name in memory[armed[h].owner].timers
      && memory[armed[h].owner].timers[armed[h].job.name] == h
      && armed[h].delay == NudgeDelay(armed[h].job.name)
  }

  /** Each handle recorded in a correspondent's record is a nudge of that
      correspondent under that name; every live nudge is the one recorded under
      its name, with its fixed delay. */
  ghost predicate NudgesTracked(memory: map<Id, UserState>, armed: map<Handle, Timer>, live: set<Handle>)
  {
    && (forall id, n :: RecordedNudge(memory, armed, id, n))
    && (forall h :: LiveNudge(memory, armed, live, h))
  }

  /** `id`'s recorded auto-release timer, if any, is live and belongs to it. */
  ghost predicate RecordedRelease(releaseTimers: map<Id, Handle>, armed: map<Handle, Timer>, live: set<Handle>, id: Id)
  {
    id in releaseTimers ==>
      && releaseTimers[id] in live
      && releaseTimers[id] in armed
      && armed[releaseTimers[id]].owner == id
      && armed[releaseTimers[id]].job == AutoRelease
  }

  /** If `h` is a live auto-release timer, it is the one recorded for its owner. */
  ghost predicate LiveRelease(releaseTimers: map<Id, Handle>, armed: map<Handle, Timer>, live: set<Handle>, h: Handle)
  {
    h in live && h in armed && armed[h].job.AutoRelease? ==>
      armed[h].owner in releaseTimers && releaseTimers[armed[h].owner] == h
  }

  /** Each recorded auto-release timer is live and belongs to its correspondent;
      every live auto-release timer is the recorded one. */
  ghost predicate ReleasesTracked(releaseTimers: map<Id, Handle>, armed: map<Handle, Timer>, live: set<Handle>)
  {
    && (forall id :: RecordedRelease(releaseTimers, armed, live, id))
    && (forall h :: LiveRelease(releaseTimers, armed, live, h))
  }

  ghost predicate TimersOk(memory: map<Id, UserState>, releaseTimers: map<Id, Handle>,
                           armed: map<Handle, Timer>, live: set<Handle>, next: Handle)
  {
    && HandlesIssued(armed, live, next)
    && NudgesTracked(memory, armed, live)
    && ReleasesTracked(releaseTimers, armed, live)
  }

  /** When `id`'s nudge `n` is due, if it is still live. */
  ghost function NudgeDueOf(memory: map<Id, UserState>, armed: map<Handle, Timer>, live: set<Handle>, id: Id, n: NudgeName)
    : Option<nat>
  {
    if id in memory && n in memory[id].timers && memory[id].timers[n] in live && memory[id].timers[n] in armed
    then Some(Due(armed[memory[id].timers[n]])) else None
  }

  /** When `id`'s auto-release timer is due, if it has one. */
  ghost function ReleaseDueOf(releaseTimers: map<Id, Handle>, armed: map<Handle, Timer>, live: set<Handle>, id: Id)
    : Option<nat>
  {
    if id in releaseTimers && releaseTimers[id] in live && releaseTimers[id] in armed
    then Some(Due(armed[releaseTimers[id]])) else None
  }

  /** Re-arming never accumulates: at most one live timer per correspondent and job. */
  lemma OneLiveTimerPerJob(memory: map<Id, UserState>, releaseTimers: map<Id, Handle>,
                           armed: map<Handle, Timer>, live: set<Handle>, next: Handle, h1: Handle, h2: Handle)
    requires TimersOk(memory, releaseTimers, armed, live, next)
    requires h1 in live && h2 in live
    requires armed[h1].owner == armed[h2].owner && armed[h1].job == armed[h2].job
    ensures h1 == h2
  {
    assert LiveNudge(memory, armed, live, h1) && LiveNudge(memory, armed, live, h2);
    assert LiveRelease(releaseTimers, armed, live, h1) && LiveRelease(releaseTimers, armed, live, h2);
  }

  /** A timer that is not a nudge of `id` is not among the handles recorded for `id`. */
  lemma NotRecordedFor(memory: map<Id, UserState>, armed: map<Handle, Timer>, live: set<Handle>, id: Id, x: Handle)
    requires NudgesTracked(memory, armed, live)
    requires id in memory && x in armed && (armed[x].job.AutoRelease? || armed[x].owner != id)
    ensures x !in memory[id].timers.Values
  {
    forall n | n in memory[id].timers
      ensures memory[id].timers[n] != x
    {
      assert RecordedNudge(memory, armed, id, n);
    }
  }

  /** The tables after clearing the nudges recorded for `id` and arming three fresh ones. */
  function RearmedMemory(memory: map<Id, UserState>, id: Id, next: Handle): map<Id, UserState>
    requires id in memory
  {
    memory[id := memory[id].(timers := NudgeHandles(next))]
  }

  function RearmedLive(memory: map<Id, UserState>, live: set<Handle>, id: Id, next: Handle): set<Handle>
    requires id in memory
  {
    live - memory[id].timers.Values + {next, next + 1, next + 2}
  }

  /** Clearing the nudges recorded for `id` and arming three fresh ones keeps the invariant. */
  lemma RearmKeepsTimersOk(memory: map<Id, UserState>, releaseTimers: map<Id, Handle>,
                           armed: map<Handle, Timer>, live: set<Handle>, next: Handle, id: Id, now: nat)
    requires TimersOk(memory, releaseTimers, armed, live, next)
    requires id in memory
    ensures TimersOk(RearmedMemory(memory, id, next), releaseTimers, ArmNudges(armed, id, now, next),
                     RearmedLive(memory, live, id, next), next + 3)
  {
    var memory' := RearmedMemory(memory, id, next);
    var armed' := ArmNudges(armed, id, now, next);
    var live' := RearmedLive(memory, live, id, next);
    var issued := {next, next + 1, next + 2};
    forall h
      ensures Issued(armed', next + 3, h)
      ensures h in armed ==> h in armed' && armed'[h] == armed[h]
    {
      assert Issued(armed, next, h);
    }
    forall i, n
      ensures RecordedNudge(memory', armed', i, n)
    {
      if i != id {
        assert RecordedNudge(memory, armed, i, n);
      }
    }
    forall x
      ensures LiveNudge(memory', armed', live', x)
      ensures LiveRelease(releaseTimers, armed', live', x)
    {
      if x !in issued && x in live' {
        assert LiveNudge(memory, armed, live, x);
        assert LiveRelease(releaseTimers, armed, live, x);
      }
    }
    forall i
      ensures RecordedRelease(releaseTimers, armed', live', i)
    {
      assert RecordedRelease(releaseTimers, armed, live, i);
      if i in releaseTimers {
        NotRecordedFor(memory, armed, live, id, releaseTimers[i]);
      }
    }
  }

  /** After re-arming, each of the three nudges of `id` is live and due its delay from `now`. */
  lemma RearmLiveNudges(memory: map<Id, UserState>, releaseTimers: map<Id, Handle>,
                        armed: map<Handle, Timer>, live: set<Handle>, next: Handle, id: Id, now: nat, n: NudgeName)
    requires TimersOk(memory, releaseTimers, armed, live, next)
    requires id in memory
    ensures NudgeDueOf(RearmedMemory(memory, id, next), ArmNudges(armed, id, now, next),
                       RearmedLive(memory, live, id, next), id, n) == Some(now + NudgeDelay(n))
  {
  }

  /** Re-arming `id` changes neither another correspondent's nudges nor any auto-release timer. */
  lemma RearmLeavesOthers(memory: map<Id, UserState>, releaseTimers: map<Id, Handle>,
                          armed: map<Handle, Timer>, live: set<Handle>, next: Handle, id: Id, now: nat,
                          other: Id, n: NudgeName)
    requires TimersOk(memory, releaseTimers, armed, live, next)
    requires id in memory
    ensures other != id ==>
      NudgeDueOf(RearmedMemory(memory, id, next), ArmNudges(armed, id, now, next), RearmedLive(memory, live, id, next), other, n)
      == NudgeDueOf(memory, armed, live, other, n)
    ensures ReleaseDueOf(releaseTimers, ArmNudges(armed, id, now, next), RearmedLive(memory, live, id, next), other)
      == ReleaseDueOf(releaseTimers, armed, live, other)
  {
    var armed' := ArmNudges(armed, id, now, next);
    var live' := RearmedLive(memory, live, id, next);
    if other != id && other in memory && n in memory[other].timers {
      var x := memory[other].timers[n];
      assert RecordedNudge(memory, armed, other, n);
      assert Issued(armed, next, x);
      NotRecordedFor(memory, armed, live, id, x);
    }
    if other in releaseTimers {
      var r := releaseTimers[other];
      assert RecordedRelease(releaseTimers, armed, live, other);
      assert Issued(armed, next, r);
      NotRecordedFor(memory, armed, live, id, r);
    }
  }

  /** Replacing a correspondent's record by one with the same nudge handles
      (a fresh record has none) keeps the invariant and every live nudge. */
  lemma ReplaceRecord(memory: map<Id, UserState>, releaseTimers: map<Id, Handle>,
                      armed: map<Handle, Timer>, live: set<Handle>, next: Handle, id: Id, st: UserState)
    requires TimersOk(memory, releaseTimers, armed, live, next)
    requires st.timers == if id in memory then memory[id].timers else map[]
    ensures TimersOk(memory[id := st], releaseTimers, armed, live, next)
    ensures forall other, n :: NudgeDueOf(memory[id := st], armed, live, other, n) == NudgeDueOf(memory, armed, live, other, n)
  {
    var memory' := memory[id := st];
    forall i, n
      ensures RecordedNudge(memory', armed, i, n)
    {
      assert RecordedNudge(memory, armed, i, n);
    }
    forall h
      ensures LiveNudge(memory', armed, live, h)
    {
      assert LiveNudge(memory, armed, live, h);
    }
  }

  /** The live set once `id`'s auto-release timer, if any, is cleared. */
  function ReleaseCleared(releaseTimers: map<Id, Handle>, live: set<Handle>, id: Id): set<Handle>
  {
    if id in releaseTimers then live - {releaseTimers[id]} else live
  }

  /** Clearing `id`'s auto-release timer leaves every other auto-release timer
      live and every nudge of every correspondent as it was. */
  lemma ReleaseClearedKeeps(memory: map<Id, UserState>, releaseTimers: map<Id, Handle>,
                            armed: map<Handle, Timer>, live: set<Handle>, next: Handle, id: Id, other: Id, n: NudgeName)
    requires TimersOk(memory, releaseTimers, armed, live, next)
    ensures other != id && other in releaseTimers ==>
      releaseTimers[other] in ReleaseCleared(releaseTimers, live, id)
    ensures NudgeDueOf(memory, armed, ReleaseCleared(releaseTimers, live, id), other, n) == NudgeDueOf(memory, armed, live, other, n)
  {
    assert RecordedRelease(releaseTimers, armed, live, id);
    assert RecordedRelease(releaseTimers, armed, live, other);
    assert RecordedNudge(memory, armed, other, n);
  }

  /** Clearing `id`'s auto-release timer and arming a new one keeps the invariant. */
  lemma ArmReleaseKeepsTimersOk(memory: map<Id, UserState>, releaseTimers: map<Id, Handle>,
                                armed: map<Handle, Timer>, live: set<Handle>, next: Handle,
                                id: Id, now: nat, delay: nat)
    requires TimersOk(memory, releaseTimers, armed, live, next)
    ensures TimersOk(memory, releaseTimers[id := next], armed[next := Timer(id, AutoRelease, now, delay)],
                     ReleaseCleared(releaseTimers, live, id) + {next}, next + 1)
  {
    var releaseTimers' := releaseTimers[id := next];
    var armed' := armed[next := Timer(id, AutoRelease, now, delay)];
    var live' := ReleaseCleared(releaseTimers, live, id) + {next};
    forall h
      ensures Issued(armed', next + 1, h)
      ensures h in armed ==> h in armed' && armed'[h] == armed[h]
    {
      assert Issued(armed, next, h);
    }
    forall i, n
      ensures RecordedNudge(memory, armed', i, n)
    {
      assert RecordedNudge(memory, armed, i, n);
    }
    forall x
      ensures LiveNudge(memory, armed', live', x)
      ensures LiveRelease(releaseTimers', armed', live', x)
    {
      if x != next {
        assert LiveNudge(memory, armed, live, x);
        assert LiveRelease(releaseTimers, armed, live, x);
      }
    }
    forall i
      ensures RecordedRelease(releaseTimers', armed', live', i)
    {
      if i != id {
        ReleaseClearedKeeps(memory, releaseTimers, armed, live, next, id, i, T20);
        assert RecordedRelease(releaseTimers, armed, live, i);
      }
    }
  }

  /** After re-arming, `id`'s single auto-release timer is due `delay` from
      `now`; every other timer keeps its state. */
  lemma ArmReleaseEffect(memory: map<Id, UserState>, releaseTimers: map<Id, Handle>,
                         armed: map<Handle, Timer>, live: set<Handle>, next: Handle,
                         id: Id, now: nat, delay: nat, other: Id, n: NudgeName)
    requires TimersOk(memory, releaseTimers, armed, live, next)
    ensures var armed' := armed[next := Timer(id, AutoRelease, now, delay)];
      var live' := ReleaseCleared(releaseTimers, live, id) + {next};
      && ReleaseDueOf(releaseTimers[id := next], armed', live', id) == Some(now + delay)
      && (other != id ==> ReleaseDueOf(releaseTimers[id := next], armed', live', other) == ReleaseDueOf(releaseTimers, armed, live, other))
      && NudgeDueOf(memory, armed', live', other, n) == NudgeDueOf(memory, armed, live, other, n)
  {
    ReleaseClearedKeeps(memory, releaseTimers, armed, live, next, id, other, n);
    if other in releaseTimers {
      assert RecordedRelease(releaseTimers, armed, live, other);
      assert Issued(armed, next, releaseTimers[other]);
    }
    if other in memory && n in memory[other].timers {
      assert RecordedNudge(memory, armed, other, n);
      assert Issued(armed, next, memory[other].timers[n]);
    }
  }

  /** Clearing and forgetting `id`'s auto-release timer keeps the invariant and
      leaves every nudge and every other auto-release timer as it was. */
  lemma DropRelease(memory: map<Id, UserState>, releaseTimers: map<Id, Handle>,
                    armed: map<Handle, Timer>, live: set<Handle>, next: Handle, id: Id, other: Id, n: NudgeName)
    requires TimersOk(memory, releaseTimers, armed, live, next)
    ensures var live' := ReleaseCleared(releaseTimers, live, id);
      && TimersOk(memory, releaseTimers - {id}, armed, live', next)
      && ReleaseDueOf(releaseTimers - {id}, armed, live', id) == None
      && (other != id ==> ReleaseDueOf(releaseTimers - {id}, armed, live', other) == ReleaseDueOf(releaseTimers, armed, live, other))
      && NudgeDueOf(memory, armed, live', other, n) == NudgeDueOf(memory, armed, live, other, n)
  {
    var live' := ReleaseCleared(releaseTimers, live, id);
    ReleaseClearedKeeps(memory, releaseTimers, armed, live, next, id, other, n);
    forall h
      ensures LiveNudge(memory, armed, live', h)
      ensures LiveRelease(releaseTimers - {id}, armed, live', h)
    {
      assert LiveNudge(memory, armed, live, h);
      assert LiveRelease(releaseTimers, armed, live, h);
    }
    forall i
      ensures RecordedRelease(releaseTimers - {id}, armed, live', i)
    {
      if i != id {
        ReleaseClearedKeeps(memory, releaseTimers, armed, live, next, id, i, n);
        assert RecordedRelease(releaseTimers, armed, live, i);
      }
    }
  }

  /** A nudge that fires is no longer live; nothing else changes. */
  lemma FireNudge(memory: map<Id, UserState>, releaseTimers: map<Id, Handle>,
                  armed: map<Handle, Timer>, live: set<Handle>, next: Handle, h: Handle, other: Id, n: NudgeName)
    requires TimersOk(memory, releaseTimers, armed, live, next)
    requires h in live && armed[h].job.Nudge?
    ensures TimersOk(memory, releaseTimers, armed, live - {h}, next)
    ensures ReleaseDueOf(releaseTimers, armed, live - {h}, other) == ReleaseDueOf(releaseTimers, armed, live, other)
    ensures NudgeDueOf(memory, armed, live - {h}, other, n)
      == if other == armed[h].owner && n == armed[h].job.name then None else NudgeDueOf(memory, armed, live, other, n)
  {
    forall x
      ensures LiveNudge(memory, armed, live - {h}, x)
      ensures LiveRelease(releaseTimers, armed, live - {h}, x)
    {
      assert LiveNudge(memory, armed, live, x);
      assert LiveRelease(releaseTimers, armed, live, x);
    }
    forall i
      ensures RecordedRelease(releaseTimers, armed, live - {h}, i)
    {
      assert RecordedRelease(releaseTimers, armed, live, i);
    }
    assert RecordedRelease(releaseTimers, armed, live, other);
    assert RecordedNudge(memory, armed, other, n);
    assert LiveNudge(memory, armed, live, h);
  }
}
