/** The map of per-user locks, whose entries are created on demand and deleted when nobody uses them: its critical
    sections as functions, the state machine of the threads that go through them, and the map itself. */
module UserLocks {
  import opened Base

  type Thread = nat

  /** The lock filed under each user, and how many threads each lock counts. `L` is the identity of a lock. */
  datatype Locks<L(==)> = Locks(entries: map<Key, L>, users: map<L, nat>) {
    ghost predicate Known() { forall k <- entries :: entries[k] in users }
  }

  /** The first critical section of lockUser: the lock is found or created, and counts one thread more. */
  function Enter<L(==)>(s: Locks<L>, key: Key, newborn: L): (s': Locks<L>)
    requires s.Known()
    ensures s'.Known() && key in s'.entries
  {
    if key in s.entries then s.(users := s.users[s.entries[key] := s.users[s.entries[key]] + 1])
    else Locks(s.entries[key := newborn], s.users[newborn := 1])
  }

  /** The last critical section: the lock counts one thread less, and the entry goes with the last one. */
  function Leave<L(==)>(s: Locks<L>, key: Key, lock: L): (s': Locks<L>)
    requires s.Known()
    ensures s'.Known()
  {
    var left := if lock in s.users && s.users[lock] > 0 then s.users[lock] - 1 else 0;
    Locks(if left == 0 then s.entries - {key} else s.entries, s.users[lock := left])
  }

  /** Leaving undoes entering: the entry is as it was before, and it is gone if it was created for this. */
  lemma LeavingUndoesEntering<L>(s: Locks<L>, key: Key, newborn: L)
    requires s.Known() && newborn !in s.users && (forall k <- s.entries :: s.users[s.entries[k]] > 0)
    ensures var lock := Enter(s, key, newborn).entries[key]; var r := Leave(Enter(s, key, newborn), key, lock);
      r.entries == s.entries && (forall l <- s.users :: l in r.users && r.users[l] == s.users[l])
  {
  }

  // ---------------------------------------------------------------- the threads

  /** A thread that counts for a user's lock: waiting for it, holding it, or done with it and about to say so. */
  datatype Pc = Waiting | Holding | Releasing

  datatype Stand = Stand(key: Key, lock: nat, pc: Pc)

  type LockMap = s: Locks<nat> | s.Known() witness Locks(map[], map[])

  /** `held` says which thread has each mutex. */
  datatype State = State(locks: LockMap, nextId: nat, held: map<nat, Thread>, threads: map<Thread, Stand>)

  datatype Step = Begin(t: Thread, key: Key) | Acquire(t: Thread) | Unlock(t: Thread) | Finish(t: Thread)

  function Init(): State { State(Locks(map[], map[]), 0, map[], map[]) }

  predicate Enabled(s: State, step: Step) {
    match step
    case Begin(t, _) => t !in s.threads
    case Acquire(t) => t in s.threads && s.threads[t].pc.Waiting? && s.threads[t].lock !in s.held
    case Unlock(t) => t in s.threads && s.threads[t].pc.Holding?
    case Finish(t) => t in s.threads && s.threads[t].pc.Releasing?
  }

  function Do(s: State, step: Step): State
    requires Enabled(s, step)
  {
    match step
    case Begin(t, key) =>
      var locks := Enter(s.locks, key, s.nextId);
      s.(locks := locks, nextId := if key in s.locks.entries then s.nextId else s.nextId + 1,
         threads := s.threads[t := Stand(key, locks.entries[key], Waiting)])
    case Acquire(t) =>
      s.(held := s.held[s.threads[t].lock := t], threads := s.threads[t := s.threads[t].(pc := Holding)])
    case Unlock(t) =>
      s.(held := s.held - {s.threads[t].lock}, threads := s.threads[t := s.threads[t].(pc := Releasing)])
    case Finish(t) =>
      s.(locks := Leave(s.locks, s.threads[t].key, s.threads[t].lock), threads := s.threads - {t})
  }

  /** The threads that count for a user's lock. */
  function UsersOf(threads: map<Thread, Stand>, key: Key): set<Thread> {
    set t | t in threads && threads[t].key == key
  }

  /** What a user's entry needs of the counts of its lock. */
  ghost predicate Counted(locks: LockMap, threads: map<Thread, Stand>, key: Key)
    requires key in locks.entries
  {
    locks.users[locks.entries[key]] == |UsersOf(threads, key)| > 0
  }

  /** All the threads of a user share the lock filed under him, which counts exactly them. */
  ghost predicate InvShared(s: State) {
    && (forall t <- s.threads :: s.threads[t].key in s.locks.entries && s.threads[t].lock == s.locks.entries[s.threads[t].key])
    && (forall k <- s.locks.entries :: Counted(s.locks, s.threads, k))
  }

  /** Different users have different locks. */
  ghost predicate InvIdentities(s: State) {
    && (forall l <- s.locks.users :: l < s.nextId)
    && (forall k, m | k in s.locks.entries && m in s.locks.entries && s.locks.entries[k] == s.locks.entries[m] :: k == m)
  }

  /** A mutex is held by the one thread that stands in its critical section. */
  ghost predicate InvHeld(s: State) {
    && (forall t <- s.threads | s.threads[t].pc.Holding? :: s.threads[t].lock in s.held && s.held[s.threads[t].lock] == t)
    && (forall l <- s.held :: s.held[l] in s.threads && s.threads[s.held[l]].lock == l && s.threads[s.held[l]].pc.Holding?)
  }

  ghost predicate Inv(s: State) { InvShared(s) && InvIdentities(s) && InvHeld(s) }

  lemma UsersOfUpdate(threads: map<Thread, Stand>, t: Thread, stand: Stand, key: Key)
    requires t in threads ==> threads[t].key == stand.key
    ensures UsersOf(threads[t := stand], key) == UsersOf(threads, key) + if key == stand.key then {t} else {}
    ensures t in threads && key == stand.key ==> t in UsersOf(threads, key)
    ensures t !in threads ==> t !in UsersOf(threads, key)
  {
  }

  lemma UsersOfRemoval(threads: map<Thread, Stand>, t: Thread, key: Key)
    requires t in threads
    ensures UsersOf(threads - {t}, key) == UsersOf(threads, key) - if key == threads[t].key then {t} else {}
    ensures key == threads[t].key ==> t in UsersOf(threads, key)
  {
  }

  lemma UsersOfNobody(threads: map<Thread, Stand>, key: Key)
    requires |UsersOf(threads, key)| == 0
    ensures forall t <- threads :: threads[t].key != key
  {
    assert UsersOf(threads, key) == {};
    assert forall t <- threads | threads[t].key == key :: t in UsersOf(threads, key);
  }

  lemma BeginCounts(locks: LockMap, threads: map<Thread, Stand>, t: Thread, key: Key, newborn: nat, k: Key)
    requires t !in threads && newborn !in locks.users
    requires key in locks.entries ==> Counted(locks, threads, key)
    requires k in locks.entries ==> Counted(locks, threads, k)
    requires key !in locks.entries ==> UsersOf(threads, key) == {}
    requires key in locks.entries && k in locks.entries && locks.entries[k] == locks.entries[key] ==> k == key
    requires k in Enter(locks, key, newborn).entries
    ensures var locks' := Enter(locks, key, newborn);
      Counted(locks', threads[t := Stand(key, locks'.entries[key], Waiting)], k)
  {
    var locks' := Enter(locks, key, newborn);
    UsersOfUpdate(threads, t, Stand(key, locks'.entries[key], Waiting), k);
    hide UsersOf;
  }

  lemma BeginKeepsShared(s: State, t: Thread, key: Key)
    requires InvShared(s) && InvIdentities(s) && t !in s.threads
    ensures InvShared(Do(s, Begin(t, key)))
  {
    var s' := Do(s, Begin(t, key));
    if key !in s.locks.entries {
      assert UsersOf(s.threads, key) == {};
    }
    hide UsersOf;
    forall k <- s'.locks.entries ensures Counted(s'.locks, s'.threads, k) {
      BeginCounts(s.locks, s.threads, t, key, s.nextId, k);
    }
  }

  lemma BeginKeeps(s: State, t: Thread, key: Key)
    requires Inv(s) && t !in s.threads
    ensures Inv(Do(s, Begin(t, key)))
  {
    hide InvShared, InvIdentities, InvHeld;
    BeginKeepsShared(s, t, key);
    BeginKeepsIdentities(s, t, key);
    BeginKeepsHeld(s, t, key);
  }

  lemma BeginKeepsIdentities(s: State, t: Thread, key: Key)
    requires InvIdentities(s) && t !in s.threads
    ensures InvIdentities(Do(s, Begin(t, key)))
  {
  }

  lemma BeginKeepsHeld(s: State, t: Thread, key: Key)
    requires InvHeld(s) && t !in s.threads
    ensures InvHeld(Do(s, Begin(t, key)))
  {
    hide Enter;
  }

  lemma MoveKeepsShared(s: State, step: Step)
    requires InvShared(s) && Enabled(s, step) && (step.Acquire? || step.Unlock?)
    ensures InvShared(Do(s, step))
  {
    hide UsersOf, Counted;
    var s' := Do(s, step);
    forall k <- s'.locks.entries ensures Counted(s'.locks, s'.threads, k) {
      SameUsersCount(s.locks, s.threads, step.t, s'.threads[step.t], k);
    }
  }

  lemma SameUsersCount(locks: LockMap, threads: map<Thread, Stand>, t: Thread, stand: Stand, key: Key)
    requires t in threads && threads[t].key == stand.key && key in locks.entries && Counted(locks, threads, key)
    ensures Counted(locks, threads[t := stand], key)
  {
    UsersOfUpdate(threads, t, stand, key);
    assert UsersOf(threads[t := stand], key) == UsersOf(threads, key);
  }

  lemma MoveKeepsHeld(s: State, step: Step)
    requires InvHeld(s) && Enabled(s, step) && (step.Acquire? || step.Unlock?)
    ensures InvHeld(Do(s, step))
  {
  }

  lemma MoveKeepsIdentities(s: State, step: Step)
    requires InvIdentities(s) && Enabled(s, step) && (step.Acquire? || step.Unlock?)
    ensures InvIdentities(Do(s, step))
  {
  }

  lemma FinishKeepsShared(s: State, t: Thread)
    requires InvShared(s) && InvIdentities(s) && Enabled(s, Finish(t))
    ensures InvShared(Do(s, Finish(t)))
  {
    var s' := Do(s, Finish(t));
    var key := s.threads[t].key;
    hide UsersOf;
    UsersOfRemoval(s.threads, t, key);
    assert Counted(s.locks, s.threads, key);
    assert |UsersOf(s'.threads, key)| == |UsersOf(s.threads, key)| - 1;
    if key !in s'.locks.entries {
      UsersOfNobody(s'.threads, key);
    }
    forall k <- s'.locks.entries ensures Counted(s'.locks, s'.threads, k) {
      UsersOfRemoval(s.threads, t, k);
      assert Counted(s.locks, s.threads, k);
    }
  }

  lemma FinishKeeps(s: State, t: Thread)
    requires Inv(s) && Enabled(s, Finish(t))
    ensures Inv(Do(s, Finish(t)))
  {
    FinishKeepsShared(s, t);
    hide InvShared;
  }

  lemma StepKeeps(s: State, step: Step)
    requires Inv(s) && Enabled(s, step)
    ensures Inv(Do(s, step))
  {
    hide InvShared, InvIdentities, InvHeld;
    match step
    case Begin(t, key) => BeginKeeps(s, t, key);
    case Finish(t) => FinishKeeps(s, t);
    case _ =>
      MoveKeepsShared(s, step);
      MoveKeepsHeld(s, step);
      MoveKeepsIdentities(s, step);
  }

  ghost predicate Run(states: seq<State>, steps: seq<Step>) {
    && |states| == |steps| + 1
    && states[0] == Init()
    && (forall i | 0 <= i < |steps| :: Enabled(states[i], steps[i]) && states[i + 1] == Do(states[i], steps[i]))
  }

  lemma {:induction false} RunKeeps(states: seq<State>, steps: seq<Step>, i: nat)
    requires Run(states, steps) && i < |states|
    ensures Inv(states[i])
  {
    if i > 0 {
      hide Inv, Do;
      RunKeeps(states, steps, i - 1);
      StepKeeps(states[i - 1], steps[i - 1]);
    }
  }

  /** In every interleaving at most one thread of a user is in the section the lock protects, although the lock
      objects come and go. */
  lemma AtMostOneHolder(states: seq<State>, steps: seq<Step>, i: nat, t: Thread, u: Thread)
    requires Run(states, steps) && i < |states| && t in states[i].threads && u in states[i].threads
    requires states[i].threads[t].pc.Holding? && states[i].threads[u].pc.Holding?
    requires states[i].threads[t].key == states[i].threads[u].key
    ensures t == u
  {
    RunKeeps(states, steps, i);
  }

  /** A user has a lock exactly while some thread counts for it, and all those threads use that one object. */
  lemma EntryWhileUsed(states: seq<State>, steps: seq<Step>, i: nat, key: Key)
    requires Run(states, steps) && i < |states|
    ensures var s := states[i];
      && (key in s.locks.entries <==> UsersOf(s.threads, key) != {})
      && (key in s.locks.entries ==> s.locks.users[s.locks.entries[key]] == |UsersOf(s.threads, key)|)
      && (forall t <- UsersOf(s.threads, key) :: key in s.locks.entries && s.threads[t].lock == s.locks.entries[key])
  {
    RunKeeps(states, steps, i);
    if UsersOf(states[i].threads, key) != {} {
      var t :| t in UsersOf(states[i].threads, key);
    }
  }

  // ---------------------------------------------------------------- the map

  /** One user's lock: how many threads count for it, and whether its mutex is locked. */
  class UserLock {
    var users: nat
    var locked: bool

    constructor ()
      ensures users == 0 && !locked
    {
      users, locked := 0, false;
    }

    /** Takes the mutex, once nobody has it. */
    method Acquire()
      requires !locked
      modifies this`locked
      ensures locked
    {
      locked := true;
    }
  }

  /** The locks of all users. `known` are all the locks ever created. */
  class LockRegistry {
    var userLocks: map<Key, UserLock>
    ghost var known: set<UserLock>

    constructor ()
      ensures Valid() && Model() == Locks(map[], map[]) && known == {}
    {
      userLocks := map[];
      known := {};
    }

    ghost predicate Valid()
      reads this
    {
      forall k <- userLocks :: userLocks[k] in known
    }

    ghost function Model(): (m: Locks<UserLock>)
      requires Valid()
      reads this, known
      ensures m.Known()
    {
      Locks(userLocks, map l | l in known :: l.users)
    }

    /** lockUser up to the mutex: the caller still has to lock what it gets. */
    method BeginLock(key: Key) returns (lock: UserLock)
      requires Valid()
      modifies this, known
      ensures Valid() && lock in known && known <= old(known) + {lock}
      ensures key in old(userLocks) ==> lock == old(userLocks)[key]
      ensures key in userLocks && userLocks[key] == lock
      ensures lock.users == if key in old(userLocks) then old(userLocks[key].users) + 1 else 1
      ensures key !in old(userLocks) ==> fresh(lock) && !lock.locked
      ensures Model() == Enter(old(Model()), key, lock)
      ensures forall l <- old(known) :: l.locked == old(l.locked)
    {
      if key in userLocks {
        lock := userLocks[key];
      } else {
        lock := new UserLock();
        userLocks := userLocks[key := lock];
        known := known + {lock};
      }
      lock.users := lock.users + 1;
    }

    /** lockUser, when its mutex is free by the time it is taken: a thread that has to wait for it is between the two
        steps of this method, as in the runs above. */
    method LockUser(key: Key) returns (lock: UserLock)
      requires Valid() && (key in userLocks ==> !userLocks[key].locked)
      modifies this, known
      ensures Valid() && lock in known && key in userLocks && userLocks[key] == lock
      ensures lock.locked && lock.users == if key in old(userLocks) then old(userLocks[key].users) + 1 else 1
      ensures Model() == Enter(old(Model()), key, lock)
      ensures forall l <- old(known) | l != lock :: l.locked == old(l.locked)
    {
      lock := BeginLock(key);
      lock.Acquire();
    }

    /** The function lockUser returns: the mutex is unlocked, and the lock counts one thread less. */
    method Release(key: Key, lock: UserLock)
      requires Valid() && lock in known && lock.locked && lock.users > 0
      modifies this, lock
      ensures Valid() && known == old(known) && !lock.locked
      ensures Model() == Leave(old(Model()), key, lock)
    {
      lock.locked := false;
      lock.users := lock.users - 1;
      if lock.users == 0 {
        userLocks := userLocks - {key};
      }
    }
  }
}
