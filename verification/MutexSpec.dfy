/** The fields of one mutex, and what the calls do to them. */
module MutexSpec {
  import opened Types
  import S = SchedSpec

  /** locked, owner and recursive_count, and whether MUTEX_FLAG_RECURSIVE is set. */
  datatype Lock = Lock(locked: bool, owner: Option<Id>, count: nat, recursive: bool)

  /** The three fields agree, and the count is one byte. */
  predicate Agrees(l: Lock) {
    && (l.locked <==> l.owner.Some?)
    && (l.locked <==> l.count >= 1)
    && l.count <= 255
  }

  function Free(recursive: bool): (l: Lock)
    ensures Agrees(l)
  {
    Lock(false, None, 0, recursive)
  }

  predicate Grants(l: Lock, self: Id) {
    !l.locked || (l.owner == Some(self) && l.recursive)
  }

  /** mutex_trylock: the nesting count stops at 255. */
  function TryLock(l: Lock, self: Id): (r: Lock)
    ensures Agrees(l) ==> Agrees(r)
    ensures Grants(l, self) ==> r.owner == Some(self)
    ensures !Grants(l, self) ==> r == l
  {
    if !l.locked then Lock(true, Some(self), 1, l.recursive)
    else if Grants(l, self) && l.count < 255 then l.(count := l.count + 1)
    else l
  }

  /** The unlock that gives the mutex up, as opposed to one that leaves a nested lock. */
  predicate Releases(l: Lock) {
    l.count <= 1
  }

  /** mutex_unlock by the owner, as far as the mutex goes. */
  function Unlock(l: Lock): (r: Lock)
    ensures Agrees(l) ==> Agrees(r)
    ensures Agrees(l) && l.locked ==> (r.locked <==> !Releases(l))
  {
    if Releases(l) then Free(l.recursive) else l.(count := l.count - 1)
  }

  /** mutex_lock's inheritance: the owner gets the current task's priority if it ranks lower. */
  function Raise(s: S.State, owner: Option<Id>): (r: S.State)
    requires S.Sane(s) && s.current.Some? && (owner.Some? ==> owner.value in s.info)
    ensures S.Sane(r)
  {
    var p := s.info[s.current.value].priority;
    if owner.Some? && s.info[owner.value].priority > p then S.SetPriority(s, owner.value, p) else s
  }

  /** mutex_unlock's restoration: the current task goes back to its base priority. */
  function Restore(s: S.State): (r: S.State)
    requires S.Sane(s) && s.current.Some?
    ensures S.Sane(r)
  {
    var c := s.current.value;
    if s.info[c].priority != s.info[c].base then S.SetPriority(s, c, s.info[c].base) else s
  }
}
