/** The `select` wrapper of the command thread. */
module Selectors {

  class Selector {
    var registered: set<int>
    var readable: set<int>
    var maxFd: int

    constructor ()
      ensures Valid() && registered == {} && readable == {}
    {
      registered := {};
      readable := {};
      maxFd := -1;
    }

    /** `select` only looks at descriptors up to `maxFd`: it must bound all registered ones. */
    ghost predicate Valid()
      reads this
    {
      forall fd <- registered :: fd <= maxFd
    }

    method Add(fd: int)
      requires Valid()
      modifies this`registered, this`maxFd
      ensures Valid() && registered == old(registered) + {fd}
    {
      registered := registered + {fd};
      maxFd := if fd > maxFd then fd else maxFd;
    }

    method Remove(fd: int)
      requires Valid()
      modifies this`registered
      ensures Valid() && registered == old(registered) - {fd}
    {
      registered := registered - {fd};
    }

    /** `ready` are the descriptors with something to read. No registered one is missed, and the
        snapshot says nothing about others. */
    method WaitAnyReadable(ready: set<int>) returns (any: bool)
      requires Valid()
      modifies this`readable
      ensures Valid() && readable == registered * ready
      ensures any <==> registered * ready != {}
    {
      readable := set fd | fd in registered && fd in ready && fd < maxFd + 1;
      any := readable != {};
    }

    predicate IsReadable(fd: int)
      reads this`readable
    {
      fd in readable
    }
  }
}
