/** The two singletons of `module1/singleton.py`: a metaclass whose `__call__`
    keeps one instance per class in a table shared by all such classes, and a
    class whose `__new__` keeps its one instance in a class attribute. */
module Singleton {
  import opened Outcomes

  /** An instance built by a class's constructor from the arguments of the
      call that created it. */
  class Instance<A> {
    const args: A

    constructor (args: A)
      ensures this.args == args
    {
      this.args := args;
    }
  }

  /** `SingletonMeta`: `instances` is its class attribute `_instances`, one
      dictionary from class to instance, shared by every class that uses the
      metaclass. */
  class SingletonMeta<C(==), A> {
    var instances: map<C, Instance<A>>

    /** No two classes share an instance. */
    ghost predicate Valid()
      reads this
    {
      forall c, d :: c in instances && d in instances && c != d ==> instances[c] != instances[d]
    }

    constructor ()
      ensures instances == map[]
      ensures Valid()
    {
      instances := map[];
    }

    /** `SingletonMeta.__call__(cls, *args)`: the first call for `cls` builds
        an instance from `args` and records it under `cls`; every later call
        returns that instance and ignores its arguments. No other class's
        entry changes. */
    method Call(cls: C, args: A) returns (obj: Instance<A>)
      requires Valid()
      modifies this
      ensures Valid()
      ensures cls in instances && obj == instances[cls]
      ensures cls in old(instances) ==> instances == old(instances) && obj == old(instances[cls])
      ensures cls !in old(instances) ==>
        && fresh(obj)
        && obj.args == args
        && instances == old(instances)[cls := obj]
    {
      if cls !in instances {
        var created := new Instance(args);
        instances := instances[cls := created];
      }
      obj := instances[cls];
    }
  }

  /** Two calls for one class yield one object, built from the first call's
      arguments; a call for another class in between does not disturb it. */
  method SameClassTwice<C(==), A>(meta: SingletonMeta<C, A>, cls: C, other: C, a1: A, a2: A, a3: A)
      returns (first: Instance<A>, between: Instance<A>, second: Instance<A>)
    requires meta.Valid() && cls !in meta.instances && other != cls
    modifies meta
    ensures meta.Valid()
    ensures first == second && second.args == a1
    ensures between != first
    ensures meta.instances.Keys == old(meta.instances.Keys) + {cls, other}
  {
    first := meta.Call(cls, a1);
    between := meta.Call(other, a2);
    second := meta.Call(cls, a3);
  }

  /** An instance of `SingletonNew`. */
  class Object {
    constructor ()
    {
    }
  }

  /** `SingletonNew`: `instance` is its class attribute `_instance`, `None`
      until the first successful call. */
  class SingletonNew {
    var instance: Object?

    constructor ()
      ensures instance == null
    {
      instance := null;
    }

    /** `SingletonNew.__new__(cls, *args)`, given the number of arguments:
        with no stored instance it asks `object.__new__` for one, which
        refuses any argument with `TypeError` (the class overrides `__new__`)
        and then stores nothing; with a stored instance it returns that one
        whatever the arguments. */
    method New(argCount: nat) returns (r: Outcome<Object>)
      modifies this
      ensures old(instance) != null ==> r.Return? && r.value == old(instance) && instance == old(instance)
      ensures old(instance) == null && argCount > 0 ==> r == Raise(TypeError) && instance == null
      ensures old(instance) == null && argCount == 0 ==>
        r.Return? && fresh(r.value) && instance == r.value
    {
      if instance == null {
        if argCount > 0 {
          return Raise(TypeError);
        }
        instance := new Object();
      }
      var stored: Object := instance;
      r := Return(stored);
    }
  }

  /** Once an instance exists, every call to `SingletonNew()` returns it. */
  method NewIsIdempotent(cls: SingletonNew, argCount: nat) returns (r1: Outcome<Object>, r2: Outcome<Object>)
    modifies cls
    ensures r1.Return? ==> r2 == r1
    ensures r1.Return? ==> cls.instance == r1.value
    ensures old(cls.instance) == null && argCount == 0 ==> r1.Return? && fresh(r1.value)
  {
    r1 := cls.New(argCount);
    r2 := cls.New(argCount);
  }
}
