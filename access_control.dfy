/** `access_control(roles)` of `module1/access_decorator.py`: a decorator
    whose wrapper forwards the call when the module's current role is one of
    `roles` and raises `PermissionError` otherwise. */
module AccessControl {
  import opened Outcomes

  /** The module-level `current_role` as the source sets it. */
  const DefaultRole: string := "admin"

  /** What the wrapper returns or raises, and whether it invoked the wrapped
      function. */
  datatype Guarded<V> = Guarded(result: Outcome<V>, invoked: bool)

  /** The wrapper made by `access_control(roles)(func)`, called with `args`
      while the module's `current_role` is `currentRole`. */
  function Wrapper<A, V>(roles: seq<string>, currentRole: string, func: A -> Outcome<V>, args: A): (g: Guarded<V>)
    ensures g.invoked <==> currentRole in roles
    ensures g.invoked ==> g.result == func(args)
    ensures !g.invoked ==> g.result == Raise(PermissionError)
  {
    if currentRole in roles then Guarded(func(args), true)
    else Guarded(Raise(PermissionError), false)
  }

  /** The decision depends on the roles only as a set: neither their order
      nor repetitions matter. */
  lemma OnlyMembershipMatters<A, V>(roles1: seq<string>, roles2: seq<string>, currentRole: string,
                                    func: A -> Outcome<V>, args: A)
    requires forall r :: r in roles1 <==> r in roles2
    ensures Wrapper(roles1, currentRole, func, args) == Wrapper(roles2, currentRole, func, args)
  {
  }

  /** An empty role list admits nobody. */
  lemma EmptyRolesDeny<A, V>(currentRole: string, func: A -> Outcome<V>, args: A)
    ensures Wrapper([], currentRole, func, args) == Guarded(Raise(PermissionError), false)
  {
  }

  /** With the module's default role, a list that names `"admin"` admits the
      call, and one that does not refuses it. */
  lemma DefaultRoleAdmin<A, V>(roles: seq<string>, func: A -> Outcome<V>, args: A)
    ensures "admin" in roles ==> Wrapper(roles, DefaultRole, func, args) == Guarded(func(args), true)
    ensures "admin" !in roles ==> Wrapper(roles, DefaultRole, func, args).result == Raise(PermissionError)
  {
  }
}
