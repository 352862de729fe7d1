/** The guard semantics of the reactive framework's decorators: a handler
    declared with `@when(...)` and `@when_not(...)` may run when every flag it
    names under `@when` is set and none it names under `@when_not` is; a
    handler declared with `@hook(name)` runs only while that hook executes. */
module Engine {
  import opened Wrappers

  type Flag = string

  datatype Guard =
    | When(required: set<Flag>, forbidden: set<Flag>)
    | OnHook(hook: string)

  /** The handler guarded by `g` may run with `flags` set while the hook
      `current` (if any) executes. */
  predicate Eligible(g: Guard, flags: set<Flag>, current: Option<string>) {
    match g
    case When(required, forbidden) => required <= flags && forbidden !! flags
    case OnHook(h) => current == Some(h)
  }

  /** Flag by flag: a flag guard holds exactly when each required flag is set
      and each forbidden flag is unset, whichever hook is executing. */
  lemma EligibleFlagByFlag(required: set<Flag>, forbidden: set<Flag>, flags: set<Flag>, current: Option<string>)
    ensures Eligible(When(required, forbidden), flags, current) <==>
            (forall f :: f in required ==> f in flags) && (forall f :: f in forbidden ==> f !in flags)
  {
  }
}
