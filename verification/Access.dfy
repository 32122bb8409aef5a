/** Whom a conversation admits. */
module Access {
  import opened Wrappers

  datatype Visibility = Shared | Private

  /** A private conversation admits its owner alone; "" is an anonymous caller. */
  predicate CanAccess(owner: Option<string>, visibility: Visibility, caller: string) {
    visibility != Private || (caller != "" && owner == Some(caller))
  }
}
