/** How the larger invariants of this project are kept folded up. */
module Sealing {
  /**
   Always true.  A predicate stated as `forall k :: Open(k, x) ==> ...` is not looked into by
   the verifier until some proof says `assert Open(0, x)`.
   */
  ghost predicate Open<T>(k: nat, x: T) {
    true
  }
}
