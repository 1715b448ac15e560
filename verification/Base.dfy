/** Values shared by every part of the model: optional values, digests and reconcile results. */
module Base {
  datatype Option<+T> = None | Some(value: T)

  /** A content hash. Hashing is injective by construction: a digest is the hashed content itself.
      OfEnv hashes a merged set of environment variables, which does not depend on the order in
      which the variables were added. */
  datatype Digest =
    | OfValues(values: seq<string>)
    | OfText(text: string)
    | OfEnv(vars: map<string, Digest>)

  /** What a pass hands back to the work queue: a requeue delay (0 is the empty result) and an
      error flag. */
  datatype Exit = Exit(requeueAfter: nat, failed: bool)

  /** A requeue delay that is really asked for. */
  type Delay = n: nat | n > 0 witness 1

  /** Neither an error nor a requeue: nothing will run this key again unless an event arrives. */
  predicate Silent(e: Exit) {
    e == Exit(0, false)
  }
}
