/** Option and Result wrappers shared by the whole model, and the truthiness
    test that the handlers apply to optional strings. */
module Basics {

  datatype Option<+T> = None | Some(value: T)

  datatype Result<+T, +E> = Ok(value: T) | Err(error: E)

  /** A JavaScript value that is a string is truthy unless it is absent or
      empty; `!domain`, `!instanceId` and `if (instance.PublicIpAddress)` all
      test this. */
  predicate Given(s: Option<string>) {
    s.Some? && s.value != ""
  }

  /** Regrouping a concatenation. */
  lemma ConcatAssoc<T>(a: seq<T>, b: seq<T>, c: seq<T>)
    ensures a + b + c == a + (b + c)
  {
  }

  /** Appending leaves a prefix alone. */
  lemma PrefixKept<T>(a: seq<T>, b: seq<T>, k: nat)
    requires k <= |a|
    ensures |a + b| >= k && (a + b)[..k] == a[..k]
  {
  }

  /** The first element appended is the one right after the old end. */
  lemma PrefixFirst<T>(a: seq<T>, b: seq<T>)
    requires b != []
    ensures |a + b| >= |a| + 1 && (a + b)[..|a| + 1] == a + [b[0]]
  {
  }
}
