/**
 * The shape every form validator shares: a fresh error object is filled one rule at a
 * time (`if (<rule fails>) errors.<key> = '<message>'`), and the form passes exactly
 * when the object ends up with no keys.
 */
module Validation {
  /** One `if (failed) errors[k] = ...` step: the key is added exactly when its rule failed. */
  method Flag<K>(flagged: set<K>, failed: bool, k: K) returns (r: set<K>)
    ensures forall j :: j in r <==> j in flagged || (failed && j == k)
  {
    r := flagged;
    if failed {
      r := r + {k};
    }
  }

  /** The error object the component stores: each flagged key mapped to its rule's message. */
  function ErrorObject<K>(flagged: set<K>, message: K -> string): (errors: map<K, string>)
    ensures errors.Keys == flagged
    ensures forall k :: k in errors ==> errors[k] == message(k)
  {
    map k | k in flagged :: message(k)
  }
}
