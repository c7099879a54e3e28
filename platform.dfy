/**
 * What the browser contributes to the shared scripts: prefix tests on strings
 * (`String.prototype.startsWith`) and the two exceptions the modelled code can
 * meet (a storage write over quota, a post on a closed broadcast channel).
 */
module Platform {

  /** `s.startsWith(p)` */
  predicate StartsWith(s: string, p: string) {
    |p| <= |s| && s[..|p|] == p
  }

  /** The DOMExceptions the model distinguishes. */
  datatype Exception =
    | QuotaExceeded   // Storage.setItem could not store the value
    | InvalidState    // BroadcastChannel.postMessage after close()

  /** How a JavaScript call ended: normally, or by throwing. */
  datatype Outcome = Completed | Threw(error: Exception)

  /** Prepending a common prefix is injective. */
  lemma {:induction false} PrefixCancels(p: string, x: string, y: string)
    requires p + x == p + y
    ensures x == y
  {
    assert x == (p + x)[|p|..];
    assert y == (p + y)[|p|..];
  }
}
