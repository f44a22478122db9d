/** What several components share. */
module Common {

  datatype Option<+T> = None | Some(value: T)

  /** The three classes of requests, in the server and in the worker. */
  datatype Priority = Interactive | Normal | Background

  function Without<T>(s: seq<T>, k: nat): seq<T>
    requires k < |s|
  {
    s[..k] + s[k + 1..]
  }

  /** How often `p` occurs. */
  function Times(s: seq<nat>, p: nat): nat {
    if s == [] then 0 else Times(s[..|s| - 1], p) + if s[|s| - 1] == p then 1 else 0
  }

  lemma {:induction false} TimesMore(s: seq<nat>, q: nat, p: nat)
    ensures Times(s + [q], p) == Times(s, p) + if q == p then 1 else 0
  {
    assert (s + [q])[..|s|] == s;
  }
}
