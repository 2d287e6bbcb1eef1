/** A promise seen from the bridge: a cell that is resolved at most once.
    React Native's promise keeps the first value it is resolved with and ignores later
    resolves; nothing in the bridges themselves guards against a second resolve. */
module Settle {

  datatype Cell<T> = Unsettled | Settled(value: T)

  /** `promise.resolve(v)`: the first resolve wins. */
  function Resolve<T>(c: Cell<T>, v: T): Cell<T> {
    if c.Unsettled? then Settled(v) else c
  }

  /** Resolving with each of `vs` in turn. */
  function ResolveAll<T>(c: Cell<T>, vs: seq<T>): Cell<T>
    decreases |vs|
  {
    if |vs| == 0 then c else ResolveAll(Resolve(c, vs[0]), vs[1..])
  }

  /** Of any number of resolves, the first one decides the promise's value. */
  lemma {:induction false} FirstResolveWins<T>(c: Cell<T>, vs: seq<T>)
    ensures c.Settled? ==> ResolveAll(c, vs) == c
    ensures c.Unsettled? && |vs| > 0 ==> ResolveAll(c, vs) == Settled(vs[0])
    ensures c.Unsettled? && |vs| == 0 ==> ResolveAll(c, vs) == Unsettled
    decreases |vs|
  {
    if |vs| > 0 {
      FirstResolveWins(Resolve(c, vs[0]), vs[1..]);
    }
  }
}
