/** What the two K-PKE engines share: a state register that walks through start and wait pairs, and
  the memory between two pairs. */
module Sequencer {
  import opened Kernel
  import opened PolyRam
  import Bridge

  datatype State = Idle | Start(k: nat) | Wait(k: nat) | Done

  /** One of n pairs, idle or done. */
  predicate InRange(n: nat, s: State) { s.Start? || s.Wait? ==> s.k < n }

  function NextState(n: nat, s: State, start: bool, finished: bool): State
    requires InRange(n, s) && n > 0
  {
    match s
    case Idle => if start then Start(0) else Idle
    case Start(k) => Wait(k)
    case Wait(k) => if !finished then s else if k == n - 1 then Done else Start(k + 1)
    case Done => Idle
  }

  /** States still ahead. */
  function Ahead(n: nat, s: State): nat
    requires InRange(n, s)
  {
    match s case Idle => 0 case Done => 1 case Wait(k) => 2 * (n - k) case Start(k) => 2 * (n - k) + 1
  }

  /** The slots when the bridge was last at rest, and the commands queued since. */
  datatype Point = Point(base: Slots, queued: seq<Bridge.Command>)

  /** A kernel command that is not the last of its run stays queued. */
  function KernelPassed(z: Zetas, p: Point, c: Bridge.Command, last: bool): Point {
    if last then Point(Bridge.Overlapped(z, p.queued + [c], p.base), []) else Point(p.base, p.queued + [c])
  }
}
