/** SDK-level branch combinators and the catch-all `safeRun` wrapper. The
    platform's SDK level is a parameter; a callback run is recorded as a
    list of the callbacks that ran. */
module Lambdas {
  import opened KotlinTypes

  /** The two callbacks a combinator may run. */
  datatype Callback = TrueFun | FalseFun

  /** The other branch. */
  function Flip(c: Callback): (d: Callback)
    ensures d != c
  {
    if c == TrueFun then FalseFun else TrueFun
  }

  /** The other branch of every callback that ran. */
  function Opposite(ran: seq<Callback>): (r: seq<Callback>)
    ensures |r| == |ran|
    ensures forall i :: 0 <= i < |ran| ==> r[i] != ran[i]
  {
    seq(|ran|, i requires 0 <= i < |ran| => Flip(ran[i]))
  }

  /** `onVersionGreaterThanEqualTo`: runs `trueFun` once when the SDK level
      is at least the target; otherwise runs `falseFun` once if one is
      given, and nothing if it is null. */
  function OnVersionGreaterThanEqualTo(sdkInt: Int, targetVersion: Int, hasFalseFun: bool): (ran: seq<Callback>)
    ensures |ran| <= 1
    ensures TrueFun in ran <==> sdkInt >= targetVersion
    ensures FalseFun in ran <==> sdkInt < targetVersion && hasFalseFun
  {
    if sdkInt >= targetVersion then [TrueFun]
    else if hasFalseFun then [FalseFun]
    else []
  }

  /** `onVersionLessThan`: runs `trueFun` once when the SDK level is below
      the target; otherwise runs `falseFun` once if one is given. */
  function OnVersionLessThan(sdkInt: Int, targetVersion: Int, hasFalseFun: bool): (ran: seq<Callback>)
    ensures |ran| <= 1
    ensures TrueFun in ran <==> sdkInt < targetVersion
    ensures FalseFun in ran <==> sdkInt >= targetVersion && hasFalseFun
  {
    if sdkInt < targetVersion then [TrueFun]
    else if hasFalseFun then [FalseFun]
    else []
  }

  /** With both callbacks given, the two combinators pick opposite branches
      for every SDK level and target. */
  lemma {:induction false} CombinatorsAreOpposite(sdkInt: Int, targetVersion: Int)
    ensures OnVersionLessThan(sdkInt, targetVersion, true) ==
            Opposite(OnVersionGreaterThanEqualTo(sdkInt, targetVersion, true))
  {
    var ge := OnVersionGreaterThanEqualTo(sdkInt, targetVersion, true);
    assert ge[1..] == [];
  }

  /** Exactly one callback runs when both are given; with no `falseFun`, the
      two combinators together run `trueFun` exactly once. */
  lemma ExactlyOneBranch(sdkInt: Int, targetVersion: Int)
    ensures |OnVersionGreaterThanEqualTo(sdkInt, targetVersion, true)| == 1
    ensures |OnVersionLessThan(sdkInt, targetVersion, true)| == 1
    ensures |OnVersionGreaterThanEqualTo(sdkInt, targetVersion, false) +
             OnVersionLessThan(sdkInt, targetVersion, false)| == 1
  {
  }

  // ---------------------------------------------------------------------
  // safeRun
  // ---------------------------------------------------------------------

  /** How a block ends: normally or by throwing. */
  datatype Completion = Normal | Thrown(error: Throwable)

  /** One run of a block: the effects it performed, in order, and how it
      ended. */
  datatype BlockRun<E> = BlockRun(effects: seq<E>, completion: Completion)

  /** An error-level log line. */
  datatype LogEntry = LogEntry(tag: string, message: string)

  /** What `safeRun` leaves behind. It has no completion: `safeRun` always
      returns normally. */
  datatype SafeRunResult<E> = SafeRunResult(effects: seq<E>, log: seq<LogEntry>)

  /** `receiver.safeRun(tag) { block }`: runs the block once on its
      receiver and keeps its effects; a throwable is caught and logged under
      `tag` (by default the empty tag) with its `toString()`, never
      propagated. */
  function SafeRun<T, E>(receiver: T, tag: string := "", block: T -> BlockRun<E>): (r: SafeRunResult<E>)
    ensures r.effects == block(receiver).effects
    ensures block(receiver).completion.Normal? <==> r.log == []
    ensures block(receiver).completion.Thrown? ==>
              r.log == [LogEntry(tag, block(receiver).completion.error.ToString())]
  {
    var run := block(receiver);
    match run.completion
    case Normal => SafeRunResult(run.effects, [])
    case Thrown(e) => SafeRunResult(run.effects, [LogEntry(tag, e.ToString())])
  }
}
