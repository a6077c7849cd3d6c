/** The capability a host (activity or fragment) implements to receive the
    connectivity hooks: two read-only flags that default to true, and a
    connectivity read that defaults to the shared holder's flag. */
module ConnectivityListener {
  import opened KotlinTypes
  import opened NetworkStates

  /** A listener implementation: for each property, the value it overrides
      the getter with, or `None` when it keeps the interface's default. */
  datatype Listener = Listener(
    shouldBeCalledOverride: Option<bool>,
    checkOnResumeOverride: Option<bool>,
    isConnectedOverride: Option<bool>)
  {

    /** `shouldBeCalled`: true unless overridden. */
    predicate ShouldBeCalled()
      ensures shouldBeCalledOverride.None? ==> ShouldBeCalled()
      ensures shouldBeCalledOverride.Some? ==> ShouldBeCalled() == shouldBeCalledOverride.value
    {
      shouldBeCalledOverride.OrElse(true)
    }

    /** `checkOnResume`: true unless overridden. */
    predicate CheckOnResume()
      ensures checkOnResumeOverride.None? ==> CheckOnResume()
      ensures checkOnResumeOverride.Some? ==> CheckOnResume() == checkOnResumeOverride.value
    {
      checkOnResumeOverride.OrElse(true)
    }

    /** `isConnected`: by default the shared holder's flag at the time of
        the read; an implementer may override the getter. */
    predicate IsConnected(holder: NetworkState)
      ensures isConnectedOverride.None? ==> (IsConnected(holder) <==> holder.isConnected)
      ensures isConnectedOverride.Some? ==> IsConnected(holder) == isConnectedOverride.value
    {
      isConnectedOverride.OrElse(holder.isConnected)
    }
  }

  /** A listener that overrides nothing. */
  const DefaultListener: Listener := Listener(None, None, None)

  /** Listeners that keep the default getter read the same connectivity from
      the same holder, and see a change of the holder's flag at their next
      read; an overriding listener ignores the holder. */
  lemma {:induction false} IsConnectedIsDelegated(a: Listener, b: Listener, holder: NetworkState, connected: bool)
    requires a.isConnectedOverride.None? && b.isConnectedOverride.None?
    ensures a.IsConnected(holder) == b.IsConnected(holder) == holder.isConnected
    ensures a.IsConnected(holder.(isConnected := connected)) == connected
    ensures a.(isConnectedOverride := Some(!connected)).IsConnected(holder.(isConnected := connected)) == !connected
  {
  }

  /** With the defaults both flags are on. */
  lemma DefaultFlags(holder: NetworkState)
    ensures DefaultListener.ShouldBeCalled() && DefaultListener.CheckOnResume()
    ensures DefaultListener.IsConnected(holder) == holder.isConnected
  {
  }
}
