/** The lifecycle bridge: activity lifecycle callbacks that register
    fragment lifecycle callbacks on fragment activities and call the
    connectivity hooks on hosts that implement the listener capability.

    Lifecycle events are an input sequence. What the bridge does is recorded
    as an append-only trace of effects (registrations, hook calls, log lines)
    next to the registry of fragment callbacks it has registered. */
module LifecycleCallbacks {
  import opened KotlinTypes
  import opened NetworkStates
  import opened ConnectivityListener
  import opened Lambdas

  /** The log tag of the created handler and of the fragment registration. */
  const TAG: string := "ActivityCallbacks"

  type HostId = nat

  /** An activity or fragment, described by the capabilities it implements.
      `hookFailure` is what its connectivity hooks raise, if anything; the
      hooks themselves are not part of this model. */
  datatype Host = Host(
    id: HostId,
    isLifecycleOwner: bool,
    isFragmentActivity: bool,
    listener: Option<Listener>,
    hookFailure: Option<Throwable>)

  /** A lifecycle notification. Fragment events name the activity whose
      fragment manager reports them; `nested` marks a fragment hosted by
      another fragment. */
  datatype Event =
    | ActivityCreated(activity: Host)
    | ActivityStarted(activity: Host)
    | ActivityResumed(activity: Host)
    | ActivityPaused(activity: Host)
    | ActivitySaveInstanceState(activity: Host)
    | ActivityStopped(activity: Host)
    | ActivityDestroyed(activity: Host)
    | FragmentCreated(owner: HostId, fragment: Host, nested: bool)
    | FragmentResumed(owner: HostId, fragment: Host, nested: bool)
  {
    /** The activity or fragment the event is about. */
    function Subject(): Host {
      if FragmentCreated? || FragmentResumed? then fragment else activity
    }
  }

  /** A fragment lifecycle callback registered on an activity's fragment
      manager. */
  datatype Registration = Registration(owner: HostId, recursive: bool)

  datatype Effect =
    | RegisterFragmentCallbacks(owner: HostId, recursive: bool)
    | ListenerCreated(host: HostId)
    | ListenerResume(host: HostId, state: NetworkState)
    | Logged(entry: LogEntry)

  /** The registry of fragment callbacks, the trace of effects, and whether
      an exception has escaped into the platform (which ends the process). */
  datatype Bridge = Bridge(registry: seq<Registration>, trace: seq<Effect>, crashed: bool)

  const Initial: Bridge := Bridge([], [], false)

  // ---------------------------------------------------------------------
  // Views of a trace
  // ---------------------------------------------------------------------

  predicate IsHookOf(e: Effect, id: HostId) {
    (e.ListenerCreated? || e.ListenerResume?) && e.host == id
  }

  /** The hook calls on one host, in order. */
  function Hooks(trace: seq<Effect>, id: HostId): (r: seq<Effect>)
    ensures |r| <= |trace|
  {
    if trace == [] then []
    else (if IsHookOf(trace[0], id) then [trace[0]] else []) + Hooks(trace[1..], id)
  }

  /** A host's hook calls are exactly the trace's hook effects on it. */
  lemma {:induction false} HooksMembers(trace: seq<Effect>, id: HostId, e: Effect)
    ensures e in Hooks(trace, id) <==> e in trace && IsHookOf(e, id)
  {
    if trace != [] {
      HooksMembers(trace[1..], id, e);
      assert trace == [trace[0]] + trace[1..];
    }
  }

  lemma {:induction false} HooksAppend(a: seq<Effect>, b: seq<Effect>, id: HostId)
    ensures Hooks(a + b, id) == Hooks(a, id) + Hooks(b, id)
  {
    if a == [] {
      assert a + b == b;
    } else {
      var head := if IsHookOf(a[0], id) then [a[0]] else [];
      assert (a + b)[0] == a[0];
      assert (a + b)[1..] == a[1..] + b;
      assert Hooks(a + b, id) == head + Hooks(a[1..] + b, id);
      HooksAppend(a[1..], b, id);
      assert Hooks(a, id) == head + Hooks(a[1..], id);
    }
  }

  /** The registrations a trace records, in order. */
  function Registrations(trace: seq<Effect>): (r: seq<Registration>)
    ensures |r| <= |trace|
  {
    if trace == [] then []
    else
      (if trace[0].RegisterFragmentCallbacks?
       then [Registration(trace[0].owner, trace[0].recursive)] else []) + Registrations(trace[1..])
  }

  lemma {:induction false} RegistrationsAppend(a: seq<Effect>, b: seq<Effect>)
    ensures Registrations(a + b) == Registrations(a) + Registrations(b)
  {
    if a == [] {
      assert a + b == b;
    } else {
      assert (a + b)[0] == a[0];
      assert (a + b)[1..] == a[1..] + b;
      RegistrationsAppend(a[1..], b);
    }
  }

  /** The log lines of a `safeRun`, as trace effects. */
  function LogEffects(log: seq<LogEntry>): (r: seq<Effect>)
    ensures |r| == |log|
    ensures forall i :: 0 <= i < |log| ==> r[i] == Logged(log[i])
  {
    if log == [] then [] else [Logged(log[0])] + LogEffects(log[1..])
  }

  /** Everything a `safeRun` leaves behind: the block's effects, then the
      log line of a caught throwable. */
  function Emitted(r: SafeRunResult<Effect>): seq<Effect> {
    r.effects + LogEffects(r.log)
  }

  // ---------------------------------------------------------------------
  // The handlers' bodies
  // ---------------------------------------------------------------------

  /** Calling a hook on a host: the call happens, then the host's failure,
      if any, is raised. */
  function CallHook(host: Host, call: Effect): (run: BlockRun<Effect>)
    ensures run.effects == [call]
    ensures run.completion.Thrown? <==> host.hookFailure.Some?
  {
    match host.hookFailure
    case None => BlockRun([call], Normal)
    case Some(e) => BlockRun([call], Thrown(e))
  }

  /** `addLifecycleCallbackToFragments`: a recursive fragment callback is
      registered on the activity's fragment manager, inside its own
      `safeRun(TAG)`. */
  function FragmentRegistrationRun(activity: Host): (r: SafeRunResult<Effect>)
    ensures Emitted(r) == [RegisterFragmentCallbacks(activity.id, true)]
  {
    SafeRun(activity, TAG, (a: Host) => BlockRun([RegisterFragmentCallbacks(a.id, true)], Normal))
  }

  /** Whether `onListenerCreated` is due on a created activity. */
  predicate CreatedHookDue(activity: Host) {
    activity.isLifecycleOwner && activity.listener.Some? && activity.listener.value.ShouldBeCalled()
  }

  /** Whether `onListenerResume` is due on a resumed activity: the flags of
      the listener are not consulted. */
  predicate ResumeHookDue(activity: Host) {
    activity.isLifecycleOwner && activity.listener.Some?
  }

  /** The body of `onActivityCreated`, before its `safeRun`. */
  function ActivityCreatedBody(activity: Host): (r: BlockRun<Effect>)
    ensures !activity.isLifecycleOwner ==> r == BlockRun([], Normal)
    ensures r.completion.Thrown? <==> CreatedHookDue(activity) && activity.hookFailure.Some?
    ensures ListenerCreated(activity.id) in r.effects <==> CreatedHookDue(activity)
    ensures RegisterFragmentCallbacks(activity.id, true) in r.effects <==>
              activity.isLifecycleOwner && activity.isFragmentActivity
  {
    if !activity.isLifecycleOwner then BlockRun([], Normal)
    else
      var registered := if activity.isFragmentActivity then Emitted(FragmentRegistrationRun(activity)) else [];
      if activity.listener.None? || !activity.listener.value.ShouldBeCalled() then BlockRun(registered, Normal)
      else
        var hook := CallHook(activity, ListenerCreated(activity.id));
        BlockRun(registered + hook.effects, hook.completion)
  }

  /** The body of `onActivityResumed`, before its `safeRun`. */
  function ActivityResumedBody(activity: Host, networkState: NetworkState): (r: BlockRun<Effect>)
    ensures |r.effects| <= 1
    ensures ListenerResume(activity.id, networkState) in r.effects <==> ResumeHookDue(activity)
    ensures r.completion.Thrown? <==> ResumeHookDue(activity) && activity.hookFailure.Some?
  {
    if !activity.isLifecycleOwner || activity.listener.None? then BlockRun([], Normal)
    else CallHook(activity, ListenerResume(activity.id, networkState))
  }

  /** The effects `onActivityCreated` leaves behind, log lines included. */
  function ActivityCreatedEffects(activity: Host): (r: seq<Effect>)
    ensures !activity.isLifecycleOwner ==> r == []
    ensures |r| <= 3
  {
    Emitted(SafeRun(activity, TAG, ActivityCreatedBody))
  }

  /** The effects `onActivityResumed` leaves behind, log lines included. */
  function ActivityResumedEffects(activity: Host, networkState: NetworkState): (r: seq<Effect>)
    ensures !ResumeHookDue(activity) ==> r == []
    ensures |r| <= 2
  {
    Emitted(SafeRun(activity, block := (a: Host) => ActivityResumedBody(a, networkState)))
  }

  /** `onActivityCreated`, wrapped in its `safeRun(TAG)`, leaves exactly
      the effects of `CreatedInOrder`. */
  lemma ActivityCreatedInOrder(activity: Host)
    ensures ActivityCreatedEffects(activity) == CreatedInOrder(activity)
  {
    if activity.isLifecycleOwner && activity.isFragmentActivity {
      var r := FragmentRegistrationRun(activity);
      assert Emitted(r) == [RegisterFragmentCallbacks(activity.id, true)];
    }
  }

  /** What `onActivityCreated` registers: one recursive fragment callback
      exactly when the activity is a LifecycleOwner and a FragmentActivity,
      whether or not it is a listener. */
  lemma ActivityCreatedRegistrations(activity: Host)
    ensures !activity.isLifecycleOwner ==> ActivityCreatedEffects(activity) == []
    ensures Registrations(ActivityCreatedEffects(activity)) ==
              if activity.isLifecycleOwner && activity.isFragmentActivity
              then [Registration(activity.id, true)] else []
  {
    ActivityCreatedInOrder(activity);
    CreatedInOrderRegistrations(activity);
  }

  lemma {:induction false} CreatedInOrderRegistrations(activity: Host)
    ensures Registrations(CreatedInOrder(activity)) ==
              if activity.isLifecycleOwner && activity.isFragmentActivity
              then [Registration(activity.id, true)] else []
  {
    var reg := if activity.isLifecycleOwner && activity.isFragmentActivity
               then [RegisterFragmentCallbacks(activity.id, true)] else [];
    var rest := CreatedHookEffects(activity);
    RegistrationsAppend(reg, rest);
    NoRegistrationIn(rest);
    if reg != [] {
      assert reg[1..] == [];
    }
  }


  /** The effects of `onActivityCreated` after the registration: the call
      of `onListenerCreated` when it is due, then the log line under TAG if
      that hook raises. */
  function CreatedHookEffects(activity: Host): seq<Effect> {
    (if CreatedHookDue(activity) then [ListenerCreated(activity.id)] else []) +
    (if CreatedHookDue(activity) && activity.hookFailure.Some?
     then [Logged(LogEntry(TAG, activity.hookFailure.value.ToString()))] else [])
  }

  /** The effects of `onActivityCreated`, written out in order: the
      registration, when the activity is a LifecycleOwner and a
      FragmentActivity; then `CreatedHookEffects`. */
  function CreatedInOrder(activity: Host): seq<Effect> {
    (if activity.isLifecycleOwner && activity.isFragmentActivity
     then [RegisterFragmentCallbacks(activity.id, true)] else []) +
    CreatedHookEffects(activity)
  }

  lemma {:induction false} CreatedInOrderHooks(activity: Host, id: HostId)
    ensures Hooks(CreatedInOrder(activity), id) ==
              if id == activity.id && CreatedHookDue(activity) then [ListenerCreated(activity.id)] else []
  {
    var reg := if activity.isLifecycleOwner && activity.isFragmentActivity
               then [RegisterFragmentCallbacks(activity.id, true)] else [];
    var hook := if CreatedHookDue(activity) then [ListenerCreated(activity.id)] else [];
    var log := if CreatedHookDue(activity) && activity.hookFailure.Some?
               then [Logged(LogEntry(TAG, activity.hookFailure.value.ToString()))] else [];
    HooksAppend(reg, hook + log, id);
    HooksAppend(hook, log, id);
    HooksOfNone(reg, id);
    HooksOfNone(log, id);
    if id == activity.id { HooksOfAll(hook, id); } else { HooksOfNone(hook, id); }
  }

  /** The hooks `onActivityCreated` calls: `onListenerCreated` once exactly
      when the activity is a LifecycleOwner listener that should be called,
      and nothing on any other host. */
  lemma ActivityCreatedHooks(activity: Host, id: HostId)
    ensures Hooks(ActivityCreatedEffects(activity), id) ==
              if id == activity.id && CreatedHookDue(activity) then [ListenerCreated(activity.id)] else []
  {
    ActivityCreatedInOrder(activity);
    CreatedInOrderHooks(activity, id);
  }

  /** `onActivityResumed` in order: `onListenerResume` when due, then the
      log line under the default, empty tag of a failing hook. */
  lemma ActivityResumedInOrder(activity: Host, networkState: NetworkState)
    ensures ActivityResumedEffects(activity, networkState) ==
              (if ResumeHookDue(activity) then [ListenerResume(activity.id, networkState)] else []) +
              (if ResumeHookDue(activity) && activity.hookFailure.Some?
               then [Logged(LogEntry("", activity.hookFailure.value.ToString()))] else [])
  {
  }

  /** What `onActivityResumed` does: nothing is registered, and
      `onListenerResume` with the bridge's network state is called once
      exactly when the activity is a LifecycleOwner and a listener, whatever
      its flags, and on no other host. */
  lemma ActivityResumedHooks(activity: Host, networkState: NetworkState, id: HostId)
    ensures Registrations(ActivityResumedEffects(activity, networkState)) == []
    ensures Hooks(ActivityResumedEffects(activity, networkState), id) ==
              if id == activity.id && ResumeHookDue(activity)
              then [ListenerResume(activity.id, networkState)] else []
  {
    var hook := if ResumeHookDue(activity) then [ListenerResume(activity.id, networkState)] else [];
    var log := if ResumeHookDue(activity) && activity.hookFailure.Some?
               then [Logged(LogEntry("", activity.hookFailure.value.ToString()))] else [];
    ActivityResumedInOrder(activity, networkState);
    NoRegistrationIn(hook + log);
    HooksAppend(hook, log, id);
  }

  /** The fragment callback's `onFragmentCreated`; not wrapped in
      `safeRun`. */
  function FragmentCreatedBody(fragment: Host): (r: BlockRun<Effect>)
    ensures |r.effects| <= 1
    ensures forall e :: e in r.effects ==> IsHookOf(e, fragment.id)
    ensures ListenerCreated(fragment.id) in r.effects <==>
              fragment.listener.Some? && fragment.listener.value.ShouldBeCalled()
    ensures r.completion.Thrown? <==>
              fragment.listener.Some? && fragment.listener.value.ShouldBeCalled() && fragment.hookFailure.Some?
  {
    if fragment.listener.None? || !fragment.listener.value.ShouldBeCalled() then BlockRun([], Normal)
    else CallHook(fragment, ListenerCreated(fragment.id))
  }

  /** The fragment callback's `onFragmentResumed`; not wrapped either, and
      it consults no flag. */
  function FragmentResumedBody(fragment: Host, networkState: NetworkState): (r: BlockRun<Effect>)
    ensures |r.effects| <= 1
    ensures forall e :: e in r.effects ==> IsHookOf(e, fragment.id)
    ensures ListenerResume(fragment.id, networkState) in r.effects <==> fragment.listener.Some?
    ensures r.completion.Thrown? <==> fragment.listener.Some? && fragment.hookFailure.Some?
  {
    if fragment.listener.None? then BlockRun([], Normal)
    else CallHook(fragment, ListenerResume(fragment.id, networkState))
  }

  /** How many registered callbacks hear an event of the owner's fragment
      manager: those registered on it, and for a nested fragment only the
      recursive ones. */
  function Hearing(registry: seq<Registration>, owner: HostId, nested: bool): (n: nat)
    ensures n <= |registry|
    ensures n == 0 <==> forall i :: 0 <= i < |registry| ==>
                          registry[i].owner != owner || (nested && !registry[i].recursive)
  {
    if registry == [] then 0
    else
      (if registry[0].owner == owner && (!nested || registry[0].recursive) then 1 else 0)
      + Hearing(registry[1..], owner, nested)
  }

  /** The fragment manager calls the `n` hearing callbacks in turn; an
      exception escapes the first one that throws and ends the dispatch. */
  function DispatchToCallbacks(n: nat, body: BlockRun<Effect>): (run: BlockRun<Effect>)
    ensures n == 0 ==> run == BlockRun([], Normal)
    ensures body.completion.Normal? ==> run.completion.Normal? && |run.effects| == n * |body.effects|
    ensures forall e :: e in run.effects ==> e in body.effects
    ensures body.completion.Thrown? && n > 0 ==> run == body
  {
    if n == 0 then BlockRun([], Normal)
    else if body.completion.Thrown? then body
    else
      var rest := DispatchToCallbacks(n - 1, body);
      BlockRun(body.effects + rest.effects, Normal)
  }

  // ---------------------------------------------------------------------
  // Steps and runs
  // ---------------------------------------------------------------------

  /** One lifecycle event. Activity handlers swallow every exception; an
      exception escaping a fragment callback reaches the platform and ends
      the process, after which nothing more happens. */
  function Step(b: Bridge, networkState: NetworkState, ev: Event): (r: Bridge)
    ensures b.crashed ==> r == b
    ensures |b.trace| <= |r.trace|
    ensures !ev.ActivityCreated? ==> r.registry == b.registry
    ensures r.crashed ==> b.crashed || ev.FragmentCreated? || ev.FragmentResumed?
  {
    if b.crashed then b
    else
      match ev
      case ActivityCreated(a) =>
        var fx := ActivityCreatedEffects(a);
        Bridge(b.registry + Registrations(fx), b.trace + fx, false)
      case ActivityResumed(a) =>
        Bridge(b.registry, b.trace + ActivityResumedEffects(a, networkState), false)
      case FragmentCreated(owner, f, nested) =>
        var run := DispatchToCallbacks(Hearing(b.registry, owner, nested), FragmentCreatedBody(f));
        Bridge(b.registry, b.trace + run.effects, run.completion.Thrown?)
      case FragmentResumed(owner, f, nested) =>
        var run := DispatchToCallbacks(Hearing(b.registry, owner, nested), FragmentResumedBody(f, networkState));
        Bridge(b.registry, b.trace + run.effects, run.completion.Thrown?)
      case _ => b
  }

  /** A created event on a live bridge appends `CreatedInOrder` and its
      registrations. */
  lemma StepOfCreated(b: Bridge, networkState: NetworkState, activity: Host)
    requires !b.crashed
    ensures Step(b, networkState, ActivityCreated(activity)) ==
            Bridge(b.registry + Registrations(CreatedInOrder(activity)), b.trace + CreatedInOrder(activity), false)
  {
    ActivityCreatedInOrder(activity);
  }

  function Run(b: Bridge, networkState: NetworkState, events: seq<Event>): (r: Bridge)
    ensures |b.trace| <= |r.trace|
    ensures b.crashed ==> r == b
    decreases |events|
  {
    if events == [] then b else Run(Step(b, networkState, events[0]), networkState, events[1..])
  }

  /** Paused, started, save-instance-state, stopped and destroyed events
      have no effect at all. */
  lemma QuietEvents(b: Bridge, networkState: NetworkState, a: Host)
    ensures Step(b, networkState, ActivityPaused(a)) == b
    ensures Step(b, networkState, ActivityStarted(a)) == b
    ensures Step(b, networkState, ActivitySaveInstanceState(a)) == b
    ensures Step(b, networkState, ActivityStopped(a)) == b
    ensures Step(b, networkState, ActivityDestroyed(a)) == b
  {
  }

  /** The activity handlers never let an exception out, whatever the hooks
      raise. */
  lemma ActivityEventsNeverCrash(b: Bridge, networkState: NetworkState, ev: Event)
    requires !b.crashed
    requires !ev.FragmentCreated? && !ev.FragmentResumed?
    ensures !Step(b, networkState, ev).crashed
  {
  }

  /** A created hook that raises escapes its fragment callback whenever the
      callback is registered and the hook is due. */
  lemma FragmentCreatedHookFailureEscapes(b: Bridge, networkState: NetworkState, owner: HostId, f: Host, nested: bool)
    requires !b.crashed
    requires Hearing(b.registry, owner, nested) > 0
    requires f.listener.Some? && f.listener.value.ShouldBeCalled() && f.hookFailure.Some?
    ensures Step(b, networkState, FragmentCreated(owner, f, nested)).crashed
  {
  }

  /** A resume hook that raises escapes its fragment callback whenever the
      callback is registered and the fragment is a listener, whatever its
      flags. */
  lemma FragmentResumedHookFailureEscapes(b: Bridge, networkState: NetworkState, owner: HostId, f: Host, nested: bool)
    requires !b.crashed
    requires Hearing(b.registry, owner, nested) > 0
    requires f.listener.Some? && f.hookFailure.Some?
    ensures Step(b, networkState, FragmentResumed(owner, f, nested)).crashed
  {
  }


  /** Once the process has crashed, no event changes anything. */
  lemma {:induction false} CrashIsFinal(b: Bridge, networkState: NetworkState, events: seq<Event>)
    requires b.crashed
    ensures Run(b, networkState, events) == b
    decreases |events|
  {
    if events != [] {
      CrashIsFinal(Step(b, networkState, events[0]), networkState, events[1..]);
    }
  }

  /** The registry and the trace only grow: nothing ever unregisters a
      fragment callback, and no effect is undone. */
  lemma {:induction false} RunOnlyAppends(b: Bridge, networkState: NetworkState, events: seq<Event>)
    ensures |b.registry| <= |Run(b, networkState, events).registry|
    ensures Run(b, networkState, events).registry[..|b.registry|] == b.registry
    ensures |b.trace| <= |Run(b, networkState, events).trace|
    ensures Run(b, networkState, events).trace[..|b.trace|] == b.trace
    decreases |events|
  {
    if events != [] {
      var b' := Step(b, networkState, events[0]);
      RunOnlyAppends(b', networkState, events[1..]);
      assert b'.registry[..|b.registry|] == b.registry;
      assert b'.trace[..|b.trace|] == b.trace;
    }
  }

  /** The registry holds exactly the registrations the trace records. */
  ghost predicate RegistryMatchesTrace(b: Bridge) {
    b.registry == Registrations(b.trace)
  }

  lemma {:induction false} NoRegistrationIn(fx: seq<Effect>)
    requires forall e :: e in fx ==> !e.RegisterFragmentCallbacks?
    ensures Registrations(fx) == []
  {
    if fx != [] {
      assert fx[0] in fx;
      NoRegistrationIn(fx[1..]);
    }
  }

  lemma {:induction false} StepKeepsRegistryMatchingTrace(b: Bridge, networkState: NetworkState, ev: Event)
    requires RegistryMatchesTrace(b)
    ensures RegistryMatchesTrace(Step(b, networkState, ev))
  {
    if !b.crashed {
      var b' := Step(b, networkState, ev);
      var fx := b'.trace[|b.trace|..];
      assert b'.trace == b.trace + fx;
      RegistrationsAppend(b.trace, fx);
      match ev {
        case ActivityCreated(a) =>
        case ActivityResumed(a) =>
          ActivityResumedHooks(a, networkState, a.id);
        case FragmentCreated(owner, f, nested) =>
          NoRegistrationIn(fx);
        case FragmentResumed(owner, f, nested) =>
          NoRegistrationIn(fx);
        case _ =>
      }
    }
  }

  lemma {:induction false} RunKeepsRegistryMatchingTrace(b: Bridge, networkState: NetworkState, events: seq<Event>)
    requires RegistryMatchesTrace(b)
    ensures RegistryMatchesTrace(Run(b, networkState, events))
    decreases |events|
  {
    if events != [] {
      StepKeepsRegistryMatchingTrace(b, networkState, events[0]);
      RunKeepsRegistryMatchingTrace(Step(b, networkState, events[0]), networkState, events[1..]);
    }
  }

  lemma {:induction false} HooksOfNone(fx: seq<Effect>, id: HostId)
    requires forall e :: e in fx ==> !IsHookOf(e, id)
    ensures Hooks(fx, id) == []
  {
    if fx != [] {
      assert fx[0] in fx;
      HooksOfNone(fx[1..], id);
    }
  }

  lemma {:induction false} HooksOfAll(fx: seq<Effect>, id: HostId)
    requires forall e :: e in fx ==> IsHookOf(e, id)
    ensures Hooks(fx, id) == fx
  {
    if fx != [] {
      assert fx[0] in fx;
      HooksOfAll(fx[1..], id);
      assert fx == [fx[0]] + fx[1..];
    }
  }

  /** The hooks one event calls on one host: the activity handlers' rules,
      and for a fragment event every hook call of the dispatch. */
  function HooksAddedBy(b: Bridge, networkState: NetworkState, ev: Event, id: HostId): seq<Effect> {
    if b.crashed || ev.Subject().id != id then []
    else
      match ev
      case ActivityCreated(a) => if CreatedHookDue(a) then [ListenerCreated(id)] else []
      case ActivityResumed(a) => if ResumeHookDue(a) then [ListenerResume(id, networkState)] else []
      case FragmentCreated(owner, f, nested) =>
        DispatchToCallbacks(Hearing(b.registry, owner, nested), FragmentCreatedBody(f)).effects
      case FragmentResumed(owner, f, nested) =>
        DispatchToCallbacks(Hearing(b.registry, owner, nested), FragmentResumedBody(f, networkState)).effects
      case _ => []
  }

  /** One step appends to each host's hook calls exactly the hooks that
      event calls on it. */
  lemma {:induction false} StepHookRule(b: Bridge, networkState: NetworkState, ev: Event, id: HostId)
    ensures |b.trace| <= |Step(b, networkState, ev).trace|
    ensures Hooks(Step(b, networkState, ev).trace, id) == Hooks(b.trace, id) + HooksAddedBy(b, networkState, ev, id)
  {
    if !b.crashed {
      match ev {
        case ActivityCreated(a) =>
          HooksAppend(b.trace, ActivityCreatedEffects(a), id);
          ActivityCreatedHooks(a, id);
        case ActivityResumed(a) =>
          HooksAppend(b.trace, ActivityResumedEffects(a, networkState), id);
          ActivityResumedHooks(a, networkState, id);
        case FragmentCreated(owner, f, nested) =>
          var run := DispatchToCallbacks(Hearing(b.registry, owner, nested), FragmentCreatedBody(f));
          HooksAppend(b.trace, run.effects, id);
          DispatchHooks(Hearing(b.registry, owner, nested), FragmentCreatedBody(f), f.id, id);
        case FragmentResumed(owner, f, nested) =>
          var run := DispatchToCallbacks(Hearing(b.registry, owner, nested), FragmentResumedBody(f, networkState));
          HooksAppend(b.trace, run.effects, id);
          DispatchHooks(Hearing(b.registry, owner, nested), FragmentResumedBody(f, networkState), f.id, id);
        case _ =>
      }
    }
  }

  /** The hooks a fragment dispatch calls are all on the fragment. */
  lemma {:induction false} DispatchHooks(n: nat, body: BlockRun<Effect>, host: HostId, id: HostId)
    requires forall e :: e in body.effects ==> IsHookOf(e, host)
    ensures Hooks(DispatchToCallbacks(n, body).effects, id) ==
              if id == host then DispatchToCallbacks(n, body).effects else []
  {
    var fx := DispatchToCallbacks(n, body).effects;
    if id == host { HooksOfAll(fx, id); } else { HooksOfNone(fx, id); }
  }

  /** A fragment's created hook is called exactly when some registered
      callback hears the event and the fragment is a listener that should be
      called; its resume hook exactly when some callback hears it and the
      fragment is a listener, whatever its flags. */
  lemma FragmentHookRules(b: Bridge, networkState: NetworkState, owner: HostId, f: Host, nested: bool)
    requires !b.crashed
    ensures var fx := Step(b, networkState, FragmentCreated(owner, f, nested)).trace[|b.trace|..];
            ListenerCreated(f.id) in fx <==>
              Hearing(b.registry, owner, nested) > 0 && f.listener.Some? && f.listener.value.ShouldBeCalled()
    ensures var fx := Step(b, networkState, FragmentResumed(owner, f, nested)).trace[|b.trace|..];
            ListenerResume(f.id, networkState) in fx <==>
              Hearing(b.registry, owner, nested) > 0 && f.listener.Some?
  {
    var n := Hearing(b.registry, owner, nested);
    var created := DispatchToCallbacks(n, FragmentCreatedBody(f));
    var resumed := DispatchToCallbacks(n, FragmentResumedBody(f, networkState));
    assert Step(b, networkState, FragmentCreated(owner, f, nested)).trace[|b.trace|..] == created.effects;
    assert Step(b, networkState, FragmentResumed(owner, f, nested)).trace[|b.trace|..] == resumed.effects;
    if n > 0 && f.listener.Some? && f.listener.value.ShouldBeCalled() {
      assert created.effects[0] == ListenerCreated(f.id);
    }
    if n > 0 && f.listener.Some? {
      assert resumed.effects[0] == ListenerResume(f.id, networkState);
    }
  }

  /** The fragment manager does not merge registrations: a due created hook
      that does not raise is called once per hearing callback. */
  lemma FragmentCreatedHookOncePerCallback(b: Bridge, networkState: NetworkState, owner: HostId, f: Host, nested: bool)
    requires !b.crashed
    requires f.listener.Some? && f.listener.value.ShouldBeCalled() && f.hookFailure.None?
    ensures Step(b, networkState, FragmentCreated(owner, f, nested)).trace ==
            b.trace + seq(Hearing(b.registry, owner, nested), _ => ListenerCreated(f.id))
  {
    var n := Hearing(b.registry, owner, nested);
    var created := DispatchToCallbacks(n, FragmentCreatedBody(f));
    assert |created.effects| == n * 1;
    forall i | 0 <= i < n
      ensures created.effects[i] == ListenerCreated(f.id)
    {
      assert created.effects[i] in created.effects;
    }
    assert created.effects == seq(n, _ => ListenerCreated(f.id));
  }

  /** The same for the resumed hook, which needs only a listener that does
      not raise: its flags are not read. */
  lemma FragmentResumedHookOncePerCallback(b: Bridge, networkState: NetworkState, owner: HostId, f: Host, nested: bool)
    requires !b.crashed
    requires f.listener.Some? && f.hookFailure.None?
    ensures Step(b, networkState, FragmentResumed(owner, f, nested)).trace ==
            b.trace + seq(Hearing(b.registry, owner, nested), _ => ListenerResume(f.id, networkState))
  {
    var n := Hearing(b.registry, owner, nested);
    var resumed := DispatchToCallbacks(n, FragmentResumedBody(f, networkState));
    assert |resumed.effects| == n * 1;
    forall i | 0 <= i < n
      ensures resumed.effects[i] == ListenerResume(f.id, networkState)
    {
      assert resumed.effects[i] in resumed.effects;
    }
    assert resumed.effects == seq(n, _ => ListenerResume(f.id, networkState));
  }

  /** A fragment listener that turned both flags off still gets one resume
      call per hearing callback. */
  lemma FragmentResumeIgnoresFlags(b: Bridge, networkState: NetworkState, owner: HostId, id: HostId, nested: bool)
    requires !b.crashed
    ensures var f := Host(id, true, false, Some(Listener(Some(false), Some(false), None)), None);
            Step(b, networkState, FragmentResumed(owner, f, nested)).trace ==
            b.trace + seq(Hearing(b.registry, owner, nested), _ => ListenerResume(id, networkState))
  {
    var f := Host(id, true, false, Some(Listener(Some(false), Some(false), None)), None);
    FragmentResumedHookOncePerCallback(b, networkState, owner, f, nested);
  }

  /** `Run` of two events is two steps. */
  lemma RunTwo(b: Bridge, networkState: NetworkState, first: Event, second: Event)
    ensures Run(b, networkState, [first, second]) ==
            Step(Step(b, networkState, first), networkState, second)
  {
    var b1 := Step(b, networkState, first);
    assert Run(b, networkState, [first, second]) == Run(b1, networkState, [first, second][1..]);
    assert [first, second][1..] == [second];
    assert Run(b1, networkState, [second]) == Run(Step(b1, networkState, second), networkState, [second][1..]);
    assert [second][1..] == [];
  }

  /** A host is a listener in no event about it. */
  ghost predicate NeverListener(events: seq<Event>, id: HostId) {
    forall i :: 0 <= i < |events| && events[i].Subject().id == id ==> events[i].Subject().listener.None?
  }

  /** A host that is no listener never gets a hook called. */
  lemma {:induction false} NonListenerNeverHooked(b: Bridge, networkState: NetworkState, events: seq<Event>, id: HostId)
    requires NeverListener(events, id)
    ensures Hooks(Run(b, networkState, events).trace, id) == Hooks(b.trace, id)
    decreases |events|
  {
    if events != [] {
      StepHookRule(b, networkState, events[0], id);
      assert HooksAddedBy(b, networkState, events[0], id) == [];
      assert NeverListener(events[1..], id) by {
        forall i | 0 <= i < |events[1..]| && events[1..][i].Subject().id == id
          ensures events[1..][i].Subject().listener.None?
        {
          assert events[1..][i] == events[i + 1];
        }
      }
      NonListenerNeverHooked(Step(b, networkState, events[0]), networkState, events[1..], id);
    }
  }

  /** A host whose `shouldBeCalled` is false in every event about it. */
  ghost predicate NeverShouldBeCalled(events: seq<Event>, id: HostId) {
    forall i :: 0 <= i < |events| && events[i].Subject().id == id ==>
      events[i].Subject().listener.Some? ==> !events[i].Subject().listener.value.ShouldBeCalled()
  }

  /** With `shouldBeCalled` false, `onListenerCreated` is never called. */
  lemma {:induction false} NoCreatedHookWithoutShouldBeCalled(b: Bridge, networkState: NetworkState, events: seq<Event>, id: HostId)
    requires NeverShouldBeCalled(events, id)
    requires ListenerCreated(id) !in b.trace
    ensures ListenerCreated(id) !in Run(b, networkState, events).trace
    decreases |events|
  {
    if events != [] {
      var b' := Step(b, networkState, events[0]);
      StepHookRule(b, networkState, events[0], id);
      assert ListenerCreated(id) !in HooksAddedBy(b, networkState, events[0], id);
      HooksMembers(b.trace, id, ListenerCreated(id));
      HooksMembers(b'.trace, id, ListenerCreated(id));
      assert ListenerCreated(id) !in b'.trace;
      assert NeverShouldBeCalled(events[1..], id) by {
        forall i | 0 <= i < |events[1..]| && events[1..][i].Subject().id == id
          ensures events[1..][i].Subject().listener.Some? ==> !events[1..][i].Subject().listener.value.ShouldBeCalled()
        {
          assert events[1..][i] == events[i + 1];
        }
      }
      NoCreatedHookWithoutShouldBeCalled(b', networkState, events[1..], id);
    }
  }

  /** The resume path consults neither flag: a LifecycleOwner listener that
      turned both off still gets `onListenerResume`. */
  lemma ResumeIgnoresFlags(b: Bridge, networkState: NetworkState, id: HostId)
    requires !b.crashed
    ensures var a := Host(id, true, false, Some(Listener(Some(false), Some(false), None)), None);
            ListenerResume(id, networkState) in Step(b, networkState, ActivityResumed(a)).trace
  {
    var a := Host(id, true, false, Some(Listener(Some(false), Some(false), None)), None);
    StepHookRule(b, networkState, ActivityResumed(a), id);
    assert ListenerResume(id, networkState) in Hooks(Step(b, networkState, ActivityResumed(a)).trace, id);
    HooksMembers(Step(b, networkState, ActivityResumed(a)).trace, id, ListenerResume(id, networkState));
  }

  /** With the default flags, a LifecycleOwner listener gets both hooks: one
      `onListenerCreated` and then one `onListenerResume`. */
  lemma DefaultListenerGetsBothHooks(networkState: NetworkState, id: HostId, isFragmentActivity: bool)
    ensures var a := Host(id, true, isFragmentActivity, Some(DefaultListener), None);
            Hooks(Run(Initial, networkState, [ActivityCreated(a), ActivityResumed(a)]).trace, id) ==
            [ListenerCreated(id), ListenerResume(id, networkState)]
  {
    var a := Host(id, true, isFragmentActivity, Some(DefaultListener), None);
    RunTwo(Initial, networkState, ActivityCreated(a), ActivityResumed(a));
    var b1 := Step(Initial, networkState, ActivityCreated(a));
    ActivityEventsNeverCrash(Initial, networkState, ActivityCreated(a));
    StepHookRule(Initial, networkState, ActivityCreated(a), id);
    assert HooksAddedBy(Initial, networkState, ActivityCreated(a), id) == [ListenerCreated(id)];
    assert Hooks(b1.trace, id) == [ListenerCreated(id)];
    StepHookRule(b1, networkState, ActivityResumed(a), id);
    assert HooksAddedBy(b1, networkState, ActivityResumed(a), id) == [ListenerResume(id, networkState)];
  }

  /** A fragment activity created once hears its fragments: a child listener
      that should be called gets `onListenerCreated` exactly once, whether
      its hook raises or not and whether the activity itself is a listener
      or not. */
  lemma ChildFragmentGetsCreatedHook(networkState: NetworkState, activity: Host, child: Host, nested: bool)
    requires activity.isLifecycleOwner && activity.isFragmentActivity
    requires child.id != activity.id
    requires child.listener.Some? && child.listener.value.ShouldBeCalled()
    ensures Hooks(Run(Initial, networkState, [ActivityCreated(activity), FragmentCreated(activity.id, child, nested)]).trace, child.id)
            == [ListenerCreated(child.id)]
  {
    var created := ActivityCreated(activity);
    RunTwo(Initial, networkState, created, FragmentCreated(activity.id, child, nested));
    CreatedFragmentActivity(networkState, activity, child.id);
    HeardChildGetsCreatedHook(Step(Initial, networkState, created), networkState, activity.id, child, nested);
  }

  /** Creating a LifecycleOwner fragment activity on a fresh bridge
      registers one recursive callback on it and calls no hook on any other
      host. */
  lemma CreatedFragmentActivity(networkState: NetworkState, activity: Host, other: HostId)
    requires activity.isLifecycleOwner && activity.isFragmentActivity
    requires other != activity.id
    ensures var b := Step(Initial, networkState, ActivityCreated(activity));
            !b.crashed && b.registry == [Registration(activity.id, true)] && Hooks(b.trace, other) == []
  {
    StepOfCreated(Initial, networkState, activity);
    CreatedInOrderRegistrations(activity);
    CreatedInOrderHooks(activity, other);
    assert [] + CreatedInOrder(activity) == CreatedInOrder(activity);
  }

  /** A created fragment that is due, heard by exactly one callback, gets
      exactly one `onListenerCreated`, whether its hook raises or not. */
  lemma HeardChildGetsCreatedHook(b: Bridge, networkState: NetworkState, owner: HostId, child: Host, nested: bool)
    requires !b.crashed && b.registry == [Registration(owner, true)]
    requires child.listener.Some? && child.listener.value.ShouldBeCalled()
    ensures Hooks(Step(b, networkState, FragmentCreated(owner, child, nested)).trace, child.id) ==
            Hooks(b.trace, child.id) + [ListenerCreated(child.id)]
  {
    assert Hearing(b.registry, owner, nested) == 1;
    StepHookRule(b, networkState, FragmentCreated(owner, child, nested), child.id);
    assert DispatchToCallbacks(1, FragmentCreatedBody(child)).effects == [ListenerCreated(child.id)];
  }


  /** A hook failure on one activity is swallowed, and a later resume of
      another activity still calls its hook. */
  lemma FailureIsIsolated(networkState: NetworkState, first: Host, second: Host)
    requires ResumeHookDue(first) && first.hookFailure.Some?
    requires ResumeHookDue(second) && second.id != first.id
    ensures var b := Run(Initial, networkState, [ActivityResumed(first), ActivityResumed(second)]);
            !b.crashed && ListenerResume(second.id, networkState) in b.trace
  {
    RunTwo(Initial, networkState, ActivityResumed(first), ActivityResumed(second));
    var b1 := Step(Initial, networkState, ActivityResumed(first));
    StepHookRule(b1, networkState, ActivityResumed(second), second.id);
    assert ListenerResume(second.id, networkState) in
           Hooks(Step(b1, networkState, ActivityResumed(second)).trace, second.id);
    HooksMembers(Step(b1, networkState, ActivityResumed(second)).trace, second.id, ListenerResume(second.id, networkState));
  }

  // ---------------------------------------------------------------------
  // The bridge object
  // ---------------------------------------------------------------------

  /** The registered activity lifecycle callbacks, holding the network
      state they pass to resume hooks, with the registry and trace their
      handlers append to. */
  class ActivityLifecycleCallbacksImp {
    const networkState: NetworkState
    var registry: seq<Registration>
    var trace: seq<Effect>
    var crashed: bool

    function State(): Bridge
      reads this
    {
      Bridge(registry, trace, crashed)
    }

    constructor (networkState: NetworkState)
      ensures this.networkState == networkState
      ensures State() == Initial
    {
      this.networkState := networkState;
      registry, trace, crashed := [], [], false;
    }

    method OnActivityCreated(activity: Host)
      modifies this
      ensures State() == Step(old(State()), networkState, ActivityCreated(activity))
    {
      if crashed { return; }
      StepOfCreated(State(), networkState, activity);
      CreatedInOrderRegistrations(activity);
      ghost var registry0, trace0 := registry, trace;
      ghost var reg := if activity.isLifecycleOwner && activity.isFragmentActivity
                       then [RegisterFragmentCallbacks(activity.id, true)] else [];
      if activity.isLifecycleOwner && activity.isFragmentActivity {
        AddLifecycleCallbackToFragments(activity);
      }
      assert registry == registry0 + Registrations(CreatedInOrder(activity));
      assert trace == trace0 + reg;
      CallCreatedHook(activity);
      assert trace == trace0 + CreatedInOrder(activity);
    }

    /** The part of `onActivityCreated` after the registration: the
        listener check, the hook call, and the log line of its `safeRun` if
        the hook raises. */
    method CallCreatedHook(activity: Host)
      modifies this`trace
      ensures trace == old(trace) + CreatedHookEffects(activity)
    {
      if !activity.isLifecycleOwner || activity.listener.None? || !activity.listener.value.ShouldBeCalled() {
        return;
      }
      var hook := [ListenerCreated(activity.id)];
      if activity.hookFailure.Some? {
        var line := [Logged(LogEntry(TAG, activity.hookFailure.value.ToString()))];
        assert trace + hook + line == trace + (hook + line);
        trace := trace + hook + line;
      } else {
        trace := trace + hook;
      }
    }

    method AddLifecycleCallbackToFragments(activity: Host)
      modifies this`registry, this`trace
      ensures registry == old(registry) + [Registration(activity.id, true)]
      ensures trace == old(trace) + Emitted(FragmentRegistrationRun(activity))
      ensures crashed == old(crashed)
    {
      registry := registry + [Registration(activity.id, true)];
      trace := trace + [RegisterFragmentCallbacks(activity.id, true)];
    }

    method OnActivityResumed(activity: Host)
      modifies this
      ensures State() == Step(old(State()), networkState, ActivityResumed(activity))
    {
      if crashed { return; }
      ActivityResumedInOrder(activity, networkState);
      if activity.isLifecycleOwner && activity.listener.Some? {
        var hook := [ListenerResume(activity.id, networkState)];
        if activity.hookFailure.Some? {
          var line := [Logged(LogEntry("", activity.hookFailure.value.ToString()))];
          assert trace + hook + line == trace + (hook + line);
          trace := trace + hook + line;
        } else {
          trace := trace + hook;
        }
      }
    }

    method OnActivityPaused(activity: Host)
      ensures State() == Step(State(), networkState, ActivityPaused(activity))
    {
    }

    method OnActivityStarted(activity: Host)
      ensures State() == Step(State(), networkState, ActivityStarted(activity))
    {
    }

    method OnActivitySaveInstanceState(activity: Host)
      ensures State() == Step(State(), networkState, ActivitySaveInstanceState(activity))
    {
    }

    method OnActivityStopped(activity: Host)
      ensures State() == Step(State(), networkState, ActivityStopped(activity))
    {
    }

    method OnActivityDestroyed(activity: Host)
      ensures State() == Step(State(), networkState, ActivityDestroyed(activity))
    {
    }

    /** The fragment manager of `owner` reports a created fragment to every
        hearing callback. */
    method OnFragmentCreated(owner: HostId, fragment: Host, nested: bool)
      modifies this
      ensures State() == Step(old(State()), networkState, FragmentCreated(owner, fragment, nested))
    {
      if crashed { return; }
      var run := DispatchToCallbacks(Hearing(registry, owner, nested), FragmentCreatedBody(fragment));
      trace := trace + run.effects;
      crashed := run.completion.Thrown?;
    }

    /** The fragment manager of `owner` reports a resumed fragment to every
        hearing callback. */
    method OnFragmentResumed(owner: HostId, fragment: Host, nested: bool)
      modifies this
      ensures State() == Step(old(State()), networkState, FragmentResumed(owner, fragment, nested))
    {
      if crashed { return; }
      var run := DispatchToCallbacks(Hearing(registry, owner, nested), FragmentResumedBody(fragment, networkState));
      trace := trace + run.effects;
      crashed := run.completion.Thrown?;
    }
  }
}
