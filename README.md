# Android utility core, modelled in Dafny

This project models the parts of a small Android utility library whose
behaviour can be stated on its own terms:

- **Version check** (`version_check.dfy`, module `Versions`). `VersionInfo` is a class with three mutable
  fields and the data class's default arguments. `VersionCheck` owns one
  record and changes it through three setters. `OnUpdateAvailable` returns
  what the Kotlin method does: raise `IllegalStateException` when a version
  is 0 (`Error`), call the callback once with the record itself (`Update`),
  or do nothing (`NoUpdate`). Client methods run the setters on a fresh check
  and show what callers can rely on.
- **File and view helpers** (`extensions.dfy`, module `Extensions`). `GetFileExt` slices the name after the
  last `.`, using a `LastIndexOf` that follows `String.lastIndexOf`.
  `GetMimeType` composes it with an abstract partial table. `VisibilityFor`
  maps a boolean to VISIBLE or GONE. `View.SetVisible` assigns that
  visibility, unless the default `viewGroup` argument (the parent cast to
  `ViewGroup`) raises first.
  `View.GetAsBitmap` returns null for a view with no width or no height.
- **SDK combinators and `safeRun`** (`lambdas.dfy`, module `Lambdas`). The SDK level is a parameter. A
  combinator returns the list of callbacks it ran. `SafeRun` takes the
  block as a function from the receiver to its run (effects and
  completion). It keeps the block's effects, and it turns a throwable into
  one log line under the tag, which defaults to the empty string.
- **Connectivity state and listener** (`network_state.dfy`,
  `connectivity_listener.dfy`). `NetworkState` is a value with optional
  capabilities (a set of transport codes) and link properties, plus the
  derived `IsWifi`, `IsMobile` and `InterfaceName`. `Listener` holds, for
  each of its three properties, the implementer's override, or none when
  the interface's default getter applies. The defaults are `true` for the
  two flags and the shared holder's flag for `isConnected`.
- **Lifecycle bridge** (`lifecycle_callbacks.dfy`, module `LifecycleCallbacks`). A host is described by
  the capabilities it implements: LifecycleOwner, FragmentActivity,
  listener (with its flags), and what its hooks raise. Lifecycle events are
  an input sequence. `Step` and `Run` give the new state: the registry of
  fragment callbacks, an append-only trace of effects (registrations, hook
  calls, log lines), and whether an exception escaped into the platform.
  The class `ActivityLifecycleCallbacksImp` has one method per callback.
  Each method updates the registry and the trace in place, and is proved
  equal to `Step`.

Three behaviours of the code a reader might not expect:

- The bridge's resume handlers read neither `shouldBeCalled` nor
  `checkOnResume`, although both flags' doc comments say they disable hooks.
  The bridge calls `onListenerResume` on a listener that turned both off
  (`ResumeIgnoresFlags`). What the hook's own body then does with the flags
  is not part of this model.
- `onActivityCreated`, `onActivityResumed` and the fragment registration
  run inside `safeRun`; the fragment callbacks' bodies do not. An exception
  raised by a hook inside a fragment callback is not caught
  (`FragmentCreatedHookFailureEscapes`, `FragmentResumedHookFailureEscapes`).
- The resumed handler calls `safeRun` without a tag. With the `safeRun`
  behaviour modelled here, its failures are logged under the empty tag, not
  under `ActivityCallbacks`.

## Model

| member | source | states |
|---|---|---|
| `Versions.VersionInfo.constructor` | core/src/main/java/com/afterroot/core/utils/VersionCheck.kt:18-22 | the record starts from the given values; by default currentVersion 0, latestLink null, latestVersion 0 |
| `Versions.VersionCheck.constructor` | core/src/main/java/com/afterroot/core/utils/VersionCheck.kt:24-25 | a fresh check owns a new record with both versions 0 and no link |
| `Versions.VersionCheck.SetLatestVersion` | core/src/main/java/com/afterroot/core/utils/VersionCheck.kt:27-29 | sets latestVersion; currentVersion and latestLink unchanged, and no other field is written |
| `Versions.VersionCheck.SetLatestVersionLink` | core/src/main/java/com/afterroot/core/utils/VersionCheck.kt:31-33 | sets only latestLink |
| `Versions.VersionCheck.SetCurrentVersion` | core/src/main/java/com/afterroot/core/utils/VersionCheck.kt:35-37 | sets only currentVersion |
| `Versions.VersionCheck.OnUpdateAvailable` | core/src/main/java/com/afterroot/core/utils/VersionCheck.kt:39-46 | raises IllegalStateException with the source's message exactly when a version is 0; otherwise calls back with the record itself exactly when latest > current, and does nothing when latest <= current; changes no field |
| `Versions.CheckVersions` | core/src/main/java/com/afterroot/core/utils/VersionCheck.kt:24-46 | after the three setters on a fresh check: error iff a given version is 0; update iff both are non-zero and latest > current, and the record passed on holds the values set |
| `Versions.CheckUnset` | core/src/main/java/com/afterroot/core/utils/VersionCheck.kt:18-42 | asking a fresh check raises, since its defaults are 0 |
| `Versions.CheckAfterUpgrade` | core/src/main/java/com/afterroot/core/utils/VersionCheck.kt:35-46 | once currentVersion is set to the latest version, the same check reports no update |
| `Versions.CheckNegativeVersions` | core/src/main/java/com/afterroot/core/utils/VersionCheck.kt:40-45 | negative versions pass the `== 0` guard and are compared as numbers (-1 is newer than -2) |
| `KotlinTypes.IllegalStateException` | core/src/main/java/com/afterroot/core/utils/VersionCheck.kt:41 | the exception carries the given message |
| `Extensions.LastIndexOf` | core/src/main/java/com/afterroot/core/extensions/Extensions.kt:179 | the index of the last occurrence of the character, or -1 when there is none; no occurrence after it |
| `Extensions.GetFileExt` | core/src/main/java/com/afterroot/core/extensions/Extensions.kt:178-180 | the result is a suffix of the name with no '.'; when the name has a '.', the character before the suffix is '.'; without one, the whole name |
| `Extensions.FileExtAfterLastDot` | core/src/main/java/com/afterroot/core/extensions/Extensions.kt:179 | for every prefix and dot-free tail, the extension of prefix + "." + tail is the tail (the split is at the last '.') |
| `Extensions.FileExtOfDirectoryWithDot` | core/src/main/java/com/afterroot/core/extensions/Extensions.kt:179 | the split is not path-aware: "a.d/file" gives "d/file" |
| `Extensions.FileExtOfDoubleExtension` | core/src/main/java/com/afterroot/core/extensions/Extensions.kt:179 | only the last '.' counts: "x.tar.gz" gives "gz" |
| `Extensions.FileExtOfHiddenFile` | core/src/main/java/com/afterroot/core/extensions/Extensions.kt:179 | ".bashrc" gives "bashrc" |
| `Extensions.FileExtOfTrailingDot` | core/src/main/java/com/afterroot/core/extensions/Extensions.kt:179 | a name ending in '.' gives the empty extension |
| `Extensions.GetMimeType` | core/src/main/java/com/afterroot/core/extensions/Extensions.kt:188-197 | non-null exactly when the lookup does not raise and the table has the extension, and then the table's entry for it |
| `Extensions.MimeTypeOfExtension` | core/src/main/java/com/afterroot/core/extensions/Extensions.kt:188-197 | for any prefix, the MIME type of prefix + "." + ext is the table's entry for ext, or null |
| `Extensions.VisibilityFor` | core/src/main/java/com/afterroot/core/extensions/Extensions.kt:66 | VISIBLE iff the value is true, GONE iff false, never INVISIBLE |
| `Extensions.ViewGroupCastFailure` | core/src/main/java/com/afterroot/core/extensions/Extensions.kt:61 | the cast `parent as ViewGroup` succeeds exactly for a view-group parent; a null parent raises NullPointerException, any other parent ClassCastException |
| `Extensions.View.SetVisible` | core/src/main/java/com/afterroot/core/extensions/Extensions.kt:58-67 | without an explicit view group, the default cast is evaluated first, and if it raises, the exception propagates and visibility is unchanged; otherwise visibility becomes VisibilityFor(value); width and height are never written |
| `Extensions.View.HideThenShow` | core/src/main/java/com/afterroot/core/extensions/Extensions.kt:58-67 | hiding with the defaults raises exactly when the parent is not a view group; showing with an explicit view group always succeeds and leaves the view VISIBLE |
| `Extensions.View.GetAsBitmap` | core/src/main/java/com/afterroot/core/extensions/Extensions.kt:229-240 | null exactly when width or height is 0; otherwise a bitmap of the view's positive width and height |
| `Lambdas.OnVersionGreaterThanEqualTo` | utils/src/main/java/com/afterroot/utils/Lambdas.kt:23-31 | at most one callback runs, at most once; trueFun iff SDK >= target; falseFun iff SDK < target and it is given; nothing otherwise |
| `Lambdas.OnVersionLessThan` | utils/src/main/java/com/afterroot/utils/Lambdas.kt:33-41 | at most one callback runs, at most once; trueFun iff SDK < target; falseFun iff SDK >= target and it is given |
| `Lambdas.CombinatorsAreOpposite` | utils/src/main/java/com/afterroot/utils/Lambdas.kt:23-41 | for every SDK level and target, with both callbacks given, the two combinators run opposite callbacks |
| `Lambdas.ExactlyOneBranch` | utils/src/main/java/com/afterroot/utils/Lambdas.kt:23-41 | with both callbacks exactly one runs; with no falseFun the two combinators together run trueFun once |
| `Lambdas.SafeRun` | utils/src/main/java/com/afterroot/utils/Lambdas.kt:47-54 | the block runs once on the receiver and its effects are kept; nothing propagates; a throwable gives exactly one log line under the tag (by default "") with its toString, and normal completion none |
| `KotlinTypes.Throwable.ToString` | utils/src/main/java/com/afterroot/utils/Lambdas.kt:52 | the logged text starts with the class name and is longer exactly when there is a message |
| `NetworkStates.NetworkState.IsWifi` | core/src/main/java/fr/dasilvacampos/network/monitoring/NetworkState.kt:56-57 | true iff capabilities are present and include TRANSPORT_WIFI; false when they are null |
| `NetworkStates.NetworkState.IsMobile` | core/src/main/java/fr/dasilvacampos/network/monitoring/NetworkState.kt:62-63 | true iff capabilities are present and include TRANSPORT_CELLULAR; false when they are null |
| `NetworkStates.NetworkState.InterfaceName` | core/src/main/java/fr/dasilvacampos/network/monitoring/NetworkState.kt:68-69 | null when link properties are null, otherwise their interface name |
| `NetworkStates.ViewsIgnoreConnectionAndNetwork` | core/src/main/java/fr/dasilvacampos/network/monitoring/NetworkState.kt:56-69 | the derived views depend only on capabilities and link properties, not on isConnected or network |
| `NetworkStates.ViewsOfEmptyState` | core/src/main/java/fr/dasilvacampos/network/monitoring/NetworkState.kt:56-69 | with no capabilities and no link properties: not Wi-Fi, not mobile, no interface name |
| `NetworkStates.WifiOnlyState` | core/src/main/java/fr/dasilvacampos/network/monitoring/NetworkState.kt:56-63 | capabilities with only Wi-Fi give isWifi and not isMobile |
| `NetworkStates.WifiAndMobileNotExclusive` | core/src/main/java/fr/dasilvacampos/network/monitoring/NetworkState.kt:56-63 | some state has both isWifi and isMobile true; nothing enforces exclusivity |
| `ConnectivityListener.Listener.ShouldBeCalled` | core/src/main/java/fr/dasilvacampos/network/monitoring/NetworkConnectivityListener.kt:27-28 | true unless the implementer overrides it, then the override |
| `ConnectivityListener.Listener.CheckOnResume` | core/src/main/java/fr/dasilvacampos/network/monitoring/NetworkConnectivityListener.kt:33-34 | true unless the implementer overrides it, then the override |
| `ConnectivityListener.Listener.IsConnected` | core/src/main/java/fr/dasilvacampos/network/monitoring/NetworkConnectivityListener.kt:36-37 | the holder's flag unless the implementer overrides the getter, then the override |
| `ConnectivityListener.IsConnectedIsDelegated` | core/src/main/java/fr/dasilvacampos/network/monitoring/NetworkConnectivityListener.kt:36-37 | listeners that keep the default getter all read the holder's flag and follow a change of it; an overriding listener ignores the holder |
| `ConnectivityListener.DefaultFlags` | core/src/main/java/fr/dasilvacampos/network/monitoring/NetworkConnectivityListener.kt:27-37 | a listener that overrides nothing has both flags on and reads the holder's connectivity |
| `LifecycleCallbacks.CallHook` | core/src/main/java/fr/dasilvacampos/network/monitoring/core/ActivityLifecycleCallbacksImp.kt:59-84 | the hook calls at lines 59, 67, 79 and 84: the call is always made, and it throws exactly when the host's hook raises |
| `LifecycleCallbacks.ActivityCreatedBody` | core/src/main/java/fr/dasilvacampos/network/monitoring/core/ActivityLifecycleCallbacksImp.kt:48-61 | the block of onActivityCreated: nothing for a non-LifecycleOwner; it registers exactly for a FragmentActivity; it calls onListenerCreated exactly when the hook is due; it throws exactly when a due hook raises |
| `LifecycleCallbacks.ActivityResumedBody` | core/src/main/java/fr/dasilvacampos/network/monitoring/core/ActivityLifecycleCallbacksImp.kt:63-68 | the block of onActivityResumed: at most one effect, onListenerResume with the bridge's state exactly for a LifecycleOwner listener, and it throws exactly when that hook raises |
| `LifecycleCallbacks.FragmentCreatedBody` | core/src/main/java/fr/dasilvacampos/network/monitoring/core/ActivityLifecycleCallbacksImp.kt:77-80 | the fragment callback's onFragmentCreated: at most one call, only on the fragment; onListenerCreated exactly for a listener with shouldBeCalled; it throws exactly when that hook raises |
| `LifecycleCallbacks.FragmentResumedBody` | core/src/main/java/fr/dasilvacampos/network/monitoring/core/ActivityLifecycleCallbacksImp.kt:82-85 | the fragment callback's onFragmentResumed: at most one call, only on the fragment; onListenerResume exactly for a listener, with no flag read; it throws exactly when that hook raises |
| `LifecycleCallbacks.Step` | core/src/main/java/fr/dasilvacampos/network/monitoring/core/ActivityLifecycleCallbacksImp.kt:38-88 | one lifecycle event: nothing changes after a crash; the trace never shrinks; only a created activity can change the registry; only a fragment event can crash |
| `LifecycleCallbacks.Run` | core/src/main/java/fr/dasilvacampos/network/monitoring/core/ActivityLifecycleCallbacksImp.kt:34-88 | a sequence of events, one step each: the trace never shrinks, and a crashed bridge stays as it is |
| `LifecycleCallbacks.FragmentRegistrationRun` | core/src/main/java/fr/dasilvacampos/network/monitoring/core/ActivityLifecycleCallbacksImp.kt:71-89 | the registration step leaves exactly one recursive registration on the activity and no log line |
| `LifecycleCallbacks.StepOfCreated` | core/src/main/java/fr/dasilvacampos/network/monitoring/core/ActivityLifecycleCallbacksImp.kt:48-61 | on a live bridge, a created event appends the effects of onActivityCreated in source order to the trace, and their registrations to the registry |
| `LifecycleCallbacks.ActivityCreatedEffects` | core/src/main/java/fr/dasilvacampos/network/monitoring/core/ActivityLifecycleCallbacksImp.kt:48-61 | onActivityCreated inside `safeRun(TAG)`: no effect for a non-LifecycleOwner and at most three effects; the exact sequence is given by `ActivityCreatedInOrder` |
| `LifecycleCallbacks.ActivityCreatedInOrder` | core/src/main/java/fr/dasilvacampos/network/monitoring/core/ActivityLifecycleCallbacksImp.kt:48-61 | onActivityCreated's effects in order: the registration if LifecycleOwner and FragmentActivity, then onListenerCreated if due, then the TAG log line of a failing hook |
| `LifecycleCallbacks.ActivityCreatedRegistrations` | core/src/main/java/fr/dasilvacampos/network/monitoring/core/ActivityLifecycleCallbacksImp.kt:48-55 | a non-LifecycleOwner gets no effect at all; a LifecycleOwner FragmentActivity gets one recursive registration whether or not it is a listener |
| `LifecycleCallbacks.ActivityCreatedHooks` | core/src/main/java/fr/dasilvacampos/network/monitoring/core/ActivityLifecycleCallbacksImp.kt:49-59 | onListenerCreated is called once iff the activity is a LifecycleOwner, a listener and shouldBeCalled; no hook on any other host |
| `LifecycleCallbacks.ActivityResumedEffects` | core/src/main/java/fr/dasilvacampos/network/monitoring/core/ActivityLifecycleCallbacksImp.kt:63-68 | onActivityResumed inside the untagged `safeRun`: no effect unless the resume hook is due, and at most two effects; the exact sequence is given by `ActivityResumedInOrder` |
| `LifecycleCallbacks.ActivityResumedInOrder` | core/src/main/java/fr/dasilvacampos/network/monitoring/core/ActivityLifecycleCallbacksImp.kt:63-68 | onActivityResumed's effects: onListenerResume(networkState) if due, then a log line under the empty tag for a failing hook |
| `LifecycleCallbacks.ActivityResumedHooks` | core/src/main/java/fr/dasilvacampos/network/monitoring/core/ActivityLifecycleCallbacksImp.kt:63-67 | onListenerResume is called once iff LifecycleOwner and listener, with flags not consulted; nothing registered; no hook on other hosts |
| `LifecycleCallbacks.Hearing` | core/src/main/java/fr/dasilvacampos/network/monitoring/core/ActivityLifecycleCallbacksImp.kt:88 | no callback hears a fragment event iff none is registered on its activity (recursive ones also for nested fragments) |
| `LifecycleCallbacks.DispatchToCallbacks` | core/src/main/java/fr/dasilvacampos/network/monitoring/core/ActivityLifecycleCallbacksImp.kt:75-85 | an unwrapped fragment callback body run once per hearing callback; a throwing body escapes after the first call |
| `LifecycleCallbacks.QuietEvents` | core/src/main/java/fr/dasilvacampos/network/monitoring/core/ActivityLifecycleCallbacksImp.kt:38-46 | paused, started, save-instance-state, stopped and destroyed change nothing |
| `LifecycleCallbacks.ActivityEventsNeverCrash` | core/src/main/java/fr/dasilvacampos/network/monitoring/core/ActivityLifecycleCallbacksImp.kt:48-68 | no activity event lets an exception escape, whatever the hooks raise |
| `LifecycleCallbacks.FragmentCreatedHookFailureEscapes` | core/src/main/java/fr/dasilvacampos/network/monitoring/core/ActivityLifecycleCallbacksImp.kt:77-80 | a raising onListenerCreated on a fragment listener with shouldBeCalled, heard by a registered callback, escapes into the platform |
| `LifecycleCallbacks.FragmentResumedHookFailureEscapes` | core/src/main/java/fr/dasilvacampos/network/monitoring/core/ActivityLifecycleCallbacksImp.kt:82-85 | a raising onListenerResume on any fragment listener, whatever its flags, heard by a registered callback, escapes into the platform |
| `LifecycleCallbacks.CrashIsFinal` | core/src/main/java/fr/dasilvacampos/network/monitoring/core/ActivityLifecycleCallbacksImp.kt:77-85 | after an escaped exception no later event changes anything |
| `LifecycleCallbacks.RunOnlyAppends` | core/src/main/java/fr/dasilvacampos/network/monitoring/core/ActivityLifecycleCallbacksImp.kt:88 | over any event sequence the registry and the trace only grow: nothing unregisters a fragment callback |
| `LifecycleCallbacks.StepKeepsRegistryMatchingTrace` | core/src/main/java/fr/dasilvacampos/network/monitoring/core/ActivityLifecycleCallbacksImp.kt:48-88 | each event keeps the registry equal to the registrations recorded in the trace |
| `LifecycleCallbacks.RunKeepsRegistryMatchingTrace` | core/src/main/java/fr/dasilvacampos/network/monitoring/core/ActivityLifecycleCallbacksImp.kt:48-88 | the registry equals the registrations recorded in the trace after any event sequence |
| `LifecycleCallbacks.StepHookRule` | core/src/main/java/fr/dasilvacampos/network/monitoring/core/ActivityLifecycleCallbacksImp.kt:48-85 | each event appends to a host's hook calls exactly the hooks that event calls on that host |
| `LifecycleCallbacks.FragmentHookRules` | core/src/main/java/fr/dasilvacampos/network/monitoring/core/ActivityLifecycleCallbacksImp.kt:77-85 | a created fragment gets onListenerCreated iff it is heard and is a listener with shouldBeCalled; a resumed one gets onListenerResume iff it is heard and is a listener |
| `LifecycleCallbacks.FragmentCreatedHookOncePerCallback` | core/src/main/java/fr/dasilvacampos/network/monitoring/core/ActivityLifecycleCallbacksImp.kt:77-80 | a created fragment whose listener has shouldBeCalled and does not raise gets onListenerCreated once per hearing registration, and nothing else is appended |
| `LifecycleCallbacks.FragmentResumedHookOncePerCallback` | core/src/main/java/fr/dasilvacampos/network/monitoring/core/ActivityLifecycleCallbacksImp.kt:82-85 | a resumed fragment listener that does not raise gets onListenerResume(networkState) once per hearing registration, whatever its flags, and nothing else is appended |
| `LifecycleCallbacks.FragmentResumeIgnoresFlags` | core/src/main/java/fr/dasilvacampos/network/monitoring/core/ActivityLifecycleCallbacksImp.kt:82-85 | a fragment listener with shouldBeCalled and checkOnResume both false still gets onListenerResume once per hearing registration |
| `LifecycleCallbacks.NonListenerNeverHooked` | core/src/main/java/fr/dasilvacampos/network/monitoring/core/ActivityLifecycleCallbacksImp.kt:48-85 | over any event sequence, a host that is never a listener never gets a hook call |
| `LifecycleCallbacks.NoCreatedHookWithoutShouldBeCalled` | core/src/main/java/fr/dasilvacampos/network/monitoring/core/ActivityLifecycleCallbacksImp.kt:57-80 | over any event sequence, a host with shouldBeCalled false never gets onListenerCreated |
| `LifecycleCallbacks.ResumeIgnoresFlags` | core/src/main/java/fr/dasilvacampos/network/monitoring/core/ActivityLifecycleCallbacksImp.kt:63-67 | a LifecycleOwner listener with shouldBeCalled and checkOnResume both false still gets onListenerResume |
| `LifecycleCallbacks.DefaultListenerGetsBothHooks` | core/src/main/java/fr/dasilvacampos/network/monitoring/core/ActivityLifecycleCallbacksImp.kt:48-67 | with default flags, created then resumed gives exactly onListenerCreated then onListenerResume |
| `LifecycleCallbacks.ChildFragmentGetsCreatedHook` | core/src/main/java/fr/dasilvacampos/network/monitoring/core/ActivityLifecycleCallbacksImp.kt:48-80 | after a fragment activity is created, a child fragment listener with shouldBeCalled gets onListenerCreated exactly once, whether or not its hook raises and whatever the activity's own flags |
| `LifecycleCallbacks.CreatedFragmentActivity` | core/src/main/java/fr/dasilvacampos/network/monitoring/core/ActivityLifecycleCallbacksImp.kt:48-56 | creating a LifecycleOwner fragment activity on a fresh bridge registers exactly one recursive callback on it, crashes nothing, and calls no hook on another host |
| `LifecycleCallbacks.HeardChildGetsCreatedHook` | core/src/main/java/fr/dasilvacampos/network/monitoring/core/ActivityLifecycleCallbacksImp.kt:77-80 | a fragment listener with shouldBeCalled, heard by exactly one registered callback, gets exactly one onListenerCreated, whether or not its hook raises |
| `LifecycleCallbacks.FailureIsIsolated` | core/src/main/java/fr/dasilvacampos/network/monitoring/core/ActivityLifecycleCallbacksImp.kt:63-67 | a raising resume hook on one activity is swallowed, and a later resume of another activity still calls its hook |
| `LifecycleCallbacks.ActivityLifecycleCallbacksImp.constructor` | core/src/main/java/fr/dasilvacampos/network/monitoring/core/ActivityLifecycleCallbacksImp.kt:34 | the bridge keeps the given network state and starts with an empty registry and trace |
| `LifecycleCallbacks.ActivityLifecycleCallbacksImp.OnActivityCreated` | core/src/main/java/fr/dasilvacampos/network/monitoring/core/ActivityLifecycleCallbacksImp.kt:48-61 | the in-place handler ends in the state Step gives for a created event |
| `LifecycleCallbacks.ActivityLifecycleCallbacksImp.CallCreatedHook` | core/src/main/java/fr/dasilvacampos/network/monitoring/core/ActivityLifecycleCallbacksImp.kt:57-59 | appends onListenerCreated when the activity is a LifecycleOwner listener with shouldBeCalled, then the TAG log line if the hook raises; writes only the trace |
| `LifecycleCallbacks.ActivityLifecycleCallbacksImp.AddLifecycleCallbackToFragments` | core/src/main/java/fr/dasilvacampos/network/monitoring/core/ActivityLifecycleCallbacksImp.kt:71-89 | appends one recursive registration for the activity to the registry and records it in the trace |
| `LifecycleCallbacks.ActivityLifecycleCallbacksImp.OnActivityResumed` | core/src/main/java/fr/dasilvacampos/network/monitoring/core/ActivityLifecycleCallbacksImp.kt:63-68 | the in-place handler ends in the state Step gives for a resumed event |
| `LifecycleCallbacks.ActivityLifecycleCallbacksImp.OnActivityPaused` | core/src/main/java/fr/dasilvacampos/network/monitoring/core/ActivityLifecycleCallbacksImp.kt:38 | a no-op, matching Step |
| `LifecycleCallbacks.ActivityLifecycleCallbacksImp.OnActivityStarted` | core/src/main/java/fr/dasilvacampos/network/monitoring/core/ActivityLifecycleCallbacksImp.kt:40 | a no-op, matching Step |
| `LifecycleCallbacks.ActivityLifecycleCallbacksImp.OnActivitySaveInstanceState` | core/src/main/java/fr/dasilvacampos/network/monitoring/core/ActivityLifecycleCallbacksImp.kt:42 | a no-op, matching Step |
| `LifecycleCallbacks.ActivityLifecycleCallbacksImp.OnActivityStopped` | core/src/main/java/fr/dasilvacampos/network/monitoring/core/ActivityLifecycleCallbacksImp.kt:44 | a no-op, matching Step |
| `LifecycleCallbacks.ActivityLifecycleCallbacksImp.OnActivityDestroyed` | core/src/main/java/fr/dasilvacampos/network/monitoring/core/ActivityLifecycleCallbacksImp.kt:46 | a no-op, matching Step |
| `LifecycleCallbacks.ActivityLifecycleCallbacksImp.OnFragmentCreated` | core/src/main/java/fr/dasilvacampos/network/monitoring/core/ActivityLifecycleCallbacksImp.kt:77-80 | a fragment manager's created report ends in the state Step gives |
| `LifecycleCallbacks.ActivityLifecycleCallbacksImp.OnFragmentResumed` | core/src/main/java/fr/dasilvacampos/network/monitoring/core/ActivityLifecycleCallbacksImp.kt:82-85 | a fragment manager's resumed report ends in the state Step gives |

## Left out

- The callback passed to `onUpdateAvailable` is not run. `Update(info)` stands for "called once with the record". What the callback does with the record is not modelled.
- `View.GetAsBitmap`: the drawing (`layout`, `draw`) and the bitmap's pixels are not modelled. Width and height are `nat`, so a negative size, which `Bitmap.createBitmap` would reject, is not modelled.
- `Extensions.View.SetVisible`: the optional fade transition is an animation and is not modelled. Neither is what `beginDelayedTransition` might raise on an explicitly given view group. For the failed default cast, only the exception class is modelled; the ClassCastException message, which names runtime classes, is not.
- `GetMimeType`: the platform's real MIME table is not modelled. It is a parameter: a partial map plus a flag saying the lookup raises.
- `NetworkState`: the network, capability and link-property objects are reduced to a handle, a transport set and an interface name.
- `ActivityLifecycleCallbacksImp` keeps the network state as one value. The shared holder it refers to, and the platform callback that rewrites that holder from another thread, are not part of this model. So every resume hook of one run receives the same state.
- `onListenerCreated` and `onListenerResume` are not part of this model. Only the call is recorded, together with a per-host parameter saying whether the hook raises.
- `LifecycleCallbacks.ActivityResumedEffects`: the `safeRun` that `ActivityLifecycleCallbacksImp.kt` calls (lines 48, 63, 71) is declared in its own package, and its source is not part of this model. It is taken to behave like `Lambdas.kt:47-54`, including the default tag `""`. The hook bodies are not part of this model either. So the resume-flag lemmas claim only that the bridge makes the call whatever the flags; the hook may still read them itself.
- `LifecycleCallbacks.ActivityLifecycleCallbacksImp.AddLifecycleCallbackToFragments`: the platform's `registerFragmentLifecycleCallbacks` is taken never to raise, so this method's own `safeRun` never logs.
- Fragment managers: the model does not follow the platform's dispatch order. Each registered callback hears an event once, in turn. An exception that escapes a fragment callback ends the process, so no later event is processed.
- A `Listener`'s overrides of `shouldBeCalled`, `checkOnResume` and `isConnected` are constants. A getter that computes its value, or one that raises, is not modelled.
- Log output is reduced to a tag and a message. `Log.e`'s priority and the output channel are left out.
- Threading and Android's real lifecycle order are left out. Events are an arbitrary input sequence.
- The other helpers of `Extensions.kt` (animation, dialogs, preferences, drawables, package and network checks, intents, inflation) are left out: each is one call into a platform API. So are `ColorUtils.kt`, `IntentUtils.kt` and the build configuration.
