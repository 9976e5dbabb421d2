/** `AdMobSharedViewModel`: the three-valued UI state, the operations that
    set it, and the collector that turns a raised trigger flag into `ShowAd`.

    The collector is two nested `collect` calls: the outer one waits for the
    UI state to be `ReadyForAdTriggers`, then starts collecting the trigger
    flag. Collecting a state flow never completes, so from then on the outer
    collector is suspended inside the inner one and the flag is acted on in
    every UI state, until the view model is cleared and its scope cancelled. */
module SharedViewModel {
  import opened JvmInt
  import opened SessionRecord
  import opened Preferences
  import opened SessionConfigure
  import opened TriggerPolicy
  import opened SessionManager

  datatype AdUiState = NotInitialized | ReadyForAdTriggers | ShowAd

  /** Where the view model's collector coroutine is. */
  datatype Collector = WaitingForReady | CollectingTrigger | Stopped

  /** The outer collector on seeing UI state `s`. */
  function OnUiState(c: Collector, s: AdUiState): (r: Collector)
    ensures r != c <==> c == WaitingForReady && s == ReadyForAdTriggers
    ensures r != c ==> r == CollectingTrigger
  {
    if c == WaitingForReady && s == ReadyForAdTriggers then CollectingTrigger else c
  }

  /** The inner collector on seeing flag value `triggered`: `triggerAd`, then
      `resetAdTrigger`. Returns the new UI state and flag. */
  function OnTriggerFlag(c: Collector, s: AdUiState, triggered: bool): (r: (AdUiState, bool))
    ensures c == CollectingTrigger && triggered ==> r == (ShowAd, false)
    ensures !(c == CollectingTrigger && triggered) ==> r == (s, triggered)
  {
    if c == CollectingTrigger && triggered then (ShowAd, false) else (s, triggered)
  }

  /** A raised flag is never acted on before the state has been Ready once:
      the waiting collector passes through every state but Ready unchanged. */
  lemma {:induction false} FlagIgnoredUntilReady(states: seq<AdUiState>, s: AdUiState)
    requires forall i :: 0 <= i < |states| ==> states[i] != ReadyForAdTriggers
    ensures Replay(WaitingForReady, states) == WaitingForReady
    ensures OnTriggerFlag(Replay(WaitingForReady, states), s, true) == (s, true)
  {
    if states != [] {
      FlagIgnoredUntilReady(states[..|states| - 1], s);
    }
  }

  /** Once the state has been Ready, the collector stays on the flag, and a
      raised flag is acted on in whatever state the UI is in. */
  lemma {:induction false} FlagActedOnceReadySeen(states: seq<AdUiState>, s: AdUiState)
    requires ReadyForAdTriggers in states
    ensures Replay(WaitingForReady, states) == CollectingTrigger
    ensures OnTriggerFlag(Replay(WaitingForReady, states), s, true) == (ShowAd, false)
  {
    var prefix := states[..|states| - 1];
    if ReadyForAdTriggers in prefix {
      FlagActedOnceReadySeen(prefix, s);
    } else {
      assert forall i :: 0 <= i < |prefix| ==> prefix[i] != ReadyForAdTriggers;
      FlagIgnoredUntilReady(prefix, s);
      assert states[|states| - 1] == ReadyForAdTriggers;
    }
  }

  /** The outer collector after seeing the states in order. */
  function Replay(c: Collector, states: seq<AdUiState>): (r: Collector)
  {
    if states == [] then c else OnUiState(Replay(c, states[..|states| - 1]), states[|states| - 1])
  }

  class AdMobSharedViewModel {
    /** The manager behind the forwarding session view model. */
    const session: AdMobSessionManager

    var appAdUiState: AdUiState
    /** The forwarding view model's trigger flag, raised by the manager's
        callback and cleared by `resetAdTrigger`. */
    var adTriggered: bool
    var collector: Collector

    /** The flag's initial value is a parameter: the forwarding view model's
        `initSession`, or this view model's own `configureSession`, may
        already have fired and raised it before the collector starts. */
    constructor (session: AdMobSessionManager, triggered: bool)
      ensures this.session == session
      ensures appAdUiState == NotInitialized && adTriggered == triggered && collector == WaitingForReady
    {
      this.session := session;
      appAdUiState := NotInitialized;
      adTriggered := triggered;
      collector := WaitingForReady;
    }

    /** `markReadyForAdTriggers`: from any state. */
    method MarkReadyForAdTriggers()
      modifies this`appAdUiState
      ensures appAdUiState == ReadyForAdTriggers
    {
      appAdUiState := ReadyForAdTriggers;
    }

    /** `triggerAd`: from any state. */
    method TriggerAd()
      modifies this`appAdUiState
      ensures appAdUiState == ShowAd
    {
      appAdUiState := ShowAd;
    }

    /** `onAdShown`: from any state. */
    method OnAdShown()
      modifies this`appAdUiState
      ensures appAdUiState == ReadyForAdTriggers
    {
      appAdUiState := ReadyForAdTriggers;
    }

    /** `onCleared`: from any state; the scope's collector is cancelled. */
    method OnCleared()
      modifies this`appAdUiState, this`collector
      ensures appAdUiState == NotInitialized && collector == Stopped
    {
      appAdUiState := NotInitialized;
      collector := Stopped;
    }

    /** The outer collector receives the current UI state. */
    method CollectUiState()
      modifies this`collector
      ensures collector == OnUiState(old(collector), appAdUiState)
    {
      collector := OnUiState(collector, appAdUiState);
    }

    /** The inner collector receives the current flag: when raised, the UI
        moves to `ShowAd` and then the flag is cleared. */
    method CollectTriggerFlag()
      modifies this`appAdUiState, this`adTriggered
      ensures (appAdUiState, adTriggered) == OnTriggerFlag(collector, old(appAdUiState), old(adTriggered))
    {
      if collector == CollectingTrigger && adTriggered {
        TriggerAd();
        adTriggered := false;
      }
    }

    /** `onEventAction`: adds exactly one event to the session; a fire
        raises the flag through the manager's callback. */
    method OnEventAction(now: Long, d: Samples, prefs: AppAdPreferences)
      requires session.Configured()
      modifies this`adTriggered, session, session.sessionConfigure, session.sessionConfigure.sessionModel, prefs
      ensures session.Configured() && session.totalEventCount == 1
      ensures var bumped := WithAddedEvents(old(session.Record()), 1);
              && (!ShouldFire(bumped, now) ==> session.Record() == bumped)
              && (ShouldFire(bumped, now) ==> session.Record() == RecordOf(Draw(session.sessionConfigure.ranges, d), 0, now))
              && adTriggered == (old(adTriggered) || (ShouldFire(bumped, now) && session.hasAdCallback))
      ensures appAdUiState == old(appAdUiState) && collector == old(collector)
    {
      var fired, callbackSaw := session.AddEvent(1, now, d, prefs);
      if callbackSaw.Some? {
        adTriggered := true;
      }
    }
  }
}
