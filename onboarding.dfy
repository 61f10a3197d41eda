/**
 * The onboarding step machine (Sources/Views/OnboardingView.swift): five
 * steps walked forward by proceed or skip, a four-segment progress bar,
 * and the choice of primary button and Skip button on each step. The
 * drawing itself is not modelled.
 */
module Onboarding {
  import opened Wrappers

  datatype Step = Welcome | ServerURL | Notifications | Calendar | Complete

  /** `OnboardingStep.rawValue`. */
  function RawValue(s: Step): (n: nat)
    ensures n <= 4
  {
    match s
    case Welcome => 0
    case ServerURL => 1
    case Notifications => 2
    case Calendar => 3
    case Complete => 4
  }

  /** `OnboardingStep(rawValue:)`. */
  function StepFromRaw(n: int): (r: Option<Step>)
    ensures r.Some? <==> 0 <= n <= 4
    ensures r.Some? ==> RawValue(r.value) == n
  {
    if n == 0 then Some(Welcome)
    else if n == 1 then Some(ServerURL)
    else if n == 2 then Some(Notifications)
    else if n == 3 then Some(Calendar)
    else if n == 4 then Some(Complete)
    else None
  }

  /** The raw values are exactly 0 to 4, one per step. */
  lemma RawValues(s: Step, n: int)
    ensures StepFromRaw(n) == Some(s) <==> n == RawValue(s)
    ensures StepFromRaw(n).Some? <==> 0 <= n <= 4
  {
  }

  /** No two steps share a title. */
  lemma TitlesDistinct(s: Step, t: Step)
    ensures Title(s) == Title(t) <==> s == t
  {
  }

  /** `OnboardingStep.title`. */
  function Title(s: Step): string {
    match s
    case Welcome => "Welcome"
    case ServerURL => "Server Setup"
    case Notifications => "Notifications"
    case Calendar => "Calendar"
    case Complete => "Complete"
  }

  /** `buttonTitle`. */
  function ButtonTitle(s: Step): (t: string)
    ensures t == "Get Started" <==> s == Welcome || s == Complete
    ensures t != "Get Started" ==> t == "Continue"
  {
    match s
    case Welcome => "Get Started"
    case Complete => "Get Started"
    case _ => "Continue"
  }

  /** The step proceed and skip move to: the next raw value, if there is a step with it. */
  function NextStep(s: Step): (n: Step)
    ensures s != Complete ==> RawValue(n) == RawValue(s) + 1
    ensures s == Complete ==> n == Complete
  {
    match StepFromRaw(RawValue(s) + 1)
    case Some(next) => next
    case None => s
  }

  /** Proceeding k times from a step. */
  function Advance(s: Step, k: nat): Step
    decreases k
  {
    if k == 0 then s else Advance(NextStep(s), k - 1)
  }

  /** k proceeds move k steps forward, stopping at Complete. */
  lemma {:induction false} AdvanceSteps(s: Step, k: nat)
    ensures RawValue(Advance(s, k)) == if RawValue(s) + k <= 4 then RawValue(s) + k else 4
    decreases k
  {
    if k > 0 {
      AdvanceSteps(NextStep(s), k - 1);
    }
  }

  /** Four proceeds take the welcome screen to Complete, and no number of proceeds goes past it. */
  lemma FourProceedsComplete(k: nat)
    ensures Advance(Welcome, 4) == Complete
    ensures k >= 4 ==> Advance(Welcome, k) == Complete
  {
    AdvanceSteps(Welcome, 4);
    AdvanceSteps(Welcome, k);
    RawValues(Advance(Welcome, k), 4);
  }

  /** The progress bar: one segment per step but Complete (`allCases.dropLast()`). */
  const ProgressSteps: seq<Step> := [Welcome, ServerURL, Notifications, Calendar]

  /** Which segments are filled on step `current`. */
  function ProgressFill(current: Step): (filled: seq<bool>)
    ensures |filled| == |ProgressSteps| == 4
  {
    seq(|ProgressSteps|, i requires 0 <= i < |ProgressSteps| => RawValue(current) >= RawValue(ProgressSteps[i]))
  }

  /** A segment is filled exactly when the current step is at or past its step. */
  lemma ProgressFilledIff(current: Step, i: nat)
    requires i < 4
    ensures ProgressFill(current)[i] <==> RawValue(current) >= i
    ensures ProgressSteps[i] != Complete
  {
  }

  /** On Complete every segment is filled; on the welcome screen only the first. */
  lemma ProgressEnds()
    ensures ProgressFill(Complete) == [true, true, true, true]
    ensures ProgressFill(Welcome) == [true, false, false, false]
  {
  }

  /** What the primary button at the bottom does. */
  datatype PrimaryAction =
    | EnableNotifications            // "Enable Notifications"
    | EnableCalendar                 // "Enable Calendar Access"
    | Proceed(title: string)         // `buttonTitle`, then proceed
    | FinishOnboarding               // "Get Started", then complete onboarding

  function BottomAction(current: Step, notificationGranted: bool, calendarGranted: bool): (a: PrimaryAction)
    ensures a == EnableNotifications <==> current == Notifications && !notificationGranted
    ensures a == EnableCalendar <==> current == Calendar && !calendarGranted
    ensures a == FinishOnboarding <==> current == Complete
    ensures a.Proceed? ==> a.title == ButtonTitle(current) && a.title == if current == Welcome then "Get Started" else "Continue"
  {
    if current == Notifications && !notificationGranted then EnableNotifications
    else if current == Calendar && !calendarGranted then EnableCalendar
    else if current != Complete then Proceed(ButtonTitle(current))
    else FinishOnboarding
  }

  /** The Skip button shows on every step but the first and the last. */
  function SkipShown(current: Step): (shown: bool)
    ensures shown <==> 1 <= RawValue(current) <= 3
  {
    current != Welcome && current != Complete
  }

  /** The view's state. */
  class OnboardingFlow {
    var currentStep: Step
    var serverURL: string
    var notificationGranted: bool
    var calendarGranted: bool
    var isRequestingPermissions: bool
    /** The binding the host view reads. */
    var hasCompletedOnboarding: bool
    /** The server URL as saved by the storage service, if it has been. */
    var savedServerURL: Option<string>
    /** How many times remote-notification registration has been requested. */
    var remoteRegistrations: nat

    constructor(hasCompletedOnboarding: bool)
      ensures currentStep == Welcome && serverURL == "ws://localhost:8080/ws"
      ensures !notificationGranted && !calendarGranted && !isRequestingPermissions
      ensures this.hasCompletedOnboarding == hasCompletedOnboarding
      ensures savedServerURL == None && remoteRegistrations == 0
    {
      currentStep := Welcome;
      serverURL := "ws://localhost:8080/ws";
      notificationGranted := false;
      calendarGranted := false;
      isRequestingPermissions := false;
      this.hasCompletedOnboarding := hasCompletedOnboarding;
      savedServerURL := None;
      remoteRegistrations := 0;
    }

    /** `proceedToNextStep`. */
    method ProceedToNextStep()
      modifies this`currentStep
      ensures currentStep == NextStep(old(currentStep))
    {
      var next := StepFromRaw(RawValue(currentStep) + 1);
      if next.Some? {
        currentStep := next.value;
      }
    }

    /** `skipCurrentStep`: the same move as proceed. */
    method SkipCurrentStep()
      modifies this`currentStep
      ensures currentStep == NextStep(old(currentStep))
    {
      var next := StepFromRaw(RawValue(currentStep) + 1);
      if next.Some? {
        currentStep := next.value;
      }
    }

    /**
     * `requestNotificationPermission`, run to its end; `granted` is what
     * the authorisation request answers.
     */
    method RequestNotificationPermission(granted: bool)
      modifies this`isRequestingPermissions, this`notificationGranted, this`remoteRegistrations
      ensures notificationGranted == granted && !isRequestingPermissions
      ensures remoteRegistrations == old(remoteRegistrations) + (if granted then 1 else 0)
    {
      isRequestingPermissions := true;
      notificationGranted := granted;
      if notificationGranted {
        remoteRegistrations := remoteRegistrations + 1;
      }
      isRequestingPermissions := false;
    }

    /**
     * `requestCalendarPermission`, run to its end; `outcome` is the access
     * request's answer, None when it throws.
     */
    method RequestCalendarPermission(outcome: Option<bool>)
      modifies this`isRequestingPermissions, this`calendarGranted
      ensures calendarGranted == (outcome == Some(true)) && !isRequestingPermissions
    {
      isRequestingPermissions := true;
      if outcome.Some? {
        calendarGranted := outcome.value;
      } else {
        calendarGranted := false;
      }
      isRequestingPermissions := false;
    }

    /** `completeOnboarding`: save the server URL, then flag onboarding done. */
    method CompleteOnboarding()
      modifies this`savedServerURL, this`hasCompletedOnboarding
      ensures savedServerURL == Some(serverURL) && hasCompletedOnboarding
    {
      savedServerURL := Some(serverURL);
      hasCompletedOnboarding := true;
    }

    /**
     * A tap on the primary button: the action `BottomAction` selects, with
     * the permission answers as inputs. Each field is stated: the one action
     * that touches it sets it, and every other action leaves it alone.
     */
    method TapPrimary(notificationAnswer: bool, calendarAnswer: Option<bool>)
      modifies this
      ensures serverURL == old(serverURL)
      ensures currentStep ==
        if old(BottomAction(currentStep, notificationGranted, calendarGranted)).Proceed? then NextStep(old(currentStep))
        else old(currentStep)
      ensures notificationGranted ==
        if old(BottomAction(currentStep, notificationGranted, calendarGranted)) == EnableNotifications then notificationAnswer
        else old(notificationGranted)
      ensures remoteRegistrations == old(remoteRegistrations) +
        if old(BottomAction(currentStep, notificationGranted, calendarGranted)) == EnableNotifications && notificationAnswer then 1 else 0
      ensures calendarGranted ==
        if old(BottomAction(currentStep, notificationGranted, calendarGranted)) == EnableCalendar then calendarAnswer == Some(true)
        else old(calendarGranted)
      ensures isRequestingPermissions ==
        if old(BottomAction(currentStep, notificationGranted, calendarGranted)) in {EnableNotifications, EnableCalendar} then false
        else old(isRequestingPermissions)
      ensures savedServerURL == if old(currentStep) == Complete then Some(old(serverURL)) else old(savedServerURL)
      ensures hasCompletedOnboarding == (old(currentStep) == Complete || old(hasCompletedOnboarding))
    {
      var action := BottomAction(currentStep, notificationGranted, calendarGranted);
      match action
      case EnableNotifications => RequestNotificationPermission(notificationAnswer);
      case EnableCalendar => RequestCalendarPermission(calendarAnswer);
      case Proceed(_) => ProceedToNextStep();
      case FinishOnboarding => CompleteOnboarding();
    }
  }
}
