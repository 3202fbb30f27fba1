/** `submit_to_external_form_pw` (app.py 127-369): one scripted drive of
    the target form through an optional proxy. What the remote browser does
    at each stage is an input (`Page`); the driver decides, from the first
    stage that goes wrong, the `(status, message, lead_id)` it returns. */
module Driver {
  import opened Base
  import opened Text
  import Proxy

  /** How a browser operation can go wrong: a Playwright timeout (itself a
      Playwright error), another Playwright error, or any other exception. */
  datatype Failure = Timeout(text: string) | PlaywrightError(text: string) | Unexpected(text: string)

  /** The outcome of one stage. */
  datatype Step = Ok | Fail(failure: Failure)

  /** Reading the lead-id input: its current value, or a failure. */
  datatype LeadRead = LeadValue(value: string) | LeadFail(failure: Failure)

  /** What the browser does at each stage of one attempt. */
  datatype Page = Page(
    launch: Step,        // start the browser, context and page (169-175)
    verify: Step,        // load the IP echo page and read it (189-190)
    gotoTarget: Step,    // go to the form, DOM content loaded (204)
    loadEvent: Step,     // wait for the load event (206)
    networkIdle: Step,   // wait for network idle (210)
    formElements: Step,  // wait for the name, lead-id, consent and submit elements (229-232)
    leadField: Step,     // wait for the lead-id input again (243)
    fill: Step,          // fill name, phone and zip (252-254)
    consent: Step,       // check the consent box and settle (263-267)
    leadRead: LeadRead,  // read the lead id right before submitting (277-278)
    click: Step,         // settle, then click submit (291-303)
    settle: Step)        // wait for network idle after submitting (327)

  // ---------------------------------------------------------------------
  // Keyword classification of error texts

  /** The error text names the proxy, a tunnel or a broken pipe. */
  predicate ProxySignature(text: string)
  {
    var l := Lower(text);
    Contains(l, "proxy") || Contains(l, "tunnel") || Contains(l, "epipe")
  }

  /** The error text mentions a timeout. */
  predicate TimeoutSignature(text: string)
  {
    Contains(Lower(text), "timeout")
  }

  /** A failed launch (178-182). */
  function ClassifyLaunch(text: string): Status
  {
    if ProxySignature(text) || TimeoutSignature(text) then ProxyConnectFail else UnknownFail
  }

  /** A failed proxy verification (194-198). */
  function ClassifyVerify(text: string): Status
  {
    if ProxySignature(text) || TimeoutSignature(text) then ProxyConnectFail else NavigationFail
  }

  /** A failed navigation (217-223): a timeout alone is not blamed on the proxy. */
  function ClassifyNavigate(text: string): Status
  {
    if ProxySignature(text) then ProxyConnectFail else NavigationFail
  }

  /** The classifiers look only at the lower-cased text, so the case of the
      error message does not matter. */
  lemma ClassifiersIgnoreCase(text: string)
    ensures ClassifyLaunch(Lower(text)) == ClassifyLaunch(text)
    ensures ClassifyVerify(Lower(text)) == ClassifyVerify(text)
    ensures ClassifyNavigate(Lower(text)) == ClassifyNavigate(text)
  {
    LowerIdempotent(text);
  }

  /** Launch and verification blame the proxy on the same texts; navigation
      blames it on fewer: exactly those that do not merely time out. */
  lemma ClassifiersCompared(text: string)
    ensures ClassifyLaunch(text) == ProxyConnectFail <==> ClassifyVerify(text) == ProxyConnectFail
    ensures ClassifyNavigate(text) == ProxyConnectFail ==> ClassifyLaunch(text) == ProxyConnectFail
    ensures ClassifyLaunch(text) == ProxyConnectFail && ClassifyNavigate(text) != ProxyConnectFail <==>
              TimeoutSignature(text) && !ProxySignature(text)
  {
  }

  /** A proxy keyword anywhere in the text blames the proxy, whatever
      surrounds it. */
  lemma ProxyKeywordAnywhere(pre: string, keyword: string, post: string)
    requires keyword == "proxy" || keyword == "tunnel" || keyword == "epipe"
    ensures ClassifyNavigate(pre + keyword + post) == ProxyConnectFail
  {
    LowerAppend(pre + keyword, post);
    LowerAppend(pre, keyword);
    assert forall i :: 0 <= i < |keyword| ==> Lower(keyword)[i] == keyword[i];
    assert Lower(keyword) == keyword;
    assert OccursAt(keyword, keyword, 0);
    ContainsInContext(Lower(pre), keyword, Lower(post), keyword);
  }

  // ---------------------------------------------------------------------
  // The stage table

  /** The stages before the lead id is read, in order. */
  datatype Stage = Launch | VerifyProxy | Navigate | FormElements | LeadField | Fill | Consent

  /** What the outer `except Exception` returns (348-352). */
  function Crash(text: string, leadId: Option<string>): DriverResult
  {
    DriverResult(UnknownFail, "Unexpected error: " + text, leadId)
  }

  /** The result when stage `s` is the first to fail, with failure `f`. */
  function StageFailure(s: Stage, f: Failure): DriverResult
  {
    if f.Unexpected? then Crash(f.text, None)
    else
      var t := f.text;
      match s
      case Launch =>
        if ClassifyLaunch(t) == ProxyConnectFail
        then DriverResult(ProxyConnectFail, "Proxy launch failed: " + t, None)
        else DriverResult(UnknownFail, "Browser launch failed: " + t, None)
      case VerifyProxy =>
        if ClassifyVerify(t) == ProxyConnectFail
        then DriverResult(ProxyConnectFail, "Proxy verification failed: " + t, None)
        else DriverResult(NavigationFail, "Proxy verification navigation failed: " + t, None)
      case Navigate =>
        if ClassifyNavigate(t) == ProxyConnectFail
        then DriverResult(ProxyConnectFail, "Navigation via proxy failed: " + t, None)
        else if TimeoutSignature(t)
        then DriverResult(NavigationFail, "Navigation timed out: " + t, None)
        else DriverResult(NavigationFail, "Navigation failed: " + t, None)
      case FormElements =>
        DriverResult(AutomationFail, "Page did not load required form elements: " + t, None)
      case LeadField =>
        DriverResult(AutomationFail, "Could not find Lead ID field: " + t, None)
      case Fill =>
        DriverResult(AutomationFail, "Failed to fill form field: " + t, None)
      case Consent =>
        DriverResult(AutomationFail, "Failed to check consent box: " + t, None)
  }

  /** The navigation stage as a whole: the first of its three waits that
      fails, except that a timeout of the network-idle wait is tolerated. */
  function NavigationStep(p: Page): Step
  {
    if p.gotoTarget.Fail? then p.gotoTarget
    else if p.loadEvent.Fail? then p.loadEvent
    else if p.networkIdle.Fail? && !p.networkIdle.failure.Timeout? then p.networkIdle
    else Ok
  }

  /** The stages up to the consent box; proxy verification only with a proxy. */
  function Checkpoints(proxied: bool, p: Page): seq<(Stage, Step)>
  {
    [(Launch, p.launch)] +
    (if proxied then [(VerifyProxy, p.verify)] else []) +
    [(Navigate, NavigationStep(p)), (FormElements, p.formElements),
     (LeadField, p.leadField), (Fill, p.fill), (Consent, p.consent)]
  }

  /** Where each stage sits in the checkpoint list. */
  lemma CheckpointsLayout(proxied: bool, p: Page)
    ensures var cs := Checkpoints(proxied, p);
            var n := if proxied then 1 else 0;
            |cs| == 6 + n && cs[0] == (Launch, p.launch) && (proxied ==> cs[1] == (VerifyProxy, p.verify)) &&
            cs[1 + n] == (Navigate, NavigationStep(p)) && cs[2 + n] == (FormElements, p.formElements) &&
            cs[3 + n] == (LeadField, p.leadField) && cs[4 + n] == (Fill, p.fill) && cs[5 + n] == (Consent, p.consent)
  {
  }

  /** The index of the first failing checkpoint, `|cs|` when none fails. */
  function FirstFailure(cs: seq<(Stage, Step)>): (k: nat)
    ensures k <= |cs|
    ensures forall i :: 0 <= i < k ==> cs[i].1.Ok?
    ensures k < |cs| ==> cs[k].1.Fail?
  {
    if cs == [] then 0
    else if cs[0].1.Fail? then 0
    else 1 + FirstFailure(cs[1..])
  }

  /** Every checkpoint up to the consent box passed. */
  predicate ConsentReached(proxied: bool, p: Page)
  {
    FirstFailure(Checkpoints(proxied, p)) == |Checkpoints(proxied, p)|
  }

  /** Reading the lead id, clicking submit and waiting after it (272-344). */
  function Finish(p: Page): DriverResult
  {
    match p.leadRead
    case LeadFail(Unexpected(t)) => Crash(t, None)
    case LeadFail(f) => DriverResult(AutomationFail, "Could not extract Lead ID before submit: " + f.text, None)
    case LeadValue(v) =>
      if v == "" then DriverResult(AutomationFail, "Lead ID value was empty before submit.", None)
      else
        match p.click
        case Fail(Timeout(t)) => DriverResult(AutomationFail, "Timeout clicking submit button: " + t, Some(v))
        case Fail(PlaywrightError(t)) => DriverResult(AutomationFail, "Failed to click submit: " + t, Some(v))
        case Fail(Unexpected(t)) => DriverResult(UnknownFail, "Unexpected Submit Click error: " + t, Some(v))
        case Ok =>
          match p.settle
          case Fail(Unexpected(t)) => Crash(t, Some(v))
          case Fail(f) => DriverResult(AutomationFail, "Submission completion wait failed: " + f.text, None)
          case Ok => DriverResult(Success, "Form submitted successfully with Lead ID: " + v, Some(v))
  }

  /** The reference outcome: the first failing checkpoint decides, and when
      none fails, the lead-id read, the click and the final wait do. */
  function Outcome(proxied: bool, p: Page): DriverResult
  {
    var cs := Checkpoints(proxied, p);
    var k := FirstFailure(cs);
    if k < |cs| then StageFailure(cs[k].0, cs[k].1.failure) else Finish(p)
  }

  // ---------------------------------------------------------------------
  // Properties of the outcome

  /** An attempt succeeds exactly when every stage passes and the lead id
      read is non-empty; it then carries that lead id. */
  lemma SuccessIff(proxied: bool, p: Page)
    ensures Outcome(proxied, p).status == Success <==>
              ConsentReached(proxied, p) && p.leadRead.LeadValue? && p.leadRead.value != "" &&
              p.click.Ok? && p.settle.Ok?
    ensures Outcome(proxied, p).status == Success ==>
              Outcome(proxied, p).leadId == Some(p.leadRead.value) && p.leadRead.value != ""
  {
    var cs := Checkpoints(proxied, p);
    var k := FirstFailure(cs);
    if k < |cs| {
      assert StageFailure(cs[k].0, cs[k].1.failure).status != Success;
    }
  }

  /** Lead-id threading: a lead id is returned only once it has been read
      non-empty, and then exactly when the click failed, the final wait
      raised a non-Playwright error, or the attempt succeeded. */
  lemma LeadIdThreading(proxied: bool, p: Page)
    ensures Outcome(proxied, p).leadId.Some? <==>
              ConsentReached(proxied, p) && p.leadRead.LeadValue? && p.leadRead.value != "" &&
              (p.click.Fail? || p.settle.Ok? || p.settle.failure.Unexpected?)
    ensures Outcome(proxied, p).leadId.Some? ==>
              Outcome(proxied, p).leadId.value == p.leadRead.value
  {
    var cs := Checkpoints(proxied, p);
    var k := FirstFailure(cs);
    if k < |cs| {
      assert StageFailure(cs[k].0, cs[k].1.failure).leadId.None?;
    }
  }

  /** Only the stages that talk to the network through the proxy can blame
      it: launch, proxy verification and navigation. */
  lemma ProxyBlamedOnlyWhileConnecting(proxied: bool, p: Page)
    ensures Outcome(proxied, p).status == ProxyConnectFail ==>
              var cs := Checkpoints(proxied, p);
              var k := FirstFailure(cs);
              k < |cs| && cs[k].0 in {Launch, VerifyProxy, Navigate} && !cs[k].1.failure.Unexpected?
  {
    var cs := Checkpoints(proxied, p);
    var k := FirstFailure(cs);
    if k == |cs| {
      assert Finish(p).status != ProxyConnectFail;
    }
  }

  /** A failed launch is blamed on the proxy exactly when its text carries a
      proxy, tunnel, broken-pipe or timeout keyword; otherwise it is an
      unknown failure. */
  lemma LaunchFailureClassified(proxied: bool, p: Page)
    requires p.launch.Fail? && !p.launch.failure.Unexpected?
    ensures var t := p.launch.failure.text;
            Outcome(proxied, p).status ==
              if ProxySignature(t) || TimeoutSignature(t) then ProxyConnectFail else UnknownFail
    ensures Outcome(proxied, p).leadId.None?
  {
    assert Checkpoints(proxied, p)[0] == (Launch, p.launch);
  }

  /** With a proxy, a failed verification after a good launch is blamed on
      the proxy exactly when its text carries a proxy, tunnel, broken-pipe
      or timeout keyword; otherwise it is a navigation failure. */
  lemma VerifyFailureClassified(p: Page)
    requires p.launch.Ok? && p.verify.Fail? && !p.verify.failure.Unexpected?
    ensures var t := p.verify.failure.text;
            Outcome(true, p).status ==
              if ProxySignature(t) || TimeoutSignature(t) then ProxyConnectFail else NavigationFail
    ensures Outcome(true, p).leadId.None?
  {
    var cs := Checkpoints(true, p);
    assert cs[0] == (Launch, p.launch) && cs[1] == (VerifyProxy, p.verify);
  }

  /** A failed navigation after the earlier stages passed (the first of
      the three waits that fails, a network-idle timeout aside) is blamed on
      the proxy only for a proxy, tunnel or broken-pipe keyword; a timeout
      or anything else is a navigation failure. */
  lemma NavigateFailureClassified(proxied: bool, p: Page)
    requires p.launch.Ok? && (proxied ==> p.verify.Ok?)
    requires NavigationStep(p).Fail? && !NavigationStep(p).failure.Unexpected?
    ensures var t := NavigationStep(p).failure.text;
            Outcome(proxied, p).status == if ProxySignature(t) then ProxyConnectFail else NavigationFail
    ensures Outcome(proxied, p).leadId.None?
  {
    var cs := Checkpoints(proxied, p);
    var n := if proxied then 1 else 0;
    assert cs[0] == (Launch, p.launch) && (proxied ==> cs[1] == (VerifyProxy, p.verify));
    assert cs[1 + n] == (Navigate, NavigationStep(p));
    assert FirstFailure(cs) == 1 + n;
  }

  /** Once navigation is through, the first failure while waiting for the
      form, confirming the lead-id field, filling in or checking the consent
      box is an automation failure, or an unknown one when it is not a
      Playwright error; no lead id has been read, and the lead id is never
      read. */
  lemma FormFailureClassified(proxied: bool, p: Page)
    requires p.launch.Ok? && (proxied ==> p.verify.Ok?) && NavigationStep(p).Ok?
    requires p.formElements.Fail? || p.leadField.Fail? || p.fill.Fail? || p.consent.Fail?
    ensures var f := if p.formElements.Fail? then p.formElements.failure
                     else if p.leadField.Fail? then p.leadField.failure
                     else if p.fill.Fail? then p.fill.failure
                     else p.consent.failure;
            Outcome(proxied, p).status == if f.Unexpected? then UnknownFail else AutomationFail
    ensures Outcome(proxied, p).leadId.None?
    ensures !ConsentReached(proxied, p)
  {
    CheckpointsLayout(proxied, p);
  }

  /** After the consent box: a lead id that cannot be read, or reads empty,
      is an automation failure without a lead id (an error that is not a
      Playwright error, an unknown failure). */
  lemma LeadReadClassified(proxied: bool, p: Page)
    requires ConsentReached(proxied, p)
    ensures p.leadRead.LeadFail? ==>
              Outcome(proxied, p).status ==
                (if p.leadRead.failure.Unexpected? then UnknownFail else AutomationFail) &&
              Outcome(proxied, p).leadId.None?
    ensures p.leadRead == LeadValue("") ==>
              Outcome(proxied, p).status == AutomationFail && Outcome(proxied, p).leadId.None?
  {
  }

  /** With a lead id read, a click that times out or raises another
      Playwright error is an automation failure and any other click error an
      unknown failure, all three keeping the lead id; after a good click, a
      failed final wait is an automation failure without the lead id, or an
      unknown failure with it when the error is not a Playwright error. */
  lemma SubmitClassified(proxied: bool, p: Page)
    requires ConsentReached(proxied, p) && p.leadRead.LeadValue? && p.leadRead.value != ""
    ensures p.click.Fail? ==>
              Outcome(proxied, p).status ==
                (if p.click.failure.Unexpected? then UnknownFail else AutomationFail) &&
              Outcome(proxied, p).leadId == Some(p.leadRead.value)
    ensures p.click.Ok? && p.settle.Fail? && !p.settle.failure.Unexpected? ==>
              Outcome(proxied, p).status == AutomationFail && Outcome(proxied, p).leadId.None?
    ensures p.click.Ok? && p.settle.Fail? && p.settle.failure.Unexpected? ==>
              Outcome(proxied, p).status == UnknownFail && Outcome(proxied, p).leadId == Some(p.leadRead.value)
  {
  }

  /** Without a proxy the verification stage is skipped. */
  lemma UnproxiedSkipsVerify(p: Page, s: Step)
    ensures Outcome(false, p) == Outcome(false, p.(verify := s))
  {
    assert Checkpoints(false, p) == Checkpoints(false, p.(verify := s));
  }

  /** A network-idle timeout during navigation is not fatal. */
  lemma IdleTimeoutTolerated(proxied: bool, p: Page, t: string)
    ensures Outcome(proxied, p.(networkIdle := Fail(Timeout(t)))) == Outcome(proxied, p.(networkIdle := Ok))
  {
    assert Checkpoints(proxied, p.(networkIdle := Fail(Timeout(t)))) ==
           Checkpoints(proxied, p.(networkIdle := Ok));
  }

  /** Every outcome carries a non-empty message: each one starts with a
      fixed description of what went wrong or succeeded. */
  lemma MessageNonEmpty(proxied: bool, p: Page)
    ensures Outcome(proxied, p).message != ""
  {
    var cs := Checkpoints(proxied, p);
    var k := FirstFailure(cs);
    if k < |cs| {
      StageFailureMessage(cs[k].0, cs[k].1.failure);
    } else {
      FinishMessage(p);
    }
  }

  /** A failing stage's message starts with that stage's description. */
  lemma StageFailureMessage(s: Stage, f: Failure)
    ensures StageFailure(s, f).message != ""
  {
    assert |StageFailure(s, f).message| >= |f.text| + 10;
  }

  /** So does every message of the last three stages. */
  lemma FinishMessage(p: Page)
    ensures Finish(p).message != ""
  {
    assert |Finish(p).message| >= 10;
  }

  // ---------------------------------------------------------------------
  // The driver

  /** The stages of `submit_to_external_form_pw` up to the consent box
      (148-268): `Some` of the result of the first that fails, `None` when
      all pass. No lead id has been read yet, so a crash here carries none. */
  method RunCheckpoints(proxied: bool, page: Page) returns (failed: Option<DriverResult>)
    ensures failed.None? <==> ConsentReached(proxied, page)
    ensures failed.Some? ==> failed.value == Outcome(proxied, page)
  {
    var leadId: Option<string> := None;
    ghost var cs := Checkpoints(proxied, page);
    ghost var k := FirstFailure(cs);
    CheckpointsLayout(proxied, page);

    // Launch the browser.
    if page.launch.Fail? {
      var f := page.launch.failure;
      if f.Unexpected? {
        return Some(Crash(f.text, leadId));
      }
      if ProxySignature(f.text) || TimeoutSignature(f.text) {
        return Some(DriverResult(ProxyConnectFail, "Proxy launch failed: " + f.text, None));
      } else {
        return Some(DriverResult(UnknownFail, "Browser launch failed: " + f.text, None));
      }
    }

    // Verify the proxy.
    if proxied && page.verify.Fail? {
      var f := page.verify.failure;
      if f.Unexpected? {
        return Some(Crash(f.text, leadId));
      }
      if ProxySignature(f.text) || TimeoutSignature(f.text) {
        return Some(DriverResult(ProxyConnectFail, "Proxy verification failed: " + f.text, None));
      } else {
        return Some(DriverResult(NavigationFail, "Proxy verification navigation failed: " + f.text, None));
      }
    }

    // Navigate to the target form; a network-idle timeout is only logged.
    var navError: Option<Failure> := None;
    if page.gotoTarget.Fail? {
      navError := Some(page.gotoTarget.failure);
    } else if page.loadEvent.Fail? {
      navError := Some(page.loadEvent.failure);
    } else if page.networkIdle.Fail? && !page.networkIdle.failure.Timeout? {
      navError := Some(page.networkIdle.failure);
    }
    if navError.Some? {
      var f := navError.value;
      if f.Unexpected? {
        return Some(Crash(f.text, leadId));
      }
      if ProxySignature(f.text) {
        return Some(DriverResult(ProxyConnectFail, "Navigation via proxy failed: " + f.text, None));
      } else if TimeoutSignature(f.text) {
        return Some(DriverResult(NavigationFail, "Navigation timed out: " + f.text, None));
      } else {
        return Some(DriverResult(NavigationFail, "Navigation failed: " + f.text, None));
      }
    }

    // Wait for the essential form elements.
    if page.formElements.Fail? {
      var f := page.formElements.failure;
      if f.Unexpected? {
        return Some(Crash(f.text, leadId));
      }
      return Some(DriverResult(AutomationFail, "Page did not load required form elements: " + f.text, None));
    }

    // Confirm the lead-id field exists.
    if page.leadField.Fail? {
      var f := page.leadField.failure;
      if f.Unexpected? {
        return Some(Crash(f.text, leadId));
      }
      return Some(DriverResult(AutomationFail, "Could not find Lead ID field: " + f.text, None));
    }

    // Fill the form.
    if page.fill.Fail? {
      var f := page.fill.failure;
      if f.Unexpected? {
        return Some(Crash(f.text, leadId));
      }
      return Some(DriverResult(AutomationFail, "Failed to fill form field: " + f.text, None));
    }

    // Check the consent box.
    if page.consent.Fail? {
      var f := page.consent.failure;
      if f.Unexpected? {
        return Some(Crash(f.text, leadId));
      }
      return Some(DriverResult(AutomationFail, "Failed to check consent box: " + f.text, None));
    }
    assert k == |cs|;
    return None;
  }

  /** Reading the lead id, clicking submit and waiting for the submission
      to complete (272-344), once every earlier stage passed. */
  method SubmitLead(page: Page) returns (r: DriverResult)
    ensures r == Finish(page)
  {
    var leadId: Option<string> := None;
    // Read the lead id immediately before submitting.
    match page.leadRead {
      case LeadFail(f) =>
        if f.Unexpected? {
          return Crash(f.text, leadId);
        }
        return DriverResult(AutomationFail, "Could not extract Lead ID before submit: " + f.text, None);
      case LeadValue(v) =>
        leadId := Some(v);
        if v == "" {
          return DriverResult(AutomationFail, "Lead ID value was empty before submit.", None);
        }
    }

    // Click submit.
    if page.click.Fail? {
      match page.click.failure {
        case Timeout(t) =>
          return DriverResult(AutomationFail, "Timeout clicking submit button: " + t, leadId);
        case PlaywrightError(t) =>
          return DriverResult(AutomationFail, "Failed to click submit: " + t, leadId);
        case Unexpected(t) =>
          return DriverResult(UnknownFail, "Unexpected Submit Click error: " + t, leadId);
      }
    }

    // Wait for the submission to complete.
    if page.settle.Fail? {
      var f := page.settle.failure;
      if f.Unexpected? {
        return Crash(f.text, leadId);
      }
      return DriverResult(AutomationFail, "Submission completion wait failed: " + f.text, None);
    }

    if leadId.Some? && leadId.value != "" {
      return DriverResult(Success, "Form submitted successfully with Lead ID: " + leadId.value, leadId);
    }
    return DriverResult(Success, "Form likely submitted successfully but no lead ID found", None);
  }

  /** `submit_to_external_form_pw(prospect_data, dynamic_proxy_details)`:
      `browser` says how the remote browser behaves when launched with the
      given proxy options. */
  method SubmitToExternalForm(details: Option<Proxy.ProxyDetails>, browser: Option<Proxy.ProxyOptions> -> Page)
    returns (r: DriverResult)
    ensures r == Outcome(details.Some?, browser(Proxy.OptionsFor(details)))
  {
    var proxyOptions := Proxy.OptionsFor(details);
    var page := browser(proxyOptions);
    var failed := RunCheckpoints(proxyOptions.Some?, page);
    if failed.Some? {
      return failed.value;
    }
    r := SubmitLead(page);
  }
}
