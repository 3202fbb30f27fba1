# Form submission with proxy and nearby-zip retries

A Dafny model of the decision logic of `app.py`. This Flask application submits a
prospect (full name, phone, zip code) to a third-party web form. It drives a
headless browser through a residential proxy whose exit location is picked by the
zip code.

When the proxy cannot connect, the route searches a widening radius around the
submitted zip. It queues the nearby zips it finds and retries through a proxy tied
to each one, up to five attempts in total.

The model has seven modules, one per concern of the source:

| file | module | what it models |
|---|---|---|
| `base.dfy` | `Base` | the five status codes and the `(status, message, lead_id)` triple an attempt returns |
| `text.dfy` | `Text` | the Python string operations the logic depends on: `lower`, `in`, `strip` and decimal rendering |
| `proxy.dfy` | `Proxy` | the proxy configuration check, the per-attempt proxy identity and the browser's proxy launch option |
| `geo.dfy` | `Geo` | `get_nearby_zip_codes`: a method with the filtering loop, proved against a function of the engine's answers |
| `driver.dfy` | `Driver` | `submit_to_external_form_pw`: a method with one early return per stage, proved against a reference table |
| `form.dfy` | `Form` | the validation of the posted form |
| `orchestrator.dfy` | `Orchestrator` | the retry loop of `index()` and the route that validates and then runs it |

Inputs the model does not compute:

- **The browser.** What the remote browser does at each stage is an input `Page`, one `Step` per stage.
- **The zip database.** It is an input `ZipEngine` holding the two queries. It is `None` when the engine failed to initialise.
- **The form driver as seen by the loop.** It is an input `Call -> Reply`.
  - `Orchestrator.DriverFor` plugs the driver model in.
  - A `Crashed` reply stands for an exception caught by the loop's own `except`.

## Model

| member | source | states |
|---|---|---|
| Base.CodeInjective | app.py:51-55 | distinct statuses have distinct status-code strings, so the loop's comparisons of codes are comparisons of statuses |
| Text.Lower | app.py:178 | `lower()` keeps the length and maps each character by itself, ASCII capitals to small letters |
| Text.LowerIdempotent | app.py:178 | lower-casing an already lower-cased text changes nothing |
| Text.Contains | app.py:179 | `pat in s` holds exactly when some slice of `s` equals `pat` |
| Text.ContainsInContext | app.py:179 | a substring stays a substring whatever text is added before or after |
| Text.IsSpace | app.py:379-381 | the characters Python's `str.strip()` removes: ASCII controls 9-13 and 28-31, the space and the Unicode separators; `Text.SkipSpace`, `Text.BackSpace` and the `Strip` lemmas are stated over it |
| Text.SkipSpace | app.py:379-381 | the first non-white-space index at or after `i`; everything skipped is white space |
| Text.BackSpace | app.py:379-381 | the index just past the last non-white-space character before `j`; everything skipped is white space |
| Text.Strip | app.py:379-381 | `strip()`: the text from the first to the last character that is not white space, as `Text.StripIsSlice`, `Text.StripEnds`, `Text.StripEmptyIff` and `Text.StripIdempotent` state |
| Text.StripIsSlice | app.py:379-381 | `strip()` returns a slice of its input with only white space removed on either side |
| Text.StripEnds | app.py:379-381 | a stripped string neither starts nor ends with white space |
| Text.StripEmptyIff | app.py:379-384 | `strip()` is empty exactly when the input is nothing but white space |
| Text.StripIdempotent | app.py:379-381 | stripping twice is stripping once |
| Text.NatToString | app.py:410 | `str(n)`: a non-empty string of decimal digits that denotes exactly `n`, with no leading zero ("0" for zero) |
| Proxy.MissingSettings | app.py:38-45 | the warning lists no setting exactly when the proxy is configured; each setting is listed exactly when it is unset or empty |
| Proxy.Configured | app.py:38 | `PROXY_CONFIGURED`: all four settings are set and non-empty (its warning and its use are stated by `Proxy.MissingSettings` and `Proxy.ProxyForFields`) |
| Proxy.SessionUser | app.py:441 | the per-attempt proxy user `base;zip.<zip>`, read back by `Proxy.ZipOfSessionUser` and injective by `Proxy.SessionUserInjective` |
| Proxy.ProxyFor | app.py:437-451 | the proxy details of one attempt: none unless configured, else host, port and password copied and the session user, as `Proxy.ProxyForFields` states |
| Proxy.ZipOfSessionUser | app.py:441 | the zip can be read back from the per-attempt user name `base;zip.<zip>` |
| Proxy.SessionUserInjective | app.py:441 | different zips give different proxy user names |
| Proxy.ProxyForFields | app.py:437-451 | details exist exactly when all four settings are non-empty; host, port and password are copied, and the user name carries the attempt's zip |
| Proxy.ServerString | app.py:151 | the launch option's `http://host:port` server string, read back by `Proxy.ServerStringRoundTrip` |
| Proxy.ServerStringRoundTrip | app.py:151 | `http://host:port` names exactly that host and port when the host has no colon |
| Proxy.IndexOfPrefix | app.py:151 | the first colon of `host + ":" + port` is the separator when the host has none |
| Proxy.OptionsFor | app.py:148-154 | launch options exist exactly when proxy details were given, with their user name and password |
| Proxy.OptionsNameServer | app.py:151 | the launch option's server points at the details' host and port |
| Geo.Candidates | app.py:104-110 | the usable neighbours of the records are exactly the zips present in them other than the target |
| Geo.Collect | app.py:102-113 | the filtering loop's result as a function of the records: skip records without a zip or with the target, stop after `max_results`, as `Geo.CollectIsPrefix` and `Geo.CollectAt` state |
| Geo.SearchRecords | app.py:59-101 | the records of the coordinate search, or none on each fail-closed exit before the filtering loop; `Geo.Nearby` is defined over it and `Geo.NearbyIsPrefixOfCandidates` uses it |
| Geo.Nearby | app.py:59-125 | the lookup's reference result, with its fail-closed exits; its properties are `Geo.NearbyIsPrefixOfCandidates` and `Geo.NearbyBounds` |
| Geo.CollectIsPrefix | app.py:102-113 | the loop keeps the first `max_results` candidates in distance order, or the first one when `max_results` is not positive |
| Geo.NearbyIsPrefixOfCandidates | app.py:69-125 | the lookup is empty on every fail-closed exit, and otherwise the first `max_results` candidates of the coordinate search in order |
| Geo.NearbyBounds | app.py:59-125 | the lookup never returns the target, returns at most `max(max_results, 1)` zips, and returns only zips the coordinate search reported |
| Geo.CollectAt | app.py:104-113 | one step of the filtering loop at record `i`: skip, append and stop, or append and go on |
| Geo.NearbyZipCodes | app.py:59-125 | the method with its early returns and its filtering loop returns exactly the lookup's result |
| Driver.ClassifyLaunch | app.py:178-182 | a launch error blames the proxy on a proxy, tunnel, broken-pipe or timeout keyword, else it is an unknown failure (compared in `Driver.ClassifiersCompared`) |
| Driver.ClassifyVerify | app.py:194-198 | a verification error blames the proxy on the same keywords, else it is a navigation failure |
| Driver.ClassifyNavigate | app.py:217-223 | a navigation error blames the proxy only on a proxy, tunnel or broken-pipe keyword, else it is a navigation failure |
| Driver.ClassifiersIgnoreCase | app.py:178-223 | the classifiers give the same verdict on a text and on its lower-cased form |
| Driver.ClassifiersCompared | app.py:178-223 | launch and verification blame the proxy on the same texts; navigation blames it on exactly those texts that do not merely time out |
| Driver.ProxyKeywordAnywhere | app.py:217-219 | a proxy, tunnel or epipe keyword anywhere in a navigation error blames the proxy |
| Driver.FirstFailure | app.py:148-268 | the index of the first failing stage: every earlier stage succeeded |
| Driver.Crash | app.py:348-352 | the outer `except Exception`: `UNKNOWN_FAIL`, "Unexpected error: " and the lead id read so far (`Driver.LeadIdThreading`, `Driver.LeadReadClassified`, `Driver.SubmitClassified`) |
| Driver.StageFailure | app.py:176-270 | each stage's status and message when it is the first to fail, as `Driver.LaunchFailureClassified`, `Driver.VerifyFailureClassified`, `Driver.NavigateFailureClassified`, `Driver.FormFailureClassified` and `Driver.StageFailureMessage` state |
| Driver.Finish | app.py:272-344 | the lead-id read, the click and the final wait, as `Driver.LeadReadClassified`, `Driver.SubmitClassified`, `Driver.SuccessIff` and `Driver.FinishMessage` state |
| Driver.NavigationStep | app.py:204-213 | the navigation stage fails with the first of its three waits that fails, except a network-idle timeout (`Driver.IdleTimeoutTolerated`) |
| Driver.Outcome | app.py:148-352 | the reference outcome: the first failing stage decides, else the lead-id read, the click and the final wait; its properties are the `Driver` lemmas below |
| Driver.SuccessIff | app.py:326-344 | an attempt succeeds exactly when every stage passes and the lead id read is non-empty, and then it returns that lead id |
| Driver.LeadIdThreading | app.py:272-352 | a lead id is returned only after a non-empty read, exactly when the click failed, the final wait raised a non-Playwright error, or the attempt succeeded, and it is the id read |
| Driver.ProxyBlamedOnlyWhileConnecting | app.py:176-223 | `PROXY_CONNECT_FAIL` comes only from a Playwright failure at launch, proxy verification or navigation |
| Driver.LaunchFailureClassified | app.py:176-182 | a Playwright launch failure blames the proxy on a proxy, tunnel, broken-pipe or timeout keyword, is otherwise an unknown failure, and carries no lead id |
| Driver.VerifyFailureClassified | app.py:185-198 | with a proxy and a good launch, a Playwright verification failure blames the proxy on a proxy, tunnel, broken-pipe or timeout keyword, is otherwise a navigation failure, and carries no lead id |
| Driver.NavigateFailureClassified | app.py:201-223 | after the earlier stages passed, a Playwright failure of the first navigation wait that fails (a network-idle timeout aside) blames the proxy only on a proxy, tunnel or broken-pipe keyword, is otherwise a navigation failure, timeouts included, and carries no lead id |
| Driver.FormFailureClassified | app.py:226-270 | after navigation, the first failure among the form-element wait, the lead-id field check, the filling and the consent box is `AUTOMATION_FAIL` (`UNKNOWN_FAIL` when not a Playwright error), without a lead id, and the consent box is not passed |
| Driver.LeadReadClassified | app.py:272-286 | after the consent box, a lead id that cannot be read or reads empty is `AUTOMATION_FAIL` (`UNKNOWN_FAIL` when not a Playwright error), without a lead id |
| Driver.SubmitClassified | app.py:288-332 | with a lead id read, a click timeout or other Playwright click error is `AUTOMATION_FAIL` and any other click error `UNKNOWN_FAIL`, all keeping the lead id; a failed final wait is `AUTOMATION_FAIL` without it, or `UNKNOWN_FAIL` with it when not a Playwright error |
| Driver.UnproxiedSkipsVerify | app.py:185-198 | without a proxy the outcome does not depend on the verification stage |
| Driver.IdleTimeoutTolerated | app.py:208-213 | a network-idle timeout during navigation leads to the same outcome as a network-idle wait that succeeds |
| Driver.MessageNonEmpty | app.py:148-352 | every outcome carries a non-empty message |
| Driver.StageFailureMessage | app.py:176-270 | the message of a failing stage is never empty |
| Driver.FinishMessage | app.py:272-352 | the messages of the lead-id read, the click and the final wait are never empty |
| Driver.RunCheckpoints | app.py:148-270 | the stages up to the consent box return a result exactly when one of them fails, and then the reference outcome |
| Driver.SubmitLead | app.py:272-352 | the lead-id read, the click and the final wait return the reference outcome of those stages, whose statuses `Driver.LeadReadClassified`, `Driver.SubmitClassified` and `Driver.SuccessIff` state |
| Driver.SubmitToExternalForm | app.py:127-352 | the driver returns the reference outcome for the page the browser presents under the proxy options built from the details |
| Form.Validate | app.py:379-390 | the form check: strip the three fields, refuse a missing one, then a name without a space, else accept the stripped fields (`Form.ValidateCases`) |
| Form.ValidateCases | app.py:379-390 | a white-space-only field gives the missing-fields message; otherwise a stripped name without a space gives the full-name message; otherwise the form is accepted |
| Form.AcceptedIsStripped | app.py:379-399 | the accepted prospect's fields are already stripped |
| Form.AcceptedNameHasTwoParts | app.py:388-390 | an accepted full name has a space strictly inside it, so both parts before and after it are non-empty |
| Orchestrator.InitialMessage | app.py:410 | the default final message with `max_retries`, the verdict of a run that makes no call (`Orchestrator.Concluded`) |
| Orchestrator.NoMoreZipsMessage | app.py:422 | the fallback when the queue runs dry after `attempt` calls (`Orchestrator.DryQueueFinishes`) |
| Orchestrator.NoNeighboursMessage | app.py:425 | the attempt-0 fallback, never used since the queue starts with the submitted zip |
| Orchestrator.ExhaustedMessage | app.py:499 | the message of a proxy failure on the last attempt (`Orchestrator.DispatchCases`) |
| Orchestrator.FailedMessage | app.py:507 | the message of a non-proxy failure with the zip attempted (`Orchestrator.DispatchCases`) |
| Orchestrator.CrashMessage | app.py:514 | the message when the call raised, with the attempt's number (`Orchestrator.CrashFinishes`) |
| Orchestrator.OrElse | app.py:422 | Python's `message or fallback`: the message unless it is empty (`Orchestrator.DryQueueFinishes`, `Orchestrator.DryQueueKeepsMessage`) |
| Orchestrator.Fresh | app.py:478-483 | the zips the enqueue loop appends: the nearby zips neither tried nor queued nor appended before, in order (`Orchestrator.FreshProperties`) |
| Orchestrator.FreshProperties | app.py:478-483 | appended zips come from the search, were neither tried nor queued, and appear once; every searched zip ends up tried, queued or appended |
| Orchestrator.FreshExclusion | app.py:481 | what is appended depends only on which zips are tried or queued, not on how they are split between the two |
| Orchestrator.FreshAppend | app.py:478-483 | enqueuing the fresh zips of one list and then of another appends the fresh zips of their concatenation |
| Orchestrator.EnqueueNearby | app.py:478-483 | the enqueue loop appends exactly the fresh nearby zips in order |
| Orchestrator.AllFoundSnoc | app.py:477-482 | one more search adds exactly its returned zips to those found so far |
| Orchestrator.AllFoundFrom | app.py:477-482 | a zip found so far was returned by one particular search |
| Orchestrator.AttemptedSnoc | app.py:433 | a new call adds exactly its zip to the tried set |
| Orchestrator.AttemptedZips | app.py:428-433 | the tried set holds exactly the first call's zip and the zips of the later calls |
| Orchestrator.CallsFromMoreSearches | app.py:477-482 | a later search does not change what the earlier searches returned, so each call still follows the searches before it |
| Orchestrator.OrderAfterCall | app.py:428-433 | calling the zip popped from the front of the queue keeps the first-in, first-out order of calls and queue |
| Orchestrator.OrderAfterSearch | app.py:477-483 | appending the fresh zips of one more search keeps that order: the later calls and the queue are the fresh zips of all searches in the order found |
| Orchestrator.OrderIsPrefix | app.py:428-483 | the zips called after the first are a prefix of the fresh zips of all searches in the order found |
| Orchestrator.CallAppended | app.py:428-456 | calling the zip at the front of the queue keeps the calls well formed, with no zip tried twice and each after the searches that found it, and keeps the queue and coverage invariants |
| Orchestrator.Widen | app.py:473-491 | a search around the submitted zip at the current radius; its fresh zips are queued, the radius grows by five, and the queue and coverage invariants are kept |
| Orchestrator.Dispatch | app.py:463-509 | the status check after a call: the final message when the loop stops there, none when it goes on to a search (`Orchestrator.DispatchCases`) |
| Orchestrator.DispatchCases | app.py:463-509 | only a proxy failure with attempts left and a zip database goes on; otherwise the message is the success message, the exhaustion message, the engine-failure message or the call's message with the zip |
| Orchestrator.Concluded | app.py:414-517 | the verdict at each exit of the loop by how the last call ended: none, raised, stopped by the status check, or followed by a search and a dry queue; part of `Orchestrator.RetryLoop`'s postcondition |
| Orchestrator.Start | app.py:404-411 | the loop's initial variables: the queue holds only the submitted zip, nothing tried, radius 5, the default message; the first case of `Orchestrator.Inv` |
| Orchestrator.DryQueueFinishes | app.py:417-426 | an empty queue only happens after a search, and it ends the run keeping the last call's message unless it is empty (the `or` at 422) |
| Orchestrator.CallKeeps | app.py:428-456 | the zip at the front of the queue was never tried, and calling it extends the calls consistently and in first-in, first-out order |
| Orchestrator.CalledFinishes | app.py:414-517 | a run that stops right after a call is finished once its verdict is the concluded one |
| Orchestrator.CrashFinishes | app.py:511-517 | a call that raised ends the run with `UNKNOWN_FAIL`, the attempt number and the lead id of the call before it |
| Orchestrator.StopFinishes | app.py:463-509 | a status check that stops the loop ends the run with that call's status and lead id and the chosen message |
| Orchestrator.ContinueKeeps | app.py:469-491 | a proxy failure with attempts left goes on to the next iteration with the loop invariant restored |
| Orchestrator.Iterate | app.py:417-517 | one pass of the loop body either finishes the run or restores the loop invariant for the next attempt |
| Orchestrator.RetryLoop | app.py:403-517 | at most `max_retries` calls, the first for the submitted zip; every later call is for a zip an earlier search returned, the retries come in the order the searches returned them, and no zip is tried twice; only a proxy failure leads to another call; the searches are centred on the submitted zip at radii 5, 10, 15, ...; the verdict follows the last call |
| Orchestrator.SearchesFollowProxyFailures | app.py:469-477 | every nearby search follows a proxy failure on a call with attempts left, and needs a zip database |
| Orchestrator.RetriesComeFromLookups | app.py:477-482 | the retry of iteration `i` is for a zip the nearby lookup returned for the submitted zip at one of the first `i` radii, so before that call |
| Orchestrator.DryQueueTriedEverything | app.py:417-426 | when the queue runs dry, every zip any search returned has been tried |
| Orchestrator.ProxyUsersDistinct | app.py:437-447 | with a proxy configured, every call carries proxy details, and no two calls of a run share a proxy user |
| Orchestrator.RetriesFollowConnectionFailures | app.py:176-223 | with the driver model in the loop, a retry only follows a Playwright failure at launch, proxy verification or navigation |
| Orchestrator.DryQueueKeepsMessage | app.py:417-426 | with the driver model in the loop, an empty-queue stop reports `PROXY_CONNECT_FAIL` and the last call's own message, since the `or` fallback cannot be taken |
| Orchestrator.Index | app.py:373-517 | a rejected form gets the validation message and makes no call; an accepted one runs the retry loop on the stripped zip with `max_retries` = 5 |

## Left out

- Flask routing, `render_template`, the `flash` calls, logging, `load_dotenv`, environment reads and `app.run`. They are I/O. The route returns the verdict instead of flashing it.
- The Playwright calls themselves, screenshots and the `finally` close calls (354-367). The browser is an input that reports, per stage, success, a timeout, another Playwright error or an unexpected exception.
- The uszipcode `SearchEngine`, its initialisation and its distance computation. These are floating point and an external dataset. The engine is an input whose coordinate query returns records already in distance order.
- `exact_proxy.py`: a manual test script with no logic. It is not part of this model.
- Text.Lower: maps only ASCII capitals, while Python's `str.lower()` also lower-cases other scripts. The classifier keywords are plain ASCII, so this matters only for error texts with non-ASCII capitals.
- The prospect data handed to the driver. The loop's driver input sees the zip, the proxy details and the attempt number of each call, and a browser closure can capture the fixed prospect.
- Orchestrator.RetryLoop: exceptions are modelled only as the driver raising (`Crashed`), not as other loop code raising after the call returned (`flash`, logging). The nearby-zip search catches its own exceptions.

## Unreachable branches

The model keeps these branches of the source; its invariants and contracts show they are never taken:

- The already-tried skip (429-431) is never reached: the queue never holds a tried zip.
- The attempt-0 empty-queue fallback (423-425) is never reached: the queue starts with the submitted zip.
- The "no lead ID found" success (342-344) is never reached: the lead id is non-empty by then.
