# AI campaign prototype: state logic in Dafny

This project models the state logic of a client-side prototype for composing
and reviewing SMS marketing campaigns aimed at tiered VIP customers. It covers three
components:

- **The campaign creation wizard** (`wizard.dfy`, module `CampaignWizard`).
  It holds a fourteen-field campaign draft and a step counter from 1 to 6.
  Leaving step 3 starts a simulated three-phase AI generation, which ends on step 4.
  It also has a launch flag and a toggled list of AI features.
  The component is the class `Wizard`, with one method per event handler and one per
  `setTimeout` callback. The reach table, the generation-badge classification and the
  feature toggle are pure functions.
- **The customer review step** (`review.dfy`, module `CustomerReview`).
  It holds a list of customers with their generated SMS and supports an
  edit / save / cancel protocol and deletion by id. It also shows a tier badge class,
  avatar initials and recipient counts. The component is the class `ReviewList`.
  Its `map` and `filter` updates are pure functions with their properties proved.
- **The campaign dashboard** (`dashboard.dfy`, module `CampaignDashboard`).
  It is a read-only projection of a fixed campaign list: counters, three status views
  and status styles. It has no setter, so it is pure functions and lemmas only.

`lists.dfy` (module `Lists`) holds two shared predicates: order-preserving
subsequence and duplicate-freedom.

Timers are modelled by their order only. Each scheduled callback is recorded in the
wizard's state: `pending` holds the generation callback and `launchTimers` counts the
launch callbacks. An event method can run only while its callback is scheduled. The
generation callbacks capture `currentStep` when generation starts. The third callback
advances from that captured value, and the model keeps it as `PendingTimer.capturedStep`.

## Model

| member | source | states |
|---|---|---|
| `CampaignWizard.InitialDraft` | components/campaign-creation-form.tsx:46-61 | the draft starts with schedule type "immediate", time zone "UTC", recurrence off and every other field empty |
| `CampaignWizard.Set` | components/campaign-creation-form.tsx:71-73 | the updated field holds the new value and every other draft field keeps its old value; no validation |
| `CampaignWizard.SetSameValue` | components/campaign-creation-form.tsx:71-73 | writing back a field's current value leaves the draft unchanged |
| `CampaignWizard.SetTwice` | components/campaign-creation-form.tsx:71-73 | a second write to the same field overrides the first |
| `CampaignWizard.SetCommutes` | components/campaign-creation-form.tsx:71-73 | writes to two different fields can be done in either order |
| `CampaignWizard.Wizard.constructor` | components/campaign-creation-form.tsx:46-69 | the mount state: default draft (schedule "immediate", timezone "UTC", not recurring), step 1, not generating, no phase complete, not launching, no feature selected, no timer pending |
| `CampaignWizard.Wizard.HandleInputChange` | components/campaign-creation-form.tsx:71-73 | exactly one draft field is overwritten and no other state changes; the wizard invariant is kept |
| `CampaignWizard.Wizard.NextStep` | components/campaign-creation-form.tsx:75-81 | from step 3: the step stays 3 and generation starts (phase 1 scheduled, nothing complete); from steps 1, 2, 4 and 5: the step goes up by one; from step 6: no change; the step stays in 1..6 |
| `CampaignWizard.Wizard.HandleAIGeneration` | components/campaign-creation-form.tsx:83-88 | generation starts with an empty completed list, phase 1 running and the first callback scheduled with captured step 3 |
| `CampaignWizard.Wizard.CompletePhase1` | components/campaign-creation-form.tsx:88-92 | 1 is appended, so the completed list is [1]; phase 2 runs and its callback is scheduled |
| `CampaignWizard.Wizard.CompletePhase2` | components/campaign-creation-form.tsx:93-96 | 2 is appended, so the completed list is [1, 2]; phase 3 runs and its callback is scheduled |
| `CampaignWizard.Wizard.CompletePhase3` | components/campaign-creation-form.tsx:98-103 | 3 is appended, so the completed list is [1, 2, 3]; generation stops, the phase is reset to 0, and the step becomes the captured step plus one, which is 4 |
| `CampaignWizard.Wizard.PrevStep` | components/campaign-creation-form.tsx:109-113 | from a step above 1 the step goes down by one; at step 1 nothing changes; the step stays in 1..6 |
| `CampaignWizard.Wizard.HandleLaunchCampaign` | components/campaign-creation-form.tsx:115-118 | the launching flag is set and one more launch callback is scheduled |
| `CampaignWizard.Wizard.CompleteLaunch` | components/campaign-creation-form.tsx:118-122 | the launch callback clears the launching flag and leaves everything else alone |
| `CampaignWizard.Wizard.ToggleFeature` | components/campaign-creation-form.tsx:302-304 | the selection becomes the toggled list and stays duplicate-free |
| `CampaignWizard.Wizard.PreviousEnabled` | components/campaign-creation-form.tsx:738 | Previous can be pressed exactly when the step is above 1 and neither generation nor launch runs |
| `CampaignWizard.Wizard.NextEnabled` | components/campaign-creation-form.tsx:742-743 | Next is shown exactly when the step is below the last one, and can be pressed exactly when no generation runs |
| `CampaignWizard.Wizard.LaunchEnabled` | components/campaign-creation-form.tsx:742-756 | the launch button is shown on the last step (the other branch of the same condition), and can be pressed exactly when no launch runs |
| `CampaignWizard.Wizard.ButtonsLockedWhileBusy` | components/campaign-creation-form.tsx:738-756 | while generating, Previous and Next are disabled; while launching, Previous and the launch button are disabled; an enabled Next never finds a generation callback pending; an enabled Previous always moves back |
| `CampaignWizard.Badge` | components/campaign-creation-form.tsx:135-152 | Processing when generation runs and the step is the running phase, otherwise Ready when the step is a completed phase, otherwise Ready to Run |
| `CampaignWizard.EstimatedReach` | components/campaign-creation-form.tsx:125-133 | 450, 1200, 2100 and 3750 exactly for "platinum", "gold", "silver" and "all-vip"; 0 exactly for every other value |
| `CampaignWizard.ReachDependsOnSegmentOnly` | components/campaign-creation-form.tsx:125-133 | editing any field other than the VIP segment leaves the reach unchanged; the initial draft (segment "") has reach 0 |
| `CampaignWizard.BadgesDuringGeneration` | components/campaign-creation-form.tsx:135-152 | while phase k runs (phases before k complete), badge k is Processing, badges 1..k-1 are Ready and all others are Ready to Run |
| `CampaignWizard.BadgesWhenIdle` | components/campaign-creation-form.tsx:135-152 | when no generation runs, every badge is Ready to Run before the first generation, and badges 1..3 are Ready after one has finished |
| `CampaignWizard.Without` | components/campaign-creation-form.tsx:303 | every occurrence of the removed feature is gone, every other feature keeps all its occurrences (same multiset minus that feature), and the result keeps the original order |
| `CampaignWizard.Toggle` | components/campaign-creation-form.tsx:302-304 | clicking a selected feature removes all its occurrences and keeps every other one; clicking an unselected feature appends it at the end |
| `CampaignWizard.ToggleFlipsOne` | components/campaign-creation-form.tsx:303 | toggling flips the membership of the clicked feature and of no other |
| `CampaignWizard.ToggleTwiceFromAbsent` | components/campaign-creation-form.tsx:303 | selecting an unselected feature and toggling it again restores the exact list |
| `CampaignWizard.ToggleTwiceFromPresent` | components/campaign-creation-form.tsx:303 | toggling a selected feature twice keeps the same selection (same multiset) with that feature moved to the end |
| `CampaignWizard.ToggleNoDup` | components/campaign-creation-form.tsx:303 | a duplicate-free selection stays duplicate-free |
| `CustomerReview.WithMessage` | components/customer-review-step.tsx:78-80 | same length and order; every customer with the id gets the new message with all other fields kept; every other customer is unchanged; the message is not checked |
| `CustomerReview.SaveAbsentId` | components/customer-review-step.tsx:78-80 | saving under an id no customer has leaves the list unchanged |
| `CustomerReview.SaveKeepsUniqueIds` | components/customer-review-step.tsx:78-84 | saving a message keeps the ids of the list unique, since it changes no id |
| `CustomerReview.EditThenSaveUnchanged` | components/customer-review-step.tsx:73-80 | opening the editor on a listed customer and saving without typing leaves a list with unique ids unchanged |
| `CustomerReview.WithoutId` | components/customer-review-step.tsx:91-93 | a customer is kept if and only if it has another id; the result is an order-preserving subsequence; the length drops by the number of customers with that id |
| `CustomerReview.DeleteAbsentId` | components/customer-review-step.tsx:91-93 | deleting an id no customer has leaves the list unchanged |
| `CustomerReview.DeleteIdempotent` | components/customer-review-step.tsx:91-93 | deleting the same id twice equals deleting it once |
| `CustomerReview.DeleteKeepsUniqueIds` | components/customer-review-step.tsx:91-93 | deleting keeps a list with unique ids unique |
| `CustomerReview.PlatinumCount` | components/customer-review-step.tsx:123-129 | the Platinum count is at most the total recipients; it equals the total exactly when all are Platinum, and is 0 exactly when none is |
| `CustomerReview.SaveKeepsPlatinumCount` | components/customer-review-step.tsx:78-80 | saving a message never changes the Platinum count |
| `CustomerReview.DeletePlatinumCount` | components/customer-review-step.tsx:91-93 | deleting never raises the Platinum count and lowers it by at most the number of customers with that id |
| `CustomerReview.TierColor` | components/customer-review-step.tsx:95-106 | Platinum, Gold and Silver map to three distinct classes, and each class is produced by exactly that tier; every other tier maps to the default blue class |
| `CustomerReview.InitialsAreWordStarts` | components/customer-review-step.tsx:158-161 | the initials equal the non-space characters at the start of the name or right after a space; an empty part adds nothing; there are never more initials than characters, and no initial is a space |
| `CustomerReview.FirstLettersAreWordStarts` | components/customer-review-step.tsx:158-161 | the first letters of the parts after the first are the word starts that follow a space; those of all parts are all word starts |
| `CustomerReview.SplitOnSpace` | components/customer-review-step.tsx:158-159 | splitting on a space yields at least one part, no part holds a space, and joining the parts with a space gives the name back |
| `CustomerReview.FirstLetters` | components/customer-review-step.tsx:160-161 | the first character of each part, with an empty part adding nothing, so there are at most as many letters as parts |
| `CustomerReview.Initials` | components/customer-review-step.tsx:158-161 | the avatar fallback: the first letters of the name's space-separated parts (characterised by `CustomerReview.InitialsAreWordStarts`) |
| `CustomerReview.MockCustomers` | components/customer-review-step.tsx:24-62 | the four seeded customers with their ids, names, phones, tiers, last purchases and generated messages, none with an avatar |
| `CustomerReview.MockCustomersFacts` | components/customer-review-step.tsx:24-62 | the seeded list has four customers with unique ids, two of them Platinum |
| `CustomerReview.ReviewList.constructor` | components/customer-review-step.tsx:69-71 | the step starts with the seeded customers, whose ids are unique, no customer in the editor and an empty editor text |
| `CustomerReview.ReviewList.HandleEdit` | components/customer-review-step.tsx:73-76 | the editor opens on the customer's id with the customer's message; the list is unchanged |
| `CustomerReview.ReviewList.EditMessage` | components/customer-review-step.tsx:181-184 | typing replaces the editor text only |
| `CustomerReview.ReviewList.HandleSaveEdit` | components/customer-review-step.tsx:78-84 | the list becomes the save update with the editor text and its ids stay unique; the editor closes and its text is cleared |
| `CustomerReview.ReviewList.HandleCancelEdit` | components/customer-review-step.tsx:86-89 | the editor closes and its text is cleared; the list is unchanged |
| `CustomerReview.ReviewList.HandleDelete` | components/customer-review-step.tsx:91-93 | the list becomes the delete update for the id and its ids stay unique; the editor state is unchanged |
| `CustomerReview.ReviewList.TotalRecipients` | components/customer-review-step.tsx:123 | the "Total Recipients" figure is the length of the current list |
| `CustomerReview.ReviewList.PlatinumMembers` | components/customer-review-step.tsx:126-129 | the displayed Platinum figure is at most the displayed total |
| `CampaignDashboard.StatusColor` | components/campaign-dashboard.tsx:69-82 | active, scheduled and paused each have their own colour; completed and every unknown status share "bg-gray-500" |
| `CampaignDashboard.StatusVariant` | components/campaign-dashboard.tsx:84-97 | active, scheduled and paused each have their own variant; completed and every unknown status share "outline" |
| `CampaignDashboard.WithStatus` | components/campaign-dashboard.tsx:166-167 | a campaign is in the view if and only if it is in the list with that status; the view is a subsequence of the list whose length is the number of campaigns with that status, so it keeps every such campaign as often as it occurs and in list order |
| `CampaignDashboard.ActiveView` | components/campaign-dashboard.tsx:166-167 | the Active tab lists the campaigns whose status is "active", in list order |
| `CampaignDashboard.ScheduledView` | components/campaign-dashboard.tsx:246-247 | the Scheduled tab lists the campaigns whose status is "scheduled", in list order |
| `CampaignDashboard.CompletedView` | components/campaign-dashboard.tsx:307-308 | the Completed tab lists the campaigns whose status is "completed", in list order |
| `CampaignDashboard.TotalCampaigns` | components/campaign-dashboard.tsx:102 | the "Total Campaigns" counter is the length of the list |
| `CampaignDashboard.Remaining` | components/campaign-dashboard.tsx:233 | the "Remaining" figure of an active campaign is its target count minus its sent count |
| `CampaignDashboard.ActiveCampaigns` | components/campaign-dashboard.tsx:103 | the active count is at most the total and is 0 exactly when no campaign is active |
| `CampaignDashboard.TotalSent` | components/campaign-dashboard.tsx:104 | the sum of sent counts is non-negative when every count is, and at most the sum of targets when no campaign overshoots |
| `CampaignDashboard.ViewsDisjoint` | components/campaign-dashboard.tsx:164-310 | the active, scheduled and completed views are pairwise disjoint; a paused or unknown-status campaign is in none of them |
| `CampaignDashboard.ViewSizesPartition` | components/campaign-dashboard.tsx:102-104 | the sizes of the three views plus the number of campaigns no tab shows add up to the total count |
| `CampaignDashboard.ViewTotalsPartition` | components/campaign-dashboard.tsx:102-104 | the sent counts of the three views plus those of the campaigns no tab shows add up to the total sent |
| `CampaignDashboard.TotalSentByView` | components/campaign-dashboard.tsx:104 | when every status is active, scheduled or completed, the total sent is the sum over the three views and their sizes add up to the total |
| `CampaignDashboard.RemainingNonNegative` | components/campaign-dashboard.tsx:233 | with consistent counts, the remaining figure target − sent of an active campaign is between 0 and the target |
| `CampaignDashboard.MockCampaigns` | components/campaign-dashboard.tsx:24-67 | the three fixed campaigns (one active, one scheduled, one completed) with their counts and dates |
| `CampaignDashboard.MockCampaignsFacts` | components/campaign-dashboard.tsx:24-104 | every fixed campaign has delivered ≤ sent ≤ target; the session-long counters are 3 campaigns, 1 active and 4390 sent |

## Left out

- Rendering, styling, icons and the UI component library are presentational and are not part of this model.
  The same goes for the routing shell in app/page.tsx.
- Timer durations (1500, 1500, 1000 and 2000 ms) are left out; only the order of the callbacks is modelled.
- The blocking `alert` after a launch is I/O and is not modelled.
- A callback that fires after the component has unmounted is not modelled.
- `CampaignWizard.Wizard.NextStep` requires that no generation runs, because the Next button is disabled then (line 743).
  If the handler were called during generation, a second callback chain would interleave with the first.
  The model does not represent two chains at once.
- `CampaignWizard.Wizard.ToggleFeature`: the badges only offer five fixed feature names, but any string is accepted here.
- `CampaignWizard.EstimatedReach` does not model JavaScript property lookup on keys inherited from `Object.prototype`.
  For example, "constructor" would yield a function rather than 0. The segment only ever comes from the select's four values or the initial "".
- Floating-point values are not modelled:
  - the average open rate and its `toFixed` formatting;
  - the progress percentage with `Math.round` (it has no guard against a zero target);
  - the average message length, which divides by zero on an empty list.
- Dates from the wall clock (`new Date().toISOString()`, `toLocaleString`) are not modelled.
- The hard-coded sample messages and impact figures on step 6 are not modelled.
- The fixed "6,850" VIP-customer figure is not modelled.
- The confirmation dialog's text is not modelled. It is a string built from the reach figure and the schedule fields.
- Counters are unbounded integers. JavaScript numbers are exact for these magnitudes.
- `CustomerReview.Customer` keeps a single `lastPurchase` field. The third mock customer declares that key twice with the same value.
- The review step's `campaignData` property is never read by its code and is not modelled.
- `CustomerReview.ReviewList.constructor` runs each time the wizard enters step 4, because the review step is mounted only while the current step is 4 (components/campaign-creation-form.tsx:384).
  Saves and deletes are lost when the wizard leaves step 4, and the seeded list returns when it comes back. The model does not link `CustomerReview.ReviewList` to `CampaignWizard.Wizard`.
- `CustomerReview.Initials`: JavaScript's `n[0]` returns the first UTF-16 code unit, but a Dafny `char` is a whole Unicode scalar value.
  For a part that starts with a character outside the Basic Multilingual Plane (an emoji, say), the source yields a lone surrogate and the model the whole character.
  The four seeded names are plain ASCII and never reach this case.
- `CustomerReview.MockCustomers`: the generated SMS texts are kept with the mis-encoded emoji characters that the source file contains.
