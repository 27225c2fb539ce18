# Pet Connect front end, modelled in Dafny

This project models the decision logic of the Pet Connect practitioner app,
a React front end over a hosted database. Every piece of logic is a pure
Dafny function over immutable datatypes. The modelled parts are:

- **The onboarding wizard.** This is a step cursor over five steps, a
  merge-update on a partial profile record, the per-step completion
  predicates and the skip rule. It includes the final submission, which
  re-validates the record and builds the profile payload, the first-service
  row and the certification rows. It also includes the list and map edits
  the step screens make: contact flags, tag toggles, availability slots,
  certifications, services, portfolio images and social links.
- **The booking view-model pipeline.** Raw joined rows are mapped to
  `BookingData` with fallback defaults and keyword classification of the
  service title. The list is filtered by tab, search text and structured
  filters, then stably sorted. The tab counts are taken over the unfiltered
  list. The per-tab helpers are modelled too:
  - pending payments: urgency, "time ago", unread count, card expansion;
  - session history: order, stars, export lines;
  - the session-notes editor;
  - the message dialog;
  - the receipt zoom.
- **Authentication and gating.** This covers:
  - the profile-completeness predicate;
  - the two route guards and the route table;
  - the sign-up and sign-in validators and their error-message mappings;
  - e-mail normalisation;
  - the `updateProfile` guard.
- **Inquiries and the profile section.** This covers:
  - the inquiry list: row mapping, tabs, counts and the accept refresh;
  - the chat screen;
  - the headers' titles and back navigation;
  - the profile overview: avatar, colour classes, tag labels, contact list
    and certification preview;
  - the media page and the settings page.

Modules follow the source files, one module per component or hook. A few
modules are shared helpers:

| module | what it models |
|---|---|
| `Wrappers` | `Option` and `Result` |
| `Text` | JavaScript string operations on `seq<char>`, with ASCII-only case mapping (narrower than JavaScript's Unicode mapping, see Left out) and JavaScript's white-space set |
| `Seqs` | filter, count, remove-at-index and toggles |
| `Dict` | a JavaScript object as an insertion-ordered association list |
| `StableSort` | `Array.prototype.sort` with a numeric comparator, as a stable insertion sort |
| `Elapsed` | the whole-hour arithmetic of the "time ago" labels |

Some inputs are parameters, because they come from outside the code:

- The clock is `now`, in milliseconds.
- Date parsing is `parse: string -> int`.
- `localeCompare` collation is a ranking `collate: string -> real`.
- The URL parser is a predicate `parses`.
- Generated ids and object URLs are plain strings.
- Backend calls are their possible outcomes.

## Model

| member | source | states |
|---|---|---|
| Onboarding.WithFlag | src/components/onboarding/steps/ContactPreferencesStep.tsx:17-20 | Setting one contact flag changes that flag only; the other four keep their values. |
| Onboarding.AnyContactIffSomeFlag | src/contexts/OnboardingContext.tsx:157-170 | "Some contact method is on" holds exactly when one of the five flags is true. |
| Onboarding.UpdateEmpty | src/contexts/OnboardingContext.tsx:112-114 | Merging an empty partial record leaves the onboarding record unchanged. |
| Onboarding.UpdateIdempotent | src/contexts/OnboardingContext.tsx:112-114 | Applying the same partial record twice equals applying it once. |
| Onboarding.UpdateCompose | src/contexts/OnboardingContext.tsx:112-114 | Two merges in a row equal one merge of the combined patch, in which the later keys win. |
| Onboarding.UpdateFull | src/contexts/OnboardingContext.tsx:112-114 | A patch that carries every field replaces the whole record. |
| Onboarding.UpdateOneField | src/contexts/OnboardingContext.tsx:112-114 | A patch with a single key overwrites exactly that field; every other field is unchanged. |
| Onboarding.NextStep | src/contexts/OnboardingContext.tsx:116-120 | Advances the cursor by one below step 5 and is a no-op at 5. It keeps the cursor in 1..5 and never touches the data. |
| Onboarding.PrevStep | src/contexts/OnboardingContext.tsx:122-126 | Moves back by one above step 1 and is a no-op at 1. It keeps the cursor in 1..5 and never touches the data. |
| Onboarding.GoToStep | src/contexts/OnboardingContext.tsx:128-132 | The cursor becomes n exactly when n is in 1..5; otherwise nothing changes. |
| Onboarding.SkipStep | src/contexts/OnboardingContext.tsx:134-138 | Only step 3 is skippable: from 3 the cursor goes to 4, and from any other step nothing changes. |
| Onboarding.CompleteOnboarding | src/contexts/OnboardingContext.tsx:140-145 | Resets the record to the initial data and keeps the current step. |
| Onboarding.IsStepComplete | src/contexts/OnboardingContext.tsx:147-173 | Only steps 1..5 can be complete. Step 1 holds iff a role is chosen and the terms are accepted. Step 2 holds iff the display name and location are non-empty, untrimmed, and an experience level is chosen. Step 3 holds iff both tag lists are non-empty. Step 4 holds iff a first service is present. Step 5 holds iff some contact flag is on and, when phone or WhatsApp is on, the trimmed phone number is non-empty. |
| Onboarding.BlankDisplayNameCompletesStep2 | src/contexts/OnboardingContext.tsx:151-152 | A display name of two spaces completes step 2, because step 2 does not trim. |
| Onboarding.InitialDataIncomplete | src/contexts/OnboardingContext.tsx:74-103 | On the initial record no step is complete. |
| Onboarding.Step5Examples | src/contexts/OnboardingContext.tsx:157-170 | With only phone enabled, "" and "   " fail step 5 and "555-0100" passes. |
| Onboarding.RunKeepsStepValid | src/contexts/OnboardingContext.tsx:116-138 | Under any sequence of context operations the cursor stays within 1..5. |
| OnboardingFlow.BuildProfileUpdates | src/components/onboarding/OnboardingFlow.tsx:89-98 | The payload copies role, location and choices. The display name falls back to the metadata full name, then "". The level falls back to beginner. The phone falls back to "". |
| OnboardingFlow.HandleNext | src/components/onboarding/OnboardingFlow.tsx:44-172 | Before the last step it only advances. On the last step it aborts on a missing required field, on no contact method or on a needed phone number that is empty. It submits the built payload exactly when all three checks pass. |
| OnboardingFlow.SubmittedPayloadHasNoFallbacks | src/components/onboarding/OnboardingFlow.tsx:60-98 | Once the checks pass, the payload carries the record's own display name, location and level. |
| OnboardingFlow.BlankPhonePassesFlowCheck | src/components/onboarding/OnboardingFlow.tsx:71-75 | A whitespace-only phone number passes the untrimmed submit check, although the step-5 predicate rejects it. |
| OnboardingFlow.StepCompleteImpliesContactChecks | src/components/onboarding/OnboardingFlow.tsx:65-75 | Whenever step 5 is complete, the flow's contact and phone checks pass. |
| OnboardingFlow.HandlePrev | src/components/onboarding/OnboardingFlow.tsx:174-178 | Going back from the flow is exactly the context's previous-step operation. |
| OnboardingFlow.CertRowOf | src/components/onboarding/OnboardingFlow.tsx:136-143 | A certification row copies name, issuer and date and is unverified. Its image is null exactly when the image URL is empty. |
| OnboardingFlow.CertRows | src/components/onboarding/OnboardingFlow.tsx:136-143 | There is one row per certification, in order. |
| OnboardingFlow.Finish | src/components/onboarding/OnboardingFlow.tsx:100-168 | Always ends on /dashboard. A failed profile save keeps the wizard and writes no rows. A successful save resets the wizard, inserts the first service iff it has a title, and inserts one certification row per certification. |
| ContactPreferencesStep.ToggleContactMethod | src/components/onboarding/steps/ContactPreferencesStep.tsx:16-23 | Flips exactly the chosen flag and changes no other field of the record. |
| ContactPreferencesStep.ToggleContactMethodTwice | src/components/onboarding/steps/ContactPreferencesStep.tsx:16-23 | Toggling the same method twice restores the record. |
| ContactPreferencesStep.ChangePhoneNumber | src/components/onboarding/steps/ContactPreferencesStep.tsx:25-29 | Stores the raw, untrimmed number and nothing else. |
| ContactPreferencesStep.SelectedCount | src/components/onboarding/steps/ContactPreferencesStep.tsx:91 | The count of enabled methods is in 0..5. It is 0 iff none is on and 5 iff all are on. |
| ContactPreferencesStep.ToggleChangesCountByOne | src/components/onboarding/steps/ContactPreferencesStep.tsx:16-23 | A toggle raises or lowers the selected count by exactly one. |
| ContactPreferencesStep.PhoneFieldIffNeeded | src/components/onboarding/steps/ContactPreferencesStep.tsx:92 | The phone field shows exactly when phone or WhatsApp is on, which is when the number is required. |
| ContactPreferencesStep.InitialSelection | src/components/onboarding/steps/ContactPreferencesStep.tsx:7-13 | The step starts with nothing selected and no phone field. |
| ServiceSpecializationStep.ToggleAnimalType | src/components/onboarding/steps/ServiceSpecializationStep.tsx:10-17 | After the toggle the tag is a member iff it was not before. Other tags keep their membership and other fields are unchanged. |
| ServiceSpecializationStep.ToggleServiceCategory | src/components/onboarding/steps/ServiceSpecializationStep.tsx:19-26 | The same membership flip for service categories, touching only that list. |
| ServiceSpecializationStep.ToggleAnimalTypeKeepsOrder | src/components/onboarding/steps/ServiceSpecializationStep.tsx:10-17 | Other tags keep their relative order, and a duplicate-free list stays duplicate-free. |
| ServiceSpecializationStep.ToggleServiceCategoryKeepsOrder | src/components/onboarding/steps/ServiceSpecializationStep.tsx:19-26 | The same order and duplicate-freedom guarantees for categories. |
| ServiceSpecializationStep.ToggleAnimalTypeTwice | src/components/onboarding/steps/ServiceSpecializationStep.tsx:10-26 | Toggling an absent tag twice restores the list exactly. Toggling a present unique tag twice keeps the set but moves the tag to the end. |
| AvailabilityStep.ToggleTimeSlot | src/components/onboarding/steps/AvailabilityStep.tsx:19-32 | Flips one slot on one day; the other slots of that day and every other day are unchanged. |
| AvailabilityStep.ToggleAllDay | src/components/onboarding/steps/AvailabilityStep.tsx:34-45 | A full day becomes empty; any other day becomes all twelve slots in canonical order. Other days are unchanged. |
| AvailabilityStep.ToggleAllDayTwice | src/components/onboarding/steps/AvailabilityStep.tsx:34-45 | From a partial day two presses give full and then empty; from a full day, empty and then full. |
| AvailabilityStep.TotalSlotsSet | src/components/onboarding/steps/AvailabilityStep.tsx:47-49 | Replacing one day's list changes the total by the difference in that day's length. |
| AvailabilityStep.ToggleTimeSlotTotal | src/components/onboarding/steps/AvailabilityStep.tsx:19-49 | On a duplicate-free day, a slot toggle moves the total by exactly one. |
| AvailabilityStep.ToggleTimeSlotStep | src/components/onboarding/steps/AvailabilityStep.tsx:19-32 | The slot toggle writes its result to the record's availability and nothing else. |
| AvailabilityStep.ToggleAllDayStep | src/components/onboarding/steps/AvailabilityStep.tsx:34-45 | The all-day toggle writes its result to the record's availability and nothing else. |
| CertificationsStep.AddCertification | src/components/onboarding/steps/CertificationsStep.tsx:25-40 | Is a no-op unless name, issuer and date are all non-empty. Otherwise it appends one unverified certification copied from the form, then resets and closes the form. |
| CertificationsStep.RemoveCertification | src/components/onboarding/steps/CertificationsStep.tsx:42-46 | Drops every certification with that id and keeps all others with their multiplicity, touching nothing else. |
| CertificationsStep.RemoveUndoesAdd | src/components/onboarding/steps/CertificationsStep.tsx:25-46 | Removing a certification just added under a fresh id restores the record. |
| ServicesStep.AddService | src/components/onboarding/steps/ServicesStep.tsx:55-65 | Appends one service with the fresh id, keeps the existing entries, and resets and closes the form. |
| ServicesStep.RemoveService | src/components/onboarding/steps/ServicesStep.tsx:67-71 | Removes the services with that id and keeps the others with their multiplicity. |
| ServicesStep.AddFromTemplate | src/components/onboarding/steps/ServicesStep.tsx:73-80 | Appends one service whose title, duration, price and description come from the template. |
| ServicesStep.AddCustomService | src/components/onboarding/steps/ServicesStep.tsx:82-86 | Adds the form's service iff its title is non-empty and its price positive; otherwise nothing changes. |
| ServicesStep.AddButtonStricterThanHandler | src/components/onboarding/steps/ServicesStep.tsx:235 | An enabled button always adds. The handler alone also accepts a form with an empty description, which the button would refuse. |
| ServicesStep.RemoveUndoesAdd | src/components/onboarding/steps/ServicesStep.tsx:55-71 | Removing a service just added under a fresh id restores the list. |
| PortfolioStep.UploadAsWritten | src/components/onboarding/steps/PortfolioStep.tsx:9-21 | As written: below six images one event appends only the last chosen file; at six or more it appends nothing. |
| PortfolioStep.UploadAsWrittenDropsFiles | src/components/onboarding/steps/PortfolioStep.tsx:12-19 | Choosing two files at once adds only the second. |
| PortfolioStep.Upload | src/components/onboarding/steps/PortfolioStep.tsx:12-19 | Intended: appends the chosen files in order until the list holds six, and keeps the old images as a prefix. |
| PortfolioStep.UploadBounded | src/components/onboarding/steps/PortfolioStep.tsx:12-19 | From at most six images, both versions stay at most six. |
| PortfolioStep.RemoveImage | src/components/onboarding/steps/PortfolioStep.tsx:23-27 | Removes exactly position i and keeps the order; an out-of-range index changes nothing. |
| PortfolioStep.UploadStep | src/components/onboarding/steps/PortfolioStep.tsx:9-21 | An upload event changes only the record's portfolio list. |
| PortfolioStep.HiddenButtonMeansNoUpload | src/components/onboarding/steps/PortfolioStep.tsx:68 | When the add tile is hidden (six or more images), an upload adds nothing. |
| SocialLinksStep.ChangeLink | src/components/onboarding/steps/SocialLinksStep.tsx:9-16 | Sets the platform's link to the value; every other link and every other field is unchanged. |
| SocialLinksStep.LinksCount | src/components/onboarding/steps/SocialLinksStep.tsx:52-54 | Counts the links that are non-blank after trimming, never more than the number of keys. |
| SocialLinksStep.FilledIffNotBlank | src/components/onboarding/steps/SocialLinksStep.tsx:52-54 | A link counts exactly when it is not whitespace-only. |
| SocialLinksStep.ValidateUrl | src/components/onboarding/steps/SocialLinksStep.tsx:42-50 | The empty value is valid; any other value is valid exactly when the URL parser accepts it. |
| SocialLinksStep.InvalidMessageOnlyForNonEmpty | src/components/onboarding/steps/SocialLinksStep.tsx:107 | The invalid-URL message shows exactly for a non-empty value the parser rejects. |
| BookingTypes.ClassifyTitle | src/components/bookings/BookingsHistory.tsx:83-85 | The first keyword the lower-cased title contains decides: "communication" gives communication, otherwise "behavioral" gives behavioral, otherwise "healing" gives healing, and a title with none of them is communication. Never mediumship. |
| BookingTypes.ClassifyTitleIgnoresCase | src/components/bookings/BookingsHistory.tsx:83-85 | Classification does not depend on ASCII letter case. |
| BookingTypes.ClassifyCommunicationTemplate | src/components/onboarding/OnboardingFlow.tsx:120-122 | "Animal Communication Session" is classified as communication. |
| BookingTypes.ClassifyBehavioralTemplate | src/components/onboarding/OnboardingFlow.tsx:120-122 | "Behavioral Consultation" is classified as behavioral. |
| BookingTypes.ClassifyHealingTemplate | src/components/onboarding/OnboardingFlow.tsx:120-122 | "Pet Trauma Healing" is classified as healing. |
| BookingTypes.ClassifyEndOfLifeTemplate | src/components/onboarding/OnboardingFlow.tsx:120-122 | "End-of-Life Support" matches no keyword and falls back to communication. |
| BookingMapper.ClientName | src/components/bookings/BookingsHistory.tsx:65 | The client name is the display name if truthy, else the full name if truthy, else "Unknown Client"; it is never empty. |
| BookingMapper.JoinedDateOfTimestamp | src/components/bookings/BookingsHistory.tsx:69 | On `<date>T<time>` the joined date is the date part. |
| BookingMapper.MapClient | src/components/bookings/BookingsHistory.tsx:63-70 | Client fields with their fallbacks: "" for id, email and phone, and America/New_York for the time zone. |
| BookingMapper.MapPet | src/components/bookings/BookingsHistory.tsx:71-80 | The pet name falls back to "Unknown Pet" and the type to "Unknown". Optional fields pass through, and previous sessions is 0. |
| BookingMapper.MapMessage | src/components/bookings/BookingsHistory.tsx:112-120 | A message keeps its fields. Its sender is "You" for the user's own messages, otherwise the client display name or "Client". |
| BookingMapper.MapMessages | src/components/bookings/BookingsHistory.tsx:112-120 | Messages keep their number and order. |
| BookingMapper.YouIffOwnMessage | src/components/bookings/BookingsHistory.tsx:115 | Unless the client is literally named "You", the sender reads "You" exactly for the user's own messages. |
| BookingMapper.NotesAsWritten | src/components/bookings/BookingsHistory.tsx:102-111 | As written: the fetched notes row is used with its snake_case keys, so only the keys common to both spellings can be read. |
| BookingMapper.NotesAsWrittenLoseSummary | src/components/bookings/BookingsHistory.tsx:102 | A saved session summary, completion time and next steps are unreadable after a fetch. |
| BookingMapper.MapNotes | src/components/bookings/BookingsHistory.tsx:102-111 | Intended: each column maps to its camelCase field, with the empty notes when there is no row. |
| BookingMapper.MapNotesRoundTrip | src/components/bookings/BookingsHistory.tsx:102-111 | The intended mapping and the row a note is saved as are mutual inverses. |
| BookingMapper.MapBooking | src/components/bookings/BookingsHistory.tsx:61-123 | Intended: the notes are the corrected camelCase mapping, not the row as written at line 102 (see Findings). One view-model per row: client, pet, classification, currency USD and bank-transfer fallbacks, status and timestamps, notes and messages, each as above. |
| BookingMapper.MapBookings | src/components/bookings/BookingsHistory.tsx:61-123 | Exactly one view-model per row, in row order. |
| BookingsHistory.TabsPartitionStatuses | src/components/bookings/BookingsHistory.tsx:138-152 | Every status except in-progress is on exactly one tab; in-progress is on none. |
| BookingsHistory.FilteredBookings | src/components/bookings/BookingsHistory.tsx:138-224 | The result is a permutation of exactly the bookings that pass the tab, search and filters. It is sorted by the chosen key, and bookings with equal keys keep their input order. |
| BookingsHistory.FilteredBookingsIdempotent | src/components/bookings/BookingsHistory.tsx:138-224 | Running the pipeline again on its own output returns it unchanged. |
| BookingsHistory.BlankSearchKeepsAll | src/components/bookings/BookingsHistory.tsx:154-161 | A whitespace-only search filters nothing. |
| BookingsHistory.ZeroMinAmountDisabled | src/components/bookings/BookingsHistory.tsx:196-202 | With a minimum amount of 0 every booking is filtered exactly as with no minimum, because 0 is falsy. |
| BookingsHistory.GetTabCounts | src/components/bookings/BookingsHistory.tsx:229-239 | Each count is the number of bookings with its tab's statuses. Pending counts payment-pending. Confirmed counts scheduled or payment-confirmed. History counts completed, cancelled or no-show. The three counts plus the in-progress bookings make up the whole list: the sum is at most the length, with equality iff nothing is in progress. |
| BookingsHistory.TabCountIsListLength | src/components/bookings/BookingsHistory.tsx:138-239 | With an empty search box and the initial filters, each tab's badge equals the length of the list that tab shows. |
| BookingsHistory.NoneInProgress | src/components/bookings/BookingsHistory.tsx:229-239 | The in-progress count is zero exactly when no booking is in progress. |
| BookingsHistory.CountsAddUp | src/components/bookings/BookingsHistory.tsx:229-239 | The per-tab counts and the in-progress count add up to the list length. |
| BookingsHistory.TabCountsExample | src/components/bookings/BookingsHistory.tsx:229-239 | Pending, scheduled, completed and cancelled count as 1 pending, 1 confirmed and 2 in history. |
| StableSort.SortBy | src/components/bookings/BookingsHistory.tsx:205-224 | The sort returns a sorted permutation of its input. |
| StableSort.SortByStable | src/components/bookings/BookingsHistory.tsx:205-224 | The sort is stable: the elements of each key keep their relative order. |
| StableSort.SortBySorted | src/components/bookings/BookingsHistory.tsx:205-224 | A list that is already sorted comes back unchanged. |
| StableSort.SortByIdempotent | src/components/bookings/BookingsHistory.tsx:205-224 | Sorting twice equals sorting once. |
| Elapsed.WholeHours | src/components/bookings/PendingPayments.tsx:39-40 | Whole hours are rounded toward minus infinity, as `Math.floor` does. |
| Elapsed.Ago | src/components/bookings/PendingPayments.tsx:43-49 | The label is the count's decimal digits, a space, the unit, an "s" exactly when the count is above one, then " ago". |
| Elapsed.AgoWords | src/components/bookings/PendingPayments.tsx:43-49 | With a one-word unit, splitting the label on spaces gives back the count, the unit (plural iff the count is above one) and "ago". |
| Elapsed.AgoInjective | src/components/bookings/PendingPayments.tsx:43-49 | Different counts give different labels. |
| PendingPayments.TimeAgo | src/components/bookings/PendingPayments.tsx:36-50 | Under an hour, including the future, the label is "Just now". Under a day it counts hours, and otherwise whole days. |
| PendingPayments.UrgencyLevel | src/components/bookings/PendingPayments.tsx:52-60 | Urgency is high above 48 fractional hours, medium above 24, otherwise low. |
| PendingPayments.FutureIsJustNowAndLow | src/components/bookings/PendingPayments.tsx:43-59 | A creation time in the future reads "Just now" with low urgency. |
| PendingPayments.UrgencyMonotone | src/components/bookings/PendingPayments.tsx:52-60 | A later clock reading never lowers urgency. |
| PendingPayments.UnreadCount | src/components/bookings/PendingPayments.tsx:78 | The unread count is at most the number of messages, and zero iff every message is read. |
| PendingPayments.UnreadCountCons | src/components/bookings/PendingPayments.tsx:78 | Each unread message adds one to the count and each read message adds nothing, so the count is the number of unread messages. |
| PendingPayments.AllUnreadCount | src/components/bookings/PendingPayments.tsx:78 | When no message is read, the count is the number of messages. |
| PendingPayments.ToggleCardExpansion | src/components/bookings/PendingPayments.tsx:16-24 | Flips the membership of that card id only. |
| PendingPayments.ToggleCardExpansionTwice | src/components/bookings/PendingPayments.tsx:16-24 | Toggling a card twice restores the expanded set. |
| PendingPayments.RecentMessages | src/components/bookings/PendingPayments.tsx:208 | The preview is the last min(2, n) messages, in their original order. |
| SessionHistory.SortedBookings | src/components/bookings/SessionHistory.tsx:110-114 | A permutation of the bookings, newest first by completion time or else update time. Ties keep their input order. |
| SessionHistory.SortedBookingsKeepsNewestFirst | src/components/bookings/SessionHistory.tsx:110-114 | A list already newest first is shown as it is. |
| SessionHistory.FilledStars | src/components/bookings/SessionHistory.tsx:29-39 | The number of filled stars is the rating clamped to 0..5. |
| SessionHistory.NotRatedIffNoStars | src/components/bookings/SessionHistory.tsx:29-39 | "Not rated" shows exactly when no star is filled. |
| SessionHistory.ExportValues | src/components/bookings/SessionHistory.tsx:79-92 | One value per key: id, client and pet names, session type and formatted date as they are; the duration followed by " minutes"; "$" and the amount; the rating followed by "/5" when positive and "Not rated" exactly when it is not; the status; the summary, insights and recommendations. |
| SessionHistory.ExportRatingMatchesStars | src/components/bookings/SessionHistory.tsx:87 | The exported rating is "Not rated" exactly when the on-screen rating fills no star. |
| SessionHistory.CsvLine | src/components/bookings/SessionHistory.tsx:94-96 | A line is a quote, the key, the three characters `","`, the value and a closing quote. Nothing is escaped, so it holds only quotes, a comma and the characters of the key and value. |
| SessionHistory.ExportLines | src/components/bookings/SessionHistory.tsx:79-96 | Exactly twelve lines, each the quoted key and value in fixed key order. |
| SessionHistory.ExportCsvLines | src/components/bookings/SessionHistory.tsx:94-96 | When no value contains a line break, splitting the export text on '\n' gives back its twelve lines. |
| SessionHistory.ExportFileName | src/components/bookings/SessionHistory.tsx:102 | The name is "session-", the id, "-", the ASCII-lower-cased pet name and ".csv", each at its fixed position. |
| SessionHistory.EmptyNotesHaveNoDetail | src/components/bookings/SessionHistory.tsx:131 | Notes as first created carry no detail section. |
| SessionNotesModal.AddNextStep | src/components/bookings/SessionNotesModal.tsx:26-34 | A blank draft changes nothing. Otherwise the trimmed draft is appended at the end and the draft is cleared. |
| SessionNotesModal.RemoveNextStep | src/components/bookings/SessionNotesModal.tsx:36-41 | Removes exactly index i and keeps the order; an out-of-range index changes nothing. |
| SessionNotesModal.RemoveUndoesAdd | src/components/bookings/SessionNotesModal.tsx:26-41 | Removing the step just added restores the notes. |
| SessionNotesModal.ChangeRating | src/components/bookings/SessionNotesModal.tsx:22-24 | Clicking star k sets the rating to k, so exactly k stars are filled; nothing else changes. |
| SessionNotesModal.Save | src/components/bookings/SessionNotesModal.tsx:15-20 | Saving keeps an existing completion time and otherwise stamps the current time; the other fields pass through. |
| SessionNotesModal.SaveIdempotent | src/components/bookings/SessionNotesModal.tsx:15-20 | Saving again later does not move the completion time. |
| MessageModal.Open | src/components/bookings/MessageModal.tsx:19-21 | The dialog opens on the booking's messages, an empty draft and hidden templates. |
| MessageModal.SendMessage | src/components/bookings/MessageModal.tsx:33-52 | A blank draft changes nothing. Otherwise one own message with the trimmed text and the id "msg-" followed by the clock is appended after the unchanged earlier messages, and the draft is cleared. |
| MessageModal.KeyPress | src/components/bookings/MessageModal.tsx:61-66 | Enter without Shift sends; every other key does nothing. |
| MessageModal.SelectTemplate | src/components/bookings/MessageModal.tsx:54-59 | The draft becomes the template with its first "[pet name]" replaced; the templates close. |
| MessageModal.FillPlaceholder | src/components/bookings/MessageModal.tsx:55 | Only the first placeholder is replaced, by the pet name. |
| MessageModal.FirstTemplateForPet | src/components/bookings/MessageModal.tsx:148 | The first template reads "... connecting with <pet name>." |
| MessageModal.SentMessagesAreOwn | src/components/bookings/MessageModal.tsx:80 | Every message sent from the dialog is shown as the user's own. |
| ChatView.SendMessage | src/components/inquiries/ChatView.tsx:48-63 | A blank draft changes nothing. Otherwise one own text message with the trimmed content and the clock's digits as its id is appended, and the draft is cleared. |
| ChatView.KeyPress | src/components/inquiries/ChatView.tsx:65-70 | Enter without Shift sends; every other key does nothing. |
| ChatView.QuickReply | src/components/inquiries/ChatView.tsx:142 | A quick reply replaces the draft wholesale and sends nothing. |
| ChatView.QuickReplyThenSend | src/components/inquiries/ChatView.tsx:142 | Picking a quick reply and pressing Enter sends that reply, trimmed. |
| ChatView.PlacementOf | src/components/inquiries/ChatView.tsx:97-130 | System notices are centred whoever sent them. Other messages go right exactly when they are the user's own. |
| ChatView.SentMessageOnRight | src/components/inquiries/ChatView.tsx:84 | A message sent from the chat lands on the right. |
| PaymentReceiptModal.ZoomIn | src/components/bookings/PaymentReceiptModal.tsx:30-32 | Zoom in gives min(z + 0.25, 3). |
| PaymentReceiptModal.ZoomOut | src/components/bookings/PaymentReceiptModal.tsx:34-36 | Zoom out gives max(z - 0.25, 0.5). |
| PaymentReceiptModal.Percent | src/components/bookings/PaymentReceiptModal.tsx:54 | The label is exactly 100 times the zoom factor. |
| PaymentReceiptModal.ZoomStaysInRange | src/components/bookings/PaymentReceiptModal.tsx:30-60 | Both buttons keep the zoom in 0.5..3. Each button is disabled exactly at its bound, where it would be a no-op. |
| PaymentReceiptModal.ZoomInOutInverse | src/components/bookings/PaymentReceiptModal.tsx:30-36 | Away from the bounds, zoom in and zoom out undo each other. |
| PaymentReceiptModal.PressAllInRange | src/components/bookings/PaymentReceiptModal.tsx:30-36 | Under any sequence of presses the label stays a multiple of 25 between 50% and 300%. |
| PaymentReceiptModal.InitialZoomIsHundredPercent | src/components/bookings/PaymentReceiptModal.tsx:10 | The zoom starts at factor 1, shown as 100%. |
| Auth.SomeTrue | src/hooks/useAuth.ts:228-230 | Holds exactly when the boolean `true` is among the values. |
| Auth.HasContactMethods | src/hooks/useAuth.ts:228-230 | Holds exactly when the contact methods are an object or array with some value strictly equal to `true`. |
| Auth.MissingKeys | src/hooks/useAuth.ts:217-226 | The missing keys are empty exactly when no required column is null, empty or whitespace-only. |
| Auth.MissingFields | src/hooks/useAuth.ts:217-226 | No field is missing exactly when role, display name, location and experience level are all non-blank. |
| Auth.IsProfileComplete | src/hooks/useAuth.ts:214-234 | Complete iff not loading, a profile exists, all four required fields are non-blank, and some contact value is `true`. |
| Auth.TruthyContactValuesDoNotCount | src/hooks/useAuth.ts:228-230 | Contact values that are truthy but not `true`, such as "true" or 1, do not make a profile complete. |
| Auth.NewProfile | src/lib/supabase.ts:184-195 | The row created at sign-up has role communicator, the full name as display name, an empty location and no contact methods. |
| Auth.NewProfileNeverComplete | src/lib/supabase.ts:184-195 | A freshly created profile is never complete. |
| Auth.ContactJson | src/components/onboarding/OnboardingFlow.tsx:95 | The stored contact object holds a `true` exactly when some onboarding flag is on. |
| Auth.ApplyUpdates | src/hooks/useAuth.ts:198-212 | The database row after the onboarding update carries the payload's fields and keeps id, email and full name. |
| Auth.SubmittedProfileComplete | src/components/onboarding/OnboardingFlow.tsx:60-98 | A profile written by a successful submission is complete iff its display name and location are not whitespace-only. |
| Auth.UpdatedProfileComplete | src/hooks/useAuth.ts:214-234 | After an update with a role, a level and some contact method, the profile is complete iff its display name and location are not blank. |
| Auth.BlankDisplayNameStaysIncomplete | src/components/onboarding/OnboardingFlow.tsx:60-63 | A display name of two spaces passes the submit check, yet the saved profile is not complete. |
| Auth.NormaliseEmail | src/hooks/useAuth.ts:109 | The normalised address is the trimmed input with each character ASCII-lower-cased. So it is no longer than the input, has no ASCII capitals, and neither starts nor ends with white space. |
| Auth.NormaliseEmailIdempotent | src/hooks/useAuth.ts:109 | Normalising twice equals normalising once. |
| Auth.NormaliseEmailIgnoresCase | src/hooks/useAuth.ts:109 | Two spellings of an address that differ in ASCII case normalise alike. |
| Auth.SignInRequest | src/hooks/useAuth.ts:109 | Sign-in sends the normalised email and the password as typed. |
| Auth.SignUpPayload | src/hooks/useAuth.ts:138-142 | Sign-up sends the normalised email, the password as typed and the trimmed full name. |
| Auth.UpdateProfile | src/hooks/useAuth.ts:198-212 | Without a user it fails with "No user logged in" and changes nothing. On success it stores and returns the new row, and on a database error it fails with that error. |
| Routes.ProtectedRoute | src/App.tsx:57-80 | While loading it shows the spinner. It renders exactly when a signed-in user has a complete profile, and otherwise redirects to /welcome or /onboarding. |
| Routes.AuthRoute | src/App.tsx:111-138 | It shows the spinner exactly while loading. /onboarding sends anonymous users to /welcome and complete profiles to /dashboard. /login and /signup send signed-in users to /dashboard or /onboarding. Any other path renders. |
| Routes.Match | src/App.tsx:146-171 | The router ignores ASCII case and trailing slashes: the auth guard wraps exactly the paths that spell /login, /signup or /onboarding that way. The root (only slashes) matches no page route. |
| Routes.MatchIgnoresSpelling | src/App.tsx:146-171 | A trailing slash or ASCII lower-casing selects the same route. |
| Routes.Visit | src/App.tsx:111-171 | The root redirects to /welcome, no redirect targets the current path, and the spinner appears only while loading. The guard reads the raw path. |
| Routes.SpellingBypassesGuard | src/App.tsx:111-138 | A signed-out visitor sees the onboarding wizard at "/Onboarding" and at "/onboarding/". |
| Routes.VisitIntended | src/App.tsx:111-171 | Intended: the guard reads the path as the router matched it. The root redirects to /welcome and the spinner appears only while loading. |
| Routes.IntendedGuardIgnoresSpelling | src/App.tsx:111-138 | In the intended app, every spelling of /onboarding shows the wizard exactly to a signed-in user with an incomplete profile. Every spelling of /login or /signup shows its screen exactly to a signed-out visitor. |
| Routes.RedirectsSettle | src/App.tsx:57-138 | Once loading is over, every redirect lands on a page that shows a screen. |
| Routes.ProtectedScreensNeedCompleteProfile | src/App.tsx:57-80 | A protected page shows its screen exactly for a signed-in user with a complete profile. |
| Routes.OnboardingShownIff | src/App.tsx:111-119 | The onboarding wizard shows exactly for a signed-in user whose profile is incomplete. |
| Signup.EmailPatternShape | src/components/auth/SignupScreen.tsx:49 | The e-mail regex accepts exactly addresses with no white space, one '@' not at the start, and a dot after it that is neither first nor last. |
| Signup.EmailPatternExamples | src/components/auth/SignupScreen.tsx:49 | "jo@pets.io" passes; "jo@pets" and " jo@pets.io" fail. |
| Signup.MixedCaseOnOneLine | src/components/auth/SignupScreen.tsx:58 | On a single line, the case regex needs some ASCII lowercase and some ASCII uppercase letter. |
| Signup.MixedCaseAcrossLineBreak | src/components/auth/SignupScreen.tsx:58 | "a", a line break, then "A" fails the case regex, because `.` does not cross line breaks. |
| Signup.ValidateField | src/components/auth/SignupScreen.tsx:35-72 | Each field's rule, each failure with a non-empty message: a name of two trimmed characters; an address the regex accepts; a password of six characters with both cases; a confirmation equal to the password. Unknown fields have no error. |
| Signup.ErrorOfIffInvalid | src/components/auth/SignupScreen.tsx:35-72 | A field has no error exactly when it is valid in plain terms. |
| Signup.CollectErrors | src/components/auth/SignupScreen.tsx:100-117 | The collected error object is empty exactly when all four fields are valid. |
| Signup.ValidateForm | src/components/auth/SignupScreen.tsx:100-117 | Without accepted terms it fails with the terms message and records no field errors. Otherwise it records the field errors and passes iff there are none. |
| Signup.SubmittableFormIsValid | src/components/auth/SignupScreen.tsx:154-156 | A form that passes submit-time validation has its button enabled once the errors are recorded. |
| Signup.HandleInputChangeAsWritten | src/components/auth/SignupScreen.tsx:74-98 | As written: stores the value and clears the general error. Any other field records its own error or "". A password change with a confirmation present records the password's error or "", then re-checks the confirmation against the old password: a failure replaces the confirmation error, a pass leaves it as it was. Other keys are unchanged. |
| Signup.StaleConfirmationError | src/components/auth/SignupScreen.tsx:91-96 | Changing the password to equal the confirmation still records "Passwords do not match". |
| Signup.HandleInputChange | src/components/auth/SignupScreen.tsx:74-98 | Intended: the changed field's error is current, and a password change re-checks the confirmation against the new password. |
| Signup.InitialErrorsCurrent | src/components/auth/SignupScreen.tsx:8-20 | The empty initial form has current recorded errors. |
| Signup.HandleInputChangeKeepsErrorsCurrent | src/components/auth/SignupScreen.tsx:74-98 | The corrected handler keeps every recorded error in agreement with the form. |
| Signup.EnabledButtonValidates | src/components/auth/SignupScreen.tsx:154-156 | With current errors, an enabled submit button means the form passes validation. |
| Signup.ValidatingFormHasButtonEnabled | src/components/auth/SignupScreen.tsx:154-156 | With current errors, a form that passes validation has its button enabled. |
| Signup.SubmitErrorText | src/components/auth/SignupScreen.tsx:140-148 | Messages map by substring in order: already registered, password too short, invalid password. Otherwise the raw message or a default is shown, never an empty text. |
| Signup.SubmitError | src/components/auth/SignupScreen.tsx:130-148 | There is no error exactly when an account was created. A missing user gives "Account creation failed. Please try again."; a thrown error gives its mapped text. |
| Signup.FirstKnownMessageWins | src/components/auth/SignupScreen.tsx:140-148 | A message starting with "User already registered" maps to that case, whatever follows. |
| Login.HandleChange | src/components/auth/LoginScreen.tsx:23-27 | Updates only the named field and clears the error. |
| Login.ValidateForm | src/components/auth/LoginScreen.tsx:29-43 | Checks in order: blank email, email without '@', empty password. It passes exactly when none applies. |
| Login.ValidatedFormIsEnabled | src/components/auth/LoginScreen.tsx:74 | A form that validates has its button enabled. The converse fails: "jo" with a password is enabled but invalid. |
| Login.LoginEmailCheckWeakerThanSignup | src/components/auth/LoginScreen.tsx:34 | Every sign-up address passes the sign-in check, but "@" passes sign-in and fails sign-up. |
| Login.SignInErrorText | src/components/auth/LoginScreen.tsx:60-68 | Messages map by substring in order: invalid credentials, unconfirmed email, too many requests. Otherwise the raw message or a default is shown, never an empty text. |
| Login.CredentialsMessageWins | src/components/auth/LoginScreen.tsx:60-68 | A message starting with "Invalid login credentials" maps to that case, whatever follows. |
| Login.Redirect | src/components/auth/LoginScreen.tsx:15-21 | A signed-in user goes to /dashboard or /onboarding by profile completeness, once loading is over. |
| Login.RedirectAgreesWithGuard | src/components/auth/LoginScreen.tsx:15-21 | The screen's redirect is exactly the one the guard around /login already makes. |
| InquiriesList.TimeAgo | src/components/inquiries/InquiriesList.tsx:72-82 | "Just now" under one whole hour, then hours, then whole days. |
| InquiriesList.TimeAgoAgreesWithPendingPayments | src/components/inquiries/InquiriesList.tsx:72-82 | The list's label equals the pending-payments label for every pair of times. |
| InquiriesList.ClientName | src/components/inquiries/InquiriesList.tsx:53 | The name is the display name if non-empty, otherwise the full name if non-empty, otherwise "Unknown Client". It is never empty. |
| InquiriesList.FormatInquiry | src/components/inquiries/InquiriesList.tsx:51-62 | Row fields pass through. Preferred time falls back to "Flexible", urgent holds only for a stored `true`, and the timestamp is the time-ago label. |
| InquiriesList.Fetch | src/components/inquiries/InquiriesList.tsx:34-70 | Exactly the user's rows with the active status, each formatted, in table order. |
| InquiriesList.FilteredInquiries | src/components/inquiries/InquiriesList.tsx:84 | Exactly the inquiries with the active status, with their multiplicity. |
| InquiriesList.GetTabCounts | src/components/inquiries/InquiriesList.tsx:86-92 | Each count is the length of the list that status's tab shows, and the three add up to the list length. |
| InquiriesList.CountsPartition | src/components/inquiries/InquiriesList.tsx:86-92 | Every inquiry has exactly one of the three statuses. |
| InquiriesList.AfterFetch | src/components/inquiries/InquiriesList.tsx:46 | Right after a fetch every inquiry is in the active tab, and the other two counts are zero. |
| InquiriesList.Accept | src/components/inquiries/InquiriesList.tsx:101-113 | Accepting sets that row's status to active and leaves every other row unchanged. |
| InquiriesList.AcceptedLeavesNewTab | src/components/inquiries/InquiriesList.tsx:101-113 | After the refresh that follows an accept, the inquiry is no longer in the "new" tab. |
| InquiriesModule.BackTargetAsWritten | src/components/inquiries/InquiriesModule.tsx:15-24 | As written: a path containing "/chat/" goes back to "/inquiries/" and its third `/`-segment. Any other path containing "/inquiries/" goes back to "/inquiries". Otherwise back does nothing. |
| InquiriesModule.TitleAsWritten | src/components/inquiries/InquiriesModule.tsx:43-45 | As written: the title is "Chat" exactly when the path contains "/chat/". Otherwise it is "Inquiry Details" exactly below "/inquiries/" off the list page, and "Inquiries" elsewhere. |
| InquiriesModule.AsWrittenAgreesOffChat | src/components/inquiries/InquiriesModule.tsx:15-45 | Off the chat routes, wherever "/chat/" does not occur, the header as written and the intended header have the same title and back target. |
| InquiriesModule.AsWrittenMissesChatRoutes | src/components/inquiries/InquiriesModule.tsx:15-45 | On every chat route without "/chat/" in it, the header as written reads "Inquiry Details" and goes back to the list. The intended header reads "Chat" and goes back to the inquiry. |
| InquiriesModule.ChatPageMissedAsWritten | src/components/inquiries/InquiriesModule.tsx:56 | On /inquiries/42/chat the title reads "Inquiry Details" and back skips to the list. |
| InquiriesModule.BackTarget | src/components/inquiries/InquiriesModule.tsx:15-24 | Intended: from the chat route back goes to that inquiry's details, and from any other page below /inquiries/ to the list. |
| InquiriesModule.BackLeavesPage | src/components/inquiries/InquiriesModule.tsx:15-24 | Back never leads to the current page. |
| InquiriesModule.Title | src/components/inquiries/InquiriesModule.tsx:43-45 | Intended: "Chat" exactly on the chat route, and "Inquiry Details" exactly on other pages below /inquiries/. |
| InquiriesModule.BackRetracesNavigation | src/components/inquiries/InquiriesModule.tsx:54-56 | Chat goes back to its details, details go back to the list, and the list has no back target; each page's title names it. |
| InquiriesModule.BackButtonLeadsSomewhere | src/components/inquiries/InquiriesModule.tsx:13-24 | Off the list and below /inquiries/, back always has a target. |
| ProfileMain.AvatarInitial | src/components/profile/ProfileMain.tsx:124 | One character: the first of the display name, else of the full name, else "U". |
| ProfileMain.AvatarMatchesHeader | src/components/profile/ProfileMain.tsx:124-130 | The avatar shows the first letter of the name in the header, and "U" only when the header name is empty. |
| ProfileMain.ColorClasses | src/components/profile/ProfileMain.tsx:99-107 | A known colour gets its table entry and any other colour gets purple's; the result is always a table value. |
| ProfileMain.MenuColors | src/components/profile/ProfileMain.tsx:61-107 | "Manage Services" asks for green, which the table lacks, so it gets the same classes as "Edit Profile". The other four tiles are all distinct. |
| ProfileMain.CapitalizeFrom | src/components/profile/ProfileMain.tsx:211 | The word-initial capitalisation keeps the length. |
| ProfileMain.CapitalizeWordsAt | src/components/profile/ProfileMain.tsx:211 | Exactly the characters that start a word are upper-cased; all others are unchanged. |
| ProfileMain.CapitalizeWordsIdempotent | src/components/profile/ProfileMain.tsx:211 | Capitalising twice equals capitalising once. |
| ProfileMain.TagLabel | src/components/profile/ProfileMain.tsx:211 | A tag label has the tag's length. |
| ProfileMain.TagLabelFirstHyphen | src/components/profile/ProfileMain.tsx:227 | Only the first hyphen becomes a space before capitalising. |
| ProfileMain.TagLabelNoHyphen | src/components/profile/ProfileMain.tsx:227 | A tag without hyphens is only capitalised. |
| ProfileMain.TagLabelExamples | src/components/profile/ProfileMain.tsx:211 | "farm-animals" reads "Farm Animals" and "end-of-life" reads "End Of-Life". |
| ProfileMain.Entries | src/components/profile/ProfileMain.tsx:241 | An object's entries are its fields, and an array's are its items in order. |
| ProfileMain.MethodLabel | src/components/profile/ProfileMain.tsx:244-253 | A known method gets its fixed label; any other key is shown raw. |
| ProfileMain.EnabledLabels | src/components/profile/ProfileMain.tsx:241-258 | One label per truthy entry, and a label is listed exactly when some truthy entry has it. |
| ProfileMain.ContactSection | src/components/profile/ProfileMain.tsx:237-260 | The card shows exactly when the stored value is truthy and has entries, listing the enabled labels. |
| ProfileMain.CompleteProfileShowsContacts | src/components/profile/ProfileMain.tsx:237-260 | A profile that passes the completeness check shows the card with at least one method. |
| ProfileMain.ContactSectionExample | src/components/profile/ProfileMain.tsx:237-260 | `{email: true, phone: false}` lists "Email" only. |
| ProfileMain.CertPreview | src/components/profile/ProfileMain.tsx:287 | The preview is the first min(2, n) certifications. |
| ProfileModule.Title | src/components/profile/ProfileModule.tsx:24-30 | The first of /edit, /certifications, /media and /settings in the path names the page; otherwise it is "Profile". |
| ProfileModule.BackTarget | src/components/profile/ProfileModule.tsx:18-22 | Back goes to /profile exactly when the path contains "/profile/"; otherwise it does nothing. |
| ProfileModule.MenuTitles | src/components/profile/ProfileModule.tsx:24-30 | Each menu page is titled with its caption, except /profile/services, which reads "Profile" like the overview. |
| ProfileModule.BackFromMenuPages | src/components/profile/ProfileModule.tsx:16-37 | On every menu page the back button shows and returns to /profile; on /profile it is hidden and inert. |
| Media.ChooseVideo | src/components/profile/MediaManagement.tsx:9-25 | No file changes nothing. A file over 100 MiB raises "File size must be less than 100MB" and changes nothing. Any other file starts the upload. |
| Media.FinishVideo | src/components/profile/MediaManagement.tsx:19-23 | The new video is in place, the upload is over, and the images are untouched. |
| Media.RemoveVideo | src/components/profile/MediaManagement.tsx:38-40 | Clears the intro video and nothing else. |
| Media.VideoSizeLimit | src/components/profile/MediaManagement.tsx:12-15 | A rejected file keeps the current video; an accepted one becomes the video once the upload finishes. |
| Media.UploadAsWritten | src/components/profile/MediaManagement.tsx:27-36 | As written: below six images every chosen file is appended; at six or more, none is. |
| Media.UploadAsWrittenExceedsCap | src/components/profile/MediaManagement.tsx:27-36 | Five images and two chosen files make seven. |
| Media.Upload | src/components/profile/MediaManagement.tsx:27-36 | Intended: the chosen files are appended in order up to six images. With six or more nothing changes. Below six, exactly min(files, 6 - images) are added. |
| Media.UploadPrefixOfAsWritten | src/components/profile/MediaManagement.tsx:27-36 | The capped upload is a prefix of what the page appends, and the two agree exactly when the files fit. |
| Media.FullListIgnoresUpload | src/components/profile/MediaManagement.tsx:31 | With six or more images an upload adds nothing. |
| Media.RemoveImage | src/components/profile/MediaManagement.tsx:42-44 | Removes exactly the image at the index and keeps the order; an out-of-range index changes nothing. |
| Media.RemoveUndoesUpload | src/components/profile/MediaManagement.tsx:27-44 | Removing the image just uploaded undoes the upload. |
| Settings.WithSection | src/components/profile/Settings.tsx:64-72 | Replacing one category leaves the other two unchanged. |
| Settings.ToggleSetting | src/components/profile/Settings.tsx:64-72 | The setting becomes the negation of its truthiness; every other setting in every category is unchanged. |
| Settings.UpdateSetting | src/components/profile/Settings.tsx:74-82 | The setting holds the new text; every other setting is unchanged. |
| Settings.ToggleTwice | src/components/profile/Settings.tsx:64-72 | Toggling a flag twice restores the settings exactly. |
| Settings.InitialDefaults | src/components/profile/Settings.tsx:43-62 | All notifications are on except push. The profile is public, the language English, the time zone New York, and dark mode off. Every control starts with a value of its kind. |
| Settings.ControlsKeepWellTyped | src/components/profile/Settings.tsx:116-281 | Every switch and select on the page keeps switches on flags and selects on text; a switch pressed twice is the identity. |

## Left out

- Backend calls (queries, inserts, updates, auth calls) are not modelled as I/O. Their results are inputs: raw rows, outcomes, or a `Result`.
  - On a fetch error the bookings screen keeps its previous list.
- The auth session lifecycle (session check, auth-change subscription, mounted flag) and promise ordering are left out; they are event-loop plumbing.
- Rendering, CSS classes, icons and `useNavigate` calls are left out. Navigation targets are return values.
- Date parsing, locale formatting and collation are parameters. `NaN` from an unparseable date is not modelled.
- ConfirmedSessions is not part of this model. Its comparator returns 0 whenever either date is missing, so it is not a consistent order.
- The dashboard rating average and the onboarding progress percentage are left out, because they are floating-point display values.
- Blob downloads, `window.open` and the BookingsHistory CSV export are left out.
- `URL.createObjectURL` is left out: object URLs are string parameters.
- The `setTimeout` delays are split into a start and a finish step.
- `new URL(...)` is the parameter `parses`.
- The setter-only onboarding steps are covered by the context's merge-update: RoleSelectionStep, EssentialIdentityStep, FirstServiceStep, BioExperienceStep, ProfilePictureStep and IntroVideoStep.
- CertificationsView, ServicesManagement, EditProfile, SearchFilterBar, InquiryDetails, WelcomeScreen, BottomNavigation, BookingsModule, AuthContext and Dashboard are not part of this model. They are mock data, thin backend CRUD or static screens.
- The accept and decline buttons of the pending-payments tab only log, so they are left out.
- SessionHistory's `onSave` only logs, so it is left out.
- ProfileMain's profile and certification fetches and the alert display are left out.
- The login and sign-up screens' own redirects of a signed-in user are left out of `Routes.Visit`. They are `Login.Redirect` and, for sign-up, a redirect to /onboarding for any signed-in user. At the canonical /login and /signup the guard redirects first. At other spellings such as "/signup/" or "/SignUp" the guard renders, and the screen's own redirect decides.
- Lookups of inherited object keys such as "constructor" in the colour and method-label tables are left out. Keys are plain strings.
- Duplicate keys in a stored JSON object are left out.

- MapBooking: the notes are the corrected camelCase mapping, not the snake_case row the source assigns. The as-written notes are `BookingMapper.NotesAsWritten` (see Findings). The SessionHistory and SessionNotesModal models read the corrected notes.
- FilteredBookings: the search and name filters lower-case with ASCII-only mapping. JavaScript's `toLowerCase` is full Unicode, so "zoë" finds "ZOË" in the source but not in the model.
- ExportFileName: the pet name is lower-cased on ASCII letters only. JavaScript turns "Émile" into "émile"; the model keeps "Émile".
- NormaliseEmail: the case mapping is ASCII-only. Under JavaScript's full Unicode mapping the length bound does not hold: "İ" lower-cases to two code units.
- ValidateField: the name and password rules count characters, where JavaScript's `length` counts UTF-16 code units. "😀" is two code units and passes the two-character name rule in the source; the model counts one character and rejects it. Likewise "Aa😀😀" is six code units and passes the six-character password rule in the source, but the model counts four characters and rejects it.
- AvatarInitial: `charAt(0)` takes one UTF-16 code unit, which is a lone surrogate for a name starting with an emoji. The model takes the whole first character.
- AddCustomService: `parseInt` can yield `NaN`, and the model's duration and price are integers. A `NaN` price fails the `price > 0` guard in both. A `NaN` duration would be stored by the source; the model has no such value.
- ExportValues: the amount is an integer, where the source's amount is a JavaScript number. A fractional amount such as 49.99 cannot be exported in the model.
- Match: percent-encoded paths are not decoded before matching, as the router does.

## Findings

| source | as written | input that shows it | evidently intended | confidence | as-written member | corrected member |
|---|---|---|---|---|---|---|
| src/components/bookings/BookingsHistory.tsx:102 | The fetched `session_notes` row is used as the notes object with its snake_case keys | a row with `session_summary = "calm"`: `notes.sessionSummary` reads undefined | map each column to its camelCase field | not executed | BookingMapper.NotesAsWrittenLoseSummary | BookingMapper.MapNotesRoundTrip |
| src/components/onboarding/steps/PortfolioStep.tsx:12-19 | Each file of one event appends to the same pre-event list, so only the last file survives | choosing files a and b on an empty portfolio gives [b] | append every chosen file up to six | not executed | PortfolioStep.UploadAsWrittenDropsFiles | PortfolioStep.Upload |
| src/components/profile/MediaManagement.tsx:27-36 | The six-image cap is checked against the pre-event length, so every chosen file is appended | five images and two chosen files give seven | stop at six images | not executed | Media.UploadAsWrittenExceedsCap | Media.UploadPrefixOfAsWritten |
| src/components/inquiries/InquiriesModule.tsx:15-24 | The chat page is recognised by "/chat/", but its route `/:inquiryId/chat` has no trailing slash | on /inquiries/42/chat the title is "Inquiry Details" and back goes to /inquiries | title "Chat" and back to /inquiries/42 | not executed | InquiriesModule.AsWrittenMissesChatRoutes | InquiriesModule.BackRetracesNavigation |
| src/components/auth/SignupScreen.tsx:91-96 | A password change re-checks the confirmation against the old password | confirmation "Abcdefg", password changed from "Abcdef" to "Abcdefg": "Passwords do not match" stays | compare with the new password | not executed | Signup.StaleConfirmationError | Signup.HandleInputChangeKeepsErrorsCurrent |
| src/App.tsx:111-138 | `AuthRoute` compares the raw `location.pathname` with "/onboarding", "/login" and "/signup", but the router mounts those routes for any ASCII case and trailing slashes | a signed-out visitor at "/Onboarding" or "/onboarding/" sees the wizard | judge the path the router matched | not executed | Routes.SpellingBypassesGuard | Routes.IntendedGuardIgnoresSpelling |
