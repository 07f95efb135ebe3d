# GymOwner Portal — a Dafny model of the dashboard's core

This project models the front end of the GymOwner Portal, a Next.js dashboard through
which a gym owner manages staff, clients, class sessions and pricing plans. They are modelled
layer by layer, one Dafny module for each source file:

- **API client** (`ApiClient`): the `/api/proxy/v1` prefix, default and bearer headers,
  how request options are spread over the built request, and how a response becomes a
  value, a text or an `ApiClientError`.
- **Tokens and session** (`AuthTokens`, `AuthProvider`): the token getters and setters in local
  storage, the refresh call, and the auth provider's restore, login and logout. The two
  classes `TokenStore` and `Provider` keep the storage as a map field and update it in place.
- **Backend mappers and request builders** (`BackendUsers`, `StaffApi`, `ClientsApi`,
  `ScheduleApi`, `PricingApi`): how backend records become frontend records (names split,
  roles and statuses renamed, counts and schedules derived), and which method, endpoint and
  body each create, update and delete call sends.
- **Mock tables** (`MockStaff`, `MockPricing`, `MockSchedule`, `Week`): the in-memory
  fixture stores. Their ids come from the table length. The week of sessions is anchored
  on Monday.
- **Hooks and the query cache** (`QueryCache`, `StaffHooks`, `PricingHooks`,
  `ScheduleHooks`, `ClientHooks`): the query keys, client-side filtering, and what each
  successful mutation invalidates, sets or removes in an abstract prefix-matched cache.
- **Layout** (`Header`, `Sidebar`): breadcrumbs from the path and the active navigation
  item.
- **Weekly calendar** (`WeeklyCalendar`): the week's columns, which sessions fall in each
  column, and positions and heights in minutes.
- **Modals** (`AddStaffModal`, `CreatePricingModal`, `CreateSessionModal`): the form
  defaults, the wizard steps and their guards, and the payload each submit sends.
- **Pages and cards** (`NameSearch`, `ClientsPage`, `StaffPage`, `PricingPage`,
  `SchedulePage`, `StaffCard`, `PricingCard`): search and tab filtering, the page
  statistics, row selection, and what each card shows.

Shared helpers are `Wrappers` (Option), `Json` (JavaScript values and truthiness), `Text`
(split, join, trim, integer parsing and printing), `Lists` (filter, subsequence, count,
sum, toggle) and `Domain` (the records of `src/types`).

In several places the code does not match its own declared types. The model follows the
code and proves each mismatch as a lemma:
- the pricing mapper emits `isActive` and `subscribers`, so reading the result through the
  declared `PricingPlan` finds no `status` and no `subscriberCount` (`PricingApi.AsPricingPlan`);
- the staff mapper can emit the role `owner`, which the declared roles do not include
  (`StaffApi.OwnerOutsideDeclaredRoles`);
- the session mapper emits the statuses `full` and `open`, which the declared session
  statuses do not include (`ScheduleApi.MappedStatusUndeclared`);
- the create-session form opened on the midnight slot gets, as its default end, the current
  hour rather than 01:00, because hour 0 is falsy. The defaults are read on the form's first
  render only, so this is about the hour the modal was first mounted with
  (`CreateSessionModal.DefaultSlotIsOneHour`);
- a 2xx login answer without `access` stores the text "undefined" as the token and leaves the
  page signed out, yet the next reload signs the user in with that text
  (`AuthProvider.MissingAccessSignsInAfterReload`);
- the clients table's header checkbox compares counts only, so it can show as checked while a
  visible row is unselected (`ClientsPage.HeaderCheckedWithUnselectedRow`).

## Model

| member | source | states |
|---|---|---|
| ApiClient.RequestUrl | src/lib/api.ts:90 | every request URL is the proxy base `/api/proxy/v1` followed by the endpoint unchanged |
| ApiClient.GetAuthToken | src/lib/api.ts:65-68 | a token is returned exactly when a window exists and `auth_token` is stored, and it is the stored value |
| ApiClient.BuiltHeaders | src/lib/api.ts:70-83 | the caller's headers are kept; a JSON content type is added only when none was given; `Bearer <token>` is added exactly when the token is non-empty and no authorization header was given |
| ApiClient.BuildHeaders | src/lib/api.ts:70-83 | the step-by-step header building yields exactly the headers described by `BuiltHeaders` |
| ApiClient.RequestInit | src/lib/api.ts:89-159 | the options spread after the built fields wins: a caller's method or headers replace the built ones; a body is sent exactly when it is truthy |
| ApiClient.CustomHeadersDropDefaults | src/lib/api.ts:89-94 | a request with custom headers lacking authorization and content type carries neither, even with a token stored |
| ApiClient.BearerSentWithoutCustomHeaders | src/lib/api.ts:70-94 | without custom headers a non-empty token always reaches the request as `Bearer <token>`, with the JSON content type |
| ApiClient.BareAndEnvelopeAgree | src/lib/api/schedule-api.ts:142-143 | a bare array and a `{results}` envelope with the same records unwrap to the same list |
| ApiClient.ErrorMessage | src/lib/api.ts:46 | the message is `message` when truthy, else `error` when truthy, else `An error occurred` |
| ApiClient.StringMessageVerbatim | src/lib/api.ts:44-55 | a non-empty string `message` is reported unchanged |
| ApiClient.HandleResponse | src/lib/api.ts:33-63 | a non-2xx response throws exactly; its message and errors come from a parsable JSON body, else the default; a 2xx JSON response yields the parsed value (or a syntax error), any other a text |
| AuthTokens.Read | src/lib/auth.ts:12-24 | a getter returns a value exactly when a window exists and the key is stored, and returns the stored value |
| AuthTokens.Written | src/lib/auth.ts:5-10 | `setTokens` stores both tokens under `access_token` and `refresh_token`, keeps every other key, and does nothing without a window |
| AuthTokens.Cleared | src/lib/auth.ts:26-31 | `clearTokens` removes exactly the two token keys and keeps every other entry |
| AuthTokens.Refreshing | src/lib/auth.ts:33-59 | without a truthy refresh token nothing is requested; a 2xx answer stores its access token (the text "undefined" when it has none) with the old refresh token and returns that access token, or nothing when it is missing; a refusal or a failure clears both tokens and returns null |
| AuthTokens.ReadAfterWrite | src/lib/auth.ts:5-24 | after `setTokens(a, r)` the getters return `a` and `r` |
| AuthTokens.RefreshFailsClosed | src/lib/auth.ts:50-58 | an attempted refresh that fails leaves neither token readable and returns null |
| AuthTokens.RefreshKeepsRefreshToken | src/lib/auth.ts:46-49 | a 2xx refresh carrying an access token makes it readable and keeps the refresh token |
| AuthTokens.MissingAccessStoresUndefined | src/lib/auth.ts:46-49 | a 2xx answer without `access` returns nothing yet leaves "undefined" readable as the access token, with the refresh token kept |
| AuthTokens.TokenStore.SetTokens | src/lib/auth.ts:5-10 | the storage becomes `Written` of the old storage |
| AuthTokens.TokenStore.GetAccessToken | src/lib/auth.ts:12-17 | returns `Read` of `access_token` and changes nothing |
| AuthTokens.TokenStore.GetRefreshToken | src/lib/auth.ts:19-24 | returns `Read` of `refresh_token` and changes nothing |
| AuthTokens.TokenStore.ClearTokens | src/lib/auth.ts:26-31 | the storage becomes `Cleared` of the old storage |
| AuthTokens.TokenStore.RefreshAccessToken | src/lib/auth.ts:33-59 | the storage and the result are those of `Refreshing` on the old storage, for every outcome including a missing `access` |
| AuthProvider.Stored | src/providers/auth-context.tsx:34-37 | a stored item counts exactly when it is present and non-empty |
| AuthProvider.Boot | src/providers/auth-context.tsx:33-48 | loading always ends; with both items stored the token is restored, and the user too when it parses; an unparsable user removes both items but leaves the token set; otherwise nothing else changes |
| AuthProvider.RefusalMessage | src/providers/auth-context.tsx:60-61 | the error text is `message`, else `detail`, else `Login failed` |
| AuthProvider.Login | src/providers/auth-context.tsx:50-78 | a refusal changes nothing and rejects with the refusal message (a null refusal body rejects with a type error); a 2xx `null` body rejects with a type error and changes nothing; success stores the access token (the text "undefined" when it is missing), the user text and a truthy refresh token, sets token and user, and is authenticated exactly when `access` is a non-empty string |
| AuthProvider.Logout | src/providers/auth-context.tsx:80-87 | exactly the three auth keys are removed, token and user are cleared, and the provider is unauthenticated |
| AuthProvider.BootRestoresLogin | src/providers/auth-context.tsx:33-75 | a reload after a successful login restores the same token and user |
| AuthProvider.LogoutSurvivesReload | src/providers/auth-context.tsx:33-87 | a reload after logout is not authenticated |
| AuthProvider.CorruptUserStaysAuthenticated | src/providers/auth-context.tsx:38-45 | an unparsable stored user leaves the provider authenticated with no user, and both items removed |
| AuthProvider.LoginAuthorizesApiClient | src/providers/auth-context.tsx:67 | after login the API client finds the stored access token, which is "undefined" when the answer had none |
| AuthProvider.RefreshInvisibleToApiClient | src/lib/auth.ts:33-59 | refreshing never changes the token the API client reads, since the two files use different keys |
| AuthProvider.Provider.Restore | src/providers/auth-context.tsx:33-48 | the provider state becomes `Boot` of the old state |
| AuthProvider.MissingAccessSignsInAfterReload | src/providers/auth-context.tsx:33-75 | an answer without `access` leaves the page unauthenticated, but a reload restores the stored "undefined" as the token and is authenticated |
| AuthProvider.Provider.LogIn | src/providers/auth-context.tsx:50-78 | the provider state and result are those of `Login`, for every outcome including a missing `access` and a `null` body |
| AuthProvider.Provider.LogOut | src/providers/auth-context.tsx:80-87 | the provider state becomes `Logout` of the old state |
| BackendUsers.Nickname | src/lib/api/staff-api.ts:64 | the nickname is the profile's, or empty when the profile or the nickname is missing |
| BackendUsers.SplitName | src/lib/api/staff-api.ts:65-70 | the first name is the part before the first space and holds no space; the two names are never longer than the nickname |
| BackendUsers.NameReassembles | src/lib/api/staff-api.ts:65-70 | for a nickname with a space, first name + space + last name gives the nickname back |
| BackendUsers.SingleWordName | src/lib/api/staff-api.ts:65-70 | a nickname without a space is all first name and the last name is empty |
| BackendUsers.MissingNickname | src/lib/api/staff-api.ts:64-70 | a missing profile or nickname gives two empty names |
| BackendUsers.JoinedNickname | src/lib/api/staff-api.ts:121 | the nickname sent is trimmed |
| BackendUsers.NicknameRoundTrip | src/lib/api/staff-api.ts:121-133 | a single-word first name with a trimmed last name comes back as the same two names after the trip through the backend |
| StaffApi.MapRole | src/lib/api/staff-api.ts:73-75 | the role is always trainer, manager or owner; manager exactly for `gym_manager`, owner exactly for `gym_owner` |
| StaffApi.MapStaffStatus | src/lib/api/staff-api.ts:76 | `on_leave` becomes `on-leave`, a missing or empty status becomes `active`, any other status is kept |
| StaffApi.MapBackendUserToStaff | src/lib/api/staff-api.ts:63-83 | every field of the mapped member in terms of the backend user: the split names, the mapped role and status, the phone with its fallback, the avatar exactly when the profile image is truthy and then equal to it, the defaults for a missing profile, and the fixed zero clients and empty schedule |
| StaffApi.FetchStaff | src/lib/api/staff-api.ts:88-102 | the staff list is the trainers and managers of the unwrapped response, mapped one by one, and every role in it is trainer or manager |
| StaffApi.StaffUsersExact | src/lib/api/staff-api.ts:97-99 | the kept users are exactly the trainers and managers, in response order |
| StaffApi.NoOwnerInStaffList | src/lib/api/staff-api.ts:97-101 | the staff list never holds an owner |
| StaffApi.OwnerOutsideDeclaredRoles | src/lib/api/staff-api.ts:75 | mapping a gym owner gives a role the declared staff role union lacks |
| StaffApi.FetchStaffMember | src/lib/api/staff-api.ts:107-114 | a member is returned exactly when the GET succeeds, mapped from the response |
| StaffApi.CreatePayload | src/lib/api/staff-api.ts:120-130 | the body has exactly six keys; the password defaults to `TempPassword123!`, the role is `gym_manager` only for a manager, the nickname is the trimmed full name, the bio defaults to empty and the image is null |
| StaffApi.CreatedRoleReadsBack | src/lib/api/staff-api.ts:126-133 | a created member reads back as manager exactly when created as manager, and as trainer otherwise |
| StaffApi.UpdatePayload | src/lib/api/staff-api.ts:139-161 | the body has a profile exactly when a name part or the bio is truthy; the nickname is sent exactly when a name part is truthy and the trimmed name is non-empty; the bio exactly when truthy |
| StaffApi.StatusNeverSent | src/lib/api/staff-api.ts:144-157 | an update carrying only a status sends an empty body |
| StaffApi.BlankNameSendsEmptyProfile | src/lib/api/staff-api.ts:146-152 | a blank first name alone sends an empty profile object |
| ClientsApi.MapBackendUserToClient | src/lib/api/clients-api.ts:79-95 | the names come from the nickname split, status is always active, the membership is the given name when truthy and "No Active Plan" otherwise, the last visit is the join date, the phone follows the profile with its fallback, and the avatar is the profile image exactly when that is truthy |
| ClientsApi.MapBackendPass | src/lib/api/clients-api.ts:100-109 | every field is carried over and the plan name is never empty: "Unknown Plan" replaces a missing or empty one |
| ClientsApi.FetchClients | src/lib/api/clients-api.ts:114-127 | the clients are the users with role `client`, mapped one by one in order, each with "No Active Plan" |
| ClientsApi.ClientUsersExact | src/lib/api/clients-api.ts:124 | the filter keeps exactly the users whose role is `client`, in response order |
| ClientsApi.FetchClientPasses | src/lib/api/clients-api.ts:132-140 | one pass per backend record of the unwrapped response, mapped in order |
| ClientsApi.AssignPayload | src/lib/api/clients-api.ts:149-152 | the body has exactly the keys `client` and `pricing_option`, holding the two ids |
| ClientsApi.FirstActivePassName | src/lib/api/clients-api.ts:168-170 | a name exactly when some pass is active, and then the plan name of the first active pass |
| ClientsApi.FetchClientWithPasses | src/lib/api/clients-api.ts:158-180 | a result exactly when both calls succeed; it holds all passes and the client labelled with the first active pass |
| ClientsApi.MembershipFromPasses | src/lib/api/clients-api.ts:168-171 | without an active pass the client shows "No Active Plan"; otherwise the first active pass's plan name |
| ScheduleApi.MapBackendSessionType | src/lib/api/schedule-api.ts:65-78 | `virtual`, `workshop` and `open_gym` map to personal training, workshop and open gym exactly; `physical` and every unknown value map to a group class |
| ScheduleApi.MapFrontendSessionType | src/lib/api/schedule-api.ts:83-95 | the result is one of the four backend values and reads back as the type it came from |
| ScheduleApi.BackendRoundTrip | src/lib/api/schedule-api.ts:65-95 | on the four backend values, backend to frontend to backend is the identity |
| ScheduleApi.UnknownTypeBecomesPhysical | src/lib/api/schedule-api.ts:76-77 | any other backend value is written back as `physical` |
| ScheduleApi.MapBackendSessionToSession | src/lib/api/schedule-api.ts:100-114 | every field of the mapped session; the trainer name is never empty ("TBD"), enrolment is the capacity when full and 0 otherwise, status is `full` exactly when full, location is "Online" exactly for `virtual` |
| ScheduleApi.MappedStatusUndeclared | src/lib/api/schedule-api.ts:112 | the mapped status is never one of the declared session statuses |
| ScheduleApi.MappedEnrolmentBounded | src/lib/api/schedule-api.ts:110 | with non-negative capacity, enrolment lies between 0 and the capacity |
| ScheduleApi.ListEndpoint | src/lib/api/schedule-api.ts:128-135 | the endpoint starts with the sessions path and has a query exactly when a week is given |
| ScheduleApi.FetchSessions | src/lib/api/schedule-api.ts:137-144 | one session per record of the unwrapped response, mapped in order |
| ScheduleApi.ListShapesAgree | src/lib/api/schedule-api.ts:142-143 | the bare array and the paginated envelope give the same sessions |
| ScheduleApi.FetchSession | src/lib/api/schedule-api.ts:149-156 | a session exactly when the GET succeeds, mapped from the response |
| ScheduleApi.CreatePayload | src/lib/api/schedule-api.ts:161-169 | the body has exactly six keys and no location; each field is the form's value, and the session type sent is the backend name of the chosen type, which reads back as that type |
| ScheduleApi.CreateReadsBack | src/lib/api/schedule-api.ts:161-172 | a created session reads back with its title, trainer, times, capacity and type, but its location recomputed from the type |
| ScheduleApi.UpdatePayload | src/lib/api/schedule-api.ts:190-197 | each key is present exactly when its field is defined and holds that field; the location is never sent |
| ScheduleApi.LocationOnlyUpdateIsEmpty | src/lib/api/schedule-api.ts:190-199 | an update of the location alone patches an empty object |
| PricingApi.PlanTypeOf | src/lib/api/pricing-api.ts:63-64 | a membership exactly when the credits are 0 or at least 999 |
| PricingApi.BillingCycleOf | src/lib/api/pricing-api.ts:67-76 | one-time for a missing or zero duration, monthly up to 31 days (negatives included), quarterly for 32..93, one-time for 94..359, yearly from 360 |
| PricingApi.OneTimeExactly | src/lib/api/pricing-api.ts:67-76 | one-time exactly for a missing or zero duration or 94..359 days |
| PricingApi.ValidityDays | src/lib/api/pricing-api.ts:86 | never 0: the duration when truthy, else 30 |
| PricingApi.MapBackendPricingToPlan | src/lib/api/pricing-api.ts:60-96 | every field of the mapped plan: type and cycle derived from credits and duration, two feature lines, never popular, always active, no subscribers |
| PricingApi.AsPricingPlan | src/lib/api/pricing-api.ts:91-93 | read as the declared plan type, the mapped plan has no status, currency or subscriber count |
| PricingApi.FetchPricingOptions | src/lib/api/pricing-api.ts:101-109 | one plan per record of the unwrapped response, mapped in order |
| PricingApi.FetchPricingOption | src/lib/api/pricing-api.ts:114-121 | a plan exactly when the GET succeeds |
| PricingApi.OrNum | src/lib/api/pricing-api.ts:130-131 | the number when it is a non-zero integer, the default for undefined, NaN or 0 |
| PricingApi.CreatePayload | src/lib/api/pricing-api.ts:126-132 | name, two-decimal price, credits defaulting to 0 and a duration defaulting to 30 that is never 0 |
| PricingApi.CreatedPlanReadsBack | src/lib/api/pricing-api.ts:126-135 | a created plan reads back with the type and cycle derived from the sent counts, whatever type and cycle the form chose |
| PricingApi.DefaultsChangeTheKind | src/lib/api/pricing-api.ts:130-131 | a plan created without counts reads back as a monthly membership |
| PricingApi.UpdatePayload | src/lib/api/pricing-api.ts:145-150 | name, credits and duration are sent exactly when defined; the price exactly when defined, as two-decimal text |
| PricingApi.PresentationOnlyUpdateIsEmpty | src/lib/api/pricing-api.ts:145-150 | an update of description, type, cycle or features alone patches an empty object |
| PricingApi.ArchiveRequest | src/lib/api/pricing-api.ts:176 | archiving issues a GET without a body |
| PricingApi.ArchiveIsFetch | src/lib/api/pricing-api.ts:173-178 | archiving is the same GET as fetching the plan and returns it still active |
| MockStaff.NextId | src/lib/mock-data/staff.ts:128 | the new id is the decimal text of the table length plus one, and reads back as that number |
| MockStaff.Merge | src/lib/mock-data/staff.ts:141-142 | every field the patch defines replaces the member's, every other field is kept |
| MockStaff.MergeEmpty | src/lib/mock-data/staff.ts:141-142 | an empty patch leaves the member unchanged |
| MockStaff.Created | src/lib/mock-data/staff.ts:124-133 | the table grows by exactly the new member at the end, which is the submitted data with the next id and the given hire date |
| MockStaff.Updated | src/lib/mock-data/staff.ts:135-146 | nothing is returned exactly when no member has the id, and then the table is unchanged; otherwise the first member with the id is replaced by its merge, which is returned |
| MockStaff.Deleted | src/lib/mock-data/staff.ts:148-156 | true exactly when some member has the id; then the first such member is removed and the rest keep their order |
| MockStaff.DeleteKeepsLaterDuplicates | src/lib/mock-data/staff.ts:150-152 | with two members sharing an id, a delete leaves one of them in the table |
| MockStaff.CreateAfterDeleteDuplicatesId | src/lib/mock-data/staff.ts:128-152 | deleting member "1" of two and creating one gives two members with id "2" |
| MockStaff.StaffTable.FetchAll | src/lib/mock-data/staff.ts:113-117 | returns the whole table |
| MockStaff.StaffTable.Fetch | src/lib/mock-data/staff.ts:119-122 | a member exactly when some member has the id, and then the first one |
| MockStaff.StaffTable.Create | src/lib/mock-data/staff.ts:124-133 | the new table and member are those of `MockStaff.Created` |
| MockStaff.StaffTable.Update | src/lib/mock-data/staff.ts:135-146 | the new table and result are those of `MockStaff.Updated` |
| MockStaff.StaffTable.Delete | src/lib/mock-data/staff.ts:148-156 | the new table and result are those of `MockStaff.Deleted` |
| MockPricing.Created | src/lib/mock-data/pricing.ts:124-136 | the table grows by exactly the new plan at the end: the submitted data with the id written as the decimal text of the old length plus one, the given date and zero subscribers |
| MockPricing.PricingTable.FetchAll | src/lib/mock-data/pricing.ts:119-122 | returns the whole table |
| MockPricing.PricingTable.Create | src/lib/mock-data/pricing.ts:124-136 | the new table and plan are those of `MockPricing.Created` |
| MockSchedule.GetCurrentWeekDates | src/lib/mock-data/schedule.ts:4-17 | the seven days of the Monday-to-Sunday week that contains today |
| MockSchedule.Created | src/lib/mock-data/schedule.ts:307-317 | the table grows by exactly the new session at the end: the draft with the id written as the decimal text of the old length plus one |
| MockSchedule.SessionTable.FetchSessions | src/lib/mock-data/schedule.ts:302-305 | every session, whatever week is asked for |
| MockSchedule.SessionTable.Create | src/lib/mock-data/schedule.ts:307-317 | the new table and session are those of `MockSchedule.Created` |
| Week.DayOfWeek | src/lib/mock-data/schedule.ts:6 | the weekday lies in 0..6 |
| Week.MondayOffset | src/lib/mock-data/schedule.ts:8 | the offset lies in 0..6 and steps back from the weekday to a Monday |
| Week.OffsetLandsOnMonday | src/lib/mock-data/schedule.ts:5-8 | stepping back by the offset always lands on a Monday |
| Week.WeekOf | src/lib/mock-data/schedule.ts:10-16 | seven consecutive days starting on a Monday, with today among them |
| Week.ColumnsMatchWeekdays | src/lib/mock-data/schedule.ts:10-16 | the i-th day of the week falls on weekday i+1 (Sunday last) |
| QueryCache.Apply | src/hooks/use-staff.ts:97-99 | invalidation marks exactly the entries under the prefix stale and keeps every key; setting data stores a fresh entry; removal drops exactly the entries under the prefix |
| QueryCache.FamiliesSeparate | src/hooks/use-staff.ts:15-18 | two key families that differ in their second element never match each other's keys |
| StaffHooks.Lists | src/hooks/use-staff.ts:15 | the list prefix extends `['staff']` |
| StaffHooks.List | src/hooks/use-staff.ts:16 | a list key lies under the list prefix and ends with the filters object |
| StaffHooks.Details | src/hooks/use-staff.ts:17 | the detail prefix extends `['staff']` |
| StaffHooks.Detail | src/hooks/use-staff.ts:18 | a detail key lies under the detail prefix and ends with the id |
| StaffHooks.ListsAndDetailsSeparate | src/hooks/use-staff.ts:15-18 | no key lies under both the list prefix and the detail prefix |
| StaffHooks.FiltersObject | src/hooks/use-staff.ts:22 | the filters object holds `role` and `status` exactly when they are defined |
| StaffHooks.ListKey | src/hooks/use-staff.ts:24 | the key is a list key, with the empty object when no filters are passed |
| StaffHooks.UseStaffMembersSpec | src/hooks/use-staff.ts:26-36 | the result keeps the fetched order, holds exactly the members passing both non-empty filters, and is everything when neither is set |
| StaffHooks.EmptyFilterOtherKey | src/hooks/use-staff.ts:24-29 | an empty role filter returns the same members as none but under a different key |
| StaffHooks.CreateEffects | src/hooks/use-staff.ts:56-58 | a create makes a single invalidation |
| StaffHooks.UpdateEffects | src/hooks/use-staff.ts:76-81 | an update makes no cache call exactly when no member came back |
| StaffHooks.DeleteEffects | src/hooks/use-staff.ts:97-99 | a delete invalidates and then removes |
| StaffHooks.AfterCreate | src/hooks/use-staff.ts:56-58 | after a create every list is stale and every other entry is unchanged |
| StaffHooks.AfterUpdate | src/hooks/use-staff.ts:76-81 | after an update every list is stale, the member's detail holds the returned member fresh, and the rest is unchanged |
| StaffHooks.AfterDelete | src/hooks/use-staff.ts:97-99 | after a delete every list is stale, nothing is left under the member's detail key, and the rest is unchanged |
| StaffHooks.DeleteSparesOtherMembers | src/hooks/use-staff.ts:97-99 | deleting one member keeps another member's cached detail |
| PricingHooks.Lists | src/hooks/use-pricing.ts:14 | the list prefix extends `['pricing']` |
| PricingHooks.List | src/hooks/use-pricing.ts:15 | a list key lies under the list prefix and ends with the filters object |
| PricingHooks.Details | src/hooks/use-pricing.ts:16 | the detail prefix extends `['pricing']` |
| PricingHooks.Detail | src/hooks/use-pricing.ts:17 | a detail key lies under the detail prefix and ends with the id |
| PricingHooks.DetailsOutsideLists | src/hooks/use-pricing.ts:14-17 | a detail key never lies under the list prefix |
| PricingHooks.UsePricingPlansSpec | src/hooks/use-pricing.ts:24-33 | the result keeps the fetched order, holds exactly the plans passing both non-empty filters, and is everything when neither is set |
| PricingHooks.StatusFilterEmptiesApiList | src/hooks/use-pricing.ts:29-31 | fetched plans carry no status, so any status filter empties the list |
| PricingHooks.MembershipFilterOnApiList | src/hooks/use-pricing.ts:26-28 | the membership filter keeps a fetched plan exactly when its credits are 0 or at least 999 |
| PricingHooks.CreateEffects | src/hooks/use-pricing.ts:43-44 | a create makes a single invalidation |
| PricingHooks.UpdateEffects | src/hooks/use-pricing.ts:61-63 | an update invalidates and then sets the detail |
| PricingHooks.DeleteEffects | src/hooks/use-pricing.ts:79-80 | a delete or archive makes a single invalidation |
| PricingHooks.AfterCreateDeleteOrArchive | src/hooks/use-pricing.ts:74-106 | delete and archive act on the cache like create: lists stale, every entry kept, a deleted plan's detail untouched |
| PricingHooks.AfterUpdate | src/hooks/use-pricing.ts:61-63 | after an update every list is stale, the plan's detail holds the returned plan fresh, and the rest is unchanged |
| ScheduleHooks.Weeks | src/hooks/use-schedule.ts:13 | the week prefix extends `['schedule']` |
| ScheduleHooks.Week | src/hooks/use-schedule.ts:14 | a week key lies under the week prefix and ends with the date |
| ScheduleHooks.Details | src/hooks/use-schedule.ts:15 | the detail prefix extends `['schedule']` |
| ScheduleHooks.Detail | src/hooks/use-schedule.ts:16 | a detail key lies under the detail prefix and ends with the id |
| ScheduleHooks.DetailsOutsideWeeks | src/hooks/use-schedule.ts:13-16 | a detail key never lies under the week prefix |
| ScheduleHooks.SessionsKey | src/hooks/use-schedule.ts:21 | the week key of the ISO text of the week start, or of `current` without one |
| ScheduleHooks.CreateEffects | src/hooks/use-schedule.ts:31-32 | a create or delete makes a single invalidation |
| ScheduleHooks.UpdateEffects | src/hooks/use-schedule.ts:62-64 | an update invalidates and then sets the detail |
| ScheduleHooks.AfterCreateOrDelete | src/hooks/use-schedule.ts:26-90 | after a create or delete every cached week, dated or current, is stale and nothing else changes |
| ScheduleHooks.AfterUpdate | src/hooks/use-schedule.ts:62-64 | after an update every week is stale, the session's detail holds the returned session fresh, and the rest is unchanged |
| ClientHooks.Lists | src/hooks/use-clients.ts:6 | the list prefix extends `['clients']` |
| ClientHooks.List | src/hooks/use-clients.ts:7 | a list key lies under the list prefix and ends with the filters object |
| ClientHooks.ListKey | src/hooks/use-clients.ts:12 | the key is a list key whose filters object holds `status` exactly when one is given |
| ClientHooks.UseClientsSpec | src/hooks/use-clients.ts:13-21 | the result keeps the fetched order, holds exactly the clients with the status when one is set, and is everything otherwise |
| Header.Segments | src/components/layout/header.tsx:31 | every segment is non-empty and holds no slash |
| Header.Name | src/components/layout/header.tsx:38 | the readable name of a known segment, the segment itself otherwise |
| Header.Breadcrumbs | src/components/layout/header.tsx:35-57 | one crumb per segment, and every crumb but the last is a link |
| Header.HrefExtends | src/components/layout/header.tsx:36 | each crumb's link is the previous one plus a slash and its own segment, so a strict extension of it |
| Header.SegmentsOfCanonical | src/components/layout/header.tsx:31 | a path written as a slash before each non-empty, slash-free segment splits back into exactly those segments |
| Header.LastCrumbIsPath | src/components/layout/header.tsx:31-46 | for a canonical path the segments read back exactly and the last crumb is plain text naming the whole path |
| Sidebar.DashboardExact | src/components/layout/sidebar.tsx:114-115 | the dashboard home is highlighted exactly on its own path |
| Sidebar.SectionCoversSubpages | src/components/layout/sidebar.tsx:114-115 | every section stays highlighted on any page below it |
| Sidebar.SectionHrefsIncomparable | src/components/layout/sidebar.tsx:32-58 | no section href is a prefix of another |
| Sidebar.AtMostOneMainActive | src/components/layout/sidebar.tsx:113-115 | at most one main entry is highlighted for any path |
| Sidebar.StaffingHighlightsStaff | src/components/layout/sidebar.tsx:115 | a path that merely starts with the staff path, such as `/dashboard/staffing`, highlights Staff |
| Sidebar.SecondaryExact | src/components/layout/sidebar.tsx:152 | no secondary entry is highlighted below its own page |
| WeeklyCalendar.Hours | src/components/schedule/weekly-calendar.tsx:18 | fifteen rows, the hours 6 to 20 in order |
| WeeklyCalendar.HourLabel | src/components/schedule/weekly-calendar.tsx:215 | every caption ends in " AM" before noon and in " PM" from noon on |
| WeeklyCalendar.HourLabelParts | src/components/schedule/weekly-calendar.tsx:215 | a caption reads back as its twelve-hour number, and ends in " PM" exactly from noon on |
| WeeklyCalendar.HourLabelsDistinct | src/components/schedule/weekly-calendar.tsx:209-218 | no two rows of the grid share a caption |
| WeeklyCalendar.TopMinutes | src/components/schedule/weekly-calendar.tsx:51 | the block's offset is the start's minute of the day minus 6:00 |
| WeeklyCalendar.DurationMinutes | src/components/schedule/weekly-calendar.tsx:52 | the height is the end's minute of the day minus the start's, so the block ends at the end's offset |
| WeeklyCalendar.HeightPx | src/components/schedule/weekly-calendar.tsx:77 | never below 40 pixels, and otherwise 64 pixels per hour less 4 |
| WeeklyCalendar.ShortSessionsMinimumHeight | src/components/schedule/weekly-calendar.tsx:77 | a session of at most 41.25 minutes gets the 40-pixel minimum |
| WeeklyCalendar.Thresholds | src/components/schedule/weekly-calendar.tsx:84-94 | the time shows from 60 minutes, the location from 90, and a block showing its location shows its time |
| WeeklyCalendar.MappedFullBadge | src/components/schedule/weekly-calendar.tsx:65 | a session read from the backend shows Full exactly when the backend says full or its capacity is not positive |
| WeeklyCalendar.WeekDates | src/components/schedule/weekly-calendar.tsx:21-32 | one date per column, consecutive from a Monday, with today among them |
| WeeklyCalendar.DayKeysMembership | src/components/schedule/weekly-calendar.tsx:128-135 | a day is a key exactly when some session starts on it |
| WeeklyCalendar.PushKeepsGrouping | src/components/schedule/weekly-calendar.tsx:131-134 | one push onto a day's list keeps the grouping exact for the longer prefix |
| WeeklyCalendar.SessionsByDay | src/components/schedule/weekly-calendar.tsx:125-138 | one key per start day that occurs, holding exactly that day's sessions in input order, never an empty list |
| WeeklyCalendar.SessionDayHasEntry | src/components/schedule/weekly-calendar.tsx:128-135 | every session's start day has an entry |
| WeeklyCalendar.DayColumn | src/components/schedule/weekly-calendar.tsx:224 | a day without an entry shows no sessions |
| WeeklyCalendar.ColumnOfSession | src/components/schedule/weekly-calendar.tsx:130-134 | a session lies in a day's list exactly when it starts that day |
| WeeklyCalendar.BucketKeepsOrder | src/components/schedule/weekly-calendar.tsx:134 | each day's list keeps the input order |
| WeeklyCalendar.BucketSizesOverDays | src/components/schedule/weekly-calendar.tsx:125-138 | over distinct days, the list sizes add up to the number of sessions starting on one of them |
| WeeklyCalendar.BucketsPartitionSessions | src/components/schedule/weekly-calendar.tsx:125-138 | when the days cover every start day, the lists hold every session exactly once |
| AddStaffModal.BackStep | src/components/staff/add-staff-modal.tsx:357 | Back never goes below step 1 and otherwise steps back by one |
| AddStaffModal.NextStep | src/components/staff/add-staff-modal.tsx:368 | Next never goes past step 3 and otherwise steps on by one |
| AddStaffModal.StepsInverse | src/components/staff/add-staff-modal.tsx:357-368 | Back undoes Next before the last step, Next undoes Back after the first, and both stay within 1..3 |
| AddStaffModal.CanProceed | src/components/staff/add-staff-modal.tsx:129-138 | on step 1 exactly when the three basic fields are filled and error-free, on step 2 exactly when a specialization is chosen, always on step 3 |
| AddStaffModal.OneLetterNameProceedsButFails | src/components/staff/add-staff-modal.tsx:32-33 | before validation a one-letter first name passes step 1 yet the schema refuses the form |
| AddStaffModal.SubmitEnabled | src/components/staff/add-staff-modal.tsx:378 | the submit button is enabled exactly when no create is pending and a permission is chosen |
| AddStaffModal.Submitted | src/components/staff/add-staff-modal.tsx:114-120 | the create input carries the form values, with no password and no bio |
| AddStaffModal.WizardCreatePayload | src/components/staff/add-staff-modal.tsx:114-120 | every wizard member is posted with the default password and an empty bio, reads back as manager only for the manager role, and its specializations and permissions are not sent |
| AddStaffModal.StaffWizard.Back | src/components/staff/add-staff-modal.tsx:357 | the step becomes `BackStep` of the old one and stays in 1..3; the selections are kept |
| AddStaffModal.StaffWizard.Next | src/components/staff/add-staff-modal.tsx:368 | the step becomes `NextStep` of the old one and stays in 1..3; the selections are kept |
| AddStaffModal.StaffWizard.ToggleSpecialization | src/components/staff/add-staff-modal.tsx:96-103 | a chosen specialization is removed, any other is appended; nothing else changes |
| AddStaffModal.StaffWizard.TogglePermission | src/components/staff/add-staff-modal.tsx:105-112 | a chosen permission is removed, any other is appended; nothing else changes |
| AddStaffModal.StaffWizard.CanGoOn | src/components/staff/add-staff-modal.tsx:129-138 | answers `CanProceed` for the current step and selections |
| AddStaffModal.StaffWizard.Reset | src/components/staff/add-staff-modal.tsx:140-146 | back to step 1 with nothing selected |
| CreatePricingModal.TrimAll | src/components/pricing/create-pricing-modal.tsx:82 | each line is trimmed, one for one |
| CreatePricingModal.ParseFeaturesSpec | src/components/pricing/create-pricing-modal.tsx:80-83 | the features are the non-empty trimmed lines in order, none with surrounding whitespace or a newline |
| CreatePricingModal.TrimmedPieceSingleLine | src/components/pricing/create-pricing-modal.tsx:82 | a trimmed line is trimmed and holds no newline |
| CreatePricingModal.FeaturesRoundTrip | src/components/pricing/create-pricing-modal.tsx:80-83 | features written one per line read back as the same list |
| CreatePricingModal.SubmittedFeatures | src/components/pricing/create-pricing-modal.tsx:92 | never empty: the parsed features, or "Full gym access" when none survive |
| CreatePricingModal.SubmittedMaxClasses | src/components/pricing/create-pricing-modal.tsx:93 | a class count is sent exactly for a class pack with a filled field, parsed as an integer |
| CreatePricingModal.Submitted | src/components/pricing/create-pricing-modal.tsx:86-95 | the plan input carries name, description, type, cycle, the parsed price and validity, the submitted features and class count |
| CreatePricingModal.AcceptedValiditySent | src/components/pricing/create-pricing-modal.tsx:38-94 | for a form the schema accepts, the duration posted is the typed number of days, never the default |
| CreatePricingModal.MembershipReadsBack | src/components/pricing/create-pricing-modal.tsx:93 | a membership is posted with zero credits and reads back as a membership |
| CreatePricingModal.UnparsedClassPackReadsBackAsMembership | src/components/pricing/create-pricing-modal.tsx:93 | a class pack with an empty or unparsable count reads back as a membership |
| CreateSessionModal.DefaultTime | src/components/schedule/create-session-modal.tsx:69-72 | the default time is at least five characters and ends on the hour |
| CreateSessionModal.DefaultTimeReadsBack | src/components/schedule/create-session-modal.tsx:69-72 | for an hour below 100 the time is five characters whose first two read back as the hour, or the current hour when none is given |
| CreateSessionModal.EndHour | src/components/schedule/create-session-modal.tsx:89 | the end hour is one past a truthy start hour, and undefined for none or 0 |
| CreateSessionModal.DefaultSlotIsOneHour | src/components/schedule/create-session-modal.tsx:88-89 | the slot starts at the given hour and ends an hour later, except from midnight, where it ends at the current hour |
| CreateSessionModal.TrainersSpec | src/components/schedule/create-session-modal.tsx:125 | the trainers offered are exactly the active trainers, in order, and none while staff is loading |
| CreateSessionModal.ManagersNotSelectable | src/components/schedule/create-session-modal.tsx:125 | a gym manager or owner is never offered as a trainer |
| CreateSessionModal.Submitted | src/components/schedule/create-session-modal.tsx:97-111 | title, type, trainer and location are kept, the times are the ISO text of date and time, and the capacity is the parsed count, at least 1 |
| CreateSessionModal.SubmittedReadsBack | src/components/schedule/create-session-modal.tsx:97-111 | a submitted session reads back with its title, type, trainer and capacity, but with "Online" or "Studio" in place of the typed location |
| NameSearch.CaseInsensitive | src/app/dashboard/clients/page.tsx:55-57 | the search does not depend on the case of the query |
| NameSearch.NameOccurrenceMatches | src/app/dashboard/clients/page.tsx:56 | a query that occurs, ignoring case, in the full name matches |
| NameSearch.EmailOccurrenceMatches | src/app/dashboard/clients/page.tsx:57 | a query that occurs, ignoring case, in the email matches |
| NameSearch.MatchOccurs | src/app/dashboard/clients/page.tsx:54-57 | a non-empty query matches only where it occurs, ignoring case, in the full name or the email |
| ClientsPage.FilteredClients | src/app/dashboard/clients/page.tsx:53-62 | a list exactly when the clients are loaded |
| ClientsPage.FilteredClientsSpec | src/app/dashboard/clients/page.tsx:53-62 | the shown clients keep their order and are exactly those matching the search and the status tab; an empty search on the all tab shows everyone |
| ClientsPage.CountsWithinTotal | src/app/dashboard/clients/page.tsx:65-67 | the active, pending and inactive counts together, and the assigned count, never exceed the total |
| ClientsPage.ShownIds | src/app/dashboard/clients/page.tsx:222 | the ids of the shown clients, in order, and none while loading |
| ClientsPage.SelectAllChecksHeader | src/app/dashboard/clients/page.tsx:219-222 | after select-all the header box is checked exactly when some client is shown |
| ClientsPage.HeaderCheckedWithUnselectedRow | src/app/dashboard/clients/page.tsx:219 | the header box compares counts only: it shows checked with a selection that misses the shown client |
| ClientsPage.Selection.Toggle | src/app/dashboard/clients/page.tsx:69-75 | a selected id is removed, any other is appended |
| ClientsPage.Selection.SetAll | src/app/dashboard/clients/page.tsx:220-225 | checking selects the shown ids, unchecking selects nothing |
| ClientsPage.Selection.Clear | src/app/dashboard/clients/page.tsx:178 | the selection becomes empty |
| ClientsPage.Selection.AssignStaff | src/app/dashboard/clients/page.tsx:77-85 | a toast with the count and the member's name exactly when the member is found and something is selected, and then the selection is cleared; otherwise nothing changes |
| ClientsPage.ToggleBack | src/app/dashboard/clients/page.tsx:69-75 | toggling an id twice gives the same selected set, and the same list when it was not selected |
| StaffPage.FilteredStaffSpec | src/app/dashboard/staff/page.tsx:31-41 | the shown members keep their order and are exactly those matching the search, role and status; no search and both filters on all shows everyone |
| StaffPage.RoleFilterNarrows | src/app/dashboard/staff/page.tsx:31-41 | choosing a role shows a subsequence of what the all-roles filter shows |
| StaffPage.CountsWithinTotal | src/app/dashboard/staff/page.tsx:44-45 | the active and on-leave counts together, and the trainer count, never exceed the total |
| PricingPage.FilteredPlans | src/app/dashboard/pricing/page.tsx:20-27 | the shown plans keep their order and are exactly those in the tab |
| PricingPage.TabMeaning | src/app/dashboard/pricing/page.tsx:20-27 | all shows the active plans, the type tabs the active plans of that type, archived the archived ones; drafts and plans without a status show in no tab |
| PricingPage.TabsSeparate | src/app/dashboard/pricing/page.tsx:20-27 | no plan is both active and archived, the two type tabs are disjoint and together make up the all tab |
| PricingPage.TypeTabsAddUp | src/app/dashboard/pricing/page.tsx:20-27 | the two type tabs hold as many plans as the all tab |
| PricingPage.ActivePlansCount | src/app/dashboard/pricing/page.tsx:29 | the active count is the size of the all tab, 0 while loading |
| PricingPage.TotalSubscribersNonNegative | src/app/dashboard/pricing/page.tsx:30 | with no negative counts the subscriber total is never negative |
| PricingPage.MissingCountsAddNothing | src/app/dashboard/pricing/page.tsx:30 | plans without a subscriber count add nothing to the total |
| PricingPage.FetchedPlansShowNowhere | src/app/dashboard/pricing/page.tsx:20-30 | plans fetched from the backend show in no tab, count as no active plan and no subscribers |
| SchedulePage.TotalSessions | src/app/dashboard/schedule/page.tsx:71 | the number of sessions, 0 while loading |
| SchedulePage.RoundDiv | src/app/dashboard/schedule/page.tsx:137 | the quotient rounded half up |
| SchedulePage.FillRate | src/app/dashboard/schedule/page.tsx:137 | 0 without capacity, else the percentage rounded half up |
| SchedulePage.FillRateBounds | src/app/dashboard/schedule/page.tsx:137 | with enrolment within capacity the rate lies in 0..100, is 0 with nobody enrolled and 100 when full |
| SchedulePage.TotalsBounded | src/app/dashboard/schedule/page.tsx:72-73 | when every session has enrolment within capacity so do the totals, and the rate lies in 0..100 |
| SchedulePage.FetchedFillRate | src/app/dashboard/schedule/page.tsx:71-137 | on fetched sessions the rate lies in 0..100, is 100 when all are full and 0 when none is |
| StaffCard.FirstCharText | src/components/staff/staff-card.tsx:28 | the first character, or the text `undefined` for an empty name |
| StaffCard.Initials | src/components/staff/staff-card.tsx:28 | the two first letters for two non-empty names |
| StaffCard.InitialsTwoChars | src/components/staff/staff-card.tsx:28 | the initials are two characters exactly when both names are non-empty |
| StaffCard.SingleWordNicknameInitials | src/components/staff/staff-card.tsx:28 | a backend member with a one-word nickname shows its first letter followed by `undefined` |
| StaffCard.Gradient | src/components/staff/staff-card.tsx:53 | the role's gradient, or the trainer's for any other role |
| StaffCard.GradientsOfRoles | src/components/staff/staff-card.tsx:32-53 | each of the five roles has its own gradient, and an owner gets the trainer's |
| StaffCard.Badges | src/components/staff/staff-card.tsx:127 | the first three specializations, or all when there are fewer |
| StaffCard.MoreBadge | src/components/staff/staff-card.tsx:136-142 | a "+n more" badge exactly when there are more than three |
| StaffCard.BadgesAccountForAll | src/components/staff/staff-card.tsx:127-142 | without the badge every specialization shows; with it the number in the badge is exactly the count of hidden ones |
| PricingCard.StatusConfig | src/types/pricing.ts:47-51 | every declared status has a non-empty badge label and colour |
| PricingCard.StatusLabelsDistinct | src/types/pricing.ts:47-51 | different statuses show different badge labels |
| PricingCard.ArchiveLabel | src/components/pricing/pricing-card.tsx:75 | "Restore" exactly for an archived plan and "Archive" for every other |
| PricingCard.ClassPackLine | src/components/pricing/pricing-card.tsx:96-100 | nothing unless the plan is a class pack with a class count; a count of 0 renders the bare text "0"; any other count renders the whole line, with the separator exactly as the file holds it ("â€¢") and an undefined validity rendered as no text |
| PricingCard.ClassPackLineReadsBack | src/components/pricing/pricing-card.tsx:96-100 | whenever the line is shown, `parseInt` of it gives back the plan's non-zero class count |
| PricingCard.MissingValidityLeavesGap | src/components/pricing/pricing-card.tsx:98 | an undefined validity leaves an empty gap before " days" in "<n> classes â€¢ Valid for  days" |
| PricingCard.FeatureItems | src/components/pricing/pricing-card.tsx:107-114 | one item per feature, keyed by its index |
| PricingCard.FeatureItemsFaithful | src/components/pricing/pricing-card.tsx:107-114 | the items show the features in order, with distinct keys |
| PricingCard.RenderCard | src/components/pricing/pricing-card.tsx:27-136 | the card throws exactly when the plan has no status; otherwise it shows the status badge, the popular flag, the archive label, the class-pack line and the feature items |
| PricingCard.FetchedPlanCard | src/components/pricing/pricing-card.tsx:28-52 | the card of a plan fetched from the backend cannot render, because it has no status and the status lookup throws |

## Left out

- `AuthProvider.Login`: `data.user` is taken to be defined. An undefined user, which `setUser` would store as undefined, is not modelled.
- Overlapping sessions in the weekly calendar are drawn one over another, since the calendar positions each block absolutely. The model places each block and does not say what is visible.
- The mock tables return their module-level arrays by reference, so a caller that mutates a result changes the table. `FetchAll` and `FetchSessions` return value copies and do not capture that aliasing.
- Network, `fetch` and `Promise`s: each backend answer is an input to the model, a success or a refusal with its body. A `Promise.all` of two calls is two such inputs.
- The delete calls `deleteStaffMemberApi`, `deleteSessionApi` and `deletePricingOptionApi` are modelled as the request each sends. Their try/catch turns any outcome into a boolean, and that adds nothing to model.
- JSON text: `JSON.parse` is a function parameter and `JSON.stringify` output is not modelled. Request bodies are kept as structured values.
- react-query internals (fetching, retries, stale times, subscriptions): only the invalidate, set and remove calls and their key prefixes are modelled, on an abstract map from keys to entries.
- Timers, the router, toasts, the console and confirm dialogs are left out, because they have no effect on the modelled state apart from the calls they make.
- Floating point: prices are symbolic (`ParseFloat`, `ToFixed2`), so price arithmetic is not evaluated.
- The pricing page's monthly revenue and average plan value statistics are not modelled, because they are float sums and quotients of prices.
- `WeeklyCalendar.HeightPx`: pixel sizes are exact reals, not IEEE doubles. Positions are computed in whole minutes.
- `SchedulePage.FillRate`: `Math.round` is exact round-half-up on integers, with no float division.
- Dates and time zones: days are integers and day 0 is a Thursday. `toISOString` is the `iso` parameter and `toDateString` is `dateKey`. `getDefaultDate`, `isToday` and the current-time line are not modelled. `formatDateForApi` is replaced by the two day strings the list endpoint receives. The schedule page's week navigation buttons are not modelled.
- `Text.Lower`: lower-casing covers ASCII letters only. Unicode case folding is not modelled.
- JavaScript strings are sequences of UTF-16 code units, while a Dafny `char` is a Unicode scalar value. So `StaffCard.FirstCharText` (`name[0]`) and every schema length check (`min(2)`) differ from the source on names with characters outside the Basic Multilingual Plane, where the source picks half a surrogate pair and counts two units.
- `ApiClient.BuiltHeaders`: the caller's header names are taken to be lower-case already. A `Headers` object would lower-case them itself.
- Form validation: select values are assumed to be among their enum options. The zod email and price refinements are boolean inputs.
- The edit-session modal, the login page, the landing page, the layouts and the protected-route wrapper are not part of this model.
- The proxy route and the branding fetch are not part of this model.
- The mock clients module is not part of this model, so its list is an input to the clients hook. The fixture contents and `formatDateTime` are not modelled either.
- The breadcrumb name map is a plain map, so keys inherited from the JavaScript object prototype are not modelled.
- The staff page's grid view is not modelled. Only the filtered list it renders is.
