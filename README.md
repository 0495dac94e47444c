# Seekr talent hub: decision rules of the pages

Seekr is a social network for athletes, coaches and scouts, and businesses. The
web client keeps its data, accounts, files and realtime messages in a hosted
backend. What the client decides for itself is a set of small rules inside its
page components:

- the sign-up and login form checks, including the GSTIN shape test;
- the Aadhaar digit sanitiser;
- which rows and storage paths each submit handler writes;
- the search and filter rules of the Feed, Discover, Connect and Opportunities
  pages;
- the relative-time labels and the send guard of the messaging page;
- the save logic of the profile editor and the reel upload dialog.

This project restates those rules in Dafny and proves their properties for all
inputs.

A backend call is not modelled as code. The handler's result is the ordered list
of writes it issues (`Backend.Request`). The answers it waits for come in as
parameters: success or error, an optional user, optional rows. Reads and clocks
are parameters too. The email check of the schema library is an abstract
predicate `isEmail`. Case folding is ASCII-only.

Modules follow the source files:

| module | file |
|---|---|
| `Auth` | `src/pages/Auth.tsx` |
| `Feed` | `src/pages/Feed.tsx` |
| `Discover` | `src/pages/Discover.tsx` |
| `Connect` | `src/pages/Connect.tsx` |
| `Opportunities` | `src/pages/Opportunities.tsx` |
| `Messages` | `src/pages/MessagesNew.tsx` |
| `EditProfile` | `src/components/EditProfileDialog.tsx` |
| `UploadReel` | `src/components/UploadReelDialog.tsx` |

There are also three helper modules:

- `Text`: lower-casing, `includes`, ECMAScript `trim`, the two `split` uses,
  decimal rendering, and JavaScript string length in UTF-16 code units (the
  length the form schemas check).
- `Seqs`: `filter`, `map`, and the subsequence relation.
- `Backend`: the row and request datatypes, and the public-URL and storage-path
  functions.

Handlers that update component state are methods of a class per component. Each
method's `ensures` ties its outputs and new state to a specification function.
The properties are proved about those functions.

Where the code and its wording differ, the model follows the code:

- The Aadhaar schema checks only the length (12), although its message says
  "12 digits". Digits come from the input sanitiser, and
  `AcceptedAadharIsTwelveDigits` proves the combination.
- Blog posts carry `content`, not `description`, so the feed search never
  matches a blog post's body.
- Opportunities in the feed have no profile join, so the author name is always
  "".

## Model

| member | source | states |
|---|---|---|
| Auth.LoginIssue | seekr-talent-hub-main/src/pages/Auth.tsx:14-17 | a login form passes iff the email predicate holds and the password is at least 6 UTF-16 code units long, as JavaScript counts string length; a bad email is reported first, then a short password |
| Auth.AstralPasswordIsLongEnough | seekr-talent-hub-main/src/pages/Auth.tsx:16 | three characters above U+FFFF count as six code units, so such a password passes the minimum of 6 |
| Auth.SignupIssue | seekr-talent-hub-main/src/pages/Auth.tsx:19-24 | a sign-up form passes iff the login rules hold, the full name is 2..100 UTF-16 code units long and the Aadhaar value exactly 12; login issues are reported first, then the name, then the Aadhaar length |
| Auth.BusinessIssue | seekr-talent-hub-main/src/pages/Auth.tsx:26-35 | a business form passes iff the name and contact are 2..100 UTF-16 code units, the email holds, the password has ≥6, the phone ≥10 and the location ≥3 code units, the GST number has the GSTIN shape, and the Aadhaar value has length 12; the issue reported is the first failing rule in that field order |
| Auth.GstByPosition | seekr-talent-hub-main/src/pages/Auth.tsx:33 | the GST regular expression accepts exactly the 15-character strings of 2 digits, 5 capitals, 4 digits, a capital, one of [1-9A-Z], the letter Z and one of [0-9A-Z] |
| Auth.GstLength | seekr-talent-hub-main/src/pages/Auth.tsx:33 | every accepted GST number has length 15 |
| Auth.GstPlaceholder | seekr-talent-hub-main/src/pages/Auth.tsx:541 | the form's placeholder "22AAAAA0000A1Z5" is accepted |
| Auth.LowerCaseGstRejected | seekr-talent-hub-main/src/pages/Auth.tsx:33 | the placeholder written in lower case is rejected |
| Auth.SanitiseDigits | seekr-talent-hub-main/src/pages/Auth.tsx:361 | the Aadhaar sanitiser returns only digits, never lengthens the input and keeps every digit of it |
| Auth.SanitiseKeepsEveryDigit | seekr-talent-hub-main/src/pages/Auth.tsx:361 | the sanitised value holds each digit exactly as many times as the input, and no other character |
| Auth.SanitiseKeepsOrder | seekr-talent-hub-main/src/pages/Auth.tsx:361 | the sanitised value is an order-preserving subsequence of the input |
| Auth.SanitiseIdempotent | seekr-talent-hub-main/src/pages/Auth.tsx:463 | sanitising twice is sanitising once |
| Auth.AcceptedAadharIsTwelveDigits | seekr-talent-hub-main/src/pages/Auth.tsx:21 | a sanitised Aadhaar value that passes the sign-up schema is exactly twelve digits |
| Auth.ModeAfterQuery | seekr-talent-hub-main/src/pages/Auth.tsx:45-50 | the query values "login", "signup" and "business" select their mode; every other value, or none, leaves the mode unchanged |
| Auth.AuthPage.OnQueryChange | seekr-talent-hub-main/src/pages/Auth.tsx:45-50 | the page's mode field becomes ModeAfterQuery of the old mode |
| Auth.SignupProfile | seekr-talent-hub-main/src/pages/Auth.tsx:163-171 | the row carries the new user's id, the full name, email, Aadhaar value and the given ID-proof URL; an empty sport or location is stored as null, a non-empty one as typed |
| Auth.ProfileAndRole | seekr-talent-hub-main/src/pages/Auth.tsx:163-180 | the profile row is always inserted first; the role row is sent iff the profile insert succeeded; the outcome is success iff neither insert failed |
| Auth.SignupWrites | seekr-talent-hub-main/src/pages/Auth.tsx:144-180 | with an ID-proof file, its upload to the user's folder is the first write; without one, nothing is uploaded; next comes the profile row for this user with IdProofUrl of the upload; the role insert follows iff that insert succeeded; success iff neither insert failed, whatever the upload did |
| Auth.IdProofUrl | seekr-talent-hub-main/src/pages/Auth.tsx:145-161 | the id_proof_url column is the public URL of the document's path in "documents" iff a file was chosen and its upload succeeded, and null otherwise |
| Auth.SignupRun | seekr-talent-hub-main/src/pages/Auth.tsx:121-194 | a schema failure, or a scout/coach without an ID proof, sends nothing; otherwise the account sign-up is the first request, followed for a returned user by exactly the writes of SignupWrites; success iff the form passes, the account call returns a user and neither insert fails, and it ends with the role insert |
| Auth.SignupAccount | seekr-talent-hub-main/src/pages/Auth.tsx:134-183 | after a passing form: the sign-up call first; success iff it returns a user and the profile and role inserts succeed; for a returned user the rest is SignupWrites |
| Auth.BusinessRun | seekr-talent-hub-main/src/pages/Auth.tsx:196-255 | a schema failure sends nothing; every role written is "business"; every profile's full_name is the contact person; the outcome is success iff the schema passes, the account call returns a user and no insert fails, and then exactly sign-up, profile, role and business row were sent |
| Auth.BusinessProfile | seekr-talent-hub-main/src/pages/Auth.tsx:214-220 | the business profile row has the user's id, the contact person as full name, the email, the location, the Aadhaar value, and no sport or ID-proof URL |
| Auth.BusinessWrites | seekr-talent-hub-main/src/pages/Auth.tsx:213-241 | the inserts after a business account exists are a prefix of profile, role, business row; each is sent iff all earlier ones succeeded; success iff none failed |
| Auth.LoginRun | seekr-talent-hub-main/src/pages/Auth.tsx:94-119 | a sign-in is sent iff the form passes, and the login succeeds iff the form passes and the backend accepts |
| Auth.AuthPage.HandleLogin | seekr-talent-hub-main/src/pages/Auth.tsx:94-119 | the requests and outcome equal LoginRun; loading is false afterwards |
| Auth.AuthPage.HandleSignup | seekr-talent-hub-main/src/pages/Auth.tsx:121-194 | the requests and outcome equal SignupRun; loading is false afterwards |
| Auth.AuthPage.SendSignupRows | seekr-talent-hub-main/src/pages/Auth.tsx:144-184 | the writes after the account call, with the reassigned ID-proof URL, equal SignupWrites |
| Auth.AuthPage.HandleBusinessSignup | seekr-talent-hub-main/src/pages/Auth.tsx:196-255 | the requests and outcome equal BusinessRun; loading is false afterwards |
| Auth.AuthPage.SendBusinessRows | seekr-talent-hub-main/src/pages/Auth.tsx:213-241 | the inserts and outcome after the account call equal BusinessWrites |
| Backend.StoragePathInUserFolder | seekr-talent-hub-main/src/pages/Auth.tsx:148-149 | every upload path starts with the user id and "/" and ends with the stem, ".", and the file's extension |
| Text.Extension | seekr-talent-hub-main/src/components/EditProfileDialog.tsx:74 | the extension contains no '.', and it is the whole file name exactly when the name has no '.' |
| Text.ExtensionSplitsName | seekr-talent-hub-main/src/components/UploadReelDialog.tsx:46 | a name containing '.' is its stem, the last '.', and the extension |
| Text.IncludesIffOccurs | seekr-talent-hub-main/src/pages/Discover.tsx:310 | `includes` holds iff the needle occurs at some index of the text |
| Text.Utf16Length | seekr-talent-hub-main/src/pages/Auth.tsx:14-35 | JavaScript string length is between the number of characters and twice it, and equals it iff no character lies above U+FFFF |
| Text.Trim | seekr-talent-hub-main/src/pages/MessagesNew.tsx:200 | the trimmed text is a piece of the input with only JavaScript white space before and after it, and neither end of it is white space; it is empty iff the input is all white space |
| Text.TrimUnique | seekr-talent-hub-main/src/pages/MessagesNew.tsx:200 | any piece of a string cut that way is its trim, so the contract of Trim fixes its value |
| Text.TrimIdempotent | seekr-talent-hub-main/src/pages/MessagesNew.tsx:205 | trimming twice is trimming once |
| Seqs.FilterIsSubsequence | seekr-talent-hub-main/src/pages/Discover.tsx:308 | every `filter` result is an order-preserving subsequence of its input |
| Seqs.FilterEmbedding | seekr-talent-hub-main/src/pages/Discover.tsx:308 | the filter result is its input read at strictly increasing positions |
| Seqs.FilterCounts | seekr-talent-hub-main/src/pages/Discover.tsx:308 | a filter keeps every occurrence of a passing element, repeats included, and no occurrence of a failing one |
| Feed.Search | seekr-talent-hub-main/src/pages/Feed.tsx:207-218 | an empty query returns the items unchanged; otherwise an item is kept iff the lowercased query occurs in its lowercased title, description or author name, a missing field counting as "" |
| Feed.EmptyQueryMatchesAll | seekr-talent-hub-main/src/pages/Feed.tsx:207 | skipping the search for an empty query changes nothing, since "" matches every item |
| Feed.SearchKeepsOrder | seekr-talent-hub-main/src/pages/Feed.tsx:208-215 | the search result is an order-preserving subsequence of the collected content |
| Feed.CollectedAllRanked | seekr-talent-hub-main/src/pages/Feed.tsx:194-205 | the "all" tab holds every item, with reels, then blogs, then achievements, then opportunities |
| Feed.CollectedAllKinds | seekr-talent-hub-main/src/pages/Feed.tsx:194-205 | on the "all" tab, each kind's items are its loaded list, whole and in input order |
| Feed.CollectedSingleTab | seekr-talent-hub-main/src/pages/Feed.tsx:194-205 | a named tab shows exactly its own list, all of that kind; an unknown tab shows nothing |
| Feed.FeedPage.FilteredContent | seekr-talent-hub-main/src/pages/Feed.tsx:191-219 | the content built by the four conditional appends and the search is Visible of the page state |
| Feed.FeedPage.HandleLike | seekr-talent-hub-main/src/pages/Feed.tsx:153-179 | with no user, or no loaded item with that id, nothing is sent; otherwise the update sets likes_count to the first matching item's count plus one |
| Feed.Find | seekr-talent-hub-main/src/pages/Feed.tsx:158 | `find` returns the first position passing the test, or none when no element passes |
| Discover.FilterPeople | seekr-talent-hub-main/src/pages/Discover.tsx:308-333 | an athlete, coach or scout is kept iff the query matches the name, sport or location, and the sport is "all" or equals the person's sport ignoring case |
| Discover.FilterBusinesses | seekr-talent-hub-main/src/pages/Discover.tsx:335-339 | a business is kept iff the query matches its name, type or location; there is no sport filter |
| Discover.NoFilterListsEveryone | seekr-talent-hub-main/src/pages/Discover.tsx:309-313 | an empty query with sport "all" lists every person |
| Discover.NoFilterListsEveryBusiness | seekr-talent-hub-main/src/pages/Discover.tsx:335-339 | an empty query lists every business |
| Discover.FilterPeopleKeepsOrder | seekr-talent-hub-main/src/pages/Discover.tsx:308-333 | the people lists keep their input order |
| Discover.FilterBusinessesKeepsOrder | seekr-talent-hub-main/src/pages/Discover.tsx:335 | the business list keeps its input order |
| Discover.SportSelectionIgnoresCase | seekr-talent-hub-main/src/pages/Discover.tsx:313 | a sport selection and its lower-case form pick the same people (unless either is literally "all") |
| Discover.SelectedSportOnly | seekr-talent-hub-main/src/pages/Discover.tsx:313 | with a sport selected, every listed person plays it, ignoring case |
| Connect.FilterCoaches | seekr-talent-hub-main/src/pages/Connect.tsx:100-104 | a coach is kept iff the query matches the name, sport or location; the selected location plays no part |
| Connect.FilterTurfs | seekr-talent-hub-main/src/pages/Connect.tsx:106-113 | a turf is kept iff the query matches, and the selected location is "all" or occurs in the turf's location ignoring case |
| Connect.FilterTurfsKeepsOrder | seekr-talent-hub-main/src/pages/Connect.tsx:106 | the turf list keeps its input order |
| Connect.FilterCoachesKeepsOrder | seekr-talent-hub-main/src/pages/Connect.tsx:100 | the coach list keeps its input order |
| Connect.City | seekr-talent-hub-main/src/pages/Connect.tsx:117 | a city is the trimmed text before the first comma of its location: it has no comma, no white space at either end, and occurs in its location |
| Connect.CityOfListedLocation | seekr-talent-hub-main/src/pages/Connect.tsx:117 | a location written as a comma-free, unpadded city, a comma and anything else is listed under that city |
| Connect.Dedup | seekr-talent-hub-main/src/pages/Connect.tsx:116 | the deduplicated list has no repeats and the same elements as its input |
| Connect.DedupFirstAppearanceOrder | seekr-talent-hub-main/src/pages/Connect.tsx:116 | the distinct elements are ordered by first appearance |
| Connect.Cities | seekr-talent-hub-main/src/pages/Connect.tsx:116-119 | the city list starts with "all", then names each turf's city exactly once and no other |
| Connect.CitiesInFirstAppearanceOrder | seekr-talent-hub-main/src/pages/Connect.tsx:116-119 | the cities after "all" follow the order in which the turfs first name them |
| Connect.DropdownCities | seekr-talent-hub-main/src/pages/Connect.tsx:229 | the drop-down offers exactly the cities of the list other than "all" |
| Connect.DropdownOffersEachCity | seekr-talent-hub-main/src/pages/Connect.tsx:116-119 | each turf's city is offered, unless it is literally "all" |
| Connect.SelectedCityKeepsItsTurfs | seekr-talent-hub-main/src/pages/Connect.tsx:110-111 | choosing a turf's own city never hides that turf if it matches the search |
| Opportunities.FilterOpportunities | seekr-talent-hub-main/src/pages/Opportunities.tsx:71-80 | an opportunity is kept iff the query matches its title or description, the type is "all" or equal, and it is not a scholarship, or is one whose location is present and mentions "india" in any case |
| Opportunities.FilterOpportunitiesKeepsOrder | seekr-talent-hub-main/src/pages/Opportunities.tsx:71 | the result keeps the input order |
| Opportunities.ListedScholarshipsAreIndian | seekr-talent-hub-main/src/pages/Opportunities.tsx:77-78 | every listed scholarship has a location mentioning India |
| Opportunities.UnfilteredDropsOnlyForeignScholarships | seekr-talent-hub-main/src/pages/Opportunities.tsx:71-80 | with empty search and type "all", exactly the scholarships without an Indian location are dropped |
| Opportunities.TabListsItsType | seekr-talent-hub-main/src/pages/Opportunities.tsx:75 | a type other than "all" lists only opportunities of exactly that type |
| Opportunities.TypeColor | seekr-talent-hub-main/src/pages/Opportunities.tsx:56-69 | every type outside job, trial, scholarship and tournament gets the one default colour, and those four do not |
| Opportunities.NamedTypesHaveDistinctColors | seekr-talent-hub-main/src/pages/Opportunities.tsx:57-65 | job, trial, scholarship and tournament get pairwise different colours |
| Opportunities.TypeIcon | seekr-talent-hub-main/src/pages/Opportunities.tsx:43-54 | the calendar icon is used exactly for types other than job, trial and scholarship, so tournaments included |
| Opportunities.IconsSeparateThreeTypes | seekr-talent-hub-main/src/pages/Opportunities.tsx:43-54 | two types share an icon iff they are equal or both outside job, trial and scholarship |
| Messages.Classify | seekr-talent-hub-main/src/pages/MessagesNew.tsx:224-230 | the buckets are disjoint and exhaustive (under a minute, under an hour, under a day, more); a future time is "Just now"; the shown minutes are 1..59, the hours 1..23 and the days ≥1, each the floor of the difference in its unit |
| Messages.TimeAgo | seekr-talent-hub-main/src/pages/MessagesNew.tsx:220-231 | an empty timestamp gives "" and only it does; a difference under one minute, negative ones included, gives "Just now" |
| Messages.RenderRoundTrip | seekr-talent-hub-main/src/pages/MessagesNew.tsx:227-230 | every label parses back to its bucket and number |
| Messages.TimeAgoDeterminesBucket | seekr-talent-hub-main/src/pages/MessagesNew.tsx:220-231 | two differences with the same label fall in the same bucket with the same number |
| Messages.SendRequest | seekr-talent-hub-main/src/pages/MessagesNew.tsx:199-206 | a message is inserted iff the trimmed input is non-empty and a conversation and a user are present; its content is the trimmed input, with no white space at either end |
| Messages.SendRequestTrimStable | seekr-talent-hub-main/src/pages/MessagesNew.tsx:200-205 | sending the already-trimmed text sends the same message |
| Messages.SendsTypedText | seekr-talent-hub-main/src/pages/MessagesNew.tsx:199-206 | text surrounded by white space is sent as the text alone, into the selected conversation, from the signed-in user |
| Messages.Summarize | seekr-talent-hub-main/src/pages/MessagesNew.tsx:134-144 | the summary names the other participant; with a last message it shows its content, or "No messages yet" when that is empty, and its time; without one it says "No messages yet" with time ""; a missing unread count is 0 |
| Messages.BuildSummaries | seekr-talent-hub-main/src/pages/MessagesNew.tsx:98-145 | the loop builds Summaries of the conversation ids |
| Messages.SummariesAreKeptIds | seekr-talent-hub-main/src/pages/MessagesNew.tsx:100-145 | the list has one summary per conversation that has another participant, in id order; the others are skipped |
| Messages.MessagesPage.LoadConversations | seekr-talent-hub-main/src/pages/MessagesNew.tsx:77-152 | no user changes nothing; no participants only clears loading; otherwise the list is replaced, and the first conversation is selected only when the list is non-empty and nothing was selected |
| Messages.MessagesPage.OnMessageInserted | seekr-talent-hub-main/src/pages/MessagesNew.tsx:189 | a realtime insert appends the message and leaves the earlier ones unchanged |
| Messages.MessagesPage.HandleSend | seekr-talent-hub-main/src/pages/MessagesNew.tsx:199-218 | the insert sent is SendRequest of the input; the input is cleared only after a successful insert |
| EditProfile.InitForm | seekr-talent-hub-main/src/components/EditProfileDialog.tsx:34-39 | each form field is the profile's value, or "" when null |
| EditProfile.EditProfileDialog.OnProfile | seekr-talent-hub-main/src/components/EditProfileDialog.tsx:32-43 | a profile fills the form and both previews, with null as ""; a null profile leaves them unchanged |
| EditProfile.EditProfileDialog.ChooseAvatar | seekr-talent-hub-main/src/components/EditProfileDialog.tsx:45-51 | choosing a file sets the avatar file and its preview; no file changes nothing |
| EditProfile.EditProfileDialog.ChooseBanner | seekr-talent-hub-main/src/components/EditProfileDialog.tsx:53-59 | choosing a file sets the banner file and its preview; no file changes nothing |
| EditProfile.EditProfileDialog.ClearAvatar | seekr-talent-hub-main/src/components/EditProfileDialog.tsx:186-189 | the remove button resets the avatar file to null and the preview to "" |
| EditProfile.EditProfileDialog.ClearBanner | seekr-talent-hub-main/src/components/EditProfileDialog.tsx:157-160 | the remove button resets the banner file to null and the preview to "" |
| EditProfile.ImageStep | seekr-talent-hub-main/src/components/EditProfileDialog.tsx:73-87 | without a file nothing is uploaded; with one, the upload goes to userId/stem.ext with upsert; the handler goes on iff there was no file or the upload succeeded, and then carries SavedUrl |
| EditProfile.SubmitRun | seekr-talent-hub-main/src/components/EditProfileDialog.tsx:61-134 | no user or no profile sends nothing; otherwise the uploads are the avatar step's, then the banner step's only if the avatar step succeeded; the update is sent iff no chosen upload failed; it carries the four form fields, with each URL new only when a file was chosen and the profile's own otherwise; saved iff the update succeeded |
| EditProfile.SubmitAs | seekr-talent-hub-main/src/components/EditProfileDialog.tsx:68-116 | for a signed-in user with a profile: avatar step, banner step only after a successful avatar step, update only after both, with the URLs of SavedUrl |
| EditProfile.UnchangedImagesKeepTheirUrls | seekr-talent-hub-main/src/components/EditProfileDialog.tsx:69-70 | with no new file, even after a preview was cleared, nothing is uploaded and the update keeps the profile's URLs |
| EditProfile.AvatarFailureStopsBeforeUpdate | seekr-talent-hub-main/src/components/EditProfileDialog.tsx:81 | a failed avatar upload is the only request sent: no banner upload, no update |
| EditProfile.EditProfileDialog.UploadImage | seekr-talent-hub-main/src/components/EditProfileDialog.tsx:73-104 | one upload block of the handler computes ImageStep |
| EditProfile.EditProfileDialog.HandleSubmit | seekr-talent-hub-main/src/components/EditProfileDialog.tsx:61-134 | the uploads, update and result equal SubmitRun of the dialog state; loading is false afterwards |
| UploadReel.StoragePathDeterminesStem | seekr-talent-hub-main/src/components/UploadReelDialog.tsx:46-47 | two uploads of one user share a path only if their stems and extensions agree |
| UploadReel.VideoAndThumbnailPathsDiffer | seekr-talent-hub-main/src/components/UploadReelDialog.tsx:46-63 | the video path and the thumbnail path never coincide, whatever the two clock readings |
| UploadReel.ThumbnailUrl | seekr-talent-hub-main/src/components/UploadReelDialog.tsx:60-75 | the thumbnail column is the public URL of the thumbnail path in "reel-thumbnails" iff a thumbnail was chosen and its upload succeeded, and null otherwise |
| UploadReel.ReelRun | seekr-talent-hub-main/src/components/UploadReelDialog.tsx:27-111 | no video sends nothing; the video upload to userId/stamp.ext comes first; after a successful one the only other upload is the thumbnail's, iff one was chosen; after a failed one nothing more is uploaded; a row is inserted iff the video upload succeeded; that row carries the typed fields, the video URL and the thumbnail URL or null |
| UploadReel.ThumbnailFailureIsTolerated | seekr-talent-hub-main/src/components/UploadReelDialog.tsx:69-75 | a failed thumbnail upload still stores the reel, with a null thumbnail |
| UploadReel.UploadReelDialog.SendReel | seekr-talent-hub-main/src/components/UploadReelDialog.tsx:41-90 | the uploads and insert of the handler's try block equal ReelRun |
| UploadReel.UploadReelDialog.Reset | seekr-talent-hub-main/src/components/UploadReelDialog.tsx:97-102 | the four text fields become "" and both files null |
| UploadReel.UploadReelDialog.HandleSubmit | seekr-talent-hub-main/src/components/UploadReelDialog.tsx:27-114 | the requests equal ReelRun of the form; after a stored reel the form is emptied, otherwise it is unchanged |

## Left out

- Backend calls are not modelled as code: sign-in, sign-up, table reads, inserts and updates, storage uploads, and realtime channels. Their answers are parameters, and their writes are `Backend.Request` values.
- `getPublicUrl` is modelled as a pure function of bucket and path. The project's base URL is left out.
- The schema library's email check is the parameter `isEmail`. The model reports the first failing rule in field order, which is the message the page shows.
- Date parsing and `Date.now()` are left out. `getTimeAgo` takes the millisecond difference as an integer.
- Messages.TimeAgo: a timestamp that does not parse, whose difference is NaN in the source, is not modelled.
- The two clock readings in `UploadReelDialog.handleSubmit` are two separate parameters.
- Lower-casing covers ASCII letters only. Unicode case mapping is not modelled.
- The HTML `maxLength={12}` attribute is enforced by the browser, not by the page code.
- Toasts, navigation, rendering, scroll-to-bottom and the subscription lifecycle (channel creation and removal) are left out.
- Messages.MessagesPage.LoadConversations: the per-conversation lookups are given as total functions from id to answer. Waiting between the sequential requests is not modelled.
- The hard-coded demo arrays of Discover and Connect are not modelled. The filters take arbitrary sequences.
- Feed: a null `likes_count` (which JavaScript's `+ 1` would turn into 1) is not modelled; counts are integers.
- The loading flags are modelled only where a handler sets and clears them.
