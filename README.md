# Hair-analysis app: a Dafny model of its core

This project models the core of a hair-health tracking app and proves properties about that model. The app is a React front end over a hosted Postgres/storage backend. The model covers:

- **The analysis wizard** (`Capture`, analysis.dfy). It has five fixed photo angles, and each angle has a slot that holds a file and its preview. Picked files are checked for type and size. Camera and gallery captures become JPEG files named after their angle. A step machine runs intro → five capture steps → review → analyzing → results or error. The submission pipeline then:
  1. uploads each filled slot to storage, and stops at the first failed upload;
  2. reads the newest earlier session's scores;
  3. calls the `analyze-hair` function;
  4. inserts the session row and one row per photo.

  Any error is classified by substring into `rate_limit`, `credits`, `upload`, `auth` or `unknown`. The page state is a `Wizard` class. Its slot list is an array that the handlers update in place.
- **The `analyze-hair` edge function** (`AnalyzeHair`, analyze_hair.dfy). It handles the CORS preflight, then checks the bearer header, looks up the user, checks the photo list and checks the AI key. It then builds the chat request (one image part per photo, a user text naming the angles, a comparison paragraph from the previous scores) and maps the gateway's status. It extracts the tool call's arguments, and sends any exception to the catch-all 500.
- **The history page** (`History`, history.dfy). It covers the trend chart: the newest-first list reversed, with null scores drawn as 0. It also covers the overall-score change against the next-older session and its badge, the photos of a session, and the compare and expand toggles. These toggles live in a `HistoryView` class.
- **The treatment catalogue** (`Treatments`, treatments.dfy). It covers three chip filters with an "all" choice, the category, cost and commitment labels, and the five evidence stars.
- **The specialist directory** (`Specialists`, specialists.dfy). It covers the six fixed clinics, the specialty and city drop-downs, the case-insensitive search over name and address, and the city list built without repeats.
- **The profile form** (`Profile`, profile.dfy). It covers the sync from the stored row, the dirty flag, age validation, name trimming and cutting, empty-to-null conversion, and Save's enabling. The form is the `ProfileForm` class.

Shared modules:

- `Common`: `Option` and `Result`.
- `Seqs`: `Filter` and subsequences.
- `Text`: substring search, ASCII case mapping, white-space trimming, decimal rendering and a model of `parseInt(s, 10)`, joining, and file extensions.
- `Records`: the analysis result and previous-scores records that the page and the function exchange.

The backend (storage, the datastore, the auth service, the AI gateway and `JSON.parse`) is not modelled as code. Each call's outcome is a parameter of the model: a `Backend` value for the page, and a `Facts` value for the edge function. The clock is a parameter too: `now[i]` is `Date.now()` when slot `i` is uploaded.

## Model

| member | source | states |
|---|---|---|
| Capture.InitialSlotsWellFormed | src/pages/Analysis.tsx:36-72 | The first state has the five slots in angle order, each without file or preview. No photo is counted, so review is not yet possible. |
| Capture.FilledCountUpdate | src/pages/Analysis.tsx:181 | Replacing one slot changes the uploaded count by exactly what leaves and what arrives. |
| Capture.CountAfterPlaceAndRemove | src/pages/Analysis.tsx:175-181 | Filling an empty slot adds one to the count. Emptying a filled slot removes one. The other cases leave the count unchanged. |
| Capture.UpdatesKeepWellFormed | src/pages/Analysis.tsx:96-98 | Placing or clearing a file keeps the slots in angle order, with a file exactly where there is a preview. |
| Capture.CheckFileAccepts | src/pages/Analysis.tsx:82-92 | A picked file is taken exactly when it exists, has an `image/` type and is at most 10 MB. "Too large" is reported only for image files. |
| Capture.NavigateBounds | src/pages/Analysis.tsx:333-510 | Start, Next, Skip and Back exist only on the intro, capture and review screens. Each moves by one step, stays at or below review, and runs forward only from capture steps (with `min(step + 1, 6)`). |
| Capture.BackUndoesForward | src/pages/Analysis.tsx:433-448 | Back after Start, Next or Skip returns to the step that was left. From review, Back goes to step 5 (line 504). |
| Capture.SkipIsNextOnEmptySlot | src/pages/Analysis.tsx:438-448 | Skip is offered exactly on a capture step whose slot has no file, and it goes where Next goes. |
| Capture.WalkToReview | src/pages/Analysis.tsx:333-448 | Start leads to step 1, and Next from steps 1 to 5 leads to the following step, ending on review. |
| Capture.ClassifyPrecedence | src/pages/Analysis.tsx:277-282 | Each error code is chosen exactly when its phrase occurs and no earlier phrase does. `unknown` is chosen exactly when none of the five phrases occurs. |
| Capture.UnknownByPairs | src/pages/Analysis.tsx:277-282 | A message in which none of the phrases' first two letters occur together is classified `unknown`. |
| Capture.DefaultMessageIsUnknown | src/pages/Analysis.tsx:277-282 | An error without a message becomes "Something went wrong.", which is classified `unknown`. |
| Capture.UploadMessageClassifies | src/pages/Analysis.tsx:200-203 | A failed upload's text always contains "upload". It is classified `upload` unless the caption itself spells an earlier phrase. |
| Capture.CaptionsAvoidPhrases | src/pages/Analysis.tsx:36-62 | No angle caption holds the start of "Rate limit" or of "credits". |
| Capture.UploadFailureClassifies | src/pages/Analysis.tsx:36-62 | For each of the five angle captions, the upload failure is classified `upload`. |
| Capture.StorageKeyShape | src/pages/Analysis.tsx:195 | An object key lies in the user's folder and ends with the extension of the file's name. |
| Capture.StepKeys | src/pages/Analysis.tsx:193-212 | A stopped run or an empty slot changes nothing. Otherwise the slot's key is tried and at most one photo is added. |
| Capture.FailureIsFinal | src/pages/Analysis.tsx:193-203 | Once an upload has failed, the remaining slots change nothing. |
| Capture.UploadKeys | src/pages/Analysis.tsx:193-213 | The keys tried are a prefix of the filled slots' keys in slot order. They are all of those keys when nothing failed. A failure follows at least one tried key, and there are never more photos than keys. |
| Capture.UploadBounds | src/pages/Analysis.tsx:193-213 | Photos ≤ keys tried ≤ filled slots. Every filled slot is tried when no upload fails. |
| Capture.StepPhotos | src/pages/Analysis.tsx:194-212 | One pass either keeps the photo list or, for a filled slot, appends a photo with that slot's angle. It appends one exactly when the run is still going, the slot is filled and the upload succeeded with a non-empty signed URL, and that photo carries the signed URL. |
| Capture.UploadOrder | src/pages/Analysis.tsx:193-213 | The collected photos' angles are a subsequence of the filled slots' angles, so slot order is kept. |
| Capture.SignedPhotosMembers | src/pages/Analysis.tsx:205-211 | A photo is among `SignedPhotos` exactly when some filled slot's reply stored the file and signed a non-empty URL, and the photo carries that URL and the slot's angle. |
| Capture.StepSigned | src/pages/Analysis.tsx:194-212 | A pass that leaves the run going was taken on a run still going, and adds exactly the slot's signed photo, if any. |
| Capture.PrefixSigned | src/pages/Analysis.tsx:193-212 | The same one-slot fact, stated on the loop's prefix runs. |
| Capture.UploadCollectsSigned | src/pages/Analysis.tsx:193-213 | A run with no failed upload has collected exactly `SignedPhotos`: in slot order, one photo per filled slot whose signed URL is non-empty, with that URL. Slots without a signed URL are dropped. |
| Capture.AllSignedCollectsAll | src/pages/Analysis.tsx:193-213 | When every filled slot's file is stored and signed, no upload fails and there is one photo per filled slot. |
| Capture.FailureNamesSlot | src/pages/Analysis.tsx:200-203 | A failure is the upload message of a slot that was tried. |
| Capture.UploadFailureIsUploadError | src/pages/Analysis.tsx:193-203 | A failed upload ends in an error classified `upload`. |
| Capture.UploadSlot | src/pages/Analysis.tsx:194-212 | One slot of the loop does exactly what `UploadStep` describes: skip an empty slot, report a failed upload, or add the photo when a signed URL comes back. |
| Capture.UploadFilled | src/pages/Analysis.tsx:196-211 | A filled slot's upload under its key: a file that was not stored stops the run with "Failed to upload <label> photo"; a stored one adds the key and, when a non-empty signed URL comes back, the photo with that URL. |
| Capture.StepFilled | src/pages/Analysis.tsx:194-212 | On a filled slot of a run still going, `UploadStep` tries the key and either stops with the slot's failure message or gains the slot's signed photo. |
| Capture.UploadPhotos | src/pages/Analysis.tsx:193-213 | The loop over the slot array computes exactly the upload run `UploadPrefix` describes, leaving at the first failed upload. |
| Capture.NotesOrNull | src/pages/Analysis.tsx:255 | A missing or empty comparison note is stored as null. Any other note is stored as it is. |
| Capture.PhotoRows | src/pages/Analysis.tsx:264-271 | There is one photo row per uploaded photo, in order, each with the session id, the user, the angle and the URL. |
| Capture.PersistShape | src/pages/Analysis.tsx:245-271 | The session row is written first and never stores an empty note. A failed session insert writes nothing else and reports its error. A successful one writes exactly one photo row per photo, linked to the new session. |
| Capture.PersistSession | src/pages/Analysis.tsx:245-271 | The insert loop produces exactly the writes of `Persist`. |
| Capture.SubmitUploadFailure | src/pages/Analysis.tsx:193-203 | A failed upload means no function call, no write and an `upload` error. |
| Capture.SubmitSuccess | src/pages/Analysis.tsx:184-274 | The function is called exactly when all uploads succeeded, with the collected photos and the first previous row's scores. Success requires good uploads, a result reply and a successful session insert. On success the result is the reply's, and there is one session row plus one photo row per photo, never more photos than filled slots. The photos sent are exactly `SignedPhotos` of the slots and the storage replies. |
| Capture.SubmitAllSigned | src/pages/Analysis.tsx:184-271 | With every filled slot stored and signed, a result reply and a stored session, the submission succeeds with the reply's result, one photo per filled slot, and one session row plus one photo row per filled slot. |
| Capture.SubmitFailureClassified | src/pages/Analysis.tsx:275-284 | Every failure carries a non-empty message and the classifier's code for it. |
| Capture.PreviousScoresFirstRow | src/pages/Analysis.tsx:216-230 | The previous scores are the first row of the newest-first query, or null when there is no row. |
| Capture.Wizard.constructor | src/pages/Analysis.tsx:69-76 | The wizard starts on the intro with five empty slots, no result, no error, not analyzing. |
| Capture.Wizard.HandleFileChange | src/pages/Analysis.tsx:82-103 | Only an accepted file reaches the slot, with its preview. Rejected or missing files change nothing. |
| Capture.Wizard.CapturePhoto | src/pages/Analysis.tsx:105-173 | A non-empty data URL becomes the slot's `<angle>.jpg` JPEG file and its preview. A cancelled or failed capture changes nothing. |
| Capture.Wizard.RemovePhoto | src/pages/Analysis.tsx:175-179 | Clears file and preview of exactly one slot. |
| Capture.Wizard.Press | src/pages/Analysis.tsx:333-504 | Moves to the step `Navigate` gives and keeps result, error and the analyzing flag. |
| Capture.Wizard.HandleAnalyze | src/pages/Analysis.tsx:184-288 | Without a user, nothing happens. Otherwise the run equals `Submit` on the current slots and ends on results with the result, or on the error step with the classified error. The analyzing flag is cleared either way. |
| Capture.Wizard.Analyze | src/pages/Analysis.tsx:509-510 | "Analyze Now" needs the review step and at least two photos, and ends on results or error as the submission says. |
| Capture.Wizard.Retry | src/pages/Analysis.tsx:716-719 | Clears the error and resubmits the unchanged slots. A success leaves no error. |
| Capture.Wizard.EditPhotos | src/pages/Analysis.tsx:726-729 | Clears the error and returns to review with the slots untouched. |
| AnalyzeHair.PreflightFirst | supabase/functions/analyze-hair/index.ts:11-13 | OPTIONS, and only OPTIONS, receives an empty 200 reply before any check. Every other reply declares JSON. |
| AnalyzeHair.UnauthorizedExactly | supabase/functions/analyze-hair/index.ts:16-36 | A 401 "Unauthorized" comes exactly from a missing header, or from a lookup that reports an error or finds no user. |
| AnalyzeHair.NoPhotosExactly | supabase/functions/analyze-hair/index.ts:38-45 | A 400 comes exactly from an authorized request whose `photoUrls` is missing, not an array, or empty. |
| AnalyzeHair.MissingKey | supabase/functions/analyze-hair/index.ts:40-53 | A missing AI key is a 500 "AI service not configured" once photos are present. Missing photos are reported first. |
| AnalyzeHair.UserTextNamesAngles | supabase/functions/analyze-hair/index.ts:93 | The user text names every photo's angle. |
| AnalyzeHair.ImageContent | supabase/functions/analyze-hair/index.ts:55-58 | There is one image part per photo, in order, carrying its URL. |
| AnalyzeHair.ComparisonContextShape | supabase/functions/analyze-hair/index.ts:60-62 | The comparison paragraph is empty exactly when there are no previous scores. Otherwise it spells out all four scores (`null` for a missing one). |
| AnalyzeHair.ScoreTextRoundTrip | supabase/functions/analyze-hair/index.ts:61 | A present score is rendered as decimal text that reads back as the score. |
| AnalyzeHair.GatewayRequestShape | supabase/functions/analyze-hair/index.ts:55-124 | The gateway is called exactly when every guard passes. The request then names the model and the tool, has one image per photo in order, has a user text naming every angle, and carries the comparison context of the previous scores. |
| AnalyzeHair.GatewayStatusMapping | supabase/functions/analyze-hair/index.ts:126-146 | A failed reply maps 429 and 402 to their own messages and every other status to a plain 500, so the status is one of 402, 429 or 500. |
| AnalyzeHair.ToolCallExtraction | supabase/functions/analyze-hair/index.ts:148-163 | A good reply without tool-call arguments is a 500. With them, the parsed arguments are the 200 body, unchanged. |
| AnalyzeHair.SuccessExactly | supabase/functions/analyze-hair/index.ts:11-163 | A result body is returned exactly when every guard passes and the gateway reply is good and carries parseable arguments. It is then a 200 carrying the parsed analysis. |
| AnalyzeHair.NoScoreRangeCheck | supabase/functions/analyze-hair/index.ts:159-163 | Whatever the arguments parse to, out-of-range scores included, is returned as it is. |
| AnalyzeHair.StatusSet | supabase/functions/analyze-hair/index.ts:10-171 | The handler answers only with 200, 400, 401, 402, 429 or 500, and a 200 never carries an error body. |
| AnalyzeHair.ExceptionsAre500 | supabase/functions/analyze-hair/index.ts:30-170 | An exception in the user lookup or in reading the body is a 500 with its message ("Unknown error" for a non-Error value), and no gateway call is made. |
| AnalyzeHair.GatewayExceptionsAre500 | supabase/functions/analyze-hair/index.ts:78-170 | Once the request is sent, an exception from `fetch`, from reading a failed reply's text (statuses other than 429 and 402), from reading a good reply's tool call, or from `JSON.parse` of its arguments is a 500 with the thrown message, or "Unknown error" for a non-Error value. |
| AnalyzeHair.Caught | supabase/functions/analyze-hair/index.ts:164-170 | The catch block replies 500 with the exception's message, or "Unknown error". |
| AnalyzeHair.PassingFacts | supabase/functions/analyze-hair/index.ts:15-53 | A concrete request that passes every guard. |
| History.OrZero | src/pages/History.tsx:88-91 | `score ?? 0`: a present score is kept and a null one becomes 0. |
| History.ChartDataAt | src/pages/History.tsx:84-92 | Chart point `k` is the session `k` places from the end of the list, with null scores drawn as 0. |
| History.ChartOldestFirst | src/pages/History.tsx:58-92 | A newest-first session list gives a chart whose dates never decrease. |
| History.ScoreDiff | src/pages/History.tsx:257-263 | The change exists exactly when there is a next-older session and both overall scores are set. The change added to the older score gives the newer one. |
| History.DiffsTelescope | src/pages/History.tsx:257-263 | Along a run of scored sessions, the changes shown add up to the change from its oldest to its newest session. |
| History.DiffTextSign | src/pages/History.tsx:293-304 | The badge starts with "+" exactly for a rise and with "-" exactly for a fall. |
| History.DiffTextRoundTrip | src/pages/History.tsx:303 | The badge text reads back as the change it shows. |
| History.PhotosForSession | src/pages/History.tsx:94-95 | A photo is selected exactly when it belongs to the session. |
| History.PhotosForSessionOrdered | src/pages/History.tsx:94-95 | The selection keeps the photos' stored order. |
| History.PhotosForSessionDisjoint | src/pages/History.tsx:94-95 | No photo is shown under two different sessions. |
| History.FirstOther | src/pages/History.tsx:99 | `find(s => s.id !== id)`: the first session with another id, or none when every session has this id. |
| History.OpenPair | src/pages/History.tsx:97-99 | Opening a comparison pairs the id with the first session whose id differs, or with itself when there is none or when that first session's id is empty. |
| History.TogglePair | src/pages/History.tsx:100-104 | Toggling an id of the pair closes the comparison. Any other id keeps the first and replaces the second. |
| History.ToggleTwiceCloses | src/pages/History.tsx:97-105 | Toggling the same session twice from a closed comparison closes it again. |
| History.ExpandToggled | src/pages/History.tsx:279 | A click expands the card, or collapses it when it is the expanded one. |
| History.ExpandTwice | src/pages/History.tsx:279 | Two clicks on the same card restore the previous state when that card was expanded or nothing was. |
| History.HistoryView.constructor | src/pages/History.tsx:47-49 | The page starts with no comparison and no expanded card. |
| History.HistoryView.StartCompare | src/pages/History.tsx:173-245 | With two sessions or more and no comparison, Compare pairs the two newest sessions. |
| History.HistoryView.ToggleCompare | src/pages/History.tsx:97-105 | The pair becomes `Toggled` of the old pair. Nothing else changes. |
| History.HistoryView.CloseCompare | src/pages/History.tsx:182 | Close removes the comparison and nothing else. |
| History.HistoryView.ToggleExpand | src/pages/History.tsx:279 | The expanded card becomes `ExpandToggled` of the old one. Nothing else changes. |
| Treatments.FilteredMembers | src/pages/Treatments.tsx:80-85 | A treatment is listed exactly when each filter is "all" or equals its field. A null cost level passes only "all". |
| Treatments.FilteredOrder | src/pages/Treatments.tsx:80-85 | The list keeps the catalogue's order, and cleared filters (line 241) list everything. |
| Treatments.NarrowingShrinks | src/pages/Treatments.tsx:57-85 | Narrowing any filter from "all" to a choice never adds a treatment. |
| Treatments.CategoryLabelShape | src/pages/Treatments.tsx:41-42 | Only the first character changes, to its capital. Labelling twice changes nothing more. |
| Treatments.LevelLabels | src/pages/Treatments.tsx:44-52 | Null and empty levels show a dash. "low" and "medium" have their own badges. Every other level shows the top badge. |
| Treatments.StarsFilled | src/pages/Treatments.tsx:195-204 | Of the five stars, the filled ones come first. Their number is the rating clamped to 0..5, and a null rating fills none. |
| Treatments.PrefixCount | src/pages/Treatments.tsx:195-204 | A star row filled exactly below `n` has `n` filled stars. |
| Specialists.FilteredMembers | src/pages/Specialists.tsx:86-91 | A clinic is listed exactly when it matches both selections ("All" or equal) and the search. |
| Specialists.FilteredOrder | src/pages/Specialists.tsx:76-91 | The list keeps the clinics' order, and cleared filters (line 213) list all six clinics. |
| Specialists.SearchIgnoresCase | src/pages/Specialists.tsx:89 | Searches that differ only in letter case list the same clinics. |
| Specialists.LongerSearchFindsLess | src/pages/Specialists.tsx:89 | A clinic found by a search is found by every search the first one contains. |
| Specialists.LongerSearchListsLess | src/pages/Specialists.tsx:86-91 | Extending the search never adds a clinic to the list. |
| Specialists.SpecialtiesCoverClinics | src/pages/Specialists.tsx:31-70 | Every clinic's specialty is offered in the drop-down. |
| Specialists.Dedup | src/pages/Specialists.tsx:71 | `Array.from(new Set(xs))` has no repeats and the same members as `xs`. |
| Specialists.DedupFirstOccurrence | src/pages/Specialists.tsx:71 | The de-duplicated values come in the order of their first occurrence. |
| Specialists.CityOptionsShape | src/pages/Specialists.tsx:71 | The city drop-down starts with "All" and then offers each clinic city exactly once, in first-occurrence order. |
| Specialists.DedupDistinct | src/pages/Specialists.tsx:71 | A list without repeats is its own de-duplication. |
| Specialists.ClinicCities | src/pages/Specialists.tsx:31-68 | The clinics' cities, in clinic order, are New York, Los Angeles, Chicago, Houston, Miami and San Francisco. |
| Specialists.ClinicCitiesDistinct | src/pages/Specialists.tsx:31-68 | No two clinics share a city. |
| Specialists.CitiesOffered | src/pages/Specialists.tsx:31-71 | The page's cities are exactly "All", "New York", "Los Angeles", "Chicago", "Houston", "Miami", "San Francisco". |
| Profile.ParseAgeCases | src/pages/Profile.tsx:79-82 | An empty age is no age. Other text is accepted exactly when `parseInt` reads a number in 1..120 from it, and that number is then the age. Otherwise the error is "Age must be between 1 and 120". |
| Profile.NormalizeNameShape | src/pages/Profile.tsx:83-88 | The saved name is a non-empty prefix of the trimmed input of at most 100 characters. It is null exactly for an all-white-space input, and a trimmed name that fits is saved whole. |
| Profile.EmptyToNull | src/pages/Profile.tsx:90 | An empty hair type is saved as null. Any other is saved as it is. |
| Profile.ValidateCases | src/pages/Profile.tsx:78-95 | A bad age stops the save with the age message and sends nothing. Otherwise the update carries the normalized name, the parsed age, the hair type or null, and the family-history switch. |
| Profile.NameRoundTrip | src/pages/Profile.tsx:69-83 | A stored name needing no trim and fitting in 100 characters is saved back unchanged, and a null name stays null. |
| Profile.AgeRoundTrip | src/pages/Profile.tsx:70-80 | A stored age in range, written into the box and parsed back, is the same age. |
| Profile.LoadThenSave | src/pages/Profile.tsx:67-95 | Loading a normalized profile and saving it untouched writes the same values back. A null family-history flag is written as false. |
| Profile.ProfileForm.constructor | src/pages/Profile.tsx:41-46 | The form starts empty, with reminders on and nothing to save. |
| Profile.ProfileForm.Load | src/pages/Profile.tsx:67-75 | The fields become the stored profile's values (`|| ""`, `|| false`) and the form is clean. |
| Profile.ProfileForm.EditName | src/pages/Profile.tsx:106-109 | Sets the name and marks the form dirty. |
| Profile.ProfileForm.EditAge | src/pages/Profile.tsx:106-109 | Sets the age text and marks the form dirty. |
| Profile.ProfileForm.EditHairType | src/pages/Profile.tsx:106-109 | Sets the hair type and marks the form dirty. |
| Profile.ProfileForm.EditFamilyHistory | src/pages/Profile.tsx:106-109 | Sets the family-history switch and marks the form dirty. |
| Profile.ProfileForm.SetWeeklyReminder | src/pages/Profile.tsx:212-215 | Sets the reminder switch and leaves the dirty flag as it was. |
| Profile.ProfileForm.Save | src/pages/Profile.tsx:78-95 | Save, enabled only when dirty and idle (line 188), returns `Validate` of the form. The request stays in flight exactly when it was valid. |
| Profile.ProfileForm.Settle | src/pages/Profile.tsx:96-103 | Success marks the form clean. An error keeps it dirty. Either way, no save remains in flight. |
| Profile.EditDuringSave | src/pages/Profile.tsx:96-109 | A name typed while a save is in flight is not the one saved. The save's success still marks the form clean, which leaves Save disabled. |

## Left out

- Asynchrony and React's batched updates. Each handler runs as one atomic step, so the wizard's `isAnalyzing` is set and cleared within `HandleAnalyze`. The `Wizard.Valid` invariant therefore says it is false between handlers. The `isUploading` flag is never set by the source and is not modelled.
- Step 9 does not imply that an error is present: Retry clears the error before it resubmits, and the model does not claim otherwise.
- Reading a picked file with `FileReader`, and acquiring a photo from the camera or gallery, including the camera's error toast. The preview data URL and the captured image's size are parameters.
- `Date.now()` and the `date-fns` formatting of dates. The clock is a parameter (`Backend.now`), and chart points carry the raw timestamp.
- How the client library turns a non-2xx function reply into an invocation error. The model takes the invocation's outcome as given by `Reply`.
- A reply whose `error` field is present but empty would pass the source's `analysisData?.error` test and be used as the result. The model has no result for it; `Reply.ErrorReply` stands for a truthy error text.
- An invocation that reports no error and returns null data. The source lets it past the `analysisData?.error` test, then reading `overall_score` throws a `TypeError`, which is classified `unknown`. `Reply` has no case for it, so this path is not modelled.
- The datastore, storage and auth service, `JSON.parse`, and `response.json()`. Their outcomes are parameters (`Backend`, `Facts`). So are the read of the tool-call chain and an exception raised while reading it.
- The system prompt's wording and the tool's JSON schema. The model keeps the model name, the tool name, the comparison paragraph, the user text and the image list.
- Entries of `photoUrls` that are not `{url, angle}` objects, and a truthy `previousScores` that is not an object.
- Floating point: the clinics' decimal ratings are not modelled.
- Treatments.Stars: models integer evidence ratings only; a fractional rating, which the source compares as `idx < rating`, is not covered.
- Specialists.SearchIgnoresCase: case is folded for ASCII letters only (`Text.Lower`, and `Text.UpperChar` in `Treatments.CategoryLabel`), not with the full Unicode mapping of `toLowerCase`/`toUpperCase`.
- Profile.NormalizeNameShape: `slice(0, 100)` counts UTF-16 code units while the model counts characters, and `trim` is modelled for the white-space characters `Text.IsSpace` lists.
- Text.ParseInt: models `parseInt(s, 10)` as leading white space, an optional sign and decimal digits, with unbounded integers. It omits the loss of precision beyond 2^53.
- Toasts, redirects to the sign-in page, `invalidateQueries`, logging and rendering. Also left out are the sign-in page, the dashboard, the landing page and the navigation bar, which are outside this model.
- The queries that load the history page's sessions and photos, and the catalogue's load order by evidence rating. The loaded lists are inputs; `History.NewestFirst` states the sessions' order as a precondition.
- The photo inserts' own errors, which the source ignores. `Capture.PersistSession` issues them and leaves out their replies.
