# Ripple web client — a Dafny model of its stateful core

Ripple is a short-video web client over a hosted backend (auth, object
storage, two tables: `videos` and `profiles`). Almost all of it is
rendering and SDK calls. This project models the part that is real
sequential logic, in four components:

- **Feed** (`video_list.dfy`, `VideoList.tsx`): the fetched rows and one
  cursor. Up/down keys and buttons step the cursor, clamped to the list.
  The card for the row under the cursor is filled with defaults.
- **Card** (`video_card.dfy`, `VideoCard.tsx`): a local like toggle with its
  counter, the play flag, and the avatar-fallback initial.
- **Upload** (`upload_dialog.dfy`, `UploadDialog.tsx`): the draft, the
  file-size limits, and storage paths built from a fresh UUID and the
  file's extension. It also holds the submit sequence: session check, field
  check, video upload, optional thumbnail upload, record insert, draft reset.
- **Profile** (`user_profile.dfy`, `UserProfile.tsx`): load-or-create of the
  user's profile row, the avatar upload, the update, and the avatar picker.

Shared modules: `nullable.dfy` (nullable values and JavaScript's `||` on
them), `storage.dfy` (files, `split(".").pop()` extensions, object paths,
public URLs, the UUID shape), and `backend.dfy` (the tables as a value, a
log of calls, and a `Store` class that performs calls).

How the backend is modelled: every backend call is a `Step`, which is the
call plus whether it succeeded. Success is the backend's decision, so it
comes in as a parameter (`available`). A failed call changes nothing, and
`Replay` applies a run of steps to the tables. Each component that changes
state is a `class`. Each of its multi-step handlers is a method proved
equal to a pure function (`Submit`, `Load`, `Update`) that returns the
exact steps taken and the outcome. The properties are lemmas about those
functions. Fresh names (`crypto.randomUUID`), timestamps and preview URLs
(`URL.createObjectURL`) are parameters too.

## Model

| member | source | states |
|---|---|---|
| `Nullable.OrElse` | src/components/VideoList.tsx:65-71 | JavaScript's or-operator `x or fallback` on a nullable string: null and "" both give the fallback |
| `Storage.ExtensionShape` | src/components/UploadDialog.tsx:74 | `split(".").pop()` gives the part after the last '.', which has no '.'. It is a suffix of the name, preceded by '.', or the whole name when there is no '.' |
| `Storage.ExtensionAfterLastDot` | src/components/UserProfile.tsx:71 | whatever the stem is, the extension of `stem + "." + ext` is `ext` when `ext` has no dot |
| `Storage.ObjectPathKeepsExtension` | src/components/UploadDialog.tsx:74-75 | a path `folder + fresh + "." + ext(name)` has the same extension as the original file name |
| `Storage.SplitAtFirstDot` | src/components/UploadDialog.tsx:75 | a dotted string splits uniquely at its first dot when the left part has none |
| `Storage.ObjectPathInjective` | src/components/UploadDialog.tsx:75 | paths in one folder are equal only if their fresh names are equal, so distinct fresh names never collide |
| `Storage.UuidHasNoSeparators` | src/components/UploadDialog.tsx:75 | a `crypto.randomUUID()` name contains neither '.' nor '/' |
| `Storage.PublicUrlInjective` | src/components/UploadDialog.tsx:82-84 | distinct paths in one bucket have distinct public URLs |
| `Backend.Updated` | src/components/UserProfile.tsx:104-110 | an update writes full_name, username, avatar_url and updated_at, and keeps the key |
| `Backend.Effect` | src/components/UploadDialog.tsx:76-79 | a failed call or a read leaves the tables unchanged. An upload touches only objects, an insert only its own table |
| `Backend.ReplaySnoc` | src/components/UploadDialog.tsx:58-113 | calls made in sequence: one more step acts on the tables left by the earlier steps |
| `Backend.ReplayInert` | src/components/UploadDialog.tsx:79 | a run of failed calls and reads changes nothing |
| `Backend.Store.Perform` | src/components/UploadDialog.tsx:76-79 | one call is logged and applied. It succeeds if the backend accepts it and the table admits it (no second profile row with the same id) |
| `Backend.Store.SelectProfile` | src/components/UserProfile.tsx:28-34 | the `maybeSingle` read returns the user's row or none, and changes nothing |
| `Feed.Up` | src/components/VideoList.tsx:45 | an up step from `i >= 0` gives `max(i-1, 0)` |
| `Feed.Down` | src/components/VideoList.tsx:47 | a down step from `0 <= i < len` gives `min(i+1, len-1)`. With an empty list the cursor stays 0 |
| `Feed.KeyNav` | src/components/VideoList.tsx:43-48 | only "ArrowUp" and "ArrowDown" are navigation keys |
| `Feed.KeyStep` | src/components/VideoList.tsx:43-48 | ArrowUp takes the up step and ArrowDown the down step, the same steps as the buttons. Any other key leaves the cursor unchanged |
| `Feed.WalkStaysInRange` | src/components/VideoList.tsx:45-47 | from a cursor in range, any sequence of steps keeps it in `[0, len-1]`, and at 0 when the list is empty |
| `Feed.CardFor` | src/components/VideoList.tsx:63-71 | the card is keyed by the row id. Likes and comments are 0. The username falls back to "Anonymous" exactly when the join or its username is null or empty. The description falls back to "" and the thumbnail to the default URL, exactly when they are null or empty. A present non-empty description or thumbnail URL is passed through unchanged |
| `Feed.Render` | src/components/VideoList.tsx:58-72 | loading exactly when there are no rows, otherwise the card of the row under the cursor |
| `Feed.FeedScenario` | src/components/VideoList.tsx:47-64 | rows C, B, A: the cursor shows C, then after one down B, after two A, and after three still A |
| `Feed.VideoList.constructor` | src/components/VideoList.tsx:10-11 | no rows and the cursor at 0 |
| `Feed.VideoList.LoadVideos` | src/components/VideoList.tsx:13-41 | on mount: the fetched rows (null gives []). A failed fetch leaves the list empty. The cursor stays 0 |
| `Feed.VideoList.HandleKeyDown` | src/components/VideoList.tsx:43-49 | the cursor becomes `KeyStep(key, old cursor, len)`, stays in range, and the rows are unchanged |
| `Feed.VideoList.PressUp` | src/components/VideoList.tsx:79 | the up button sets the cursor to `Up(old cursor)` |
| `Feed.VideoList.PressDown` | src/components/VideoList.tsx:87 | the down button sets the cursor to `Down(old cursor, len)` |
| `Card.Like` | src/components/VideoCard.tsx:29-32 | a like flips the liked flag and adds 1 when liking, takes 1 when unliking. It preserves `likes == initial + (liked ? 1 : 0)` |
| `Card.LikeTwiceRestores` | src/components/VideoCard.tsx:29-32 | two consecutive likes restore `(likes, isLiked)` |
| `Card.LikesAfterPresses` | src/components/VideoCard.tsx:25-32 | after n presses from the initial state: liked iff n is odd, `likes == initial + n % 2`, and the invariant holds |
| `Card.AvatarInitial` | src/components/VideoCard.tsx:112 | the fallback is the upper-cased first letter of the username, or nothing for an empty username |
| `Card.VideoCard.constructor` | src/components/VideoCard.tsx:25-27 | playing, `likes == initialLikes`, not liked |
| `Card.VideoCard.PressLike` | src/components/VideoCard.tsx:71-74 | the state becomes `Like(old state)` and the play flag is untouched, because propagation is stopped |
| `Card.VideoCard.ClickVideoArea` | src/components/VideoCard.tsx:55 | flips the play flag and nothing else |
| `Upload.ValidateFileSize` | src/components/UploadDialog.tsx:28-39 | an absent file passes, and a file fails iff `size > max` |
| `Upload.LimitsAreInclusive` | src/components/UploadDialog.tsx:16-49 | the limits are 50·1024·1024 and 5·1024·1024 bytes. A file exactly at a limit passes and one byte more fails |
| `Upload.SelectFile` | src/components/UploadDialog.tsx:41-56 | an over-limit file clears the input and keeps the draft. Otherwise only the chosen field becomes the pick (possibly null). Title, description and the other file never change, and within-limits is preserved |
| `Upload.Submit` | src/components/UploadDialog.tsx:58-138 | success iff there is a session, a video and a title, the video is within its limit, and every call is accepted. A local failure makes no call. At most three calls, and every call but the last succeeded. On success or a failed insert the last call is the insert. On a failed upload the last call is that upload |
| `Upload.IncompleteSubmitCallsNothing` | src/components/UploadDialog.tsx:61-66 | with no session, no video or an empty title, the submit fails with zero backend calls |
| `Upload.ValidDraftPassesSizeCheck` | src/components/UploadDialog.tsx:68-71 | a draft built through the file inputs never fails the submit-time size check |
| `Upload.UploadKeysKeepExtension` | src/components/UploadDialog.tsx:74-90 | the video and thumbnail objects keep their files' extensions, and the thumbnail lies under "thumbnails/" |
| `Upload.SubmitUploads` | src/components/UploadDialog.tsx:73-100 | the video upload comes first. The thumbnail upload is second when a thumbnail exists and the video upload succeeded. Without a thumbnail there is no second upload. Each upload succeeds exactly when the backend accepts it. A refused video upload is the only call. A refused thumbnail upload ends the sequence after two calls. Once the uploads succeed, the last call is the insert, and it succeeds exactly when the backend accepts it |
| `Upload.SubmitInsertsRecord` | src/components/UploadDialog.tsx:102-111 | the inserted row has the draft's title and description, the session user's id, and the video URL. Its thumbnail URL is null iff no thumbnail was chosen. The videos table gains exactly that row |
| `Upload.FailedSubmitInsertsNothing` | src/components/UploadDialog.tsx:128-137 | a failed submit adds no video row. A failure at or before the video upload leaves the backend untouched. A failure at the thumbnail upload or the insert leaves the uploaded video object in storage |
| `Upload.NoInsertKeepsVideos` | src/components/UploadDialog.tsx:103-113 | steps without a successful insert leave the videos table as it was |
| `Upload.ThumbnailUrlIsDistinct` | src/components/UploadDialog.tsx:89-99 | with a UUID video name, the thumbnail's public URL differs from the video's |
| `Upload.UploadDialog.constructor` | src/components/UploadDialog.tsx:20-26 | empty draft, not loading |
| `Upload.UploadDialog.SetTitle` | src/components/UploadDialog.tsx:157 | only the title changes |
| `Upload.UploadDialog.SetDescription` | src/components/UploadDialog.tsx:166 | only the description changes |
| `Upload.UploadDialog.HandleFileChange` | src/components/UploadDialog.tsx:41-56 | draft and cleared flag as `SelectFile`. Loading and completions are unchanged |
| `Upload.Publish` | src/components/UploadDialog.tsx:73-111 | once the draft has passed the local checks, uploads the video, then the thumbnail if one was picked, then inserts the record. Each call is made only if the one before succeeded. The calls made, the outcome and the new tables are exactly those of `Submit` |
| `Upload.UploadDialog.UploadVideo` | src/components/UploadDialog.tsx:58-138 | makes exactly the calls of `Submit` and changes the tables by them. On success it resets the draft and signals completion once. On failure the draft is kept. Loading is false afterwards. A dialog whose draft was built through the file inputs never fails the submit-time size check |
| `Profile.FieldsOf` | src/components/UserProfile.tsx:36-39 | `fullName = full_name or ""`, `username = username or ""`, `avatarUrl = avatar_url` |
| `Profile.Load` | src/components/UserProfile.tsx:20-67 | no session means a redirect to /auth with no call. An existing row fills the form. A missing row leads to an insert of the user's row, and nothing is inserted otherwise. When the row exists or the read fails, the read is the only call, and it is not retried |
| `Profile.LoadCreatesOneRow` | src/components/UserProfile.tsx:40-50 | a create adds exactly one row: the user's id, empty names, a null avatar. Nothing else changes |
| `Profile.LoadIsIdempotent` | src/components/UserProfile.tsx:28-50 | after a load that filled or created, a second load for the same user finds the row, makes only the read and changes nothing |
| `Profile.AvatarKeyShape` | src/components/UserProfile.tsx:71-76 | an avatar goes to the avatars bucket and keeps its extension. Distinct UUIDs give distinct keys |
| `Profile.AvatarToWrite` | src/components/UserProfile.tsx:97-100 | the uploaded file's public URL if an avatar was picked, otherwise the form's current URL |
| `Profile.Update` | src/components/UserProfile.tsx:91-128 | no session means no call. Without a picked avatar the only call is the update. With a picked avatar the first call is its upload; if the upload fails it is the only call, and otherwise the update follows as the second and last call. The update writes the form's names and the chosen avatar URL for the session user. Saved iff every call is accepted |
| `Profile.UpdateTouchesOnlyOwnRow` | src/components/UserProfile.tsx:102-110 | only the session user's row changes, if it exists. Other rows and the videos table stay as they were |
| `Profile.ProfileInitial` | src/components/UserProfile.tsx:141 | one character: the first of the full name, else of the username, else "?" |
| `Profile.UserProfile.constructor` | src/components/UserProfile.tsx:12-16 | empty names, no avatar, not loading |
| `Profile.UserProfile.SetFullName` | src/components/UserProfile.tsx:182 | only the full name changes |
| `Profile.UserProfile.SetUsername` | src/components/UserProfile.tsx:172 | only the username changes |
| `Profile.UserProfile.SelectAvatar` | src/components/UserProfile.tsx:154-160 | a picked file sets both the pending avatar and the preview URL. An empty pick changes nothing |
| `Profile.UserProfile.LoadProfile` | src/components/UserProfile.tsx:20-67 | makes exactly the calls of `Load`. It navigates to /auth only when redirected, and changes the form only when a row was found |
| `Profile.UserProfile.UploadAvatar` | src/components/UserProfile.tsx:69-89 | one upload to `avatars/<uuid>.<ext>`. The public URL on success, the error (None) otherwise |
| `Profile.UserProfile.UpdateProfile` | src/components/UserProfile.tsx:91-128 | makes exactly the calls of `Update`. The form and the pending avatar are kept, and loading is false afterwards |

Points where the code's behaviour is easy to mistake, as the model keeps it:

- Both size checks are often described as running again at submit time.
  The code checks only the video again (`UploadDialog.tsx:69`), so the model
  does too. `ValidDraftPassesSizeCheck` shows that this second check never
  fires for a draft built through the file inputs.
- An empty username, which is exactly what profile creation stores, shows
  as "Anonymous" in the feed, because `||` treats "" as missing.
- After a save, the picked avatar file stays pending and the form keeps
  the preview URL. A second save uploads the same file again under a new
  name.
- An update for a user with no row matches no row. The backend reports no
  error for this, and the model changes nothing.

## Left out

- Toasts, console logging, the share sheet (`navigator.share`), the comment
  button (it only logs), the dicebear avatar fallback URL, and all JSX/CSS
  rendering: these are presentation or foreign calls.
- The backend SDK itself. Uploads, inserts, updates and reads are modelled
  as steps on map- and sequence-valued tables, and the caller passes in
  whether the backend accepts each call. Error messages are not modelled.
  The project base URL in front of public object URLs is not modelled
  either: `PublicUrl` gives the path relative to it.
- The server's newest-first ordering of the feed query is taken as given.
  The join is given as an optional `Uploader` per row.
- `crypto.randomUUID`, the clock and `URL.createObjectURL` are parameters.
- Concurrency: stale closures in the keydown listener and the like handler,
  rapid double presses before a re-render, in-flight uploads when the
  dialog closes, and the disabled-while-loading button.
- The session-gate redirects of the pages and the navigation bar, which
  are glue around the auth subscription and the router.
- `Card.AvatarInitial`: upper-casing covers ASCII letters only. JavaScript's
  `toUpperCase` also maps other scripts and can yield two characters. It
  also takes the first Unicode scalar value of the name, whereas
  `username[0]` takes the first UTF-16 code unit: for a name that starts
  outside the Basic Multilingual Plane (an emoji, say) the code shows a lone
  surrogate and the model the whole character.
- `Profile.ProfileInitial`: takes the first Unicode scalar value of the
  chosen name, whereas `charAt(0)` takes the first UTF-16 code unit, so a
  name that starts outside the Basic Multilingual Plane gives a lone
  surrogate in the code and the whole character in the model. Strings are
  sequences of Unicode scalar values throughout the model.
- `Feed.VideoList.LoadVideos` requires an empty list. The component fetches
  once, on mount, and never resets the cursor, so a reload to a shorter
  list is outside what the code does.
