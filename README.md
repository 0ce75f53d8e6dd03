# Sitezy, modelled in Dafny

Sitezy is a link-in-bio site builder. A user registers with email and password (or signs
in socially and then picks a username), edits a profile with links to up to 25
platforms, picks a layout and a colour theme, and uploads a banner and a profile
picture through a crop dialog. The public page then renders the profile in one of four
layouts. This project models the logic that decides *what* happens, module by module.

- **Image capture and cropping** (`Transform`, `CropControls`, `ImageUtils`,
  `EnhancedImageCropper`, `ImageCropper`):
  - The canvas 2D context is a `Canvas` class. Its `translate`, `rotate` and `scale`
    calls compose an affine matrix in place.
  - The centre-anchored render that the crop dialogs replay on every canvas is one method,
    `RenderCentred`.
  - The crop dialogs are classes over scale, rotation, pan position and drag anchor.
  - Rotation by an angle is an abstract linear map supplied by the caller (no
    trigonometry), so the geometric facts hold for any rotation matrix.
  - `compressImage`'s down-scale rule and `formatFileSize` are modelled as written:
    unit selection by powers of 1024, and rounding to two decimals, counted in
    hundredths.
- **Validators with ordered messages** (`DragDropUpload`, `SignUp`,
  `CompleteCredentials`, `RequestErrors`):
  - Each check chain is a function returning the first failing message.
  - The pages are classes whose handlers update `error`, `isLoading` and the requests
    sent.
- **API routes over a store** (`Store`, `RegisterRoute`, `UsersUpdateRoute`,
  `ProfileUpdateRoute`, `UsersLookupRoute`, `Auth`):
  - The database is a `Database` class holding the user table (in insertion order) and
    the profile table (keyed by user id).
  - The uniqueness of email, username and profile-per-user is an invariant. The store
    enforces it as the database does, by refusing a create that would break it.
  - Password hashing and comparison are function parameters.
- **Dashboard** (`Dashboard`): the editor's state updates, the theme table, and the
  compression and crop configuration chosen per image type.
- **Presentation helpers** (`SocialLinks`, `CreativeLayout`, `ProfessionalLayout`,
  `MinimalLayout`, `LayoutRenderer`, `QrCode`):
  - The link filter and icon lookup shared by the four layouts, initials, the name
    split, tile tilt, the 8-link cap and the colour rules.
  - The layout dispatch.
  - The 25 × 25 fallback QR pattern, painted in place on an `array2<bool>` by the
    source's nested loops.

Some of the code's behaviour is easy to misread; the model follows the code:

- **Fit-to-frame contains the image in the crop box.** As its comment says ("fit image in
  crop area", components/enhanced-image-cropper.tsx:215), it takes the *smaller* of the
  two ratios, so one side touches the box and the other leaves a gap
  (`EnhancedImageCropper.FitLeavesGap`).
- **The committed crop frames a different region from the crop box.** The dashed crop
  overlay (components/enhanced-image-cropper.tsx:84-94) is the region the user is shown as
  the crop, but the committed image is rendered at the viewport's scale about the output's
  centre; see Findings.
- **The email and size checks are lenient.** Registration's email check is only
  `includes("@")`. The upload size limit is inclusive (a file of exactly `maxSize` MB
  passes although the message says "less than").
- **Sizes from 1 TiB print "undefined" as the unit.** `formatFileSize` has four unit
  names (`ImageUtils.TebibytesHaveNoUnit`).

## Model

| member | source | states |
|---|---|---|
| Transform.ThenApply | components/enhanced-image-cropper.tsx:69-76 | successive context transforms compose: the combined matrix maps a point by the later call first, then the earlier |
| Transform.Canvas.constructor | utils/image-utils.ts:27-28 | a canvas whose size is set from reals has the truncated integer size and a fresh identity context |
| Transform.Canvas.Restore | components/enhanced-image-cropper.tsx:82 | restore pops the last saved matrix back into force; with nothing saved it changes nothing |
| Transform.Canvas.ToDataUrl | components/enhanced-image-cropper.tsx:198 | the snapshot carries the requested MIME type and quality, the canvas size and every draw made so far |
| Transform.RenderCentred | components/enhanced-image-cropper.tsx:66-82 | save, translate to the centre, rotate, scale, translate by the pan, draw centred, restore: exactly one draw is added under the placement matrix, and the context matrix and saved stack return to what they were |
| Transform.PlacementClosedForm | components/enhanced-image-cropper.tsx:69-79 | the placement maps a point p to centre + R(scale * (p + position)) |
| Transform.CentreShowsPannedImageCentre | components/enhanced-image-cropper.tsx:69-79 | whatever the scale and rotation, the canvas centre shows the source point image-centre minus position |
| Transform.CentreSourceIsUnique | components/enhanced-image-cropper.tsx:69-79 | with non-zero scale and an invertible rotation, no other source point reaches the canvas centre |
| Transform.RenderScalesDistances | components/enhanced-image-cropper.tsx:69-79 | under a rotation every source distance is multiplied by the scale on the canvas |
| Transform.CanvasSpansWidthOverScale | components/enhanced-image-cropper.tsx:69-79 | without rotation, a canvas W wide shows W/scale source units: its left and right edges show the points W/(2 scale) either side of the centre point |
| Transform.RescaledPlacement | components/enhanced-image-cropper.tsx:182-188 | rendering about another centre with the scale multiplied by k magnifies the first rendering by k about its centre |
| CropControls.ZoomOut | components/enhanced-image-cropper.tsx:339 | max(lo, scale - 0.1): never below the bound, and either the bound or one step down |
| CropControls.ZoomIn | components/enhanced-image-cropper.tsx:348 | min(hi, scale + 0.1): never above the bound, and either the bound or one step up |
| CropControls.ZoomButtonsKeepRange | components/image-cropper.tsx:191-199 | from any scale in [lo, hi] the zoom buttons stay in [lo, hi] and move the scale in their own direction only |
| CropControls.RotateKeepsSteps | components/enhanced-image-cropper.tsx:373-382 | a ±15 press keeps a rotation on the 15-degree grid |
| CropControls.DragFollowsPointer | components/enhanced-image-cropper.tsx:148-159 | dragging moves the image by exactly the pointer's displacement since mouse-down |
| CropControls.DragBackRestores | components/image-cropper.tsx:81-92 | returning the pointer to the mouse-down point puts the image back where it was |
| ImageUtils.MimeType | utils/image-utils.ts:34 | the MIME type is "image/" followed by the format name |
| ImageUtils.MimeTypeInjective | utils/image-utils.ts:34 | distinct formats get distinct MIME types |
| ImageUtils.ResolveOptions | utils/image-utils.ts:10 | omitted options default to 1200, 1200, 0.8 and JPEG; supplied ones are kept |
| ImageUtils.FitWithin | utils/image-utils.ts:18-24 | an image within both bounds keeps its size; otherwise the result fits both bounds, keeps the aspect ratio, never grows and meets one bound exactly |
| ImageUtils.CompressImage | utils/image-utils.ts:8-45 | a failed load rejects with "Could not load image", a missing context with "Could not get canvas context"; otherwise it resolves with one draw at the origin whose size is the down-scaled size (`FitWithin`), on a canvas of that size truncated, encoded under "image/"+format at the quality |
| ImageUtils.UnitIndex | utils/image-utils.ts:70 | the unit index is the exponent of the largest power of 1024 not above the size |
| ImageUtils.UnitIndexUnique | utils/image-utils.ts:70 | that power-of-1024 bracket determines the unit index |
| ImageUtils.FormatFileSize | utils/image-utils.ts:65-73 | zero bytes print "0 Bytes"; any other size ends in a space and the name of its unit |
| ImageUtils.FormatFileSizeReadsBack | utils/image-utils.ts:65-73 | before the unit, a non-zero size prints a number that reads back as the size in that unit to the nearest hundredth, without trailing zeros |
| ImageUtils.Hundredths | utils/image-utils.ts:72 | the printed number is size/1024^i rounded to the nearest hundredth, a tie going up |
| ImageUtils.SmallSizesInBytes | utils/image-utils.ts:65-73 | 1 to 1023 bytes print as the whole number followed by " Bytes" |
| ImageUtils.ExactMultiples | utils/image-utils.ts:65-73 | n times 1024^i (1 <= n < 1024, i < 4) prints as n in unit i with no decimals, e.g. 1024 is "1 KB" |
| ImageUtils.NumberBetweenOneAnd1024 | utils/image-utils.ts:70-72 | the printed number is between 1 and 1024 inclusive |
| ImageUtils.DecimalTextRoundTrip | utils/image-utils.ts:72 | the printed number reads back as the rounded value, has a decimal point exactly when the hundredths are not whole, and never ends in a trailing zero after it |
| ImageUtils.TebibytesHaveNoUnit | utils/image-utils.ts:69-72 | from 1024^4 bytes on, the unit index runs past the four names and prints "undefined" |
| EnhancedImageCropper.CropBox | components/enhanced-image-cropper.tsx:89-94 | the crop box is 240 wide, 240/aspectRatio high and centred in the 300 × 300 viewport |
| EnhancedImageCropper.Handle | components/enhanced-image-cropper.tsx:108 | a handle is an 8 × 8 square centred on its corner |
| EnhancedImageCropper.HandleMarks | components/enhanced-image-cropper.tsx:107-109 | one handle fill per corner, in corner order |
| EnhancedImageCropper.FinalOutputHeight | components/enhanced-image-cropper.tsx:41 | a supplied non-zero height wins; otherwise the height follows the aspect ratio from the output width |
| EnhancedImageCropper.FitScale | components/enhanced-image-cropper.tsx:215-218 | the fit scale is positive, keeps the image inside the crop box and makes one side touch it |
| EnhancedImageCropper.FitLeavesGap | components/enhanced-image-cropper.tsx:216-218 | an 800 × 400 image fitted to a square box gets scale 0.3 and leaves a gap above and below |
| EnhancedImageCropper.EnhancedCropper.constructor | components/enhanced-image-cropper.tsx:21-39 | defaults aspect 1 and width 400; scale 1, rotation 0, position (0,0), not dragging, nothing loaded, no preview, nothing committed, a 300 × 300 viewport |
| EnhancedImageCropper.EnhancedCropper.ZoomOutButton | components/enhanced-image-cropper.tsx:339 | scale becomes max(0.1, scale - 0.1) and stays in [0.1, 5] if it was |
| EnhancedImageCropper.EnhancedCropper.ZoomInButton | components/enhanced-image-cropper.tsx:348 | scale becomes min(5, scale + 0.1) and stays in [0.1, 5] if it was |
| EnhancedImageCropper.EnhancedCropper.SlideScale | components/enhanced-image-cropper.tsx:357-360 | the slider sets any scale in [0.1, 5] |
| EnhancedImageCropper.EnhancedCropper.RotateLeft | components/enhanced-image-cropper.tsx:373 | rotation drops by exactly 15, unclamped, staying on the 15-degree grid |
| EnhancedImageCropper.EnhancedCropper.RotateRight | components/enhanced-image-cropper.tsx:382 | rotation rises by exactly 15, unclamped, staying on the 15-degree grid |
| EnhancedImageCropper.EnhancedCropper.SlideRotation | components/enhanced-image-cropper.tsx:391-394 | the slider sets a multiple of 15 in [-180, 180] |
| EnhancedImageCropper.EnhancedCropper.ResetTransform | components/enhanced-image-cropper.tsx:202-206 | from any state: scale 1, rotation 0, position (0,0) |
| EnhancedImageCropper.EnhancedCropper.FitToFrame | components/enhanced-image-cropper.tsx:208-223 | without an image nothing changes; otherwise the image fits inside the crop box touching it on one side, unclamped, centred and unrotated |
| EnhancedImageCropper.EnhancedCropper.HandleImageLoad | components/enhanced-image-cropper.tsx:225-233 | a loaded image records its size and marks the dialog loaded |
| EnhancedImageCropper.EnhancedCropper.MouseDown | components/enhanced-image-cropper.tsx:148-151 | dragging starts with the anchor pointer - position |
| EnhancedImageCropper.EnhancedCropper.MouseMove | components/enhanced-image-cropper.tsx:153-159 | while dragging the position becomes pointer - anchor; otherwise nothing moves |
| EnhancedImageCropper.EnhancedCropper.MouseUp | components/enhanced-image-cropper.tsx:161-163 | mouse-up and mouse-leave end the drag |
| EnhancedImageCropper.EnhancedCropper.DrawCanvas | components/enhanced-image-cropper.tsx:50-110 | without image, load or context the viewport is untouched; otherwise it is reset to 300 × 300 and holds one centred render, the crop-box stroke and the four handles |
| EnhancedImageCropper.EnhancedCropper.GeneratePreview | components/enhanced-image-cropper.tsx:112-146 | the preview is a 120 × 120/aspect JPEG at 0.9 holding one render about its own centre; unchanged without image or context |
| EnhancedImageCropper.EnhancedCropper.HandleCrop | components/enhanced-image-cropper.tsx:165-200 | as written: exactly one outputWidth × finalOutputHeight JPEG at 0.9, rendered about the output centre at the viewport's scale, is passed on; nothing without image or context |
| EnhancedImageCropper.EnhancedCropper.HandleCropFramed | components/enhanced-image-cropper.tsx:165-200 | the corrected commit: the same single JPEG, rendered with the scale magnified by outputWidth/240 |
| EnhancedImageCropper.RendersShareCentre | components/enhanced-image-cropper.tsx:69-79 | viewport, preview and output all centre the same source point (image centre minus position) |
| EnhancedImageCropper.OutputFramingDiffersFromCropBox | components/enhanced-image-cropper.tsx:182-188 | as written, the output's left edge shows a different source point from the crop box's left edge whenever outputWidth is not 240 |
| EnhancedImageCropper.FramedOutputMatchesCropBox | components/enhanced-image-cropper.tsx:89-105 | with the framed render, every point lands at its viewport offset magnified by outputWidth/240, and the crop box's corners become the output's corners |
| ImageCropper.Overlay | components/image-cropper.tsx:74-78 | the overlay sits at (30, 30), 240 × 240/aspectRatio, horizontally centred |
| ImageCropper.OverlayCentredOnlyWhenSquare | components/image-cropper.tsx:74-78 | the overlay is vertically centred exactly when the aspect ratio is 1 |
| ImageCropper.Cropper.constructor | components/image-cropper.tsx:28-33 | scale 1, rotation 0, position (0,0), not dragging, not loaded, nothing committed |
| ImageCropper.Cropper.ZoomOutButton | components/image-cropper.tsx:191 | scale becomes max(0.5, scale - 0.1) and stays in [0.5, 3] if it was |
| ImageCropper.Cropper.ZoomInButton | components/image-cropper.tsx:199 | scale becomes min(3, scale + 0.1) and stays in [0.5, 3] if it was |
| ImageCropper.Cropper.SlideScale | components/image-cropper.tsx:208-211 | the slider sets any scale in [0.5, 3] |
| ImageCropper.Cropper.RotateLeft | components/image-cropper.tsx:224 | rotation drops by exactly 15, unclamped |
| ImageCropper.Cropper.RotateRight | components/image-cropper.tsx:232 | rotation rises by exactly 15, unclamped |
| ImageCropper.Cropper.SlideRotation | components/image-cropper.tsx:241-244 | the slider sets a multiple of 15 in [-180, 180] |
| ImageCropper.Cropper.ResetTransform | components/image-cropper.tsx:136-140 | from any state: scale 1, rotation 0, position (0,0) |
| ImageCropper.Cropper.HandleImageLoad | components/image-cropper.tsx:174-176 | loading the image marks the dialog loaded |
| ImageCropper.Cropper.MouseDown | components/image-cropper.tsx:81-84 | dragging starts with the anchor pointer - position |
| ImageCropper.Cropper.MouseMove | components/image-cropper.tsx:86-92 | while dragging the position becomes pointer - anchor; otherwise nothing moves |
| ImageCropper.Cropper.MouseUp | components/image-cropper.tsx:94-96 | the drag ends |
| ImageCropper.Cropper.HandleCrop | components/image-cropper.tsx:98-134 | exactly one 400 × 400/aspect JPEG at 0.9, rendered about (200, 200/aspect), is passed on; nothing without image or context |
| DragDropUpload.ValidateFile | components/drag-drop-upload.tsx:30-43 | a non-image type is refused first, whatever the size; then a size above maxSize MB; a file passes exactly when both checks pass |
| DragDropUpload.SizeLimitIsInclusive | components/drag-drop-upload.tsx:37-40 | exactly maxSize MB passes, one byte more is refused |
| DragDropUpload.MessagesDistinct | components/drag-drop-upload.tsx:33-39 | the two messages differ |
| DragDropUpload.Uploader.constructor | components/drag-drop-upload.tsx:18-27 | maxSize defaults to 5 and the file filter to "image/*"; no highlight, no error, nothing selected |
| DragDropUpload.Uploader.HandleFile | components/drag-drop-upload.tsx:45-55 | a refused file shows its message and is not selected; an accepted one clears the error and is selected exactly once |
| DragDropUpload.Uploader.ErrorTimeout | components/drag-drop-upload.tsx:49 | the timer clears the message |
| DragDropUpload.Uploader.DragOver | components/drag-drop-upload.tsx:57-61 | the highlight turns on |
| DragDropUpload.Uploader.DragLeave | components/drag-drop-upload.tsx:63-67 | the highlight turns off |
| DragDropUpload.Uploader.Drop | components/drag-drop-upload.tsx:69-78 | the highlight turns off and only the first file is handled; an empty drop changes nothing else |
| DragDropUpload.Uploader.FileInput | components/drag-drop-upload.tsx:80-85 | only the first chosen file is handled; an absent or empty list changes nothing |
| Dashboard.Palette | app/dashboard/page.tsx:89-95 | a colour settings object has exactly the five colour sections, each holding its own colour; every theme's colours are built this way |
| Dashboard.FindTheme | app/dashboard/page.tsx:331 | a found theme is in the table and has the id; no theme found means no theme has it |
| Dashboard.ThemeIdsDistinct | app/dashboard/page.tsx:103-216 | the eight theme ids are pairwise distinct |
| Dashboard.FindThemeByOwnId | app/dashboard/page.tsx:331 | with distinct ids, looking up a theme's own id finds that theme |
| Dashboard.InitialProfile | app/dashboard/page.tsx:46-85 | the editor starts with the sample name and email plus 31 blank fields, 33 fields in all |
| Dashboard.ConfigFor | app/dashboard/page.tsx:917-925 | a banner is cropped at 3:1 and 1200 wide, a picture square and 400 wide, so either output is 400 high; each dialog has its own title |
| Dashboard.UploadOptions | app/dashboard/page.tsx:376-381 | a banner is compressed to at most 1200 × 400 and a picture to 400 × 400, JPEG at 0.8 |
| Dashboard.CroppedHeightIs400 | app/dashboard/page.tsx:917-925 | both crop configurations derive an output height of 400 |
| Dashboard.CompressForUpload | app/dashboard/page.tsx:373-389 | any successful compression is a JPEG at 0.8 within the bounds for the image type |
| Dashboard.Editor.constructor | app/dashboard/page.tsx:46-99 | the initial profile, colours, theme "professional", layout "modern" and a closed cropper |
| Dashboard.Editor.HandleInputChange | app/dashboard/page.tsx:322-324 | exactly that field takes the value; every other field keeps its own |
| Dashboard.Editor.HandleColorChange | app/dashboard/page.tsx:326-328 | exactly that colour section takes the value; the others keep theirs |
| Dashboard.Editor.HandleThemeChange | app/dashboard/page.tsx:330-336 | a known theme becomes selected and its palette replaces all five colours; an unknown id changes nothing |
| Dashboard.Editor.HandleCropComplete | app/dashboard/page.tsx:358-366 | the image goes to the picture or the banner by type, the other is untouched, and the cropper closes and clears |
| Dashboard.Editor.HandleCropCancel | app/dashboard/page.tsx:368-371 | the cropper closes and clears; the profile is not touched |
| Dashboard.Editor.HandleFileSelect | app/dashboard/page.tsx:373-389 | a successful compression opens the cropper on that image and type; a failure changes nothing |
| Dashboard.Editor.RemoveImage | app/dashboard/page.tsx:495 | the remove button empties the banner or the picture and nothing else |
| Dashboard.Editor.CurrentCropperConfig | app/dashboard/page.tsx:917-925 | width 1200 for a banner, 400 for a picture, with output height 400 either way |
| RequestErrors.SelectError | app/signup/page.tsx:88-100 | the body's error, else its message, else the page's generic text; a non-HTTP failure gives "An unexpected error occurred." |
| RequestErrors.SelectedErrorNonEmpty | app/completeCredentials/page.tsx:71-84 | with the page's non-empty generic text, the selected message is never empty |
| SignUp.Validate | app/signup/page.tsx:48-63 | the checks in order (empty field, mismatch, under 8 characters, terms); the first failure's message, and none exactly when all pass |
| SignUp.EarlierCheckWins | app/signup/page.tsx:48-55 | an empty field hides every other problem, and a short mismatched password reports the mismatch |
| SignUp.BlankNameCountsAsFilled | app/signup/page.tsx:48 | a name of spaces passes the "fill in all fields" check |
| SignUp.CheckMessagesDistinct | app/signup/page.tsx:49-61 | the four check messages are distinct |
| SignUp.SignUpPage.constructor | app/signup/page.tsx:17-26 | an empty form, no error, not loading |
| SignUp.SignUpPage.HandleSubmit | app/signup/page.tsx:40-74 | a failed check shows its message and sends nothing; otherwise the error is cleared, loading starts and one registration request with the form's four fields is sent |
| SignUp.SignUpPage.SubmitSettled | app/signup/page.tsx:76-103 | a failed registration shows the selected message, a failed sign-in its error, a success goes to "/dashboard"; loading ends in every case |
| SignUp.SignUpPage.HandleTextChange | app/signup/page.tsx:106-110 | exactly that field changes and any shown message is cleared |
| SignUp.SignUpPage.HandleAgreeChange | app/signup/page.tsx:106-110 | the terms box changes and any shown message is cleared |
| CompleteCredentials.ValidateUsername | app/completeCredentials/page.tsx:41-59 | the checks in order (empty, under 3, checking, unavailable); an unknown availability blocks nothing |
| CompleteCredentials.LengthBeforeAvailability | app/completeCredentials/page.tsx:41-49 | a length problem is reported before any availability problem |
| CompleteCredentials.DisabledMatchesAvailabilityChecks | app/completeCredentials/page.tsx:236 | for a long-enough username, an availability refusal implies a disabled button, and without loading the converse |
| CompleteCredentials.CredentialsPage.constructor | app/completeCredentials/page.tsx:14-26 | the email parameter, an empty username, no error, not loading, availability unchecked |
| CompleteCredentials.CredentialsPage.HandleSubmit | app/completeCredentials/page.tsx:33-67 | a failed check shows its message and sends nothing; otherwise loading starts and one update request with the email and username is sent |
| CompleteCredentials.CredentialsPage.SubmitSettled | app/completeCredentials/page.tsx:69-84 | success goes to "/dashboard/"+username with loading left on; failure ends loading and shows the selected message |
| CompleteCredentials.CredentialsPage.HandleInputChange | app/completeCredentials/page.tsx:87-90 | the username changes and any shown message is cleared |
| CompleteCredentials.CredentialsPage.DebounceFired | app/completeCredentials/page.tsx:94-103 | the debounced check leaves availability as it was |
| CompleteCredentials.CredentialsPage.IsSubmitDisabled | app/completeCredentials/page.tsx:236 | the disable rule, which in every reachable state holds exactly while loading |
| CompleteCredentials.NeverBlockedByAvailability | app/completeCredentials/page.tsx:28-31 | with availability never set, any username of three or more characters passes |
| Store.DefaultProfile | app/api/auth/register/route.ts:51-64 | the new profile: modern layout, professional theme, the fixed palette, no text |
| Store.FindByEmail | app/api/auth/register/route.ts:31 | a found index holds that email; none found means no user has it |
| Store.FindByUsername | app/api/users/route.ts:16-19 | a found index holds that username; none found means no user has it |
| Store.FindByEmailFindsOwner | lib/auth.ts:20-22 | with distinct emails, the lookup by a user's email finds exactly that user |
| Store.FindByUsernameFindsOwner | app/api/users/route.ts:16-19 | with distinct usernames, the lookup by a user's username finds exactly that user |
| Store.Database.CreateUser | app/api/auth/register/route.ts:41-48 | a taken email or username is refused and nothing changes; otherwise one user is appended under a fresh id; uniqueness is kept |
| Store.Database.SetUsername | app/api/users/update/route.ts:49-58 | refused when another user holds the username; otherwise only that user's username changes |
| Store.Database.CreateProfile | app/api/users/update/route.ts:60-73 | refused when the user already has a profile; otherwise the profile is filed under its user id |
| Store.Database.ReplaceProfile | app/api/userProfile/update/route.ts:50-52 | only that user's profile is replaced |
| RegisterRoute.Precheck | app/api/auth/register/route.ts:10-29 | the checks in order (missing field, under 6 characters, no "@"); none exactly when all pass |
| RegisterRoute.SixCharactersAccepted | app/api/auth/register/route.ts:17-22 | a six-character password is accepted and a five-character one refused |
| RegisterRoute.Register | app/api/auth/register/route.ts:10-69 | a failed check or a registered email answers 422 with the store unchanged; a taken username 500 with the store unchanged; otherwise one user holding hash(password) and one default profile are added, answering 201 with the user |
| UsersUpdateRoute.Rejection | app/api/users/update/route.ts:14-47 | 400 for a missing field, then 404 for an unknown email, then 409 for a username any user holds; none exactly when all pass |
| UsersUpdateRoute.OwnUsernameRefused | app/api/users/update/route.ts:35-47 | asking for the username one already holds answers 409 |
| UsersUpdateRoute.UpdateUser | app/api/users/update/route.ts:14-75 | a rejection leaves the store unchanged; otherwise the user takes the username and gets a default profile, answering 200 with id, email, username and createdAt only (500 with the username already changed when a profile exists) |
| ProfileUpdateRoute.ValueOr | app/api/userProfile/update/route.ts:53 | the sent value unless missing or empty, else the default |
| ProfileUpdateRoute.Updated | app/api/userProfile/update/route.ts:50-104 | layout, theme and colours default to modern, professional and the fixed palette; every written column takes its key's value or ""; other columns are kept |
| ProfileUpdateRoute.LowerCaseKeyIgnored | app/api/userProfile/update/route.ts:77 | a link sent as "soundcloud" is dropped: the soundCloud column is emptied |
| ProfileUpdateRoute.EtsyStoredCapitalised | app/api/userProfile/update/route.ts:85 | the "etsy" key is stored in the Etsy column |
| ProfileUpdateRoute.UpdateIdempotent | app/api/userProfile/update/route.ts:50-104 | saving the same request twice equals saving it once |
| ProfileUpdateRoute.UpdateProfile | app/api/userProfile/update/route.ts:15-107 | 400, then 404 for an unknown user, then 404 for a missing profile, none writing anything; otherwise only that profile is updated, the user table untouched, answering 200 with it |
| UsersLookupRoute.Lookup | app/api/users/route.ts:8-35 | 400 without a username, 404 for an unknown user or a missing profile; 200 exactly otherwise, with that user's profile |
| UsersLookupRoute.RegisteredUserHasDefaultPage | app/api/users/route.ts:16-35 | after registration a lookup of the new username answers 200 with the default profile |
| UsersLookupRoute.SavedProfileIsServed | app/api/users/route.ts:35 | after a profile save the lookup serves the saved profile |
| Auth.Authorize | lib/auth.ts:14-40 | null for a missing credential, an unknown email or a failed comparison; otherwise exactly that user's id, email and name |
| Auth.RegisteredUserCanSignIn | lib/auth.ts:14-40 | a registered user signs in with the same email and password when the comparison accepts a password against its own hash |
| Auth.Token.constructor | lib/auth.ts:51-54 | a token starts with no id and its claims |
| Auth.Token.Jwt | lib/auth.ts:51-54 | on sign-in the token takes the user's id; otherwise it is unchanged |
| Auth.SessionWithId | lib/auth.ts:55-63 | the session user gains the token's id; every other field is kept |
| Auth.SessionIdempotent | lib/auth.ts:55-63 | running the session callback again changes nothing |
| Auth.SignInSession | lib/auth.ts:14-63 | a sign-in that authorize refuses gives no session; otherwise the session's user id is the one authorize found |
| SocialLinks.SocialIcon | components/layouts/modern-layout.tsx:49-82 | the table's entry for a known platform, the indigo globe for any other key |
| SocialLinks.PlatformsHaveIcons | components/layouts/modern-layout.tsx:85-111 | all 25 listed platforms have their own icon entry |
| SocialLinks.ActiveLinks | components/layouts/modern-layout.tsx:84-123 | `getActiveSocialLinks`: the filter over the 25-entry platform table, giving at most 25 links (which links and in what order: `ActiveLinksExact`, `ActiveLinksInOrder`) |
| SocialLinks.ActiveAmongSound | components/layouts/modern-layout.tsx:113-122 | every kept link is filled in, carries the untrimmed value as url and its platform's icon |
| SocialLinks.ActiveAmongExact | components/layouts/modern-layout.tsx:113-122 | a platform is listed exactly when its value is filled in, under its table name |
| SocialLinks.ActiveAmongInOrder | components/layouts/modern-layout.tsx:113-114 | the kept keys are a subsequence of the table's keys |
| SocialLinks.ListedIffActive | components/layouts/modern-layout.tsx:113-114 | a platform of the list has its key listed exactly when its value is filled in |
| SocialLinks.ActiveLinksExact | components/layouts/modern-layout.tsx:84-123 | each platform of the 25-entry table is listed exactly when its value is filled in |
| SocialLinks.ActiveLinksInOrder | components/layouts/modern-layout.tsx:84-123 | the links follow the platform table's order |
| SocialLinks.BlankValueSkipped | components/layouts/modern-layout.tsx:114 | a value of spaces is not a link |
| Strings.TrimEmptyIffBlank | components/layouts/modern-layout.tsx:114 | `trim()` gives the empty string exactly for a value made only of whitespace |
| Strings.JoinSplit | components/layouts/modern-layout.tsx:193 | `split` loses nothing: joining the parts with the separator gives back the string |
| Strings.SplitManyIffSeparator | components/layouts/creative-layout.tsx:215-221 | a string splits into more than one part exactly when it holds the separator |
| SocialLinks.Initials | components/layouts/modern-layout.tsx:192-195 | at most one character per part, and never a space |
| SocialLinks.InitialsOfTwoWords | components/layouts/modern-layout.tsx:192-195 | two words give their first letters; a doubled space adds nothing |
| SocialLinks.BannerShownIff | components/layouts/modern-layout.tsx:130-132 | the banner shows exactly for a non-blank value other than the placeholder, the picture for any non-blank value |
| CreativeLayout.FirstName | components/layouts/creative-layout.tsx:215 | the first line contains no space |
| CreativeLayout.NameRejoins | components/layouts/creative-layout.tsx:215-221 | with a space, first + " " + rest is the name; without one, the first line is the name and the rest is empty |
| CreativeLayout.TiltCycles | components/layouts/creative-layout.tsx:285 | the tilt cycles through -7.5, -2.5, 2.5, 7.5 with period 4 |
| CreativeLayout.TiltsBalance | components/layouts/creative-layout.tsx:285 | four consecutive tilts sum to zero |
| ProfessionalLayout.ContactCards | components/layouts/professional-layout.tsx:228-253 | the phone card shows exactly for a truthy phone, the location card for a truthy location, the section exactly when one does |
| ProfessionalLayout.WhitespaceWebsiteShowsButtonOnly | components/layouts/professional-layout.tsx:198-207 | a website of spaces shows the button but is not a link |
| ProfessionalLayout.WebsiteLinkImpliesButton | components/layouts/professional-layout.tsx:198 | a website that is a link always shows the button |
| MinimalLayout.ShownLinks | components/layouts/minimal-layout.tsx:240 | the first min(8, n) links, a prefix of the list |
| MinimalLayout.IconColor | components/layouts/minimal-layout.tsx:252 | white on a gradient, the platform colour otherwise |
| MinimalLayout.TileBackground | components/layouts/minimal-layout.tsx:245 | a gradient as it is, a plain colour with the "20" suffix |
| MinimalLayout.GradientPlatforms | components/layouts/minimal-layout.tsx:245-252 | only Instagram and TikTok have gradients, so only their icons are white |
| LayoutRenderer.SelectLayout | components/layout-renderer.tsx:36-48 | each of the four names selects its layout; any other string selects Modern |
| LayoutRenderer.SelectByName | components/layout-renderer.tsx:37-44 | every layout is selected by its own name |
| LayoutRenderer.RenderByName | components/layout-renderer.tsx:34-47 | each layout's own name renders that layout and any other name the modern one, with the profile and colours passed on unchanged |
| QrCode.ModuleSquare | components/qr-code.tsx:46 | a module is size/25 wide, at column and row times that width |
| QrCode.ModulesTile | components/qr-code.tsx:46-58 | adjacent modules meet and the last ends at the canvas edge |
| QrCode.SomeModulesLight | components/qr-code.tsx:50-77 | three sample modules are light and three sample dark ones are dark; the whole pattern is stated by `DrawFallback` |
| QrCode.FillModules | components/qr-code.tsx:48-51 | a fill over whole modules sets exactly that block and keeps every other module |
| QrCode.PaintFrame | components/qr-code.tsx:47-51 | the dark square, then the white inner one: only the border is dark |
| QrCode.PaintStripes | components/qr-code.tsx:55-61 | after the stripe loop a module is dark exactly on the border or a stripe |
| QrCode.PaintCentre | components/qr-code.tsx:63-77 | after the centre loop a module is dark exactly on the border, a stripe or the centre mark |
| QrCode.DrawFallback | components/qr-code.tsx:45-78 | the whole fallback pattern, the same for every value |
| QrCode.Outcome | components/qr-code.tsx:14-43 | nothing for an empty value or no context; the remote image when it loads; the fallback exactly when loading fails or throws |
| QrCode.Render | components/qr-code.tsx:14-81 | the fallback leaves the fallback pattern on the grid; a loaded image clears every module before it is drawn; with no value or no context the grid is untouched |

## Left out

- Pixel content and encoding. Drawn images are recorded as their draw calls and the canvas size; JPEG/PNG encoding and decoding are not modelled. Setting the canvas size, which clears it, stands in for `clearRect`.
- Trigonometry. The degrees-to-radians conversion and cos/sin are the `turn` parameter, a caller-supplied linear map.
- Floating point. All arithmetic is over reals: the drift of repeated 0.1 zoom steps is not modelled. Neither is `formatFileSize` choosing its unit with `Math.log`, which can round differently at exact powers of 1024. JavaScript's binary rounding in `toFixed` is also not modelled.
- ImageUtils.CompressImage: requires a positive image size and positive bounds, which a decoded image and the callers' options always give.
- EnhancedImageCropper.EnhancedCropper.FitToFrame: Fit on an image that has not decoded yet (size 0, which gives an infinite scale in the source) is excluded, since reals have no infinity.
- EnhancedImageCropper.FitScale: a zero image size (the same Fit before decoding) is excluded for the same reason.
- Aspect ratio: `CropBox` and the members built on it require a positive aspect ratio, which the dashboard always passes (3 or 1).
- `getImageDimensions` (utils/image-utils.ts:47-63): only resolves the browser's decoded size.
- PNG quality: the encoder ignores the quality argument for PNG, which the model does not distinguish.
- Timers: the 3-second error clear, the 500 ms username debounce, the 100 ms fit after loading and the 2-second copy flag. Each is a separate handler method (`ErrorTimeout`, `DebounceFired`, `FitToFrame`), not a scheduled event.
- The stale `handleDrop` closure: React's closure over the first render's `maxSize` is not modelled.
- JavaScript strings are UTF-16. Lengths here count characters, not UTF-16 code units.
- The dashboard's `handleImageUpload` file-picker and FileReader flow: DOM plumbing.
- The simple cropper's `drawCanvas` (components/image-cropper.tsx:35-79) is never invoked; only its overlay rectangle is modelled.
- The modern layout's gradient tile styling is not modelled.
- Request bodies are modelled as the string fields the routes read. A non-string JSON value is not modelled.
- users/update passes the whole request body to `user.update`. Fields other than email and username are not modelled.
- Prisma ids: cuid strings are modelled as `nat` ids from a counter.
- The Prisma schema is not part of this model. Uniqueness of email, username and a profile's user id is inferred from the `findUnique` lookups on those columns.
- Network failures and thrown database errors other than a uniqueness refusal are not modelled.
- The QR service request: its outcome is the `remote` parameter. The pixels of the loaded image are not modelled: the grid records that the canvas is cleared before it is drawn.
- QR context: `hasContext` covers both the canvas being mounted and the context being available.
- Navigation, `signIn` and axios: navigation is recorded as the list of routes pushed, and sign-in and HTTP outcomes are parameters.
- Google sign-in, next-auth pages configuration, and `app/page.tsx`, `app/layout.tsx`, `components/image-preview.tsx`: no decision logic.
- Session expiry: the two-hour lifetime (lib/auth.ts:45) is the constant `SessionMaxAge`; expiry itself is enforced by next-auth and not modelled.

## Findings

| source | as written | input that shows it | evidently intended | confidence | as-written member | corrected member |
|---|---|---|---|---|---|---|
| components/enhanced-image-cropper.tsx:182-188 | the committed crop is rendered about the output centre at the viewport's scale, so an output W wide shows W/scale source units while the crop box shows 240/scale | outputWidth 400 (the profile picture), scale 1, no rotation: the crop box's left edge shows the source point 120 left of the centre point, the output's left edge the point 200 left of it | the output shows exactly what the crop box frames, the scale magnified by outputWidth/240 | not executed | EnhancedImageCropper.OutputFramingDiffersFromCropBox | EnhancedImageCropper.FramedOutputMatchesCropBox |
