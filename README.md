# UniHostel client logic, modelled in Dafny

UniHostel is a student-hostel web application (Next.js/React). Its pages are
mostly markup around HTTP calls. This project models the client-side logic
that those pages carry, and proves what it does:

- **Hostel-creation wizard** (`CreateHostel`). A two-tab form ("basic",
  "photos"). "Next" validates only the six text fields. "Previous" and the tab
  triggers move without validating. The zod schema's field rules are modelled.
  The photo list and its preview object URLs are kept the same length through
  selection and removal. The submit brackets the request with `isSubmitting`.
  The amenities text is split on commas and trimmed.
- **Image gallery** (`ImageGallery`). A cursor over `n` images, with
  wrap-around next and previous, direct selection, and a placeholder source.
- **Owner signup and login** (`OwnerSignup`, `OwnerLogin`). The field rules,
  the password-confirmation rule, and the mapping from the login reply to a
  notice and a redirect.
- **Owner bookings, owner dashboard, owner hostels and home pages**
  (`OwnerBookings`, `OwnerDashboard`, `OwnerHostels`, `Home`). How each page
  normalises its response body. Also the bookings flattening, the join of
  bookings to hostels by id, the list caps (3 and 8), the status labels and
  colours, and the display fallbacks.
- **Account activation** (`AccountActivation`). Where the query text comes
  from, and the loading → success/error state machine.
- **Root layout** (`RootLayout`). The path-prefix test that hides the header
  and footer.

Shared modules:
- `Text`: `startsWith`, the digit regular expressions, `parseInt`, `split`,
  `trim` and `charAt(0).toUpperCase()`.
- `Json`: the untyped values the pages read from response bodies, with
  JavaScript truthiness, `.`/`?.` property access, `||` and `===`.
- `Api`: what an awaited axios call yields.
- `Wrappers`: `Option`, and a `map` whose callback may throw.
- `Zod`: the `z.string().min(n)` rule that both form schemas use.

The pages' `useState` hooks become classes. Each class has one field per state
variable. Each state-changing handler becomes a method whose postcondition gives
the new state. Pure expressions become functions and lemmas.

Facts about the code that the model follows:
- The minimum lengths apply to the raw, untrimmed strings, and they count
  UTF-16 code units, as JavaScript's `length` does.
- Nothing inside `onSubmit` guards against a second submit. Only the disabled
  buttons do.
- The file-rejection notice has fixed text and does not give a count.
- A successful submit drops the previews without revoking their object URLs.

## Model

| member | source | states |
|---|---|---|
| RootLayout.HideLayout | app/layout.tsx:19-25 | The six-way `startsWith` test hides the layout iff the path starts with "/owner/dashboard", "/owner/bookings", "/owner/hostels" or "/admin/". The "/owner/hostels/create" and "/owner/hostels/[id]" tests add nothing. |
| RootLayout.LiteralPrefixCases | app/layout.tsx:20-25 | The test is a literal prefix test. "/admin", "/owner/login", "/owner/signup", "/" and "/hostels" show the header. "/admin/…", "/owner/hostelsX" and "/owner/dashboard" hide it. |
| RootLayout.Render | app/layout.tsx:36-40 | The header and footer render together, exactly when the layout is not hidden. The Toaster always renders. |
| Text.PrefixOfPrefix | app/layout.tsx:22-24 | A path that starts with a longer prefix also starts with any prefix of that prefix. |
| ImageGallery.NextIndex | components/image-gallery.tsx:20-24 | For a cursor in [0, n), the next index is in [0, n) and equals (i + 1) mod n, so n−1 wraps to 0. |
| ImageGallery.PreviousIndex | components/image-gallery.tsx:14-18 | For a cursor in [0, n), the previous index is in [0, n) and equals (i − 1) mod n, so 0 wraps to n−1. |
| ImageGallery.StepsAreInverse | components/image-gallery.tsx:14-24 | Next followed by previous, and previous followed by next, both restore the cursor. |
| ImageGallery.NextTimesAdds | components/image-gallery.tsx:20-24 | Before the last image is reached, k next-steps add k to the cursor. |
| ImageGallery.NextTimesCompose | components/image-gallery.tsx:20-24 | a + b next-steps are a next-steps followed by b more. |
| ImageGallery.FullTurn | components/image-gallery.tsx:20-24 | n successive next-steps return to the starting image. |
| ImageGallery.SourceAt | components/image-gallery.tsx:34 | The image source is the entry at the index. It is "/placeholder.svg" when that entry is missing or empty. |
| ImageGallery.Gallery.constructor | components/image-gallery.tsx:11-12 | The gallery opens at index 0. |
| ImageGallery.Gallery.GoToPrevious | components/image-gallery.tsx:14-18 | The new index is the wrap-around predecessor, and a valid cursor stays valid. |
| ImageGallery.Gallery.GoToNext | components/image-gallery.tsx:20-24 | The new index is the wrap-around successor, and a valid cursor stays valid. |
| ImageGallery.Gallery.GoToImage | components/image-gallery.tsx:26-28 | The index becomes exactly the one given, with no clamping. Any index from the dots or thumbnails (0..n−1) gives a valid cursor. |
| ImageGallery.Gallery.DisplayedSource | components/image-gallery.tsx:33-34 | The large image shows the current entry, or the placeholder when the cursor is out of range or the entry is empty. |
| Zod.MinLength | app/owner/hostels/create/page.tsx:31-50 | A `min(n)` rule passes iff the raw string's JavaScript length (UTF-16 code units) is at least n. On failure it reports its own message. |
| CreateHostel.FieldError | app/owner/hostels/create/page.tsx:30-56 | Each field's error is absent iff its rule passes: a length of at least 2 for hostel name, location and amenities, 10 for the rules and 20 for the description (in code units); a price of one or more digits 0-9; at least 5 photos. |
| CreateHostel.NoErrorsIff | app/owner/hostels/create/page.tsx:30-56 | The error map over a set of fields is empty iff every one of those fields passes. |
| CreateHostel.AstralNamePasses | app/owner/hostels/create/page.tsx:31-33 | A hostel name of one character outside the Basic Multilingual Plane has length 2 and passes `min(2)`. |
| CreateHostel.BasicValidIff | app/owner/hostels/create/page.tsx:30-50 | The basic tab passes iff hostel name, location and amenities have a length of at least 2, the price is one or more digits 0-9, the rules have a length of at least 10 and the description at least 20 (lengths in UTF-16 code units). |
| CreateHostel.FormValidIff | app/owner/hostels/create/page.tsx:30-56 | The whole form passes iff the basic tab passes and there are at least 5 photos. |
| CreateHostel.BasicValidIgnoresPhotos | app/owner/hostels/create/page.tsx:74-81 | The photos play no part in the basic tab's validation. |
| CreateHostel.DefaultsFailEverywhere | app/owner/hostels/create/page.tsx:61-69 | Every field of the default values has an error. |
| CreateHostel.PriceAndUntrimmedCases | app/owner/hostels/create/page.tsx:31-44 | "" reports "Price is required.", "12a" reports "Price must be a number." and "1200" passes. A two-space hostel name passes, because nothing is trimmed. |
| CreateHostel.Trigger | app/owner/hostels/create/page.tsx:74-81 | `form.trigger` recomputes the errors of the fields named. Every other field keeps its error. |
| CreateHostel.AcceptedFiles | app/owner/hostels/create/page.tsx:99-101 | The kept files are all images of at most 10·1024·1024 bytes, and there are no more of them than the input has. |
| CreateHostel.AcceptedFilesAppend | app/owner/hostels/create/page.tsx:99-101 | Filtering a concatenation filters each part and keeps their order. |
| CreateHostel.AcceptedFilesCounts | app/owner/hostels/create/page.tsx:99-101 | Every accepted file is kept as often as it occurs. No other file is kept. |
| CreateHostel.AcceptedFilesKeepsAllIff | app/owner/hostels/create/page.tsx:103-109 | No file is dropped iff every file passes. Exactly then is the filter the identity. |
| CreateHostel.Fresh | app/owner/hostels/create/page.tsx:116-117 | The new object URLs are one per kept file, consecutive and fresh. |
| CreateHostel.RemoveAt | app/owner/hostels/create/page.tsx:122-128 | `splice(i, 1)` removes exactly element i. The elements before it stay in place, the ones after it shift down by one, and the length drops by one. |
| CreateHostel.AmenityList | app/owner/hostels/create/page.tsx:171 | The amenity list has one more entry than the text has commas. |
| CreateHostel.AmenityListPieces | app/owner/hostels/create/page.tsx:171 | Each amenity is free of commas and has no white space at either end. |
| CreateHostel.AmenityListRoundTrip | app/owner/hostels/create/page.tsx:171 | Without spaces around the commas, joining the list with commas gives back the text. |
| CreateHostel.BuildPayload | app/owner/hostels/create/page.tsx:168-178 | The posted record copies hostel name, location, rules and description unchanged, carries the split-and-trimmed amenities, the uploaded photo URLs, the given `createdAt` time stamp and status "pending". Its price is the decimal value of the price text, which gives that text back unless it has a leading zero. |
| CreateHostel.NumeralOfDecimalValue | app/owner/hostels/create/page.tsx:172 | `parseInt` of a digit string with no leading zero round-trips to the same numeral. |
| CreateHostel.CreateHostelPage.constructor | app/owner/hostels/create/page.tsx:23-25 | The form starts on "basic" with the default values, no errors, no previews, no submit attempt and no submit in progress. |
| CreateHostel.CreateHostelPage.HandleNext | app/owner/hostels/create/page.tsx:72-86 | From "basic", the six text fields are re-validated, and the form moves to "photos" iff they pass. Otherwise the tab is unchanged. On "photos" nothing changes. |
| CreateHostel.CreateHostelPage.HandlePrevious | app/owner/hostels/create/page.tsx:88-92 | The form returns to "basic" without validating. It is a no-op on "basic". |
| CreateHostel.CreateHostelPage.SelectTab | app/owner/hostels/create/page.tsx:227 | A tab trigger sets the tab directly and skips validation. |
| CreateHostel.WithText | app/owner/hostels/create/page.tsx:242-339 | Setting one text field gives that field the new text and leaves the photos and every other field as they were. |
| CreateHostel.CreateHostelPage.SetText | app/owner/hostels/create/page.tsx:242-339 | Typing into a text input replaces that field's value and nothing else. Before any submit attempt the errors are kept. After one, that field alone is re-validated (react-hook-form's re-validation on change). |
| CreateHostel.CreateHostelPage.HandleFileChange | app/owner/hostels/create/page.tsx:94-119 | The kept files are appended after the unchanged existing photos, with one fresh preview each. Photo and preview counts stay equal. One notice is raised iff a file was dropped. No file list means no change. |
| CreateHostel.CreateHostelPage.RemoveImage | app/owner/hostels/create/page.tsx:121-130 | Exactly photo i and preview i are removed, and the rest keep their order. Only preview i is revoked. The two lists stay the same length. |
| CreateHostel.CreateHostelPage.HandleSubmit | app/owner/hostels/create/page.tsx:160-161 | Every field is validated and the form counts as submitted. `onSubmit` starts, setting `isSubmitting` and disabling the controls, iff all fields pass. A submit already in flight is not checked. |
| CreateHostel.CreateHostelPage.FinishSubmit | app/owner/hostels/create/page.tsx:189-214 | `isSubmitting` is cleared on both paths, so the controls are enabled again. Success resets the form (including its submitted state), empties the previews and redirects to /owner/hostels. Failure keeps every value and shows the error's message or the generic text. |
| Text.Split | app/owner/hostels/create/page.tsx:171 | `split(',')` yields at least one piece, and no piece contains the separator. |
| Text.JoinSplit | app/owner/hostels/create/page.tsx:171 | Joining the pieces of `split` with the separator gives back the string. |
| Text.SplitJoin | app/owner/hostels/create/page.tsx:171 | Splitting the join of separator-free pieces gives back the pieces. |
| Text.SplitCount | app/owner/hostels/create/page.tsx:171 | `split` yields one more piece than the string has separators. |
| Text.TrimStart | app/owner/hostels/create/page.tsx:171 | The result is the suffix left after all leading ECMAScript white space is dropped. |
| Text.TrimEnd | app/owner/hostels/create/page.tsx:171 | The result is the prefix left after all trailing white space is dropped. |
| Text.TrimSpec | app/owner/hostels/create/page.tsx:171 | `trim` removes only white space, and only from the two ends. Its result neither starts nor ends with white space. |
| Text.Trim | app/owner/hostels/create/page.tsx:171 | The trimmed string is no longer than the input, and it is empty or neither starts nor ends with white space. |
| Text.TrimKeepsOnly | app/owner/hostels/create/page.tsx:171 | `trim` introduces no character that the input lacks. |
| Text.TrimIdempotent | app/owner/hostels/create/page.tsx:171 | Trimming twice is the same as trimming once. |
| Text.DecimalValueOfNumeral | app/owner/hostels/create/page.tsx:172 | `parseInt` reads every decimal numeral back to its number. |
| Text.DecimalValueLeadingZero | app/owner/hostels/create/page.tsx:172 | A leading zero does not change the value `parseInt` reads. |
| Text.DecimalValue | app/owner/hostels/create/page.tsx:172 | `parseInt` of a digit string whose first digit is not '0' is positive. |
| Text.Numeral | app/owner/hostels/create/page.tsx:42 | The numeral of a number is a non-empty string of digits, so it passes the price regex. |
| Text.Capitalize | app/owner/bookings/page.tsx:104 | The label has the same length and the same characters after the first. A lower-case ASCII first letter becomes the matching upper-case letter. A label that starts otherwise is unchanged. |
| Text.CapitalizeIdempotent | app/owner/bookings/page.tsx:104 | Capitalising a label twice is the same as capitalising it once. |
| Text.CodeUnits | app/owner/hostels/create/page.tsx:31-50 | The JavaScript length of a string lies between its number of characters and twice that number. |
| Text.BasicPlaneLength | app/owner/hostels/create/page.tsx:31-50 | Without characters above U+FFFF, the JavaScript length equals the number of characters. |
| Text.AstralCharacterLength | app/owner/hostels/create/page.tsx:31-50 | A single character above U+FFFF has JavaScript length 2. |
| Text.DigitStringLength | app/owner/signup/page.tsx:25-27 | A string of digits has one code unit per character. |
| OwnerSignup.ValidIff | app/owner/signup/page.tsx:15-40 | The form passes iff both names have a length of at least 2, the email passes the email check, and the phone has a length of at least 10, all digits 0-9. The password must have a length of at least 8 and equal its confirmation, and the terms must be exactly true. Lengths are in UTF-16 code units. |
| OwnerSignup.PhoneError | app/owner/signup/page.tsx:25-27 | The phone passes iff its length is at least 10 and it is all digits. A short phone shows the length message; a long enough phone that is not all digits shows zod's default "Invalid". |
| OwnerSignup.Validate | app/owner/signup/page.tsx:15-40 | Each field's error is absent iff its rule passes: names of length 2 or more, the email check, the phone rule, a password of length 8 or more, a confirmation of length 8 or more equal to the password, and terms exactly true. |
| OwnerSignup.MismatchOnConfirmPassword | app/owner/signup/page.tsx:37-40 | A mismatch reports "Passwords don't match" on confirmPassword. The password's own error does not depend on the confirmation. |
| OwnerSignup.DefaultsRejected | app/owner/signup/page.tsx:45-53 | The default values fail. Every field except the email has an error, and terms=false reports the terms message. |
| OwnerSignup.TenDigitPhoneAccepted | app/owner/signup/page.tsx:25-27 | "0771234567" passes the phone rule. |
| OwnerSignup.NineDigitPhoneTooShort | app/owner/signup/page.tsx:25-27 | "077123456" shows the length message. |
| OwnerSignup.SpacedPhoneNotDigits | app/owner/signup/page.tsx:25-27 | "077 123456" passes the length check and fails the digits regex. |
| OwnerSignup.Submit | app/owner/signup/page.tsx:56-62 | Valid values give only the success notice, with no request. Otherwise the errors are shown. |
| OwnerLogin.Validate | app/owner/login/page.tsx:16-23 | The email passes iff the email check accepts it. The password passes iff its JavaScript length is at least 8. |
| OwnerLogin.DefaultsRejected | app/owner/login/page.tsx:29-32 | The empty defaults fail on the password. They fail on the email too when the email check rejects "". |
| OwnerLogin.AfterLogin | app/owner/login/page.tsx:35-67 | Only an ok reply redirects, to /owner/dashboard, and only failures are destructive. A network error or an unreadable body shows "Please try again later.". |
| OwnerLogin.FailureMessage | app/owner/login/page.tsx:52-59 | A failed login shows the body's `message` when it is truthy, otherwise "Invalid credentials", and does not navigate. |
| OwnerLogin.NullBodyIsCaught | app/owner/login/page.tsx:53-66 | A null error body makes `.message` throw. The throw is caught as "Please try again later.". |
| OwnerLogin.Submit | app/owner/login/page.tsx:78 | The request is sent iff both fields pass. Its outcome is `AfterLogin`. |
| OwnerBookings.BookingsPage.constructor | app/owner/bookings/page.tsx:25-26 | The list starts empty and loading. |
| OwnerBookings.BookingsPage.FetchBookings | app/owner/bookings/page.tsx:29-49 | A request is made iff a non-empty token exists. Without one the list is unchanged. With one it becomes `data.hostels \|\| []`. `loading` ends false on every path. |
| OwnerBookings.AfterFetch | app/owner/bookings/page.tsx:43 | A resolved reply whose body has readable `hostels` gives `hostels` when truthy, otherwise []. A rejected request, or a body whose `.hostels` read throws, keeps the current list. |
| OwnerBookings.MissingHostelsGivesEmptyList | app/owner/bookings/page.tsx:43 | A body without a truthy `hostels` gives the empty list. |
| OwnerBookings.Tagged | app/owner/bookings/page.tsx:56-59 | A flattened booking has every field of its source booking unchanged, with `hostel_name` set to the hostel's name (replacing any existing value). |
| OwnerBookings.HostelRows | app/owner/bookings/page.tsx:56-59 | A hostel's bookings can be mapped iff they form an array. |
| OwnerBookings.Flatten | app/owner/bookings/page.tsx:55-60 | The flattened list exists iff every hostel has an array of bookings. Its length is then the sum of the hostels' booking counts. |
| OwnerBookings.FlattenAt | app/owner/bookings/page.tsx:55-60 | Booking j of hostel i follows all bookings of the earlier hostels, and it is that booking tagged with hostel i's name. Hostels stay in order, and each hostel's bookings stay in order. |
| OwnerBookings.BadgeFor | app/owner/bookings/page.tsx:97-102 | The badge is yellow iff the status is exactly 'pending', otherwise green. |
| OwnerBookings.CardOf | app/owner/bookings/page.tsx:96-108 | A card renders iff the status is a string. It then shows the capitalised status, its badge and the booking's hostel name. |
| OwnerBookings.Render | app/owner/bookings/page.tsx:55-130 | The page renders iff the list is an array, every hostel has an array of bookings, and every booking has a string status. "No active bookings found." shows iff the flattened list is empty. Otherwise there is one card per flattened booking, in order. |
| OwnerBookings.EmptyListRendersMessage | app/owner/bookings/page.tsx:84-85 | A response without hostels renders "No active bookings found.". |
| OwnerBookings.NoTokenRendersMessage | app/owner/bookings/page.tsx:84-85 | The initial empty list, which is kept when there is no token, renders the same message. |
| OwnerDashboard.DashboardPage.constructor | app/owner/dashboard/page.tsx:33-39 | The data starts with empty hostels and bookings, and loading is true. |
| OwnerDashboard.DashboardPage.FetchOwnerData | app/owner/dashboard/page.tsx:42-60 | Without a token the throw escapes before the `try`. No request is made, and neither the data nor `loading` changes. With a token a resolved reply replaces the data, a rejected one keeps it, and `loading` ends false. |
| OwnerDashboard.Recent | app/owner/dashboard/page.tsx:136 | At most 3 bookings are shown, and they are the first ones, in order. |
| OwnerDashboard.FindHostel | app/owner/dashboard/page.tsx:137 | `find` returns the first hostel whose `id` strictly equals the booking's `hostel_id`, or none if no hostel matches. |
| OwnerDashboard.HostelLabel | app/owner/dashboard/page.tsx:137-143 | The label is always truthy. It is the first matching hostel's name, or "Unknown Hostel" when that name is falsy or no hostel matches. |
| OwnerDashboard.StatusColour | app/owner/dashboard/page.tsx:146-148 | The status text is green iff the status is exactly 'confirmed', otherwise yellow. |
| OwnerDashboard.RowOf | app/owner/dashboard/page.tsx:136-150 | A row renders iff the status is a string. It then shows the capitalised status, its colour and the joined hostel label. |
| OwnerDashboard.Render | app/owner/dashboard/page.tsx:85-204 | The page renders iff `hostels` and `bookings` are arrays, every hostel has a tile and every recent booking has a row. The counts shown are `hostels.length` and `bookings.length`. The rows are those of the first min(3, n) bookings, in order, and there is one tile per hostel, in order. |
| OwnerDashboard.TileOf | app/owner/dashboard/page.tsx:179-204 | A hostel tile renders iff `hostel.id` and `hostel.image_url[0]` can both be read. A missing or null `image_url` throws. The image is the first entry's url when truthy, otherwise the 64×64 placeholder. |
| OwnerDashboard.HostelWithoutImagesThrows | app/owner/dashboard/page.tsx:184 | A hostel with an id and a name but no `image_url` makes the whole dashboard throw. |
| OwnerDashboard.EmptyImageListShowsPlaceholder | app/owner/dashboard/page.tsx:184 | A hostel whose `image_url` is an empty array renders with the placeholder. |
| OwnerDashboard.InitialRender | app/owner/dashboard/page.tsx:33-38 | The initial data, which is kept without a token, shows 0 hostels, 0 bookings, no rows and no tiles. |
| OwnerHostels.Normalize | app/owner/hostels/page.tsx:31-34 | An array body is used as it is. A non-array body gives `body.hostels` when that is truthy, otherwise []. A null body throws. |
| OwnerHostels.NormalizeShapes | app/owner/hostels/page.tsx:31-34 | Both response shapes yield the hostel array. A body without `hostels` gives [], and a null body throws. |
| OwnerHostels.OwnerHostelsPage.constructor | app/owner/hostels/page.tsx:20 | The list starts as []. |
| OwnerHostels.OwnerHostelsPage.FetchHostels | app/owner/hostels/page.tsx:23-40 | The normalised body replaces the list. A rejected request or a null body leaves the list as it was. |
| OwnerHostels.EmptyFetchShowsNoHostels | app/owner/hostels/page.tsx:85-128 | A body without hostels gives [], which renders "No hostels found.". |
| OwnerHostels.ImageSource | app/owner/hostels/page.tsx:95 | For a hostel whose `image_url` can be read, the image is the first entry's url when that url is truthy, otherwise the placeholder. A null hostel throws. |
| OwnerHostels.RatingText | app/owner/hostels/page.tsx:106 | A falsy rating shows "N/A". Any other rating shows as it is. A null hostel throws. |
| OwnerHostels.RoomsText | app/owner/hostels/page.tsx:110 | Falsy `available_rooms` shows 0. Any other value shows as it is. A null hostel throws. |
| OwnerHostels.BareHostelFallbacks | app/owner/hostels/page.tsx:95-110 | A hostel with no image, rating or room count shows the placeholder, "N/A" and 0. |
| OwnerHostels.RowOf | app/owner/hostels/page.tsx:87-122 | A row renders iff `hostel.id` can be read. Its image, rating and room count are the ones above. |
| OwnerHostels.Render | app/owner/hostels/page.tsx:85-128 | "No hostels found." shows iff the list is not a non-empty array. The page throws iff it is one and some entry is null or undefined. Otherwise there is one row per hostel, in order. |
| OwnerHostels.NullEntryThrows | app/owner/hostels/page.tsx:87-89 | A null entry anywhere in the list makes the page throw. |
| Home.HostelsOf | app/page.tsx:40-42 | The list is `data.hostels` when that is an array, otherwise []. |
| Home.TopLevelArrayIgnored | app/page.tsx:40-42 | Unlike the owner's list, a top-level array body gives []. Null and undefined bodies also give []. |
| Home.HomePage.constructor | app/page.tsx:31-32 | The list starts empty and loading. |
| Home.HomePage.FetchHostels | app/page.tsx:35-50 | A resolved reply sets the list, and a failed fetch keeps []. `loading` ends false either way. |
| Home.HomePage.Featured | app/page.tsx:87 | At most 8 hostels are rendered, and they are the first ones, in order. |
| Json.OptMember | app/page.tsx:40 | `v?.key` equals `v.key` wherever `v.key` does not throw, and is `undefined` where it would. |
| Json.First | app/owner/dashboard/page.tsx:184 | `v[0]` throws iff `v.0` does. For an array it is the first element, or `undefined` when the array is empty. |
| Wrappers.MapAll | app/owner/dashboard/page.tsx:136-160 | A `map` whose callback may throw throws iff one call throws. Otherwise it yields one result per element, in order. |
| AccountActivation.QueryFromHash | app/account/activate/success/page.tsx:12 | With an empty search, the query is the part of the hash between its first '?' and the next '?' or the end. |
| AccountActivation.QueryText | app/account/activate/success/page.tsx:12 | A non-empty search is the query. With an empty search the query never contains '?', and a hash with no '?' gives ''. |
| AccountActivation.ActivationPage.constructor | app/account/activate/success/page.tsx:7-8 | The page starts loading, with no status. |
| AccountActivation.ActivationPage.ActivateAccount | app/account/activate/success/page.tsx:11-37 | A request is made iff both the token and the email are present and non-empty. The status is success iff the post resolves with status 200. Every path ends with `isLoading` false and a status set. |
| AccountActivation.ActivationPage.HandleDashboardClick | app/account/activate/success/page.tsx:42-44 | The click shows the spinner and schedules the redirect, whatever the outcome. |
| AccountActivation.ActivationPage.RedirectTimerFires | app/account/activate/success/page.tsx:44-47 | The timer navigates to /owner/login and clears the spinner. |

## Left out

- HTTP and I/O are not modelled. This covers `uploadPhotos`, `fetch`, the `api.get`/`api.post` calls and `lib/axios.js` with its token interceptor. Their results enter as parameters: `Api.Reply`, `OwnerLogin.Reply` and `CreateHostel.SubmitOutcome`.
- `URL.createObjectURL` is modelled as handing out consecutive handle numbers. `URL.revokeObjectURL` is modelled as a log of revoked handles.
- Navigation, `setTimeout`, toasts and `console` are not modelled as effects. `router.push` and `window.location` become a returned or stored path. Toasts become returned values. The one-second timer becomes a second method.
- zod's email check and `URLSearchParams` are foreign code. They enter as function parameters: `isEmail`, and `Lookup` in `AccountActivation`.
- react-hook-form is modelled where the shown code calls it (`trigger`, `handleSubmit`, `setValue`, `reset`) and for typing into a text input, which re-validates that field after the first submit attempt. Its error display, touched and dirty state, and blur handling are not modelled.
- OwnerSignup.Validate: assumes zod evaluates the object-level password refinement even when a field check has already failed. zod treats length and regex failures as non-fatal. It is also assumed that react-hook-form keeps the first issue per field.
- CreateHostel.FieldError: the photos refinement "All items must be valid files." always passes, because every photo in the model is a `File`.
- Text.ToUpper: upper-cases ASCII letters only. Unicode case mapping is not modelled.
- Json: numbers are integers. NaN and floating point are not modelled. The dashboard's `parseFloat(...).toLocaleString()` revenue figure and the bookings page's date formatting are not modelled.
- Json.Spread: spreading an array or a string booking (which yields index keys in JavaScript) is modelled as spreading nothing.
- OwnerDashboard.IdMatches: a `null` entry in the hostels list, or a `null` booking, is read as having no `id`/`hostel_id`. JavaScript would throw inside `find`. The page still throws in the model, because `OwnerDashboard.TileOf` rejects that entry, but `HostelLabel` alone does not say so.
- OwnerDashboard.Render: `hostels` or `bookings` that are not arrays count as a render failure. JavaScript throws there too: no other JSON value has a `.map` method, and `bookings.slice(0, 3)` of a string is again a string.
- Text.CodeUnits: Dafny characters are Unicode scalar values, so a lone surrogate cannot be written. Every other string has its JavaScript length.
- CreateHostel.BuildPayload: the clock that `new Date().toISOString()` reads enters as the `now` parameter.
- The "Save as Draft" button has no handler and is not modelled.
- Pure presentation files are not modelled: the header, footer, admin and owner layouts, hostel and room cards, and the Tailwind configuration. `app/hostels/page.tsx`, `app/admin/page.tsx`, `lib/data.ts` and the room-creation and booking pages are not part of this model either.
- Asynchrony is modelled only as separate steps. `HandleSubmit` and `FinishSubmit` bracket the in-flight request, and `FetchX` stands for a whole effect. Interleavings of several requests in flight are not modelled.
