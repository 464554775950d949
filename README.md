# Wedding invitation: a verified model of its logic

The wedding invitation is a single page built from React components. Most of it is markup, but five components hold logic with state:

- **The envelope** (`EnvelopeSection`) falls in, shows its front, flips when tapped, and on a second tap plays a reveal sequence that ends by calling `onOpen`.
- **The countdown** (`CoupleSection`) splits the milliseconds left until the wedding into weeks, days, hours, minutes and seconds once a second.
- **The photo gallery** (`GallerySection`) builds one album per folder and opens a lightbox with wrap-around navigation, keyboard shortcuts, thumbnails and a fallback when an image fails to load.
- **The music player** (`VinylPlayer`) keeps play, mute and visibility flags beside an audio element.
- **The page** (`WeddingInvitation`) drives falling maple leaves from a seeded linear congruential generator and shows a loading screen that counts preloaded images.

Each component is one Dafny module:

| module | file |
|---|---|
| `Envelope` | `envelope.dfy` |
| `Countdown` | `countdown.dfy` |
| `Gallery` | `gallery.dfy` |
| `Vinyl` | `vinyl.dfy` |
| `Invitation` | `invitation.dfy` |

Two small modules support them:

- `JsMath` (`js_math.dfy`) holds JavaScript's truncating `%` and a few facts about integer division.
- `Opt` (`option.dfy`) holds an option type.

Where the component's state is updated step by step, the module has pure functions that specify each step, and a class. The class's fields are the component's state or refs. Its methods are the handlers, each proved to follow the specification and, where the component has one, to keep the component's invariant.

Timers are pending events, not durations. A `setTimeout` adds a tag to a set of pending timers. "The timer fires" is an event that may happen only while its tag is pending. The outcome of the audio element's `play()` promise is an input of every operation that calls it. Instants are integer milliseconds.

The envelope needs one remark. The timers of its reveal sequence are never cleared. A tap during the reveal therefore calls `onOpen` at once, and the sequence's last timer calls it again later. The model follows the code here: `Envelope.OpenCanRunTwice` exhibits a run from mount in which `onOpen` is called twice. It claims no "exactly once" property. Only "at most once" is proved, and only for `onEnvelopeClick`.

## Model

| member | source | states |
|---|---|---|
| Envelope.InitialState | components/envelope-section.tsx:9-20 | After mount the stage is falling, hoverStep is 0, the card is down, nothing is hovered, and only the 2500 ms falling timer is armed; the invariant holds |
| Envelope.StepPreservesInv | components/envelope-section.tsx:13-55 | Every tap, timer callback and unmount keeps the invariant: hoverStep in 0..3 and non-zero only on the back, isHovered iff hoverStep ≥ 1, cardSlideUp only at hoverStep 3, and at most one timer of the reveal chain pending, the one matching hoverStep while mounted |
| Envelope.StageOnlyAdvances | components/envelope-section.tsx:13-47 | The stage never moves back in falling < front < flipping < back; it leaves falling only by the falling timer, front only by a tap, and flipping only by the 800 ms flip timer |
| Envelope.RevealOnlyAdvances | components/envelope-section.tsx:21-37 | hoverStep never decreases, isHovered and cardSlideUp never revert, and cardSlideUp is set only by the slide timer once hoverStep is 3 |
| Envelope.TapIgnoredWhileFallingOrFlipping | components/envelope-section.tsx:39-55 | A tap while falling or flipping changes nothing and invokes no callback |
| Envelope.TapOnFront | components/envelope-section.tsx:40-47 | A tap on the front invokes onEnvelopeClick exactly when it is given, sets the stage to flipping and arms one new timer, which turns the envelope to its back |
| Envelope.TapStartsReveal | components/envelope-section.tsx:21-50 | The first tap on the back sets isHovered and hoverStep 1; the chained timers then give hoverStep 2, hoverStep 3, the card slid up and only after that the call to onOpen, leaving no reveal timer pending |
| Envelope.TapMidRevealOpens | components/envelope-section.tsx:48-54 | A tap on the back with hoverStep ≠ 0 calls onOpen at once and changes no state, so the pending reveal timers stay armed |
| Envelope.OpenedOnlyByTapOrLastTimer | components/envelope-section.tsx:31-53 | onOpen is called only by a tap during the reveal or by the last reveal timer, and while mounted that timer finds hoverStep 3 and the card up |
| Envelope.RunKeepsInvariant | components/envelope-section.tsx:13-55 | Along any run of events from a state satisfying the invariant, the invariant holds at the end, the stage has not moved back, and onEnvelopeClick was invoked at most once (not at all once the flip has started) |
| Envelope.EnvelopeClickAtMostOnce | components/envelope-section.tsx:40-43 | From mount, onEnvelopeClick is invoked at most once in any run |
| Envelope.FullRevealOpensOnce | components/envelope-section.tsx:13-55 | The run fall, tap, flip, tap and the four reveal timers calls onOpen once and onEnvelopeClick once when given, and ends on the back with hoverStep 3, the card up and no timer pending |
| Envelope.OpenCanRunTwice | components/envelope-section.tsx:25-54 | A tap during the reveal followed by the uncancelled reveal timers calls onOpen twice |
| Envelope.EnvelopeSection.constructor | components/envelope-section.tsx:9-20 | The fields hold the initial state and the falling timer is armed |
| Envelope.EnvelopeSection.TriggerAnimationSequence | components/envelope-section.tsx:21-38 | On the back it sets isHovered and hoverStep 1 and arms the first reveal timer; otherwise nothing changes |
| Envelope.EnvelopeSection.HandleEnvelopeClick | components/envelope-section.tsx:39-55 | The fields and the callbacks invoked are exactly those of the tap step, and the invariant is kept |
| Envelope.EnvelopeSection.TimerFires | components/envelope-section.tsx:14-47 | A timer callback updates the fields (only while mounted), arms the next timer of the chain and calls onOpen exactly as the timer step says; the invariant is kept |
| Envelope.EnvelopeSection.Unmount | components/envelope-section.tsx:17-19 | Cleanup clears the falling timer only and leaves every other timer pending |
| Countdown.Decompose | components/couple-section.tsx:43-70 | Expired iff the difference is ≤ 0, and then all fields are 0; otherwise every field is non-negative, days < 7, hours < 24, minutes < 60, seconds < 60, and the fields recombine to the whole seconds of the difference |
| Countdown.BucketsRecombine | components/couple-section.tsx:57-61 | The successive floor divisions and remainders of a non-negative difference lie in their buckets and add back up to difference div 1000 |
| Countdown.DecomposeRecovers | components/couple-section.tsx:57-70 | Every well-bucketed, unexpired value is what the decomposition gives for the milliseconds it stands for, with any sub-second leftover that makes the difference positive: the decomposition loses nothing at whole-second precision |
| Countdown.BucketsUnique | components/couple-section.tsx:57-61 | Two well-bucketed values with the same total number of seconds agree field by field |
| Countdown.ExpiryIsPermanent | components/couple-section.tsx:41-54 | With the wedding instant fixed and the clock not going back, once the countdown is expired it stays expired |
| Countdown.LastSecondShowsZeros | components/couple-section.tsx:45-70 | Less than a second before the wedding every field reads 0 but the countdown is not expired |
| Countdown.WeekAndDayBefore | components/couple-section.tsx:57-61 | One week and one day before the wedding the countdown reads 1 week, 1 day, 0 hours, 0 minutes, 0 seconds |
| Countdown.CountdownTimer.constructor | components/couple-section.tsx:11-18 | The countdown starts at all zeros, not expired |
| Countdown.CountdownTimer.Tick | components/couple-section.tsx:40-71 | Each tick overwrites the countdown with the decomposition of the time left at that instant |
| Gallery.AlbumFilesNonEmpty | components/gallery-section.tsx:17-31 | Every folder listed in the map, and every name absent from it, has at least one image file |
| Gallery.ThumbnailFile | components/gallery-section.tsx:33-36 | The thumbnail file is never empty: it is the folder's first file or else main.svg |
| Gallery.PathRoundTrip | components/gallery-section.tsx:39 | The file name is read back from the path built for it |
| Gallery.AlbumPaths | components/gallery-section.tsx:54 | One path per file, in file order, each under /slide-images/ and the folder |
| Gallery.AlbumImagesMatchFiles | components/gallery-section.tsx:49-55 | An album's image list is never empty, and its i-th path lies in the folder and names the folder's i-th file |
| Gallery.GalleryEntryOfFolder | components/gallery-section.tsx:37-48 | A gallery entry has id and folderId equal to the folder, title "Album" plus the folder, and the same thumbnail path as image and thumbnail |
| Gallery.BuildGallery | components/gallery-section.tsx:37-48 | One entry per folder, in folder order |
| Gallery.BuildGalleryKeepsIdsDistinct | components/gallery-section.tsx:37-42 | Distinct folders give entries with distinct ids |
| Gallery.GalleryImagesFollowFolders | components/gallery-section.tsx:16-48 | The gallery has one album per listed folder, in the listed order, and no two albums share an id |
| Gallery.FolderIdsDistinct | components/gallery-section.tsx:16 | The folder list has no duplicates |
| Gallery.NavigationLaws | components/gallery-section.tsx:117-126 | On an album of n > 0 images, next and previous keep the index in [0, n) and undo each other; on an empty album neither moves |
| Gallery.NextWrapsAround | components/gallery-section.tsx:117-126 | With five images, next from the last gives the first and previous from the first gives the last |
| Gallery.FallbackIndex | components/gallery-section.tsx:428-438 | The onError search finds an index iff the album has more than one image; the index found is the next one, wrapping, and is never the current one |
| Gallery.Lightbox.constructor | components/gallery-section.tsx:57-59 | No album is selected, the index is 0 and no images are loaded |
| Gallery.Lightbox.OpenAlbum | components/gallery-section.tsx:105-111 | The album is selected, the index is reset to 0 and the album's non-empty image list is loaded |
| Gallery.Lightbox.CloseAlbum | components/gallery-section.tsx:112-116 | No album is selected, the images are cleared and the index is 0 |
| Gallery.Lightbox.NextImage | components/gallery-section.tsx:117-121 | The index moves one forward, wrapping, and nothing else changes; it stays a valid index |
| Gallery.Lightbox.PrevImage | components/gallery-section.tsx:122-126 | The index moves one back, wrapping, and nothing else changes; it stays a valid index |
| Gallery.Lightbox.KeyDown | components/gallery-section.tsx:127-136 | With an album open, Escape closes it and the arrow keys move the index; any other key, or no open album, changes nothing |
| Gallery.Lightbox.SelectThumbnail | components/gallery-section.tsx:486-489 | A thumbnail click selects that thumbnail's index and nothing else changes |
| Gallery.Lightbox.ImageError | components/gallery-section.tsx:426-438 | On an image error the index moves to the next, different image when there is one; otherwise the state is unchanged |
| Vinyl.OperationsKeepInv | components/vinyl-player.tsx:20-122 | Every operation keeps isPlayingRef equal to isPlaying and the element's muted property equal to isMuted, with nothing playing or remembered as playing without an audio element |
| Vinyl.PlayOutcome | components/vinyl-player.tsx:26-38 | A play that resolves sets both playing flags and notifies true; a rejected play changes nothing and notifies nothing |
| Vinyl.PauseOutcome | components/vinyl-player.tsx:40-47 | With an audio element, pause clears both playing flags and notifies false |
| Vinyl.TogglePlayFlips | components/vinyl-player.tsx:49-55 | togglePlay pauses a playing player and otherwise plays; when play resolves it flips the playing flag, and toggling twice restores the player |
| Vinyl.ToggleMuteTwice | components/vinyl-player.tsx:57-62 | With an audio element, toggleMute flips isMuted; applying it twice restores the player |
| Vinyl.HideThenShowRestores | components/vinyl-player.tsx:78-99 | Hiding remembers whether the player was playing and stops it; showing again with a resume that resolves restores the playing flag |
| Vinyl.ShowWithoutMemoryIsNoOp | components/vinyl-player.tsx:87-99 | Showing the page resumes nothing and changes nothing unless the player was playing before it was hidden |
| Vinyl.NoAudioNoEffect | components/vinyl-player.tsx:26-99 | With no audio element, no operation changes any flag or notifies, given the invariant |
| Vinyl.VinylPlayer.constructor | components/vinyl-player.tsx:20-24 | All flags start false |
| Vinyl.VinylPlayer.Play | components/vinyl-player.tsx:26-38 | The fields and notifications follow the play step, and the invariant is kept |
| Vinyl.VinylPlayer.Pause | components/vinyl-player.tsx:40-47 | The fields and notifications follow the pause step, and the invariant is kept |
| Vinyl.VinylPlayer.TogglePlay | components/vinyl-player.tsx:49-55 | The fields and notifications follow the toggle step, and the invariant is kept |
| Vinyl.VinylPlayer.ToggleMute | components/vinyl-player.tsx:57-62 | The fields follow the mute step, nothing is notified, and the invariant is kept |
| Vinyl.VinylPlayer.HandleVisibilityChange | components/vinyl-player.tsx:78-100 | The fields and notifications follow the visibility step, and the invariant is kept |
| Vinyl.VinylPlayer.AudioPlayed | components/vinyl-player.tsx:115-118 | The element's play event sets both playing flags without notifying |
| Vinyl.VinylPlayer.AudioPaused | components/vinyl-player.tsx:119-122 | The element's pause event clears both playing flags without notifying |
| Invitation.NextValue | components/wedding-invitation.tsx:16 | From a non-negative value the next value lies in [0, 233280), so each returned number is below 1 |
| Invitation.Draws | components/wedding-invitation.tsx:13-19 | n calls return n numbers, the i-th being the generator's value after i + 1 steps of the recurrence |
| Invitation.DrawsInRange | components/wedding-invitation.tsx:13-19 | From a non-negative seed every returned number lies in [0, 1) |
| Invitation.ValueNonNegative | components/wedding-invitation.tsx:14-16 | From a non-negative seed the generator's value stays non-negative |
| Invitation.DrawsReplay | components/wedding-invitation.tsx:45-57 | Two generators with the same seed return the same numbers: fewer calls give a prefix of more calls |
| Invitation.Generator.constructor | components/wedding-invitation.tsx:13-14 | The captured value starts at the seed |
| Invitation.Generator.Next | components/wedding-invitation.tsx:15-18 | A call advances the value by one step of the recurrence and returns it |
| Invitation.DrawFrom | components/wedding-invitation.tsx:45-52 | Calling a fresh generator n times returns exactly the specified numbers, all in [0, 1) from a non-negative seed |
| Invitation.LeafImageIndexValid | components/wedding-invitation.tsx:45-83 | Every particle's image index is a valid index into the four maple-leaf images |
| Invitation.AppendKeepsIdsIncreasing | components/wedding-invitation.tsx:59-67 | Appending a leaf whose id is the counter's value keeps the ids strictly increasing and below the incremented counter, hence distinct |
| Invitation.LeafField.constructor | components/wedding-invitation.tsx:34-35 | No leaves, the counter at 0 and no timer armed |
| Invitation.LeafField.ScheduleLeaves | components/wedding-invitation.tsx:41-71 | Exactly 20 timers are armed, one per particle index 0..19, and the leaves and counter are untouched |
| Invitation.LeafField.LeafTimerFires | components/wedding-invitation.tsx:56-68 | A firing timer appends exactly one leaf with the counter's previous value as id and that particle's image index, increments the counter and disarms itself; the ids stay strictly increasing |
| Invitation.LeafField.Teardown | components/wedding-invitation.tsx:73-75 | Cleanup clears every pending leaf timer and leaves the leaves as they are |
| Invitation.ProgressLaws | components/wedding-invitation.tsx:94-99 | The progress stays in 0..100, never decreases as the count grows, and is 100 when every image is counted |
| Invitation.ProgressMonotone | components/wedding-invitation.tsx:96 | A larger count never gives a smaller progress |
| Invitation.ProgressOfFive | components/wedding-invitation.tsx:86-96 | With five images each counted image adds exactly 20 percent |
| Invitation.Loader.constructor | components/wedding-invitation.tsx:86-123 | Loading starts with progress 0, nothing counted, all five images pending and the 3000 ms timeout armed |
| Invitation.Loader.ImageSettled | components/wedding-invitation.tsx:94-116 | Each image, loaded or failed, adds one to the count; progress does not decrease and is 100 iff all are counted, and then the 500 ms timer is armed; isLoading is untouched |
| Invitation.Loader.HideTimerFires | components/wedding-invitation.tsx:99-103 | The timer armed after the last image ends the loading screen, and only after every image is counted |
| Invitation.Loader.TimeoutFires | components/wedding-invitation.tsx:121-123 | The 3000 ms timeout ends the loading screen whatever the count |
| Invitation.Loader.Teardown | components/wedding-invitation.tsx:125-127 | Cleanup clears the timeout only; the 500 ms timer, if armed, stays armed |
| JsMath.Rem | components/gallery-section.tsx:117-126 | JavaScript's `%` by a positive divisor: in [0, b) for a non-negative dividend and in (-b, 0] for a negative one |
| JsMath.RemBelowTwice | components/gallery-section.tsx:117-126 | For 0 ≤ a < 2b, `a % b` is a, or a − b once a reaches b |

## Left out

- JSX markup, Tailwind classes, inline styles, CSS animations and transitions: these are presentation only.
- `app/layout.tsx` and `components/invitation-card.tsx` are not part of this model. They hold configuration and static markup, and the card has a single mount-time visibility flag.
- The carousel auto-scroll loop (`components/gallery-section.tsx:68-102`) and its hover pause. It works on DOM scroll positions with a fractional speed and `requestAnimationFrame`.
- The floating-point values of each leaf: position, delays, durations, hue, brightness, rotation and size. The oklch colours are left out too. Only the generator's integer state and the image index are modelled.
- Timer durations, React render batching, effect scheduling and stale closures. Each handler is taken to see the committed state. The setter calls inside one handler are applied together.
- The audio element's internals, its volume and the browser's autoplay policy. Whether `play()` resolves is an input.
- Parsing of the wedding date string in the local time zone. The target instant and the current instant are integer milliseconds.
- Registering and removing the `IntersectionObserver`, `keydown` and `visibilitychange` listeners. The `new Image()` preloading and the `innerHTML` placeholder of the gallery's error handler are left out too. Only the state changes they trigger are modelled.
- The 1 s interval of the countdown. Each tick is a call of `CountdownTimer.Tick` with the instant of that tick.
- Gallery.Lightbox.OpenAlbum: applies the two state updates of `openAlbum` in one step. The await between them is not modelled. The unused `findIndex` result of `openAlbum` is dropped.
- The `USE_MOCKUP_IMAGES` placeholder branch of the gallery is not modelled, because the constant is false.
- The effect in `components/vinyl-player.tsx:73-75` also reports `isPlaying` to `onPlayStateChange` whenever `isPlaying` or the callback changes. The notification log of `VinylPlayer` records only the handlers' own calls.
- The page renders the player without an `onPlayStateChange` prop (`components/wedding-invitation.tsx:472`). None of the notifications in `VinylPlayer.notifications` therefore reaches anything on the page; the log records what the component would pass to a parent that supplied the callback.
- Gallery.AlbumFiles: looks up only the map's own entries. In JavaScript, `folderImagesMap[folderId]` also finds inherited object properties such as `constructor` or `toString`; for those names `getThumbnailFile` falls back to `main.svg` but `loadAlbumImages` would throw. No folder of the page has such a name.
- The wiring from the envelope's click to the player's `play` (`components/wedding-invitation.tsx:130-134`) is not modelled. Neither is the rest of the page's markup state (the open flag and the payment dialog).
- Invitation.Progress: models `Math.round(loaded / total * 100)` as exact rational rounding, halves up. For the five images of the page this equals the floating-point result.
- Vinyl.NoAudioNoEffect: states the no-op property only for states that satisfy the invariant. Hiding the page writes `wasPlayingBeforeHidden` before checking for the audio element (`components/vinyl-player.tsx:80`). Without an element this is a no-op only because nothing can be playing.
- Invitation.Loader: does not model `setLoadingProgress` or `setIsLoading` after unmount. The images' handlers and the 500 ms timer are not cancelled by the cleanup, but their state updates then have no effect.
- Vinyl.VinylPlayer.Play: treats the awaited `play()` (`components/vinyl-player.tsx:30`) and its outcome as one step. Events that arrive before the promise settles are not interleaved: a second toggle, a visibility change, or the element's own play event.
- Vinyl.VinylPlayer.HandleVisibilityChange: treats the awaited resume (`components/vinyl-player.tsx:91`) and its outcome as one step, with the same consequence: no event is interleaved between the call and its settling.
