# Santander kiosk UI: the input and display state machine

The `UI` class of the kiosk drives what the customer sees and types. It
holds a registry of named displays, each an ordered list of elements.
`loadDisplay(name)` switches displays:

- it takes every label shown so far off the frame and strips its mouse listener;
- it sets the mode to `name`;
- it builds one label per element, in order;
- it replaces the frame's key listener;
- it runs the entry effect of `card`, `biometric` or `checking`.

`addText(token)` feeds a token. `CANCEL` goes back to PIN entry and then
falls through to `CLEAR`, which empties the buffer; any other token is
trimmed and appended. It then acts on the mode:

- `pin`: takes four characters as the PIN and reads the fingerprint;
- `checking`: decides between `services` and `errormsg`;
- `selectammount`: takes the typed number off the balance.

The two methods call each other through the entry effects.

The project has two layers.

- **The specification layer.** Module `Machine` is the state machine as pure functions over a `Session` value. `Load` is `loadDisplay`, `Add` is `addText` and `Process` is its mode switch. `Click` is a label's mouse listener and `KeyPress` is delivery of a key to the registered key listeners. The lemmas about the machine are stated on these functions.
- **The class layer.** Module `Ui` has a `class UI` with the Java fields, and methods that update them in place. Each method is proved to end in exactly the state, and to complete exactly as, the matching `Machine` function says. So every lemma about the machine holds of the object.

The other modules model the pure helpers:

- `Layout`: `setSize`, Java's `(int)` cast of a `double`.
- `Fonts`: the style switch of `setFont`.
- `Display`: elements, labels, the `$name$` template rule, the element loop.
- `JavaLang`: `String.trim`, `toUpperCase`, `Integer.parseInt`, `"" + int`, 32-bit wrap-around, and how a call completes (normally, by an exception, or by `Main.exit`).

Exceptions are not errors of the model. A call that throws keeps every
update made before the throw, as the Java object does, and reports
`Thrown(e)`. An unknown element type reports `Exited`.

The hardware answers become parameters. The fingerprint reader's answer
is `finger`, used when a call reaches the `biometric` entry effect. The
RFID reader's answer is never used by the UI, so it does not appear.

Three behaviours of the code worth knowing, all kept by the model:

- Showing a name missing from the registry: the old labels are detached, the mode is set to the name, and then the element loop dereferences null (`NullPointer`).
- In `selectammount` the buffer is parsed on every activation but CANCEL, so the first number button pressed (for example the token `200`) is taken off the balance at once. `CLEAR` there parses an empty buffer and throws `NumberFormat`.
- The key listener made for a display is removed only when the next display shown is not `pin`. Showing `pin` while `pin` is shown therefore leaves two PIN listeners, and each key is then typed twice (`Machine.ReshowingPinDoublesKeys`).

## Model

| member | source | states |
|---|---|---|
| JavaLang.Wrap | santander/src/ui/UI.java:419 | `userAmount -= select` on a Java `int`: the result is in `int` range, differs from the exact difference by a multiple of 2^32, and equals it when that fits |
| JavaLang.Trim | santander/src/ui/UI.java:381 | `String.trim`: drop the blank prefix, then the blank suffix; characterised by `JavaLang.TrimSpec` |
| JavaLang.ParseInt | santander/src/ui/UI.java:417 | `Integer.parseInt`: an optional sign and at least one digit whose value fits an `int`, else NumberFormatException; the result is in `int` range and the empty string fails |
| JavaLang.ToDecimal | santander/src/ui/UI.java:181 | `"" + n` for an `int`: a minus sign for a negative value and the shortest numeral; `JavaLang.ParseDecimal` is its inverse |
| JavaLang.TrimStartDrops | santander/src/ui/UI.java:381 | the front half of `trim`: what is kept is a suffix of the token, everything dropped is blank, and it starts with a non-blank |
| JavaLang.TrimEndDrops | santander/src/ui/UI.java:381 | the back half of `trim`: what is kept is a prefix, everything dropped is blank, and it ends with a non-blank |
| JavaLang.TrimSpec | santander/src/ui/UI.java:381 | `text.trim()` is a middle slice of the token with only chars at or below U+0020 on either side; it is empty exactly for an all-blank token, and otherwise starts and ends with a non-blank |
| JavaLang.TrimOneChar | santander/src/ui/UI.java:272 | the one-char text of a key survives `trim` whole, or vanishes when the char is blank |
| JavaLang.TrimKeepsDigits | santander/src/ui/UI.java:381 | a number button's token is appended untouched by `trim` |
| JavaLang.NumeralValue | santander/src/ui/UI.java:181 | the decimal text of a non-negative number is a non-empty digit string whose value is that number |
| JavaLang.ParseDecimal | santander/src/ui/UI.java:417 | `Integer.parseInt` of the decimal text of any `int` gives that `int` back |
| JavaLang.ParseIntRejects | santander/src/ui/UI.java:417 | `parseInt` fails on any string with a char that is neither a digit nor a leading sign |
| JavaLang.ParseDigits | santander/src/ui/UI.java:417 | `parseInt` of a non-empty digit string whose value fits in an `int` gives that value |
| Layout.Trunc | santander/src/ui/UI.java:355-358 | rounding toward zero: the result is the integer next to the product on the side of zero |
| Layout.NarrowToInt | santander/src/ui/UI.java:355-358 | Java's `(int)` of a `double`: truncation when it fits, `Integer.MIN_VALUE` or `MAX_VALUE` when it does not |
| Layout.PixelBounds | santander/src/ui/UI.java:353-360 | `setSize`: each fraction times the window side, narrowed to a Java `int`; all four results are in `int` range |
| Layout.BoundsWithinWindow | santander/src/ui/UI.java:353-360 | with every geometry fraction in [0, 1] and a window size in `int` range, every coordinate and extent lies within the window, and an element ending inside the window is not pushed past its edge by the rounding |
| Fonts.StyleOf | santander/src/ui/UI.java:318-332 | the style is BOLD, ITALIC or BOLD+ITALIC exactly when the word equals that name ignoring case, and PLAIN otherwise |
| Fonts.StyleWords | santander/src/ui/UI.java:318-332 | concrete words: `bold`, `Italic`, `Bold+Italic` pick their styles; `plain`, the empty word and `bold italic` are PLAIN |
| Fonts.FontOf | santander/src/ui/UI.java:310-342 | the family is the given name, or the label's default exactly when the name is empty; the style is the one the style switch picks, with AWT constant `Font.BOLD` (1), `Font.ITALIC` (2), their sum, or `Font.PLAIN` (0); auto-fit size exactly when the size is negative, the given size otherwise |
| Display.Build | santander/src/ui/UI.java:164-258 | the element loop: one label per element in order, stopping at the first element that fails; characterised by `Display.BuildSpec` |
| Display.Resolve | santander/src/ui/UI.java:175-182 | an empty text throws StringIndexOutOfBounds; an undelimited text is kept; `$userAmount$` shows the balance in decimal; any other `$...$` text throws |
| Display.RenderedAmountParses | santander/src/ui/UI.java:181 | the balance shown by `$userAmount$` parses back to the balance |
| Display.MakeLabel | santander/src/ui/UI.java:166-256 | one element makes a label exactly when it is acceptable; that label is attached, placed by `setSize`, styled by `setFont`, has the element's colours, shows the resolved template for `label` and the element's text otherwise, and clicks to nothing, to its `input` token or to its `location`; an unknown type exits, a bad template throws |
| Display.BuildSpec | santander/src/ui/UI.java:164-258 | the element loop makes one label per element of the longest acceptable prefix, in order; it completes exactly when that prefix is the whole display, and otherwise stops as the first bad element says |
| Display.BuildCompletes | santander/src/ui/UI.java:164-258 | the element loop completes exactly when every element is acceptable |
| Display.UnknownTypeExits | santander/src/ui/UI.java:253-256 | an unknown type after acceptable elements exits the process, keeping the labels made before it |
| Display.ShownAreBuilt | santander/src/ui/UI.java:146-258 | after the old labels are detached and a display built, the labels on the frame are exactly the new ones |
| Machine.KeyText | santander/src/ui/UI.java:272 | the text a key hands to `addText` is its char as a one-char string |
| Machine.Load | santander/src/ui/UI.java:146-296 | `loadDisplay`: detach, set the mode, the element loop, the key listener swap, then the entry effects of `card`, `biometric` and `checking`; characterised by the lemmas below |
| Machine.Add | santander/src/ui/UI.java:369-426 | `addText`: the token switch with CANCEL falling through to CLEAR, then the mode switch; characterised by the lemmas below |
| Machine.Process | santander/src/ui/UI.java:389-425 | the mode switch of `addText` for `pin`, `checking` and `selectammount` |
| Machine.Click | santander/src/ui/UI.java:212-246 | the mouse listener of a label: a detached label has none, an `input` label calls `addText`, a `link` label calls `loadDisplay` |
| Machine.ListenKeys | santander/src/ui/UI.java:265-276 | the key listener swap: the newest listener is removed unless the display is `pin`, then one for the display is added |
| Machine.KeySteps | santander/src/ui/UI.java:268-274 | delivery of a key to a run of listeners, oldest first; a PIN listener calls `addText`, an exception stops the rest |
| Machine.KeyPress | santander/src/ui/UI.java:265-276 | a key press goes to the listeners registered when it arrives |
| Machine.LoadRetiresLabels | santander/src/ui/UI.java:146-296 | every display load, entry effects included and however it completes, keeps every earlier label at its place with its text, bounds, font, colours and action unchanged, only taken off the frame with its listener |
| Machine.AddRetiresLabels | santander/src/ui/UI.java:369-426 | a token leaves the labels alone or, through a display load, keeps each at its place unchanged but off the frame |
| Machine.ProcessRetiresLabels | santander/src/ui/UI.java:389-425 | the mode switch leaves the labels alone or, through a display load, keeps each at its place unchanged but off the frame |
| Machine.StaleClickIgnored | santander/src/ui/UI.java:148-158 | after any display load, a click on a label of an earlier display changes nothing |
| Machine.ClickShownLabel | santander/src/ui/UI.java:212-246 | right after a display without an entry effect is shown, a click on the label of its j-th element calls `addText` with that element's `input` token if it is an `input`, `loadDisplay` with its `location` if it is a `link`, and does nothing otherwise |
| Machine.LoadShowsDisplay | santander/src/ui/UI.java:146-276 | showing a good display with no entry effect: mode becomes its name; the labels are the old ones, detached, followed by one attached label per element; the key listener is replaced; buffer, PIN, fingerprint and balance are untouched |
| Machine.ShowIsIdempotent | santander/src/ui/UI.java:146-258 | showing the same plain display twice leaves the same mode, outcome and labels on the frame as showing it once |
| Machine.UnknownDisplayThrows | santander/src/ui/UI.java:146-164 | a name missing from the registry throws NullPointer after the old labels are detached and the mode is set to it |
| Machine.LoadStopsEarly | santander/src/ui/UI.java:160-258 | an element loop that stops early leaves the mode set, the old labels detached and the labels made so far, with no key listener change and no entry effect |
| Machine.TokenIsAppended | santander/src/ui/UI.java:379-382 | a token other than CANCEL and CLEAR is trimmed and appended, and outside the dispatching modes that is the whole effect |
| Machine.ClearEmptiesBuffer | santander/src/ui/UI.java:375-378 | CLEAR empties the buffer and changes nothing else outside `checking` and `selectammount`; in `pin` the mode and PIN stay |
| Machine.CancelReturnsToPin | santander/src/ui/UI.java:372-378 | CANCEL from any mode and buffer ends in `pin` with an empty buffer and the PIN display on the frame; PIN, fingerprint and balance are kept |
| Machine.CheckingDecides | santander/src/ui/UI.java:405-414 | in `checking` the buffer is cleared, and the UI goes to `services` exactly when the PIN is 1234 and the fingerprint matched, to `errormsg` otherwise |
| Machine.CheckingEntryDecides | santander/src/ui/UI.java:290-295 | showing `checking` runs the checking step with an empty token and ends on the verdict display |
| Machine.BiometricStoresAnswer | santander/src/ui/UI.java:284-288 | showing `biometric` stores the reader's answer as the fingerprint, and the verdict is taken on the stored PIN and that answer |
| Machine.PinCompletes | santander/src/ui/UI.java:390-403 | in `pin`, once the buffer holds four chars or more the first four become the PIN, the rest is dropped, the buffer empties, the fingerprint is read and the verdict display shown |
| Machine.WithdrawalRejected | santander/src/ui/UI.java:415-417 | in `selectammount`, when the buffer with the token appended is not a number, the call throws NumberFormat after that append, and the balance, mode, PIN and labels are left alone |
| Machine.WithdrawalTaken | santander/src/ui/UI.java:415-424 | in `selectammount` a number is taken off the balance with 32-bit wrap-around and no check that it is covered, the buffer empties, and the receipt question is shown |
| Machine.TypedNumber | santander/src/ui/UI.java:381 | a number button pressed at an empty buffer leaves exactly its number to parse |
| Machine.WithdrawalExamples | santander/src/ui/UI.java:415-424 | from the initial 5000, the 200 button leaves 4800 and the 6000 button overdraws to -1000 |
| Machine.KeyStepsOnce | santander/src/ui/UI.java:265-276 | with no PIN listener but possibly the newest, a key reaches `addText` once if the newest is a PIN listener and not at all otherwise |
| Machine.KeyStepsAppend | santander/src/ui/UI.java:265-276 | a key delivered to two runs of listeners is delivered to the first run and then, unless it threw, to the second |
| Machine.ListenKeysKeepsOne | santander/src/ui/UI.java:265-276 | replacing the key listener keeps at most one PIN listener unless `pin` is shown while it already listens |
| Machine.LoadKeepsOnePinListener | santander/src/ui/UI.java:146-296 | showing any display, entry effects included, keeps at most one PIN listener, and only as the newest, unless `pin` is shown while it already listens |
| Machine.AddKeepsOnePinListener | santander/src/ui/UI.java:369-426 | feeding any token keeps at most one PIN listener, and only as the newest |
| Machine.ProcessKeepsOnePinListener | santander/src/ui/UI.java:389-425 | the mode switch of `addText` keeps at most one PIN listener, and only as the newest |
| Machine.LoadListensForMode | santander/src/ui/UI.java:146-296 | a display load that completes leaves the newest key listener on the mode it ends in |
| Machine.AddListensForMode | santander/src/ui/UI.java:369-426 | a token that completes leaves the newest key listener on the mode it ends in |
| Machine.ProcessListensForMode | santander/src/ui/UI.java:389-425 | a mode switch that completes leaves the newest key listener on the mode it ends in |
| Machine.KeysOnlyInPin | santander/src/ui/UI.java:265-276 | with one PIN listener at most and the newest on the mode, a key is fed to `addText` exactly once in `pin` and not at all in any other mode |
| Machine.PinKeyAppends | santander/src/ui/UI.java:379-382 | in `pin` short of four chars, a printable key's char is appended and nothing else changes |
| Machine.BlankKeyIgnored | santander/src/ui/UI.java:379-382 | in `pin` short of four chars, a blank key changes nothing |
| Machine.ReshowingPinDoublesKeys | santander/src/ui/UI.java:265-276 | showing `pin` again while it is shown adds a second PIN listener, after which one printable key is typed twice |
| Machine.PinKeyPress | santander/src/ui/UI.java:268-274 | in `pin` short of four chars, a printable key press only grows the buffer by its char |
| Machine.PinKeyCompletes | santander/src/ui/UI.java:390-403 | the fourth printable key in `pin` makes the four typed chars the PIN, empties the buffer and ends on the verdict display |
| Machine.FourKeysEnterPin | santander/src/ui/UI.java:390-403 | four printable keys at an empty PIN display become the PIN, and the UI ends on `services` exactly for 1234 with a matching fingerprint |
| Ui.UI.constructor | santander/src/ui/UI.java:88-137 | a new UI has the given registry and window size, and its state and `startup` outcome are those of showing `main` from the fields' initial values (balance 5000) |
| Ui.UI.DetachLabels | santander/src/ui/UI.java:148-158 | every label is detached, none is dropped, and no other field changes |
| Ui.UI.BuildLabels | santander/src/ui/UI.java:164-258 | the element loop, one `MakeLabel` per element, yields exactly the labels and the outcome `Display.Build` specifies: stops at the first element that exits or throws |
| Ui.UI.AddLabels | santander/src/ui/UI.java:164-258 | the element loop appends the labels the display loop specifies, completes as it does, and changes no other field |
| Ui.UI.LoadDisplay | santander/src/ui/UI.java:146-296 | the new state and the outcome are those of `Machine.Load`, entry effects included |
| Ui.UI.AddText | santander/src/ui/UI.java:369-426 | the new state and the outcome are those of `Machine.Add` |
| Ui.UI.ProcessText | santander/src/ui/UI.java:389-425 | the new state and the outcome are those of `Machine.Process` |
| Ui.UI.Click | santander/src/ui/UI.java:212-246 | a click on a label does what `Machine.Click` says: nothing on a detached or plain label, `addText` of its token, or `loadDisplay` of its location |
| Ui.UI.KeyPressed | santander/src/ui/UI.java:268-276 | the listeners registered when the key arrives run in turn, ending in the state and outcome of `Machine.KeyPress` |

## Left out

- Swing rendering: the frame, label construction, opacity, `revalidate` and `paint`, and the window's own title and size. A label is a record in the `labels` sequence. Its colours are kept as the element's colour words; `Colour.cast` is not part of this model.
- The auto-fit font size of `setFont` (a negative size). It depends on AWT font metrics; the model records only that auto-fit was asked for.
- `Fonts.FontOf`: the default family is recorded as "the label's default", not as a font name, because that name comes from Swing's look and feel.
- `Layout.NarrowToInt` and `Layout.Scale`: `double` arithmetic is idealised as exact reals, so rounding of the product before the cast is not modelled.
- The JSON configuration files and their parsing in the constructor. The constructor takes the registry and the window size already parsed.
- A JSON getter that fails on a missing key; every element is assumed to have all its keys.
- `Thread.sleep(3000)` in the `checking` entry effect, and `Debug.println` logging.
- The RFID read of the `card` entry effect. Its answer is never used.
- `Ui.UI.LoadDisplay`: the fingerprint reader is a parameter `finger`, so every read within one event returns the same answer.
- Reflection in `getVariable`. The class has exactly one public field, `userAmount`, so the lookup is fixed to that name.
- `JavaLang.ParseInt`: non-ASCII Unicode digits, which `Integer.parseInt` also accepts, are treated as non-digits.
- JavaLang.UpperChar: only one-to-one upper-casing is modelled, in a non-Turkish default locale. Java also expands sharp s and the ligatures U+FB00 to U+FB06 into SS, FF, FI, FL, FFI, FFL or ST, and some other chars into a letter and a non-ASCII mark. The style switch cannot observe these: each all-ASCII expansion contains an F or an S, which no style word has, and the rest keep a non-ASCII char.
- Machine.Process: strings are sequences of Unicode code points, while Java's `length()` and `substring(0, 4)` count UTF-16 units. For a token with chars outside the Basic Multilingual Plane, such as an emoji, the four-char PIN threshold and the four chars taken differ from Java's.
- Ui.UI.ProcessText: the same UTF-16 difference as `Machine.Process`.
- Ui.UI.constructor: in Java, a throw from showing `main` propagates out of `new UI(...)`, so no object exists. Here the object exists in the state the failed load left, and the outcome is recorded in the ghost field `startup`.
- The unused `firstRun` field. The initial `mode` is null in Java and "" here; the first display load overwrites it before anything reads it.
- Event dispatch and threads: the model treats each mouse click or key press as one call on a single thread.
