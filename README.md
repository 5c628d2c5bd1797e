# Dashboard widget state, modelled in Dafny

The wellbeing dashboard shows seven widgets; six of them keep a small piece of
one user's data in memory (the seventh, the AI assistant, is a stub). This project models that state and the values derived
from it:

- **Connect Apps**: the `app_connections` mirror, the four-row seed, the
  connect/disconnect toggle, and the "n / m connected" badge with its fallback
  provider list.
- **Stress Monitoring**: the latest reading, the level and colour thresholds,
  the alert banner, and the "--" shown for missing metrics.
- **Trusted Contact Alerts**: the `trusted_contacts` mirror (requested newest first), the
  three-row demo seed, the avatar initials, and the per-row label fallbacks.
- **Recent Messages**: the `messages` mirror (the ten newest are requested) and
  the five-row demo seed.
- **Restricted Contacts**: the `restricted_contacts` mirror, the name input,
  adding a trimmed name, and removing a row by id.
- **Busy Mode**: the busy switch, the auto-reply template, and its editor.

Each widget is a `class` whose fields are the component's state variables.
Its methods are the component's effects and handlers. The signed-in user is a
constructor argument (`Option<UserId>`). The remote store is not modelled.
Instead, every answer from the store is a method parameter: `None` stands for
a null `data` field. Every method returns the request it sends (`Remote.Request`:
table, filter, order, limit, rows or patch). This makes statements like
"written only when a user exists", "filtered by the user's id" and "limited
to ten rows" into postconditions. The mirror transformations (`.map`, `.filter`,
the fallback lists) are pure functions with their own contracts and lemmas.

The model follows the code as written, including its weak spots:

- The store's answer to a mutation is never read. `toggleConnection` and
  `removeContact` change the mirror whatever the store answers; their methods
  take an `acknowledged` argument and ignore it. `toggleBusy` and
  `saveTemplate` do not read the answer either.
- Seeding is not once-only. Every seed guard checks only that a user exists
  and the mirror is empty (`Remote.SeedGuard`). The seed effect runs in the
  same commit as the fetch effect, while the mirror is still the initial
  empty list. So every mount with a signed-in user sends the insert of the demo rows,
  whatever the user already owns. `Widget.Mount` and `EveryMountSeeds` show
  this in Connect Apps, Trusted Contact Alerts and Recent Messages.
- Updates and deletes in Connect Apps and Restricted Contacts are filtered by
  row id only, not by row id and user.
- Busy Mode writes its settings with an update filtered by the user's id and
  never inserts or upserts. For a user with no settings row nothing is
  stored, while the switch and the template change on screen.
- `toggleBusy` changes the switch even when no user is signed in.
- A failed fetch or seed is never shown to the user: a null answer leaves the
  state as it was. Only `addContact` branches on an error, and raises a toast.

## Model

| member | source | states |
|---|---|---|
| ConnectApps.Normalise | src/components/dashboard/ConnectApps.tsx:34-35 | a fetched or inserted batch is kept row for row, in order, with a null feature list read as empty |
| Remote.SeedGuard | src/components/dashboard/ConnectApps.tsx:43 | the shared seed guard (also TrustedContactAlerts.tsx:36 and RecentMessages.tsx:38): seeding is due only with a signed-in user, never while the mirror holds rows, and always when a user is signed in and the mirror is empty; the user's remote rows play no part |
| ConnectApps.ConnectedCount | src/components/dashboard/ConnectApps.tsx:57 | the connected count is at most the number of rows; it is 0 iff no row is connected, and equals the length iff every row is |
| ConnectApps.ConnectedCountAppend | src/components/dashboard/ConnectApps.tsx:57 | the count of a concatenation is the sum of the counts |
| ConnectApps.Toggled | src/components/dashboard/ConnectApps.tsx:61 | rows with the id get `is_connected := !currentState`; every other row, the length and the order are unchanged |
| ConnectApps.ToggleTwiceRestores | src/components/dashboard/ConnectApps.tsx:59-61 | toggling back with the new state undoes a toggle |
| ConnectApps.ToggleShiftsCount | src/components/dashboard/ConnectApps.tsx:57-61 | with unique ids, toggling a connected row lowers the count by exactly 1 and toggling a disconnected row raises it by exactly 1 |
| ConnectApps.BadgeDenominator | src/components/dashboard/ConnectApps.tsx:72 | the denominator is the number of rows, or 4 when the mirror is empty; it is never 0 and never below the connected count |
| ConnectApps.Displayed | src/components/dashboard/ConnectApps.tsx:80 | the cards are the mirror, or the 4 providers, all disconnected, when it is empty; the card count equals the denominator and the active cards equal the numerator |
| ConnectApps.DefaultConnections | src/components/dashboard/ConnectApps.tsx:45-50 | the seed is exactly 4 rows owned by the user, in provider order, with each provider's features; only the first two are connected, and no provider repeats |
| ConnectApps.Widget.constructor | src/components/dashboard/ConnectApps.tsx:24-25 | the mirror starts empty |
| ConnectApps.Widget.Fetch | src/components/dashboard/ConnectApps.tsx:27-39 | with a user, the user's rows are selected and adopted (normalised) when data comes back; otherwise the mirror is unchanged |
| ConnectApps.Widget.SeedIfEmpty | src/components/dashboard/ConnectApps.tsx:42-55 | the defaults are inserted iff there is a user and the mirror is empty; the inserted rows replace the mirror only when data comes back |
| ConnectApps.Widget.ToggleConnection | src/components/dashboard/ConnectApps.tsx:59-62 | the update is filtered by id, and the mirror becomes the toggled mirror whatever the store answers |
| ConnectApps.Widget.Mount | src/components/dashboard/ConnectApps.tsx:27-55 | both effects of one commit read the same mirror: with a user the select is sent, and the insert of the defaults too iff the mirror was empty; each answer with data then replaces the mirror (normalised), in the order the answers arrive |
| ConnectApps.SeedRepeatsAfterLostAnswer | src/components/dashboard/ConnectApps.tsx:42-55 | a property of the guard predicate only (one mount never re-runs the effect this way): the guard admits a second insert of the same four rows: after a fetch without data and a lost insert answer the mirror is still empty and the guard passes again |
| ConnectApps.EveryMountSeeds | src/components/dashboard/ConnectApps.tsx:27-55 | every mount with a signed-in user sends the select and the insert of the four defaults, whatever rows the user already owns, so two mounts send it twice |
| StressMonitor.Level | src/components/dashboard/StressMonitor.tsx:40 | "High" iff score >= 70, "Medium" iff 40 <= score < 70, "Low" iff score < 40 |
| StressMonitor.Color | src/components/dashboard/StressMonitor.tsx:41 | the colour class uses the same thresholds, in both directions |
| StressMonitor.RingClass | src/components/dashboard/StressMonitor.tsx:63 | the ring class follows the colour class |
| StressMonitor.LevelColorRingAgree | src/components/dashboard/StressMonitor.tsx:40-41 | level, colour and ring always agree |
| StressMonitor.LevelBoundaries | src/components/dashboard/StressMonitor.tsx:40 | 69 is Medium, 70 is High, 39 is Low, 40 is Medium |
| StressMonitor.AlertShown | src/components/dashboard/StressMonitor.tsx:84 | the alert banner is shown iff the score is >= 70, iff the level is High |
| StressMonitor.DefaultReadingIsHigh | src/components/dashboard/StressMonitor.tsx:17-23 | the default reading (score 78) is High and shows the banner |
| StressMonitor.ShowMetric | src/components/dashboard/StressMonitor.tsx:78-81 | a metric shows "--" iff it is null; any other value, zero included, shows as its number |
| StressMonitor.Widget.constructor | src/components/dashboard/StressMonitor.tsx:17-23 | the widget starts with the default reading |
| StressMonitor.Widget.FetchLatest | src/components/dashboard/StressMonitor.tsx:25-38 | with a user, the single newest reading is requested; a returned row replaces the reading, otherwise the reading is kept |
| TrustedContactAlerts.FirstCharsOfSplit | src/components/dashboard/TrustedContactAlerts.tsx:50 | the first characters of the `split(" ")` pieces are exactly the word-start characters |
| TrustedContactAlerts.FirstCharsCount | src/components/dashboard/TrustedContactAlerts.tsx:50 | one character is taken per non-empty piece |
| TrustedContactAlerts.Initials | src/components/dashboard/TrustedContactAlerts.tsx:49-50 | `getInitials`: the initials are the upper-cased word starts of the name, one per non-empty piece between single spaces; its contract is proved from FirstCharsOfSplit and FirstCharsCount |
| TrustedContactAlerts.InitialsAreWordStarts | src/components/dashboard/TrustedContactAlerts.tsx:49-50 | the initials are the upper-cased word starts, empty pieces add nothing, and there is one initial per non-empty piece |
| TrustedContactAlerts.InitialsOfTwoWords | src/components/dashboard/TrustedContactAlerts.tsx:49-50 | two words among any runs of spaces give two initials |
| TrustedContactAlerts.InitialsOfSarahMiller | src/components/dashboard/TrustedContactAlerts.tsx:49-50 | "Sarah Miller" gives "SM" |
| TrustedContactAlerts.InitialsOfAlex | src/components/dashboard/TrustedContactAlerts.tsx:49-50 | "Alex" gives "A" |
| TrustedContactAlerts.InitialsWithExtraSpaces | src/components/dashboard/TrustedContactAlerts.tsx:49-50 | "  James   Lee " gives "JL" |
| TrustedContactAlerts.TimeLabel | src/components/dashboard/TrustedContactAlerts.tsx:78 | row i < 3 gets `timeLabels[i]`, later rows get "" |
| TrustedContactAlerts.AlertMessage | src/components/dashboard/TrustedContactAlerts.tsx:81 | row i < 3 gets `alertMessages[i]`, later rows get "Connected as trusted contact" |
| TrustedContactAlerts.Cards | src/components/dashboard/TrustedContactAlerts.tsx:68-81 | one card per contact in mirror order, with the contact's name; rows 0-2 take the fixed time labels and messages, later rows an empty label and "Connected as trusted contact" |
| TrustedContactAlerts.CardInitials | src/components/dashboard/TrustedContactAlerts.tsx:72 | a card's avatar shows the upper-cased word starts of the contact's name, one letter per non-empty piece |
| TrustedContactAlerts.EmptyStateShown | src/components/dashboard/TrustedContactAlerts.tsx:94 | the empty-state text is shown iff no card is rendered |
| TrustedContactAlerts.DemoContacts | src/components/dashboard/TrustedContactAlerts.tsx:38-42 | the seed is exactly 3 rows owned by the user: Sarah Miller, James Lee, Alex Chen, in that order |
| TrustedContactAlerts.DemoInitials | src/components/dashboard/TrustedContactAlerts.tsx:38-50 | the demo contacts show SM, JL and AC |
| TrustedContactAlerts.Widget.constructor | src/components/dashboard/TrustedContactAlerts.tsx:19 | the mirror starts empty |
| TrustedContactAlerts.Widget.Fetch | src/components/dashboard/TrustedContactAlerts.tsx:21-32 | with a user, the user's rows are requested newest first by `created_at` and adopted when data comes back; otherwise the mirror is kept |
| TrustedContactAlerts.Widget.SeedIfEmpty | src/components/dashboard/TrustedContactAlerts.tsx:35-47 | the demos are inserted iff there is a user and the mirror is empty; the inserted rows replace the mirror only when data comes back |
| TrustedContactAlerts.Widget.Mount | src/components/dashboard/TrustedContactAlerts.tsx:21-47 | both effects of one commit read the same mirror: with a user the select is sent, and the insert of the demos too iff the mirror was empty; each answer with data then replaces the mirror, in the order the answers arrive |
| TrustedContactAlerts.EveryMountSeeds | src/components/dashboard/TrustedContactAlerts.tsx:21-47 | every mount with a signed-in user sends the select and the insert of the three demos, whatever rows the user already owns |
| RecentMessages.DemoMessages | src/components/dashboard/RecentMessages.tsx:40-46 | the seed is exactly 5 rows owned by the user; a row is outgoing iff it is an auto-reply iff its sender is "You" iff its index is odd |
| RecentMessages.EmptyStateShown | src/components/dashboard/RecentMessages.tsx:76 | "No messages yet" is shown iff the mirror is empty |
| RecentMessages.Widget.constructor | src/components/dashboard/RecentMessages.tsx:20 | the mirror starts empty |
| RecentMessages.Widget.Fetch | src/components/dashboard/RecentMessages.tsx:22-34 | with a user, the 10 newest messages by `sent_at` are requested and adopted when data comes back; otherwise the mirror is kept |
| RecentMessages.Widget.SeedIfEmpty | src/components/dashboard/RecentMessages.tsx:37-51 | the demos are inserted iff there is a user and the mirror is empty; the inserted rows replace the mirror only when data comes back |
| RecentMessages.Widget.Mount | src/components/dashboard/RecentMessages.tsx:22-51 | both effects of one commit read the same mirror: with a user the select is sent, and the insert of the demos too iff the mirror was empty; each answer with data then replaces the mirror, in the order the answers arrive |
| RecentMessages.EveryMountSeeds | src/components/dashboard/RecentMessages.tsx:22-51 | every mount with a signed-in user sends the select and the insert of the five demos, whatever rows the user already owns |
| RestrictedContacts.Trim | src/components/dashboard/RestrictedContacts.tsx:38 | the trimmed name is the infix of the input that follows the leading white space; what precedes and follows it is white space, and it neither starts nor ends with white space |
| RestrictedContacts.TrimEmptyIff | src/components/dashboard/RestrictedContacts.tsx:35 | a name trims to empty iff it is made only of white space |
| RestrictedContacts.TrimIdempotent | src/components/dashboard/RestrictedContacts.tsx:38 | trimming a trimmed name changes nothing |
| RestrictedContacts.Removed | src/components/dashboard/RestrictedContacts.tsx:52 | every row with the id is dropped, every other row is kept, and removing an absent id changes nothing |
| RestrictedContacts.RemovedAppend | src/components/dashboard/RestrictedContacts.tsx:52 | removal distributes over concatenation, so survivors keep their relative order |
| RestrictedContacts.AddThenRemove | src/components/dashboard/RestrictedContacts.tsx:45-52 | appending a row with a fresh id, then removing that id, restores the list |
| RestrictedContacts.Widget.constructor | src/components/dashboard/RestrictedContacts.tsx:18-20 | the mirror is empty, the name is empty and the input is hidden |
| RestrictedContacts.Widget.Fetch | src/components/dashboard/RestrictedContacts.tsx:22-32 | with a user, the user's rows are selected and adopted when data comes back; otherwise the mirror is kept |
| RestrictedContacts.Widget.ToggleInput | src/components/dashboard/RestrictedContacts.tsx:62 | the Add button flips `showInput` and changes nothing else |
| RestrictedContacts.Widget.EditName | src/components/dashboard/RestrictedContacts.tsx:72 | typing sets `newName` |
| RestrictedContacts.Widget.AddContact | src/components/dashboard/RestrictedContacts.tsx:34-48 | nothing is sent or changed without a user or with a blank name; the trimmed name is inserted; on error a toast is raised and the state is unchanged; on success the row is appended, the name is cleared and the input hidden |
| RestrictedContacts.Widget.RemoveContact | src/components/dashboard/RestrictedContacts.tsx:50-53 | the delete is filtered by id, and the row is dropped from the mirror whatever the store answers |
| BusyMode.FetchedTemplate | src/components/dashboard/BusyMode.tsx:27 | a fetched template replaces the current one iff it is present and non-empty |
| BusyMode.Widget.constructor | src/components/dashboard/BusyMode.tsx:11-15 | the switch starts off, with the default template, not editing |
| BusyMode.Widget.Fetch | src/components/dashboard/BusyMode.tsx:17-31 | with a user and a returned row, the switch follows the row and the template is replaced only by a non-empty one; with no row the state is kept |
| BusyMode.Widget.ToggleBusy | src/components/dashboard/BusyMode.tsx:33-40 | the switch takes the new value even with no user; the update is sent, filtered by the user's id, only when there is a user |
| BusyMode.Widget.SaveTemplate | src/components/dashboard/BusyMode.tsx:42-49 | editing always ends; the current template is sent, filtered by the user's id, only when there is a user |
| BusyMode.Widget.EditTemplate | src/components/dashboard/BusyMode.tsx:73 | typing sets the template |
| BusyMode.Widget.Blur | src/components/dashboard/BusyMode.tsx:74 | leaving the template box, which exists only while editing, saves like the pencil: editing ends and the template is sent, filtered by the user's id, only when there is a user |
| BusyMode.Widget.PencilClick | src/components/dashboard/BusyMode.tsx:66 | while editing the pencil saves and ends editing; otherwise it starts editing and sends nothing |
| BusyMode.EditRoundTrip | src/components/dashboard/BusyMode.tsx:66-75 | opening the editor sends nothing; after typing, the blur that the next pencil click causes sends the typed text once, for the user, and ends editing; the click then reopens the editor and sends nothing |

## Left out

- The remote store. Its answers are method parameters, and the requests are returned values. What the store does with a request is not modelled. So "no cross-user leakage" is stated only as "every select, update and insert carries the user's id where the source puts it".
- Effect scheduling beyond the first commit. `Widget.Mount` runs the fetch and seed effects of one commit against the same mirror and lets the two answers arrive in either order. Later re-runs of the seed effect are not modelled: the effect also runs again when the mirror's length changes, so a fetch answer without rows that lands after the insert answer empties the mirror and seeds once more.
- Races inside the handlers. ConnectApps.Widget.ToggleConnection, RestrictedContacts.Widget.AddContact and RestrictedContacts.Widget.RemoveContact update the mirror atomically from its current value. The code rebuilds the list after its `await` from the array captured at the last render, so two overlapping calls can lose an update (removing A and B from [A, B] while both deletes are in flight leaves [A]); this is not modelled.
- Identity changes. Each widget has a fixed user from construction. What happens to a mirror on sign-in or sign-out is not modelled.
- Ring geometry (`circumference`, `dashOffset`). It is floating-point display arithmetic.
- `formatDistanceToNow` in Recent Messages. It is a date library. Metric numbers are likewise kept as values, and their conversion to text is not modelled.
- JSX, styling, icons, and toast rendering. A toast is a returned value.
- The "Send Calm" and "Quick Call" buttons. They have no handlers.
- The JSON text encoding of `features` in the Connect Apps seed. The seed sends each feature list as its JSON text; the model sends the list. The table's column type is not part of this model. With a json, jsonb or text column the inserted rows come back carrying that text, which the null fallback keeps (a non-empty string is truthy) and the feature badges cannot map over; with a text array column the insert is refused. `ConnectionRow.features` models only a list or null, so neither outcome is captured.
- TrustedContactAlerts.Initials: `toUpperCase` is modelled on ASCII letters only, and `n[0]` as a character, not a UTF-16 code unit; the lines below inherit this.
- TrustedContactAlerts.InitialsAreWordStarts: `toUpperCase` is modelled on ASCII letters only. Full Unicode case mapping is not modelled; it can change a string's length. `n[0]` is modelled as a character, not a UTF-16 code unit.
- TrustedContactAlerts.InitialsOfTwoWords: inherits the same ASCII-only upper-casing of the two first letters.
- TrustedContactAlerts.CardInitials: inherits the same ASCII-only upper-casing.
- TrustedContactAlerts.Widget.Fetch: the newest-first order is a property of the request only. Whether the store honours it is not modelled, so the mirror is ordered only if the answer is.
- RecentMessages.Widget.Fetch: the ten-row limit and the newest-first order are properties of the request only. Whether the store honours them is not modelled, so the mirror obeys them only if the answer does.
- Navbar, the Index page, the AI assistant stub, and the auth context. They are layout, routing, or a constant; the user is an `Option<UserId>` argument.
