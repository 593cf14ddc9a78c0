# Neosmart blinds plugin — a Dafny model

This project models the logic of a smart-home plugin that registers simulated
window blinds ("shades") with its host platform. It has two parts.

- **A blind (`NeosmartBlind`).** It holds an open/closed flag (`entryOpen`)
  and a string-keyed settings store. It answers a settings list of seven
  recognised keys (shadeName, password, ip, port, blindCode, motorCode,
  parentGroup), stores any key's value as text, and opens or closes on command.
- **The provider (`MyDeviceProvider`).** It caches one blind per device
  identifier (lookup-or-create). At start-up it rehydrates a blind for every
  identifier the host already knows, skipping null and empty ones. It also
  turns a user's creation form into a new blind. The form must have all seven fields filled.
  A filled form is announced to the host, gets a `shell:`-prefixed identifier,
  and its seven values are copied into the new blind's store.

Files:
- `values.dfy` holds `Wrappers.Option` and `SettingValues`. `SettingValues`
  covers the host's setting values, their `toString()` text and the
  truthiness test applied to that text.
- `blind.dfy` holds `Blinds`: the descriptor list, what the host persisted for
  a blind, and the `NeosmartBlind` class.
- `provider.dfy` holds `Provider`: the creation validator, the creation form,
  the announcement record, the `MyDeviceProvider` class and three worked
  scenarios.

Host facilities are plain state here. What the host persisted for each
identifier (the stored settings and the `entryOpen` flag) is a constructor
argument of the provider. The identifiers the host knows (`getNativeIds`) are a
`seq<Option<string>>` argument, where `None` stands for null or undefined.
Each discovery announcement is appended to a ghost log `announced`. The
random part of a new identifier is a method argument.

Three behaviours of the code are easy to miss.
- A blind does not always start closed. `entryOpen = entryOpen || false`
  keeps a flag the host had persisted as true. Only an unset flag becomes
  false.
- Validation tests each field's string form, not the raw value. A numeric 0
  passes as "0" and `false` passes as "false".
- The new identifier is not guaranteed fresh. If it is already taken, the
  cached blind under it is reused and its store is overwritten.

## Model

| member | source | states |
|---|---|---|
| `SettingValues.ToText` | src/main.ts:114-120 | `value?.toString()` gives no text exactly for null/undefined; a string gives itself and a number gives non-empty text |
| `SettingValues.IntToString` | src/main.ts:114-120 | a number's text is never empty and starts with '-' exactly when the number is negative |
| `SettingValues.DecimalRoundTrip` | src/main.ts:114-120 | reading back the decimal text of a natural number gives that number |
| `SettingValues.IntToStringInjective` | src/main.ts:114-120 | two numbers with the same text are equal, so a stored number's text determines it |
| `SettingValues.JoinWithCommas` | src/main.ts:114-120 | a string list's text is empty exactly for the empty list or a single empty string, and one item renders as itself |
| `SettingValues.Truthy` | src/main.ts:122 | a field passes the truthiness test per value kind: null never, a string when non-empty, every number and boolean, a list unless its text is empty |
| `Blinds.SettingsFor` | src/main.ts:14-56 | the settings list has the seven recognised keys in form order, each with the store's value for that key or none |
| `Blinds.NeosmartBlind.GetSettings` | src/main.ts:14-56 | a blind's list has seven entries in key order; an entry has a value exactly when its key is stored, and it is the stored text |
| `Blinds.PutThenGetSettings` | src/main.ts:14-61 | after writing v under key, the list shows v at key's position and every other entry is unchanged |
| `Blinds.SevenWrites` | src/main.ts:129-136 | the seven successive writes of a creation amount to overriding the old store with the seven new entries |
| `Blinds.NeosmartBlind.constructor` | src/main.ts:9-12 | a new blind is open exactly when the host persisted the flag as true (an unset flag starts closed) and takes the persisted store |
| `Blinds.NeosmartBlind.PutSetting` | src/main.ts:58-61 | any key is written with the value's text, overwriting; other keys and the flag are unchanged; a null value throws and changes nothing |
| `Blinds.NeosmartBlind.OpenEntry` | src/main.ts:63-66 | the blind is open afterwards whatever it was, and the store is unchanged |
| `Blinds.NeosmartBlind.CloseEntry` | src/main.ts:67-70 | the blind is closed afterwards whatever it was, and the store is unchanged |
| `Provider.IsComplete` | src/main.ts:114-122 | validation passes exactly when all seven keys are present and truthy; then each has non-empty text |
| `Provider.ZeroIsFilled` | src/main.ts:114-122 | a numeric 0 passes validation, tested as the text "0" |
| `Provider.CreatedStore` | src/main.ts:129-136 | the entries a creation writes are exactly the seven keys, each with the text of the form's value |
| `Provider.CreatedBlindShowsForm` | src/main.ts:129-136 | after creation the blind's settings list shows each form value's text, whatever the store held before |
| `Provider.CreateDeviceSettings` | src/main.ts:159-195 | the creation form lists the seven keys in the same order and carries no values |
| `Provider.CreationFormMatchesSettingsForm` | src/main.ts:159-195 | each creation-form descriptor equals the blind's settings descriptor with its value removed |
| `Provider.MyDeviceProvider.constructor` | src/main.ts:77-84 | start-up caches a fresh blind, restored from the host, for exactly the known identifiers that are neither null/undefined nor empty, with no announcements |
| `Provider.MyDeviceProvider.GetDevice` | src/main.ts:86-100 | a cached identifier returns the same instance and leaves the cache unchanged; a missing one adds exactly one fresh blind under it |
| `Provider.MyDeviceProvider.DistinctIdsHoldDistinctBlinds` | src/main.ts:86-99 | the cache holds at most one instance per identifier: distinct identifiers map to distinct blinds |
| `Provider.MyDeviceProvider.CreateDevice` | src/main.ts:112-157 | an incomplete form returns none and changes nothing; a complete one returns "shell:"+suffix, announces it once under the form's name, caches it and writes the seven texts into its store, leaving other blinds unchanged |
| `Provider.MyDeviceProvider.CopyCreationFields` | src/main.ts:128-136 | the seven writes add exactly the form's seven texts to the store and leave the flag alone |

## Left out

- The host's discovery call (`onDeviceDiscovered`) is an entry in a ghost log. Whatever the host does on discovery is not part of this model. That includes any call it makes back into the provider.
- `Math.random()` is left out. The identifier's suffix is a method argument, and nothing claims the identifier is fresh.
- The timers are left out. These are the delayed re-announcement of blinds that still expose the legacy `Scriptable` interface, and the `clearTimeout` in `putSetting` (its timer is never set). Both are asynchronous host timers.
- The host device base class is reduced to plain fields. Its interface list, provided name, console logging and persistence are not modelled.
- `async`/`Promise` are left out, and every call runs to completion in order.
- `Provider.MyDeviceProvider.CreateDevice` is modelled as one step with no other request in between. The source awaits the announcement (src/main.ts:126) and the lookup (src/main.ts:128) before it writes the seven settings. Host requests that run at those two points are not modelled, such as a discovery callback into `getDevice` or a `putSetting` on the new identifier.
- `Blinds.NeosmartBlind.PutSetting` on a null value is modelled as a failed write (`ok` false, nothing changes). In the source the `toString()` call at src/main.ts:59 throws there, and the promise returned to whoever called `putSetting` is rejected.
- `SettingValues.IntToString` covers only integral numbers, always rendered as plain decimal digits. The source's numbers render in exponent form from magnitude 10^21 on (`1e+21`), and that is not modelled. Neither is the text of fractional, infinite and NaN numbers.
- `releaseDevice` is a no-op and is left out. The unused HTTP client import is left out too.
