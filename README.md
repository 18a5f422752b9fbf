# MCM media player: tone-settings store and service-worker decisions

This project models the two pieces of logic in the MCM media player, a
browser audio player with a small equalizer, and proves properties about them.

**AudioPlayer** (`AudioPlayer.dfy`) covers the state of the `MCMAudioPlayer`
component that holds the tone settings. A `Player` object has these fields:

- the active settings: gain, bass and treble;
- the name of the last preset chosen;
- the custom preset;
- the browser's local storage;
- the three equalizer nodes that the settings are pushed onto.

The preset lookup is a pure function, `ResolvePreset`. The methods are
`applyPreset`, `saveCustomPreset`, the effect that pushes the settings onto
the nodes, the mount effect that builds the graph, and the guard at the head
of `togglePlay`. All but the guard update the object's fields in place; the
guard only reads them. The object invariant `Valid()` says that the active
settings always equal what the active preset name resolves to against the
current custom preset. It also says that, as far as this component's own
writes go, the stored custom preset never disagrees with the one in use.

**ServiceWorkerRegistration** (`ServiceWorkerRegistration.dfy`) covers three
things in `serviceWorkerRegistration.js`:

- `isLocalhost`: the regular expression `^127(?:\.(?:25[0-5]|2[0-4]\d|[01]?\d?\d)){3}$`,
  written out alternative by alternative, plus the names `localhost` and `[::1]`.
- The branch choice of `register`.
- The response check of `checkValidServiceWorker`.

The pattern is proved to accept exactly the hosts whose dot-separated fields
are `127` and three numbers of one to three digits, each at most 255. That is
the IPv4 loopback block of section 3.2.1.3 of RFC 1122. Together with
`localhost` and the bracketed IPv6 loopback of section 2.5.3 of RFC 4291, this
gives `LoopbackHost`. The two branch decisions return action values. The
contract of `RegisterChoice` is stated against `LoopbackHost`. The contracts
of `ClassifyResponse` and `CheckValidServiceWorker` are stated against
`OccursAt`, a plain definition of one string occurring in another at a given
position, rather than against the search that `indexOf` performs.
`ServiceWorkerExamples.dfy` states what these decisions give for concrete
hosts and responses.

Three facts about the code shape the model:

- Preset names are arbitrary strings. An unknown name falls through to the
  flat triple, and it is still recorded as the active preset.
- The gain constants are 1.1 for Bass Boost and 1.4 for Volume Extender.
- A stored preset is used as it is. The code has no fall-back for corrupt
  stored data.

## Model

| member | source | states |
|---|---|---|
| `AudioPlayer.ResolvePreset` | MCMAudioPlayer.jsx:53-56 | "Bass Boost" and "Volume Extender" give their fixed triples {1.1, 8, -2} and {1.4, 3, 2}; "Custom" gives the current custom preset; every other name, "Flat" included, gives {1, 0, 0} |
| `AudioPlayer.LoadCustomPreset` | MCMAudioPlayer.jsx:13-16 | the starting custom preset is the value stored under `mcm_custom_preset` when there is one, and {1, 0, 0} otherwise |
| `AudioPlayer.ResolveAgainstOwnResult` | MCMAudioPlayer.jsx:55 | resolving a name against the settings it produced gives the same settings, so saving them as the custom preset keeps the active preset's settings |
| `AudioPlayer.SavedPresetSurvivesReload` | MCMAudioPlayer.jsx:13-15 | after a save, a new session over that storage starts with the saved triple as its custom preset |
| `AudioPlayer.Player.constructor` | MCMAudioPlayer.jsx:6-17 | initial state: preset "Flat", settings {1, 0, 0}, not playing, no audio context or nodes, custom preset loaded from storage; the invariant holds |
| `AudioPlayer.Player.ConnectGraph` | MCMAudioPlayer.jsx:26-49 | the mount effect creates three fresh, distinct nodes: a gain node, a 200 Hz low shelf and a 3000 Hz high shelf; it records the chain source, bass, treble, gain, analyser, output; it changes no settings |
| `AudioPlayer.Player.ApplyPreset` | MCMAudioPlayer.jsx:51-59 | settings become the resolved preset and the name is recorded verbatim; only those two fields may change; the invariant is kept |
| `AudioPlayer.Player.SaveCustomPreset` | MCMAudioPlayer.jsx:69-71 | the custom preset and the stored entry under `mcm_custom_preset` both become the current settings; only those two fields may change; the invariant is kept |
| `AudioPlayer.Player.PushSettings` | MCMAudioPlayer.jsx:61-67 | when all three nodes exist, they take gain, bass and treble unclamped; when they already hold the settings, nothing changes (idempotence); only the nodes may change |
| `AudioPlayer.Player.TogglePlayGuard` | MCMAudioPlayer.jsx:75-76 | toggling goes on exactly when an audio context exists, and then the nodes exist too |
| `AudioPlayer.SelectPreset` | MCMAudioPlayer.jsx:51-67 | choosing a preset and then running the settings effect leaves the nodes holding what the name resolves to |
| `AudioPlayer.SaveThenSelectCustom` | MCMAudioPlayer.jsx:51-71 | a save followed by choosing "Custom" gives back the saved settings as the active ones (round trip) |
| `AudioPlayer.FreshSessionCustomIsFlat` | MCMAudioPlayer.jsx:13-17 | with nothing stored, choosing "Custom" before any save gives {1, 0, 0} |
| `ServiceWorkerRegistration.OctetPattern` | serviceWorkerRegistration.js:5 | the octet alternation `25[0-5]\|2[0-4]\d\|[01]?\d?\d`, matched against a whole string; whatever it matches is one to three digits |
| `ServiceWorkerRegistration.DotOctets` | serviceWorkerRegistration.js:5 | the repeated group `(?:\.(?:octet)){n}` anchored at the end; a match of `n` groups starts with a dot and is two to four characters per group |
| `ServiceWorkerRegistration.DotGroup` | serviceWorkerRegistration.js:5 | one try of the octet length `k` for the first group; a successful try has `k` between one and three, a leading dot, and two to four characters per group |
| `ServiceWorkerRegistration.LoopbackPattern` | serviceWorkerRegistration.js:4-6 | the anchored pattern `^127(?:\.(?:octet)){3}$`; a match starts with `127.` and is nine to fifteen characters long |
| `ServiceWorkerRegistration.IsLocalhost` | serviceWorkerRegistration.js:1-7 | the `isLocalhost` flag: `localhost`, `[::1]` or a match of the pattern; every accepted host is five to fifteen characters long (its full meaning is `IsLocalhostIsLoopbackHost`) |
| `ServiceWorkerRegistration.OctetPatternIsValidOctet` | serviceWorkerRegistration.js:5 | the octet alternation accepts exactly the strings of one to three decimal digits whose value is at most 255, leading zeros included |
| `ServiceWorkerRegistration.GroupHead` | serviceWorkerRegistration.js:5 | the first dot-octet group of a match holds a valid octet, which is the first dot-separated field |
| `ServiceWorkerRegistration.DotOctetsHasFields` | serviceWorkerRegistration.js:5 | a match of `n` dot-octet groups, anchored at the end, is a dot followed by exactly `n` fields, each a valid octet |
| `ServiceWorkerRegistration.FieldsHaveDotOctets` | serviceWorkerRegistration.js:5 | a dot followed by exactly `n` valid-octet fields matches `n` dot-octet groups |
| `ServiceWorkerRegistration.PatternIsAddress` | serviceWorkerRegistration.js:4-6 | every host the anchored pattern accepts is 127 followed by exactly three valid-octet fields |
| `ServiceWorkerRegistration.AddressIsPattern` | serviceWorkerRegistration.js:4-6 | every host made of 127 and exactly three valid-octet fields is accepted by the pattern |
| `ServiceWorkerRegistration.LoopbackPatternIsLoopbackAddress` | serviceWorkerRegistration.js:4-6 | the pattern accepts a host if and only if it is an IPv4 loopback address written as four dotted fields |
| `ServiceWorkerRegistration.IsLocalhostIsLoopbackHost` | serviceWorkerRegistration.js:1-7 | `isLocalhost` holds if and only if the host is `localhost`, `[::1]` or an IPv4 loopback address |
| `ServiceWorkerRegistration.IndexOfFrom` | serviceWorkerRegistration.js:33 | the search behind `indexOf`, from a start position within the string (a recursion helper; the source only ever searches from 0): the first position at or after the start where the text occurs, or -1 when it occurs nowhere there |
| `ServiceWorkerRegistration.IndexOf` | serviceWorkerRegistration.js:33 | `indexOf` returns the first position where the text occurs, or -1; no earlier position holds an occurrence |
| `ServiceWorkerRegistration.IndexOfMissing` | serviceWorkerRegistration.js:33 | `indexOf` is -1 if and only if the text occurs nowhere in the string |
| `ServiceWorkerRegistration.RegisterChoice` | serviceWorkerRegistration.js:9-20 | nothing happens without the service-worker API; with it, a loopback host takes the validity check and any other host registers directly |
| `ServiceWorkerRegistration.ClassifyResponse` | serviceWorkerRegistration.js:30-40 | status 404, or a content type without "javascript", leads to unregister-and-reload; a missing header on a non-404 response ends in the offline log; anything else is registered |
| `ServiceWorkerRegistration.CheckValidServiceWorker` | serviceWorkerRegistration.js:28-41 | a failed fetch ends in the offline log; the script is registered if and only if the response is not 404 and its content type contains "javascript" |
| `ServiceWorkerExamples.AcceptedNames` | serviceWorkerRegistration.js:2-3 | `localhost` and `[::1]` are accepted |
| `ServiceWorkerExamples.AcceptedLoopback` | serviceWorkerRegistration.js:4-6 | `127.0.0.1` is accepted |
| `ServiceWorkerExamples.AcceptedLeadingZeros` | serviceWorkerRegistration.js:5 | `127.000.01.1` is accepted: leading zeros within three digits |
| `ServiceWorkerExamples.RejectedFirstByte` | serviceWorkerRegistration.js:5 | `128.0.0.1` is refused |
| `ServiceWorkerExamples.RejectedTooFewGroups` | serviceWorkerRegistration.js:5 | `127.0.0` is refused: exactly three groups are required |
| `ServiceWorkerExamples.RejectedTooManyGroups` | serviceWorkerRegistration.js:5 | `127.0.0.1.5` is refused: nothing may follow the third group |
| `ServiceWorkerExamples.RejectedOctetOver255` | serviceWorkerRegistration.js:5 | `127.0.0.256` is refused |
| `ServiceWorkerExamples.RejectedFourDigits` | serviceWorkerRegistration.js:5 | `127.0.0.1000` is refused |
| `ServiceWorkerExamples.RejectedTrailing` | serviceWorkerRegistration.js:5 | `127.0.0.1x` is refused |
| `ServiceWorkerExamples.JavaScriptRegistered` | serviceWorkerRegistration.js:31-37 | a 200 response of type `application/javascript; charset=utf-8` is registered |
| `ServiceWorkerExamples.NotFoundOrHtmlUnregistered` | serviceWorkerRegistration.js:31-35 | a 404, with or without a content type, and a `text/html` response are unregistered; a 200 with no content type ends in the offline log |

## Left out

- Building the Web Audio graph is left out: the `AudioContext`, the media-element source, `connect` and the analyser node. These are browser objects. `ConnectGraph` records only the node kinds, the corner frequencies and the order of the chain, as a ghost sequence. The starting values it gives the nodes (gain 1, shelf gain 0) are the Web Audio defaults; the component does not set them itself.
- `togglePlay` after its first guard is left out. The component's source ends partway through it. What remains is an asynchronous `resume()` and `play()`/`pause()` on the media element. `isPlaying` is therefore never changed by the model.
- The boot splash timer, the install-prompt listeners and the thank-you banner are left out. They are not part of the component's visible source.
- Rendering, `alert` and the application entry point are left out. The entry point only renders the component and calls `register()`.
- JSON encoding and decoding of the stored preset is left out. Storage holds settings records directly. A stored empty string, which the component treats as absent, and corrupt JSON, which makes it throw, have no counterpart.
- `fetch`, `navigator.serviceWorker.register`, `ready`, `unregister`, `window.location.reload` and console logging are left out. They are browser I/O. Only the choice between them is modelled, as an action value. `window.location.hostname` and the presence of the service-worker API are parameters.
- `unregister()` (serviceWorkerRegistration.js:43-47) is left out. It makes no decision beyond checking for the service-worker API.
- Floating point is left out. The gains are only stored and copied, never computed on, so `real` stands in for JavaScript numbers.
- React's effect scheduling is left out. The settings effect is a method a caller runs after a state change (`SelectPreset`), not something triggered automatically. Development-mode double invocation of the mount effect is not modelled; `ConnectGraph` requires that no context exists yet.
- Local storage is treated as owned by one `Player`. It is shared by every tab of the same origin, and a write from another tab is not modelled; the storage conjunct of `Valid()` holds only under that assumption.
- The `Valid()` invariant covers only the operations in the visible source. Any later code that sets the settings directly is not part of this model.
